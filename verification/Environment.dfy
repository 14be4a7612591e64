/** The environment of a container's main process: `makeEnvList`. */
module Environment {
  import opened Records
  import opened Strings

  const DEFAULT_PATH := "/usr/local/sbin:/usr/local/bin:/usr/sbin:/usr/bin:/sbin:/bin"

  function Defaults(hostname: string): map<string, string> {
    map["HOSTNAME" := hostname, "TERM" := "xterm", "HOME" := "/", "PATH" := DEFAULT_PATH]
  }

  function Entry(key: string, value: string): string {
    key + "=" + value
  }

  /** The list means the user's pairs, then the given defaults on top. */
  ghost predicate Means(list: seq<string>, envs: seq<(string, string)>, defaults: map<string, string>) {
    forall key {:trigger MeansAt(list, envs, defaults, key)} :: MeansAt(list, envs, defaults, key)
  }

  ghost predicate MeansAt(list: seq<string>, envs: seq<(string, string)>, defaults: map<string, string>, key: string) {
    Lookup(list, key) == if key in defaults then Some(defaults[key]) else UserValue(envs, key)
  }

  /** The user's pairs as entries, in order. */
  function Entries(envs: seq<(string, string)>): seq<string> {
    if envs == [] then []
    else Entries(envs[..|envs| - 1]) + [Entry(envs[|envs| - 1].0, envs[|envs| - 1].1)]
  }

  /** The environment procri gives a container of a host. */
  method MakeEnvList(hostname: string, envs: seq<(string, string)>) returns (ret: seq<string>)
    ensures Entries(envs) <= ret
    ensures |ret| == |envs| + |(Defaults(hostname) - Named(envs)).Keys|
    ensures Means(ret, envs, Defaults(hostname) - Named(envs))
    ensures "HOSTNAME" !in Named(envs) ==> Lookup(ret, "HOSTNAME") == Some(hostname)
    ensures "TERM" !in Named(envs) ==> Lookup(ret, "TERM") == Some("xterm")
    ensures "HOME" !in Named(envs) ==> Lookup(ret, "HOME") == Some("/")
    ensures "PATH" !in Named(envs) ==> Lookup(ret, "PATH") == Some("/usr/local/sbin:/usr/local/bin:/usr/sbin:/usr/bin:/sbin:/bin")
  {
    DefaultEntries(hostname);
    ret := MakeEnvListOver(Defaults(hostname), envs);
    DefaultsTakeEffect(hostname, envs, ret);
  }

  lemma DefaultsTakeEffect(hostname: string, envs: seq<(string, string)>, env: seq<string>)
    requires Means(env, envs, Defaults(hostname) - Named(envs))
    ensures "HOSTNAME" !in Named(envs) ==> Lookup(env, "HOSTNAME") == Some(hostname)
    ensures "TERM" !in Named(envs) ==> Lookup(env, "TERM") == Some("xterm")
    ensures "HOME" !in Named(envs) ==> Lookup(env, "HOME") == Some("/")
    ensures "PATH" !in Named(envs) ==> Lookup(env, "PATH") == Some("/usr/local/sbin:/usr/local/bin:/usr/sbin:/usr/bin:/sbin:/bin")
  {
    var defaults := Defaults(hostname) - Named(envs);
    assert MeansAt(env, envs, defaults, "HOSTNAME") && MeansAt(env, envs, defaults, "TERM");
    assert MeansAt(env, envs, defaults, "HOME") && MeansAt(env, envs, defaults, "PATH");
  }

  ghost predicate Cuttable(defaults: map<string, string>) {
    forall key {:trigger CutsTo(key, defaults[key])} | key in defaults :: CutsTo(key, defaults[key])
  }

  ghost predicate CutsTo(key: string, value: string) {
    KeyOf(Entry(key, value)) == key && ValueOf(Entry(key, value)) == value
  }

  lemma NextPair(defaults: map<string, string>, envs: seq<(string, string)>, i: nat)
    requires i < |envs|
    ensures Entries(envs[..i + 1]) == Entries(envs[..i]) + [Entry(envs[i].0, envs[i].1)]
    ensures defaults - Named(envs[..i + 1]) == defaults - Named(envs[..i]) - {envs[i].0}
  {
    assert envs[..i + 1][..i] == envs[..i];
    assert defaults - (Named(envs[..i]) + {envs[i].0}) == defaults - Named(envs[..i]) - {envs[i].0};
  }

  /** The user's variables in order, then the defaults they do not name, in whatever order the map yields. */
  method MakeEnvListOver(defaults: map<string, string>, envs: seq<(string, string)>) returns (ret: seq<string>)
    requires Cuttable(defaults)
    ensures Entries(envs) <= ret
    ensures |ret| == |envs| + |(defaults - Named(envs)).Keys|
    ensures Means(ret, envs, defaults - Named(envs))
  {
    var defaultEnvMap := defaults;
    ret := [];
    for i := 0 to |envs|
      invariant ret == Entries(envs[..i]) && |ret| == i
      invariant defaultEnvMap == defaults - Named(envs[..i])
    {
      var kv := envs[i];
      NextPair(defaults, envs, i);
      defaultEnvMap := defaultEnvMap - {kv.0};
      ret := ret + [Entry(kv.0, kv.1)];
    }
    assert envs[..|envs|] == envs;
    EntriesMean(envs);
    var rest := DefaultEntryList(defaultEnvMap, ret, envs);
    ret := ret + rest;
  }

  /** The second loop: the entries of the remaining defaults, in whatever order the map yields them. */
  method DefaultEntryList(defaults: map<string, string>, ghost list: seq<string>, ghost envs: seq<(string, string)>)
    returns (rest: seq<string>)
    requires Cuttable(defaults) && Means(list, envs, map[])
    ensures |rest| == |defaults.Keys| && Means(list + rest, envs, defaults)
  {
    var keys := defaults.Keys;
    rest := [];
    assert list + rest == list && defaults - keys == map[];
    while keys != {}
      invariant keys <= defaults.Keys && |rest| == |defaults.Keys| - |keys|
      invariant Means(list + rest, envs, defaults - keys)
      decreases keys
    {
      var k :| k in keys;
      AddDefault(list + rest, envs, defaults - keys, k, defaults[k]);
      assert CutsTo(k, defaults[k]);
      assert defaults - (keys - {k}) == (defaults - keys)[k := defaults[k]];
      assert list + rest + [Entry(k, defaults[k])] == list + (rest + [Entry(k, defaults[k])]);
      rest := rest + [Entry(k, defaults[k])];
      keys := keys - {k};
    }
    assert defaults - keys == defaults;
  }

  lemma {:induction false} EntriesMean(envs: seq<(string, string)>)
    ensures Means(Entries(envs), envs, map[])
  {
    if envs == [] {
      forall k ensures MeansAt(Entries(envs), envs, map[], k) {
      }
    } else {
      var init, kv := envs[..|envs| - 1], envs[|envs| - 1];
      EntriesMean(init);
      LookupSnoc(Entries(init), Entry(kv.0, kv.1));
      forall k ensures MeansAt(Entries(envs), envs, map[], k) {
        assert MeansAt(Entries(init), init, map[], k);
      }
    }
  }

  lemma AddDefault(list: seq<string>, envs: seq<(string, string)>, defaults: map<string, string>, key: string, value: string)
    requires Means(list, envs, defaults) && CutsTo(key, value)
    ensures Means(list + [Entry(key, value)], envs, defaults[key := value])
  {
    LookupSnoc(list, Entry(key, value));
    var list', defaults' := list + [Entry(key, value)], defaults[key := value];
    forall k ensures MeansAt(list', envs, defaults', k) {
      assert MeansAt(list, envs, defaults, k);
    }
  }

  // ---------------------------------------------------------------- what the list means to the process

  /** An entry is cut at its first `=`. */
  function KeyOf(entry: string): string {
    Split(entry, '=')[0]
  }

  function ValueOf(entry: string): string {
    if '=' in entry && |KeyOf(entry)| < |entry| then entry[|KeyOf(entry)| + 1..] else ""
  }

  /** The last entry for a key wins. */
  function Lookup(list: seq<string>, key: string): Option<string> {
    if list == [] then None
    else
      var last := list[|list| - 1];
      if KeyOf(last) == key then Some(ValueOf(last)) else Lookup(list[..|list| - 1], key)
  }

  function Named(envs: seq<(string, string)>): set<string> {
    if envs == [] then {} else Named(envs[..|envs| - 1]) + {envs[|envs| - 1].0}
  }

  /** What the user's pairs alone give for a key. */
  function UserValue(envs: seq<(string, string)>, key: string): Option<string> {
    if envs == [] then None
    else
      var kv := envs[|envs| - 1];
      var entry := Entry(kv.0, kv.1);
      if KeyOf(entry) == key then Some(ValueOf(entry)) else UserValue(envs[..|envs| - 1], key)
  }

  lemma LookupSnoc(list: seq<string>, entry: string)
    ensures forall key {:trigger Lookup(list + [entry], key)} :: Lookup(list + [entry], key) == if KeyOf(entry) == key then Some(ValueOf(entry)) else Lookup(list, key)
  {
    assert (list + [entry])[..|list|] == list;
  }

  lemma NamedSnoc(envs: seq<(string, string)>, kv: (string, string))
    ensures Named(envs + [kv]) == Named(envs) + {kv.0}
    ensures forall key {:trigger UserValue(envs + [kv], key)} :: UserValue(envs + [kv], key) ==
                          if KeyOf(Entry(kv.0, kv.1)) == key then Some(ValueOf(Entry(kv.0, kv.1))) else UserValue(envs, key)
  {
    assert (envs + [kv])[..|envs|] == envs;
  }

  lemma EntryParts(key: string, value: string)
    requires '=' !in key
    ensures KeyOf(Entry(key, value)) == key && ValueOf(Entry(key, value)) == value
  {
    FirstPart(key, value, '=');
    assert Entry(key, value) == key + ['='] + value;
    assert Entry(key, value)[|key|] == '=';
  }

  /**
   For keys without `=`, in the environment the process sees: a key the user named has the value of its
   last pair, a default key the user did not name has its default, and there is nothing else.
   */
  lemma EffectiveEnvironment(defaults: map<string, string>, envs: seq<(string, string)>, env: seq<string>, key: string)
    requires forall kv | kv in envs :: '=' !in kv.0
    requires Means(env, envs, defaults - Named(envs))
    ensures forall i | 0 <= i < |envs| && envs[i].0 == key && (forall j | i < j < |envs| :: envs[j].0 != key) ::
              Lookup(env, key) == Some(envs[i].1)
    ensures key !in Named(envs) ==> Lookup(env, key) == if key in defaults then Some(defaults[key]) else None
  {
    UserKeysKeepTheirLastValue(envs, key);
    assert MeansAt(env, envs, defaults - Named(envs), key);
  }

  lemma PlainKeysCut(defaults: map<string, string>)
    requires forall key | key in defaults :: '=' !in key
    ensures Cuttable(defaults)
  {
    forall key | key in defaults ensures CutsTo(key, defaults[key]) {
      EntryParts(key, defaults[key]);
    }
  }

  lemma DefaultEntries(hostname: string)
    ensures Cuttable(Defaults(hostname))
  {
    assert forall key | key in Defaults(hostname) :: key in {"HOSTNAME", "TERM", "HOME", "PATH"};
    assert '=' !in "HOSTNAME" && '=' !in "TERM" && '=' !in "HOME" && '=' !in "PATH";
    PlainKeysCut(Defaults(hostname));
  }

  /** For user keys without `=`: each of them maps to the value of its last pair, and to nothing else. */
  lemma {:induction false} UserKeysKeepTheirLastValue(envs: seq<(string, string)>, key: string)
    requires forall kv | kv in envs :: '=' !in kv.0
    ensures key !in Named(envs) ==> UserValue(envs, key) == None
    ensures forall i | 0 <= i < |envs| && envs[i].0 == key && (forall j | i < j < |envs| :: envs[j].0 != key) ::
              UserValue(envs, key) == Some(envs[i].1)
  {
    if envs != [] {
      var init, kv := envs[..|envs| - 1], envs[|envs| - 1];
      EntryParts(kv.0, kv.1);
      UserKeysKeepTheirLastValue(init, key);
      assert envs == init + [kv];
      NamedSnoc(init, kv);
      forall i | 0 <= i < |envs| && envs[i].0 == key && (forall j | i < j < |envs| :: envs[j].0 != key)
        ensures UserValue(envs, key) == Some(envs[i].1)
      {
        if i < |init| {
          assert envs[|init|].0 != key;
          assert init[i].0 == key && forall j | i < j < |init| :: init[j].0 != key;
        }
      }
    }
  }

  /**
   Keys with `=` included: when an entry of the user is read as a value for a default key, that value
   takes effect exactly if some user key is the default key itself, or the value is the default anyway.
   Otherwise the default is not removed, is appended after the user's entries, and wins.
   */
  lemma UserValueTakesEffect(defaults: map<string, string>, envs: seq<(string, string)>, env: seq<string>, key: string)
    requires Means(env, envs, defaults - Named(envs)) && key in defaults && UserValue(envs, key).Some?
    ensures Lookup(env, key) == UserValue(envs, key) <==> key in Named(envs) || UserValue(envs, key) == Some(defaults[key])
    ensures Lookup(env, key) == if key in Named(envs) then UserValue(envs, key) else Some(defaults[key])
  {
    assert MeansAt(env, envs, defaults - Named(envs), key);
  }

  /** A witness that it may not: a key that is PATH, `=` and more loses against the default PATH. */
  lemma DefaultWinsOverKeyWithEquals(hostname: string, suffix: string, value: string, env: seq<string>)
    requires Means(env, [("PATH=" + suffix, value)], Defaults(hostname) - Named([("PATH=" + suffix, value)]))
    ensures Lookup(env, "PATH") == Some(DEFAULT_PATH)
    ensures UserValue([("PATH=" + suffix, value)], "PATH") == Some(suffix + "=" + value)
  {
    var pair := ("PATH=" + suffix, value);
    assert MeansAt(env, [pair], Defaults(hostname) - Named([pair]), "PATH");
    assert Named([pair]) == {pair.0} && |pair.0| > |"PATH"|;
    EntryParts("PATH", suffix + "=" + value);
    assert Entry(pair.0, pair.1) == Entry("PATH", suffix + "=" + value);
  }
}
