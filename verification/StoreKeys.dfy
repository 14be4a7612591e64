/** The keys under which records share one data store, and the identifiers built from names. */
module StoreKeys {
  import opened Records
  import opened Sequences
  import opened Strings
  import Paths

  const CONTAINER_SUBDIR := "container/"
  const CONTAINER_PREFIX := "cnt_"
  const SANDBOX_SUBDIR := "sandbox/"
  const SANDBOX_PREFIX := "sb_"

  function MakeContainerKey(id: string): string {
    Paths.JoinPath(CONTAINER_SUBDIR, CONTAINER_PREFIX + id)
  }

  function MakeSandboxKey(id: string): string {
    Paths.JoinPath(SANDBOX_SUBDIR, SANDBOX_PREFIX + id)
  }

  function MakePodID(namespace: string, name: string): string {
    namespace + "_" + name
  }

  /** The name `Keys` yields for a file: the last component of its key. */
  function BaseName(key: string): string {
    var parts := Split(key, '/');
    parts[|parts| - 1]
  }

  // ---------------------------------------------------------------- keys

  lemma JoinedKey(dir: string, file: string)
    requires dir != "" && dir != "." && dir != ".." && '/' !in dir
    requires file != "" && file != "." && file != ".." && '/' !in file
    ensures Paths.JoinPath(dir + "/", file) == dir + "/" + file
    ensures BaseName(dir + "/" + file) == file
  {
    var path := dir + "/" + "/" + file;
    assert path == dir + ['/'] + ("" + ['/'] + file);
    SplitConcat(dir, "" + ['/'] + file, '/');
    SplitConcat("", file, '/');
    JoinSplit(dir, '/');
    JoinSplit(file, '/');
    assert Split(path, '/') == [dir, "", file];
    assert !Paths.Rooted(path) by { assert path[0] == dir[0] && dir[0] in dir; }
    assert [dir, "", file][1..] == ["", file] && ["", file][1..] == [file] && [file][1..] == [];
    assert Paths.Enter([], dir, false) == [dir];
    assert Paths.Enter([dir], file, false) == [dir, file];
    assert Paths.Resolve([], [dir, "", file], false) == Paths.Resolve([dir], ["", file], false) == Paths.Resolve([dir], [file], false)
        == Paths.Resolve([dir, file], [], false);
    assert [dir, file][1..] == [file];
    assert Join([dir, file], '/') == dir + ['/'] + Join([file], '/') == dir + "/" + file;
    assert dir + "/" + file == dir + ['/'] + file;
    SplitConcat(dir, file, '/');
    assert (dir + "/") + ['/'] + file == path;
  }

  lemma ContainerKey(id: string)
    requires '/' !in id
    ensures MakeContainerKey(id) == "container/cnt_" + id && BaseName(MakeContainerKey(id)) == "cnt_" + id
  {
    JoinedKey("container", CONTAINER_PREFIX + id);
    assert "container" + "/" + (CONTAINER_PREFIX + id) == "container/cnt_" + id;
    assert "container" + "/" == CONTAINER_SUBDIR;
  }

  lemma SandboxKey(id: string)
    requires '/' !in id
    ensures MakeSandboxKey(id) == "sandbox/sb_" + id && BaseName(MakeSandboxKey(id)) == "sb_" + id
  {
    JoinedKey("sandbox", SANDBOX_PREFIX + id);
    assert "sandbox" + "/" + (SANDBOX_PREFIX + id) == "sandbox/sb_" + id;
    assert "sandbox" + "/" == SANDBOX_SUBDIR;
  }

  /**
   For ids without `/`, stripping the first occurrence of the prefix from the name of the stored file
   gives the id back, even when the id contains the prefix text itself; and no file of one kind carries
   the prefix of the other, so two records never share a key.
   */
  lemma KeysRoundTrip(id: string, other: string)
    requires '/' !in id && '/' !in other
    ensures RemoveFirst(BaseName(MakeContainerKey(id)), CONTAINER_PREFIX) == id
    ensures RemoveFirst(BaseName(MakeSandboxKey(id)), SANDBOX_PREFIX) == id
    ensures HasPrefix(BaseName(MakeContainerKey(id)), CONTAINER_PREFIX) && !HasPrefix(BaseName(MakeContainerKey(id)), SANDBOX_PREFIX)
    ensures HasPrefix(BaseName(MakeSandboxKey(id)), SANDBOX_PREFIX) && !HasPrefix(BaseName(MakeSandboxKey(id)), CONTAINER_PREFIX)
    ensures MakeContainerKey(id) == MakeContainerKey(other) <==> id == other
    ensures MakeSandboxKey(id) == MakeSandboxKey(other) <==> id == other
    ensures MakeContainerKey(id) != MakeSandboxKey(other)
  {
    ContainerKey(id);
    ContainerKey(other);
    SandboxKey(id);
    SandboxKey(other);
    var c, s := "cnt_" + id, "sb_" + id;
    assert c[..4] == "cnt_" && c[4..] == id;
    assert s[..3] == "sb_" && s[3..] == id;
    assert c[..3][0] != "sb_"[0];
    assert |s| >= 4 ==> s[..4][0] != "cnt_"[0];
    assert ("container/cnt_" + id)[14..] == id && ("container/cnt_" + other)[14..] == other;
    assert ("sandbox/sb_" + id)[11..] == id && ("sandbox/sb_" + other)[11..] == other;
    assert ("container/cnt_" + id)[0] != ("sandbox/sb_" + other)[0];
  }

  // ---------------------------------------------------------------- the store

  datatype Entry = ContainerEntry(container: Container) | SandboxEntry(sandbox: Sandbox)

  ghost predicate IdsOk<T>(records: map<string, T>) {
    forall id | id in records :: '/' !in id
  }

  ghost predicate ContainerAt(store: map<string, Entry>, id: string, container: Container) {
    MakeContainerKey(id) in store && store[MakeContainerKey(id)] == ContainerEntry(container)
  }

  ghost predicate SandboxAt(store: map<string, Entry>, id: string, sandbox: Sandbox) {
    MakeSandboxKey(id) in store && store[MakeSandboxKey(id)] == SandboxEntry(sandbox)
  }

  ghost predicate KeyInUse(key: string, containers: map<string, Container>, sandboxes: map<string, Sandbox>) {
    || (exists id :: id in containers && key == MakeContainerKey(id))
    || (exists id :: id in sandboxes && key == MakeSandboxKey(id))
  }

  /** The one data store that holds both kinds of records, and nothing else. */
  ghost predicate Holds(store: map<string, Entry>, containers: map<string, Container>, sandboxes: map<string, Sandbox>) {
    && IdsOk(containers) && IdsOk(sandboxes)
    && (forall id {:trigger ContainerAt(store, id, containers[id])} | id in containers :: ContainerAt(store, id, containers[id]))
    && (forall id {:trigger SandboxAt(store, id, sandboxes[id])} | id in sandboxes :: SandboxAt(store, id, sandboxes[id]))
    && (forall key {:trigger KeyInUse(key, containers, sandboxes)} | key in store :: KeyInUse(key, containers, sandboxes))
  }

  // ---------------------------------------------------------------- writing

  /**
   Reading, writing and erasing under a key is reading, updating and removing in the map of that kind of
   record, and leaves the other map alone.
   */
  lemma PutContainerRefines(store: map<string, Entry>, containers: map<string, Container>, sandboxes: map<string, Sandbox>,
                            id: string, c: Container)
    requires Holds(store, containers, sandboxes) && '/' !in id
    ensures Holds(store[MakeContainerKey(id) := ContainerEntry(c)], containers[id := c], sandboxes)
  {
    var store', containers' := store[MakeContainerKey(id) := ContainerEntry(c)], containers[id := c];
    forall i | i in containers' ensures ContainerAt(store', i, containers'[i]) {
      KeysRoundTrip(i, id);
      assert i in containers ==> ContainerAt(store, i, containers[i]);
    }
    forall i | i in sandboxes ensures SandboxAt(store', i, sandboxes[i]) {
      KeysRoundTrip(id, i);
      assert SandboxAt(store, i, sandboxes[i]);
    }
    forall key | key in store' ensures KeyInUse(key, containers', sandboxes) {
      if key == MakeContainerKey(id) {
        assert id in containers';
      } else {
        assert KeyInUse(key, containers, sandboxes);
        assert forall i | i in containers :: i in containers';
      }
    }
  }

  lemma DeleteContainerRefines(store: map<string, Entry>, containers: map<string, Container>, sandboxes: map<string, Sandbox>, id: string)
    requires Holds(store, containers, sandboxes) && '/' !in id
    ensures Holds(store - {MakeContainerKey(id)}, containers - {id}, sandboxes)
  {
    var store', containers' := store - {MakeContainerKey(id)}, containers - {id};
    forall i | i in containers' ensures ContainerAt(store', i, containers'[i]) {
      KeysRoundTrip(i, id);
      assert ContainerAt(store, i, containers[i]);
    }
    forall i | i in sandboxes ensures SandboxAt(store', i, sandboxes[i]) {
      KeysRoundTrip(id, i);
      assert SandboxAt(store, i, sandboxes[i]);
    }
    forall key | key in store' ensures KeyInUse(key, containers', sandboxes) {
      assert KeyInUse(key, containers, sandboxes);
      assert forall i | i in containers && i != id :: i in containers';
    }
  }

  lemma PutSandboxRefines(store: map<string, Entry>, containers: map<string, Container>, sandboxes: map<string, Sandbox>,
                          id: string, sb: Sandbox)
    requires Holds(store, containers, sandboxes) && '/' !in id
    ensures Holds(store[MakeSandboxKey(id) := SandboxEntry(sb)], containers, sandboxes[id := sb])
  {
    var store', sandboxes' := store[MakeSandboxKey(id) := SandboxEntry(sb)], sandboxes[id := sb];
    forall i | i in sandboxes' ensures SandboxAt(store', i, sandboxes'[i]) {
      KeysRoundTrip(i, id);
      assert i in sandboxes ==> SandboxAt(store, i, sandboxes[i]);
    }
    forall i | i in containers ensures ContainerAt(store', i, containers[i]) {
      KeysRoundTrip(i, id);
      assert ContainerAt(store, i, containers[i]);
    }
    forall key | key in store' ensures KeyInUse(key, containers, sandboxes') {
      if key == MakeSandboxKey(id) {
        assert id in sandboxes';
      } else {
        assert KeyInUse(key, containers, sandboxes);
        assert forall i | i in sandboxes :: i in sandboxes';
      }
    }
  }

  lemma DeleteSandboxRefines(store: map<string, Entry>, containers: map<string, Container>, sandboxes: map<string, Sandbox>, id: string)
    requires Holds(store, containers, sandboxes) && '/' !in id
    ensures Holds(store - {MakeSandboxKey(id)}, containers, sandboxes - {id})
  {
    var store', sandboxes' := store - {MakeSandboxKey(id)}, sandboxes - {id};
    forall i | i in sandboxes' ensures SandboxAt(store', i, sandboxes'[i]) {
      KeysRoundTrip(i, id);
      assert SandboxAt(store, i, sandboxes[i]);
    }
    forall i | i in containers ensures ContainerAt(store', i, containers[i]) {
      KeysRoundTrip(i, id);
      assert ContainerAt(store, i, containers[i]);
    }
    forall key | key in store' ensures KeyInUse(key, containers, sandboxes') {
      assert KeyInUse(key, containers, sandboxes);
      assert forall i | i in sandboxes && i != id :: i in sandboxes';
    }
  }

  /** And reading yields what the maps hold. */
  lemma GetRefines(store: map<string, Entry>, containers: map<string, Container>, sandboxes: map<string, Sandbox>, id: string)
    requires Holds(store, containers, sandboxes) && '/' !in id
    ensures GetContainer(store, id) == if id in containers then Some(containers[id]) else None
    ensures GetSandbox(store, id) == if id in sandboxes then Some(sandboxes[id]) else None
  {
    assert id in containers ==> ContainerAt(store, id, containers[id]);
    assert id in sandboxes ==> SandboxAt(store, id, sandboxes[id]);
    if MakeContainerKey(id) in store {
      KeyOfContainer(store, containers, sandboxes, id);
    }
    if MakeSandboxKey(id) in store {
      KeyOfSandbox(store, containers, sandboxes, id);
    }
  }

  lemma KeyOfContainer(store: map<string, Entry>, containers: map<string, Container>, sandboxes: map<string, Sandbox>, id: string)
    requires Holds(store, containers, sandboxes) && '/' !in id && MakeContainerKey(id) in store
    ensures id in containers
  {
    assert KeyInUse(MakeContainerKey(id), containers, sandboxes);
    if i :| i in containers && MakeContainerKey(id) == MakeContainerKey(i) {
      KeysRoundTrip(id, i);
    } else {
      var i :| i in sandboxes && MakeContainerKey(id) == MakeSandboxKey(i);
      KeysRoundTrip(id, i);
      assert false;
    }
  }

  lemma KeyOfSandbox(store: map<string, Entry>, containers: map<string, Container>, sandboxes: map<string, Sandbox>, id: string)
    requires Holds(store, containers, sandboxes) && '/' !in id && MakeSandboxKey(id) in store
    ensures id in sandboxes
  {
    assert KeyInUse(MakeSandboxKey(id), containers, sandboxes);
    if i :| i in sandboxes && MakeSandboxKey(id) == MakeSandboxKey(i) {
      KeysRoundTrip(id, i);
    } else {
      var i :| i in containers && MakeSandboxKey(id) == MakeContainerKey(i);
      KeysRoundTrip(i, id);
      assert false;
    }
  }

  // ---------------------------------------------------------------- reading everything

  ghost predicate NamesKey(name: string, store: map<string, Entry>) {
    exists key :: key in store && BaseName(key) == name
  }

  /** names lists the base name of every key of the store once, in some order. */
  ghost predicate Lists(names: seq<string>, store: map<string, Entry>) {
    && NoDuplicates(names)
    && (forall key {:trigger BaseName(key)} | key in store :: BaseName(key) in names)
    && (forall name {:trigger NamesKey(name, store)} | name in names :: NamesKey(name, store))
  }

  function GetContainer(store: map<string, Entry>, id: string): Option<Container> {
    var key := MakeContainerKey(id);
    if key in store && store[key].ContainerEntry? then Some(store[key].container) else None
  }

  function GetSandbox(store: map<string, Entry>, id: string): Option<Sandbox> {
    var key := MakeSandboxKey(id);
    if key in store && store[key].SandboxEntry? then Some(store[key].sandbox) else None
  }

  /** The ids are those of the records, each once, and the list holds their records in that order. */
  ghost predicate Enumerates<T>(list: seq<T>, ids: seq<string>, records: map<string, T>) {
    && |list| == |ids|
    && NoDuplicates(ids)
    && (forall id :: id in ids <==> id in records)
    && (forall i | 0 <= i < |ids| :: list[i] == records[ids[i]])
  }

  lemma NameOfContainer(name: string, names: seq<string>, store: map<string, Entry>,
                        containers: map<string, Container>, sandboxes: map<string, Sandbox>)
    requires Holds(store, containers, sandboxes) && Lists(names, store) && name in names
    ensures HasPrefix(name, CONTAINER_PREFIX) ==>
              var id := RemoveFirst(name, CONTAINER_PREFIX);
              id in containers && name == CONTAINER_PREFIX + id && GetContainer(store, id) == Some(containers[id])
    ensures HasPrefix(name, SANDBOX_PREFIX) ==>
              var id := RemoveFirst(name, SANDBOX_PREFIX);
              id in sandboxes && name == SANDBOX_PREFIX + id && GetSandbox(store, id) == Some(sandboxes[id])
  {
    assert NamesKey(name, store);
    var key :| key in store && BaseName(key) == name;
    assert KeyInUse(key, containers, sandboxes);
    if id :| id in containers && key == MakeContainerKey(id) {
      KeysRoundTrip(id, id);
      ContainerKey(id);
      assert ContainerAt(store, id, containers[id]);
    } else {
      var id :| id in sandboxes && key == MakeSandboxKey(id);
      KeysRoundTrip(id, id);
      SandboxKey(id);
      assert SandboxAt(store, id, sandboxes[id]);
    }
  }

  /** The names with the prefix, without it. */
  function Stripped(names: seq<string>, prefix: string): seq<string> {
    if names == [] then []
    else
      var init, last := names[..|names| - 1], names[|names| - 1];
      if HasPrefix(last, prefix) then Stripped(init, prefix) + [RemoveFirst(last, prefix)] else Stripped(init, prefix)
  }

  lemma {:induction false} StrippedAreIds(names: seq<string>, prefix: string)
    requires NoDuplicates(names)
    ensures var ids := Stripped(names, prefix);
            && NoDuplicates(ids)
            && (forall id :: id in ids <==> prefix + id in names)
  {
    if names != [] {
      var init, last := names[..|names| - 1], names[|names| - 1];
      StrippedAreIds(init, prefix);
      assert names == init + [last];
      forall id ensures prefix + id == last <==> HasPrefix(last, prefix) && RemoveFirst(last, prefix) == id {
        assert (prefix + id)[|prefix|..] == id && (prefix + id)[..|prefix|] == prefix;
        assert HasPrefix(last, prefix) ==> last == prefix + last[|prefix|..];
      }
      assert HasPrefix(last, prefix) ==> prefix + RemoveFirst(last, prefix) !in init;
    }
  }

  ghost predicate Follows<T>(list: seq<T>, ids: seq<string>, records: map<string, T>) {
    |list| == |ids| && forall i | 0 <= i < |ids| :: ids[i] in records && list[i] == records[ids[i]]
  }

  /** listContainers: every stored container once, and no sandbox. */
  method ListContainers(store: map<string, Entry>, names: seq<string>,
                        ghost containers: map<string, Container>, ghost sandboxes: map<string, Sandbox>)
    returns (list: seq<Container>)
    requires Holds(store, containers, sandboxes) && Lists(names, store)
    ensures Enumerates(list, Stripped(names, CONTAINER_PREFIX), containers)
  {
    list := [];
    for i := 0 to |names|
      invariant Follows(list, Stripped(names[..i], CONTAINER_PREFIX), containers)
    {
      var name := names[i];
      assert names[..i + 1][..i] == names[..i];
      NameOfContainer(name, names, store, containers, sandboxes);
      if HasPrefix(name, CONTAINER_PREFIX) {
        var entry := GetContainer(store, RemoveFirst(name, CONTAINER_PREFIX));
        if entry.Some? {
          list := list + [entry.value];
        }
      }
    }
    assert names[..|names|] == names;
    StrippedAreIds(names, CONTAINER_PREFIX);
    forall id | id in containers ensures CONTAINER_PREFIX + id in names {
      ContainerKey(id);
      assert ContainerAt(store, id, containers[id]);
    }
  }

  /** listSandboxes: every stored sandbox once, and no container. */
  method ListSandboxes(store: map<string, Entry>, names: seq<string>,
                       ghost containers: map<string, Container>, ghost sandboxes: map<string, Sandbox>)
    returns (list: seq<Sandbox>)
    requires Holds(store, containers, sandboxes) && Lists(names, store)
    ensures Enumerates(list, Stripped(names, SANDBOX_PREFIX), sandboxes)
  {
    list := [];
    for i := 0 to |names|
      invariant Follows(list, Stripped(names[..i], SANDBOX_PREFIX), sandboxes)
    {
      var name := names[i];
      assert names[..i + 1][..i] == names[..i];
      NameOfContainer(name, names, store, containers, sandboxes);
      if HasPrefix(name, SANDBOX_PREFIX) {
        var entry := GetSandbox(store, RemoveFirst(name, SANDBOX_PREFIX));
        if entry.Some? {
          list := list + [entry.value];
        }
      }
    }
    assert names[..|names|] == names;
    StrippedAreIds(names, SANDBOX_PREFIX);
    forall id | id in sandboxes ensures SANDBOX_PREFIX + id in names {
      SandboxKey(id);
      assert SandboxAt(store, id, sandboxes[id]);
    }
  }

  // ---------------------------------------------------------------- pod ids

  /** Distinct pods get distinct ids when namespaces contain no underscore. */
  lemma PodIDsAreInjective(namespace: string, name: string, namespace': string, name': string)
    requires '_' !in namespace && '_' !in namespace'
    ensures MakePodID(namespace, name) == MakePodID(namespace', name') <==> namespace == namespace' && name == name'
  {
    FirstPart(namespace, name, '_');
    FirstPart(namespace', name', '_');
    var id, id' := MakePodID(namespace, name), MakePodID(namespace', name');
    assert id == namespace + ['_'] + name && id' == namespace' + ['_'] + name';
    assert id[|namespace| + 1..] == name && id'[|namespace'| + 1..] == name';
  }

  /** The underscore that ends one namespace stands inside the other. */
  ghost predicate Shifted(longer: string, name: string, shorter: string, name': string) {
    exists middle :: longer == shorter + "_" + middle && name' == middle + "_" + name
  }

  /** Exactly when two pods share an id. */
  lemma PodIDsCollide(namespace: string, name: string, namespace': string, name': string)
    ensures MakePodID(namespace, name) == MakePodID(namespace', name') <==>
              || (namespace == namespace' && name == name')
              || Shifted(namespace, name, namespace', name')
              || Shifted(namespace', name', namespace, name)
  {
    if MakePodID(namespace, name) == MakePodID(namespace', name') {
      if |namespace| == |namespace'| {
        SameLength(namespace, name, namespace', name');
      } else if |namespace| > |namespace'| {
        LongerIsShifted(namespace, name, namespace', name');
      } else {
        LongerIsShifted(namespace', name', namespace, name);
      }
    } else {
      ShiftedCollides(namespace, name, namespace', name');
      ShiftedCollides(namespace', name', namespace, name);
    }
  }

  lemma SameLength(a: string, b: string, a': string, b': string)
    requires MakePodID(a, b) == MakePodID(a', b') && |a| == |a'|
    ensures a == a' && b == b'
  {
    assert MakePodID(a, b)[..|a|] == a && MakePodID(a', b')[..|a|] == a';
    assert MakePodID(a, b)[|a| + 1..] == b && MakePodID(a', b')[|a| + 1..] == b';
  }

  lemma LongerIsShifted(a: string, b: string, a': string, b': string)
    requires MakePodID(a, b) == MakePodID(a', b') && |a| > |a'|
    ensures Shifted(a, b, a', b')
  {
    var id, middle := MakePodID(a, b), a[|a'| + 1..];
    assert id[..|a|] == a && id[..|a'|] == a' && id[|a'|] == '_';
    assert a == a' + "_" + middle;
    assert id[|a'| + 1..] == b' == middle + "_" + b;
  }

  lemma ShiftedCollides(a: string, b: string, a': string, b': string)
    ensures Shifted(a, b, a', b') ==> MakePodID(a, b) == MakePodID(a', b')
  {
    if Shifted(a, b, a', b') {
      var middle :| a == a' + "_" + middle && b' == middle + "_" + b;
      assert a' + "_" + middle + "_" + b == a' + "_" + (middle + "_" + b);
    }
  }
}
