/** The image reference store: canonical references, PullImage, RemoveImage and ImageStatus. */
module Images {
  import opened Records
  import opened Sequences
  import opened Strings

  // ---------------------------------------------------------------- references

  /** makeImgKey: the hex form of a hash, taken to be injective. */
  datatype Key = Key(name: string)

  /** A parsed reference: one of tag and digest is the whole canonical reference, the other is empty. */
  datatype Reference = Reference(key: Key, tag: string, digest: string)

  const DIGEST_MARK := "@sha256"
  const DEFAULT_TAG := ":latest"

  function Canonical(image: string): Reference {
    if Contains(image, DIGEST_MARK) then Reference(Key(Split(image, '@')[0]), "", image)
    else
      var imageParts := Split(image, ':');
      if |imageParts| > 1 then Reference(Key(imageParts[0]), image, "")
      else Reference(Key(imageParts[0]), imageParts[0] + DEFAULT_TAG, "")
  }

  lemma {:induction false} ContainsCharacters(s: string, sub: string, c: char)
    requires Contains(s, sub) && c in sub
    ensures c in s
  {
    if HasPrefix(s, sub) {
      assert c in s[..|sub|];
    } else {
      ContainsCharacters(s[1..], sub, c);
    }
  }

  /** Appending text that cannot hold any part of the mark creates no mark. */
  lemma {:induction false} AppendCreatesNoMark(s: string, suffix: string, sub: string)
    requires sub != "" && sub[|sub| - 1] !in suffix && |suffix| > 0
    ensures Contains(s + suffix, sub) <==> Contains(s, sub)
  {
    if s == "" {
      assert s + suffix == suffix;
      if Contains(suffix, sub) {
        ContainsCharacters(suffix, sub, sub[|sub| - 1]);
      }
    } else {
      AppendCreatesNoMark(s[1..], suffix, sub);
      assert (s + suffix)[1..] == s[1..] + suffix;
    }
  }

  ghost predicate Occurs(sub: string, s: string) {
    exists before, after :: s == before + sub + after
  }

  lemma {:induction false} ContainsAt(before: string, sub: string, after: string)
    ensures Contains(before + sub + after, sub)
  {
    var s := before + sub + after;
    if before == "" {
      assert s == sub + after && s[..|sub|] == sub;
    } else {
      ContainsAt(before[1..], sub, after);
      assert s[1..] == before[1..] + sub + after;
    }
  }

  lemma {:induction false} ContainsWhere(s: string, sub: string) returns (before: string, after: string)
    requires Contains(s, sub)
    ensures s == before + sub + after
  {
    if HasPrefix(s, sub) {
      before, after := "", s[|sub|..];
    } else {
      before, after := ContainsWhere(s[1..], sub);
      before := [s[0]] + before;
    }
  }

  lemma ContainsIsOccurs(s: string, sub: string)
    ensures Contains(s, sub) <==> Occurs(sub, s)
  {
    if Contains(s, sub) {
      var before, after := ContainsWhere(s, sub);
    }
    if Occurs(sub, s) {
      var before, after :| s == before + sub + after;
      ContainsAt(before, sub, after);
    }
  }

  /**
   A string is a digest exactly if it has the mark, and is then its own digest; otherwise it is its own tag, with
   `:latest` appended exactly if it has no colon.  So exactly one of tag and digest is non-empty, and parsing
   that one again gives the same key, tag and digest: the appended tag never turns a name into a digest.
   */
  lemma CanonicalIsStable(image: string)
    ensures var r := Canonical(image);
            && r.digest == (if Occurs("@sha256", image) then image else "")
            && r.tag == (if Occurs("@sha256", image) then "" else if ':' in image then image else image + ":latest")
            && (r.tag == "" <==> r.digest != "")
            && Canonical(r.tag + r.digest) == r
  {
    var r := Canonical(image);
    ContainsIsOccurs(image, DIGEST_MARK);
    if Contains(image, DIGEST_MARK) {
      ContainsCharacters(image, DIGEST_MARK, '@');
      assert r.tag + r.digest == image;
    } else {
      JoinSplit(image, ':');
      if |Split(image, ':')| > 1 {
        assert r.tag + r.digest == image;
      } else {
        assert Split(image, ':')[0] == image;
        AppendCreatesNoMark(image, DEFAULT_TAG, DIGEST_MARK);
        assert r.tag + r.digest == image + DEFAULT_TAG == image + [':'] + "latest";
        FirstPart(image, "latest", ':');
        SplitConcat(image, "latest", ':');
      }
    }
  }

  /** A digest reference: the name is what stands before the first `@`, there is no tag, and the whole is the digest. */
  lemma DigestReference(name: string, rest: string)
    requires '@' !in name && Occurs("@sha256", name + "@" + rest)
    ensures Canonical(name + "@" + rest) == Reference(Key(name), "", name + "@" + rest)
  {
    var image := name + "@" + rest;
    ContainsIsOccurs(image, DIGEST_MARK);
    FirstPart(name, rest, '@');
    assert image == name + ['@'] + rest;
  }

  lemma DigestOfName(name: string, x: string)
    requires '@' !in name
    ensures Canonical(name + "@sha256" + x) == Reference(Key(name), "", name + "@sha256" + x)
  {
    assert name + "@sha256" + x == name + "@" + ("sha256" + x);
    assert Occurs("@sha256", name + "@" + ("sha256" + x));
    DigestReference(name, "sha256" + x);
  }

  /** A tag reference: the name is what stands before the first `:`, and the whole is the tag. */
  lemma TagReference(name: string, v: string)
    requires ':' !in name && !Occurs("@sha256", name + ":" + v)
    ensures Canonical(name + ":" + v) == Reference(Key(name), name + ":" + v, "")
  {
    var image := name + ":" + v;
    ContainsIsOccurs(image, DIGEST_MARK);
    FirstPart(name, v, ':');
    assert image == name + [':'] + v && image[|name|] == ':';
    JoinSplit(image, ':');
  }

  /** A bare name: it is the name, and its tag is `latest`. */
  lemma BareReference(name: string)
    requires ':' !in name && !Occurs("@sha256", name)
    ensures Canonical(name) == Reference(Key(name), name + ":latest", "")
  {
    ContainsIsOccurs(name, DIGEST_MARK);
    JoinSplit(name, ':');
    assert Split(name, ':') == [name];
  }

  // ---------------------------------------------------------------- records

  datatype Auth = Auth(username: string, password: string, auth: string, serverAddress: string, identityToken: string, registryToken: string)

  datatype Image = Image(image: string, auth: Option<Auth>, tags: seq<string>, digests: seq<string>)

  /** The image of an ImageStatus answer. */
  datatype Status = Status(id: string, tags: seq<string>, digests: seq<string>)

  type Store = map<Key, Image>

  /** getImage clears a list that holds nothing but an empty string. */
  function Normalise(img: Image): Image {
    img.(tags := if img.tags == [""] then [] else img.tags,
    digests := if img.digests == [""] then [] else img.digests)
  }

  function GetImage(store: Store, key: Key): Option<Image> {
    if key in store then Some(Normalise(store[key])) else None
  }

  function Added(item: string, list: seq<string>): seq<string> {
    if item == "" || item in list then list else list + [item]
  }

  function Removed(item: string, list: seq<string>): seq<string> {
    if list == [] then []
    else
      var init, last := Removed(item, list[..|list| - 1]), list[|list| - 1];
      if last != item then init + [last] else init
  }

  function WithReference(img: Image, r: Reference): Image {
    img.(tags := Added(r.tag, img.tags), digests := Added(r.digest, img.digests))
  }

  function PulledAs(store: Store, r: Reference, image: string, auth: Option<Auth>): Store {
    var img := GetImage(store, r.key);
    store[r.key := WithReference(if img.Some? then img.value else Image(image, auth, [], []), r)]
  }

  function Pulled(store: Store, image: string, auth: Option<Auth>): Store {
    PulledAs(store, Canonical(image), image, auth)
  }

  /** The request names the only tag or the only digest of the record. */
  predicate NamesTheOnlyOne(img: Image, r: Reference) {
    (|img.tags| == 1 && img.tags[0] == r.tag) || (|img.digests| == 1 && img.digests[0] == r.digest)
  }

  function WithoutReference(img: Image, r: Reference): Image {
    img.(tags := Removed(r.tag, img.tags), digests := Removed(r.digest, img.digests))
  }

  function Dropped(store: Store, image: string): Store {
    var r := Canonical(image);
    var img := GetImage(store, r.key);
    if img.None? then store
    else if NamesTheOnlyOne(img.value, r) then store - {r.key}
    else store[r.key := WithoutReference(img.value, r)]
  }

  // ---------------------------------------------------------------- the service

  class ImageService {
    var dataStore: Store

    constructor ()
      ensures dataStore == map[]
    {
      dataStore := map[];
    }

    static method AddToSliceWithoutDuplicate(item: string, slice: seq<string>) returns (result: seq<string>)
      ensures result == Added(item, slice)
    {
      if item == "" {
        return slice;
      }
      for i := 0 to |slice|
        invariant item !in slice[..i]
      {
        if slice[i] == item {
          return slice;
        }
      }
      return slice + [item];
    }

    static method RemoveFromSlice(item: string, slice: seq<string>) returns (updatedSlice: seq<string>)
      ensures updatedSlice == Removed(item, slice)
    {
      updatedSlice := [];
      for i := 0 to |slice|
        invariant updatedSlice == Removed(item, slice[..i])
      {
        assert slice[..i + 1][..i] == slice[..i];
        if slice[i] != item {
          updatedSlice := updatedSlice + [slice[i]];
        }
      }
      assert slice[..|slice|] == slice;
    }

    method PullImage(image: Option<string>, auth: Option<Auth>) returns (r: Result<Key>)
      modifies this
      ensures image.None? ==> r.Err? && dataStore == old(dataStore)
      ensures image.Some? ==> r == Ok(Canonical(image.value).key) && dataStore == Pulled(old(dataStore), image.value, auth)
    {
      if image.None? {
        return Err(InvalidParameter);
      }
      var Reference(imageName, imageTag, imageDigest) := Canonical(image.value);
      var img := GetImage(dataStore, imageName);
      if img.Some? {
        var tags := AddToSliceWithoutDuplicate(imageTag, img.value.tags);
        var digests := AddToSliceWithoutDuplicate(imageDigest, img.value.digests);
        dataStore := dataStore[imageName := img.value.(tags := tags, digests := digests)];
      } else {
        var tags := AddToSliceWithoutDuplicate(imageTag, []);
        var digests := AddToSliceWithoutDuplicate(imageDigest, []);
        dataStore := dataStore[imageName := Image(image.value, auth, tags, digests)];
      }
      return Ok(imageName);
    }

    method RemoveImage(image: Option<string>) returns (r: Result<()>)
      modifies this
      ensures image.None? ==> r.Err? && dataStore == old(dataStore)
      ensures image.Some? ==> r.Ok? && dataStore == Dropped(old(dataStore), image.value)
    {
      if image.None? {
        return Err(InvalidParameter);
      }
      var Reference(imageName, imageTag, imageDigest) := Canonical(image.value);
      var img := GetImage(dataStore, imageName);
      if img.Some? {
        if (|img.value.tags| == 1 && img.value.tags[0] == imageTag) || (|img.value.digests| == 1 && img.value.digests[0] == imageDigest) {
          dataStore := dataStore - {imageName};
          return Ok(());
        }
        var newTagList := RemoveFromSlice(imageTag, img.value.tags);
        var newDigestsList := RemoveFromSlice(imageDigest, img.value.digests);
        dataStore := dataStore[imageName := img.value.(tags := newTagList, digests := newDigestsList)];
      }
      return Ok(());
    }

    /**
     The answer carries the requested reference, and the tags and digests of the record under its name;
     a request without an image, or for an unknown name, is answered with no image and no error.
     */
    method ImageStatus(image: Option<string>) returns (answer: Option<Status>)
      ensures answer.Some? <==> image.Some? && Canonical(image.value).key in dataStore
      ensures answer.Some? ==> answer.value.id == image.value
      ensures answer.Some? ==>
                var img := dataStore[Canonical(image.value).key];
                && answer.value.tags == (if img.tags == [""] then [] else img.tags)
                && answer.value.digests == (if img.digests == [""] then [] else img.digests)
      ensures answer.Some? && StoreOk(dataStore) ==>
                var img := dataStore[Canonical(image.value).key];
                answer.value.tags == img.tags && answer.value.digests == img.digests && img.tags + img.digests != []
    {
      if image.None? {
        return None;
      }
      var img := GetImage(dataStore, Canonical(image.value).key);
      if img.None? {
        return None;
      }
      if StoreOk(dataStore) {
        assert ImageOk(Canonical(image.value).key, dataStore[Canonical(image.value).key]);
        NormaliseKeeps(Canonical(image.value).key, dataStore[Canonical(image.value).key]);
      }
      answer := Some(Status(image.value, [], []));
      if |img.value.tags| > 0 {
        answer := Some(answer.value.(tags := img.value.tags));
      }
      if |img.value.digests| > 0 {
        answer := Some(answer.value.(digests := img.value.digests));
      }
    }
  }

  // ---------------------------------------------------------------- what every store keeps

  /** Tags and digests are duplicate-free and non-empty strings, and each names this record. */
  ghost predicate ListsOk(key: Key, img: Image) {
    && NoDuplicates(img.tags) && NoDuplicates(img.digests)
    && (forall t | t in img.tags :: t != "" && Canonical(t) == Reference(key, t, ""))
    && (forall d | d in img.digests :: d != "" && Canonical(d) == Reference(key, "", d))
  }

  /** And there is one at least. */
  ghost predicate ImageOk(key: Key, img: Image) {
    ListsOk(key, img) && img.tags + img.digests != []
  }

  ghost predicate StoreOk(store: Store) {
    forall key | key in store :: ImageOk(key, store[key])
  }

  lemma {:induction false} RemovedElements(item: string, list: seq<string>)
    requires NoDuplicates(list)
    ensures NoDuplicates(Removed(item, list))
    ensures forall x :: x in Removed(item, list) <==> x in list && x != item
    ensures item !in list ==> Removed(item, list) == list
    ensures |Removed(item, list)| >= |list| - 1
  {
    if list != [] {
      var init, last := list[..|list| - 1], list[|list| - 1];
      RemovedElements(item, init);
      assert list == init + [last];
      assert last !in init;
    }
  }

  /** A parsed reference names its key, as a tag or as a digest. */
  ghost predicate ReferenceOk(r: Reference) {
    && (r.tag != "" ==> r.digest == "" && Canonical(r.tag) == r)
    && (r.digest != "" ==> r.tag == "" && Canonical(r.digest) == r)
    && (r.tag != "" || r.digest != "")
  }

  lemma Stable(image: string)
    ensures ReferenceOk(Canonical(image))
  {
    CanonicalIsStable(image);
    var r := Canonical(image);
    assert r.digest == "" ==> r.tag + r.digest == r.tag;
    assert r.tag == "" ==> r.tag + r.digest == r.digest;
  }

  lemma WithReferenceOk(img: Image, r: Reference)
    requires ListsOk(r.key, img) && ReferenceOk(r)
    ensures ImageOk(r.key, WithReference(img, r))
  {
  }

  lemma WithoutReferenceOk(img: Image, r: Reference)
    requires ImageOk(r.key, img) && ReferenceOk(r) && !NamesTheOnlyOne(img, r)
    ensures ImageOk(r.key, WithoutReference(img, r))
  {
    RemovedElements(r.tag, img.tags);
    RemovedElements(r.digest, img.digests);
    assert r.tag == "" ==> r.tag !in img.tags;
    assert r.digest == "" ==> r.digest !in img.digests;
  }

  lemma NormaliseKeeps(key: Key, img: Image)
    requires ListsOk(key, img)
    ensures Normalise(img) == img
  {
    assert img.tags != [] ==> img.tags[0] in img.tags;
    assert img.digests != [] ==> img.digests[0] in img.digests;
  }

  lemma PullKeeps(store: Store, image: string, auth: Option<Auth>)
    requires StoreOk(store)
    ensures StoreOk(Pulled(store, image, auth))
  {
    Stable(image);
    var r := Canonical(image);
    if r.key in store {
      assert ImageOk(r.key, store[r.key]);
      NormaliseKeeps(r.key, store[r.key]);
      WithReferenceOk(store[r.key], r);
    } else {
      WithReferenceOk(Image(image, auth, [], []), r);
    }
  }

  lemma RemoveKeeps(store: Store, image: string)
    requires StoreOk(store)
    ensures StoreOk(Dropped(store, image))
  {
    Stable(image);
    var r := Canonical(image);
    if r.key in store {
      assert ImageOk(r.key, store[r.key]);
      NormaliseKeeps(r.key, store[r.key]);
      if !NamesTheOnlyOne(store[r.key], r) {
        WithoutReferenceOk(store[r.key], r);
      }
    }
  }

  // ---------------------------------------------------------------- what a pull does

  /** The record under a name before a pull: the stored one, or a new one with the image and the credentials of the request. */
  function Before(store: Store, key: Key, image: string, auth: Option<Auth>): Image {
    if key in store then store[key] else Image(image, auth, [], [])
  }

  /** The list with the reference at its end, unless it is there already. */
  ghost predicate Grown(before: seq<string>, after: seq<string>, item: string) {
    if item in before then after == before else after == before + [item]
  }

  /** Pulling a tag adds it to the tags of the name's record and leaves the digests and every other record alone. */
  lemma PullOfTag(store: Store, name: string, v: string, auth: Option<Auth>)
    requires StoreOk(store) && ':' !in name && !Occurs("@sha256", name + ":" + v)
    ensures var image, key := name + ":" + v, Key(name);
            var pulled, was := Pulled(store, image, auth), Before(store, key, image, auth);
            && key in pulled && pulled == store[key := pulled[key]]
            && pulled[key] == was.(tags := pulled[key].tags) && Grown(was.tags, pulled[key].tags, image)
  {
    TagReference(name, v);
    PulledRecord(store, Reference(Key(name), name + ":" + v, ""), name + ":" + v, auth);
  }

  /** Pulling a digest adds it to the digests of the same record and leaves the tags alone. */
  lemma PullOfDigest(store: Store, name: string, x: string, auth: Option<Auth>)
    requires StoreOk(store) && '@' !in name
    ensures var image, key := name + "@sha256" + x, Key(name);
            var pulled, was := Pulled(store, image, auth), Before(store, key, image, auth);
            && key in pulled && pulled == store[key := pulled[key]]
            && pulled[key] == was.(digests := pulled[key].digests) && Grown(was.digests, pulled[key].digests, image)
  {
    DigestOfName(name, x);
    PulledRecord(store, Reference(Key(name), "", name + "@sha256" + x), name + "@sha256" + x, auth);
  }

  /** A bare name is pulled as its `latest` tag; a new record keeps the name as it was given. */
  lemma PullOfName(store: Store, name: string, auth: Option<Auth>)
    requires StoreOk(store) && ':' !in name && !Occurs("@sha256", name)
    ensures var key := Key(name);
            var pulled, was := Pulled(store, name, auth), Before(store, key, name, auth);
            && key in pulled && pulled == store[key := pulled[key]]
            && pulled[key] == was.(tags := pulled[key].tags) && Grown(was.tags, pulled[key].tags, name + ":latest")
  {
    BareReference(name);
    PulledRecord(store, Reference(Key(name), name + ":latest", ""), name, auth);
  }

  lemma PulledRecord(store: Store, r: Reference, image: string, auth: Option<Auth>)
    requires StoreOk(store)
    ensures PulledAs(store, r, image, auth) == store[r.key := WithReference(Before(store, r.key, image, auth), r)]
  {
    if r.key in store {
      assert ImageOk(r.key, store[r.key]);
      NormaliseKeeps(r.key, store[r.key]);
    }
  }

  /** Tags and digests of one name share a record: after pulling both, ImageStatus of either finds both. */
  lemma PullsShareRecord(store: Store, name: string, v: string, x: string, auth: Option<Auth>, other: Option<Auth>)
    requires StoreOk(store) && '@' !in name && ':' !in name
    requires !Occurs("@sha256", name + ":" + v)
    ensures var tag, digest := name + ":" + v, name + "@sha256" + x;
            var pulled := Pulled(Pulled(store, tag, auth), digest, other);
            && Canonical(tag).key == Canonical(digest).key == Key(name) && Key(name) in pulled
            && tag in pulled[Key(name)].tags && digest in pulled[Key(name)].digests
  {
    PullOfTag(store, name, v, auth);
    PullKeeps(store, name + ":" + v, auth);
    PullOfDigest(Pulled(store, name + ":" + v, auth), name, x, other);
    TagReference(name, v);
    DigestOfName(name, x);
  }

  /**
   Removing a tag of a name without the record does nothing; the only tag takes the record with it, digests
   included; any other leaves the record without it.
   */
  lemma RemovalOfTag(store: Store, name: string, v: string)
    requires StoreOk(store) && ':' !in name && !Occurs("@sha256", name + ":" + v)
    ensures var image, key := name + ":" + v, Key(name);
            var dropped := Dropped(store, image);
            if key !in store then dropped == store
            else if store[key].tags == [image] then dropped == store - {key}
            else
              && key in dropped && dropped == store[key := dropped[key]]
              && dropped[key] == store[key].(tags := dropped[key].tags)
              && (forall t :: t in dropped[key].tags <==> t in store[key].tags && t != image)
  {
    TagReference(name, v);
    DroppedRecord(store, Reference(Key(name), name + ":" + v, ""), name + ":" + v);
  }

  /** The same of a digest: the only digest takes the record with it, tags included. */
  lemma RemovalOfDigest(store: Store, name: string, x: string)
    requires StoreOk(store) && '@' !in name
    ensures var image, key := name + "@sha256" + x, Key(name);
            var dropped := Dropped(store, image);
            if key !in store then dropped == store
            else if store[key].digests == [image] then dropped == store - {key}
            else
              && key in dropped && dropped == store[key := dropped[key]]
              && dropped[key] == store[key].(digests := dropped[key].digests)
              && (forall d :: d in dropped[key].digests <==> d in store[key].digests && d != image)
  {
    DigestOfName(name, x);
    DroppedRecord(store, Reference(Key(name), "", name + "@sha256" + x), name + "@sha256" + x);
  }

  lemma DroppedRecord(store: Store, r: Reference, image: string)
    requires StoreOk(store) && Canonical(image) == r && (r.tag == "" || r.digest == "")
    ensures Dropped(store, image) ==
            if r.key !in store then store
            else if (r.tag != "" && store[r.key].tags == [r.tag]) || (r.digest != "" && store[r.key].digests == [r.digest])
            then store - {r.key}
            else store[r.key := WithoutReference(store[r.key], r)]
    ensures r.key in store ==> WithoutElements(store[r.key], r)
  {
    if r.key in store {
      var img := store[r.key];
      assert ImageOk(r.key, img);
      NormaliseKeeps(r.key, img);
      RemovedElements(r.tag, img.tags);
      RemovedElements(r.digest, img.digests);
      assert |img.tags| == 1 ==> img.tags[0] in img.tags;
      assert |img.digests| == 1 ==> img.digests[0] in img.digests;
    }
  }

  /** The lists lose the reference, and a list that it names nothing of is as it was. */
  ghost predicate WithoutElements(img: Image, r: Reference) {
    var left := WithoutReference(img, r);
    && (forall t :: t in left.tags <==> t in img.tags && t != r.tag) && (r.tag == "" ==> left.tags == img.tags)
    && (forall d :: d in left.digests <==> d in img.digests && d != r.digest) && (r.digest == "" ==> left.digests == img.digests)
  }

  // ---------------------------------------------------------------- runs of requests

  datatype Request = Pull(image: string, auth: Option<Auth>) | Remove(image: string)

  function Serve(store: Store, requests: seq<Request>): Store {
    if requests == [] then store
    else
      var before, last := Serve(store, requests[..|requests| - 1]), requests[|requests| - 1];
      match last
      case Pull(image, auth) => Pulled(before, image, auth)
      case Remove(image) => Dropped(before, image)
  }

  /** In every reachable store each record has a reference, no duplicates, no empty string, and only its own references. */
  lemma {:induction false} ServeKeeps(store: Store, requests: seq<Request>)
    requires StoreOk(store)
    ensures StoreOk(Serve(store, requests))
  {
    if requests != [] {
      var init, last := requests[..|requests| - 1], requests[|requests| - 1];
      ServeKeeps(store, init);
      match last
      case Pull(image, auth) => PullKeeps(Serve(store, init), image, auth);
      case Remove(image) => RemoveKeeps(Serve(store, init), image);
    }
  }

  // ---------------------------------------------------------------- the abstract store

  datatype Refs = Refs(tags: set<string>, digests: set<string>)

  function Abstract(store: Store): map<Key, Refs> {
    map key | key in store :: RefsOf(store[key])
  }

  /** The non-empty ones of tag and digest. */
  function Named(item: string): set<string> {
    if item == "" then {} else {item}
  }

  function AbstractPull(names: map<Key, Refs>, r: Reference): map<Key, Refs> {
    var refs := if r.key in names then names[r.key] else Refs({}, {});
    names[r.key := Refs(refs.tags + Named(r.tag), refs.digests + Named(r.digest))]
  }

  function AbstractRemove(names: map<Key, Refs>, r: Reference): map<Key, Refs> {
    if r.key !in names then names
    else
      var refs := names[r.key];
      if refs.tags == {r.tag} || refs.digests == {r.digest} then names - {r.key}
      else names[r.key := Refs(refs.tags - {r.tag}, refs.digests - {r.digest})]
  }

  lemma AddedElements(item: string, list: seq<string>)
    ensures Elements(Added(item, list)) == Elements(list) + Named(item)
  {
  }

  lemma OneElement(list: seq<string>, item: string)
    requires NoDuplicates(list)
    ensures Elements(list) == {item} <==> |list| == 1 && list[0] == item
  {
    assert |list| > 1 ==> list[0] != list[1];
    if Elements(list) == {item} {
      assert item in Elements(list);
      forall i | 0 <= i < |list| ensures list[i] == item {
        assert list[i] in Elements(list);
      }
    } else if |list| == 1 && list[0] == item {
      assert forall x :: x in Elements(list) <==> x == item;
    }
  }

  function RefsOf(img: Image): Refs {
    Refs(Elements(img.tags), Elements(img.digests))
  }

  lemma PullRefines(store: Store, image: string, auth: Option<Auth>)
    requires StoreOk(store)
    ensures Abstract(Pulled(store, image, auth)) == AbstractPull(Abstract(store), Canonical(image))
  {
    var r := Canonical(image);
    var img := if r.key in store then store[r.key] else Image(image, auth, [], []);
    assert r.key in store ==> ImageOk(r.key, img);
    NormaliseKeeps(r.key, img);
    AddedElements(r.tag, img.tags);
    AddedElements(r.digest, img.digests);
    AbstractUpdate(store, r.key, WithReference(img, r));
    assert Elements([]) == {};
  }

  lemma AbstractUpdate(store: Store, key: Key, img: Image)
    ensures Abstract(store[key := img]) == Abstract(store)[key := RefsOf(img)]
    ensures Abstract(store - {key}) == Abstract(store) - {key}
  {
  }

  lemma RemoveRefines(store: Store, image: string)
    requires StoreOk(store)
    ensures Abstract(Dropped(store, image)) == AbstractRemove(Abstract(store), Canonical(image))
  {
    var r := Canonical(image);
    if r.key in store {
      var img := store[r.key];
      assert ImageOk(r.key, img);
      NormaliseKeeps(r.key, img);
      OneElement(img.tags, r.tag);
      OneElement(img.digests, r.digest);
      WithoutRefs(img, r);
      AbstractUpdate(store, r.key, WithoutReference(img, r));
    }
  }

  lemma WithoutRefs(img: Image, r: Reference)
    requires NoDuplicates(img.tags) && NoDuplicates(img.digests)
    ensures RefsOf(WithoutReference(img, r)) == Refs(Elements(img.tags) - {r.tag}, Elements(img.digests) - {r.digest})
  {
    RemovedElements(r.tag, img.tags);
    RemovedElements(r.digest, img.digests);
  }

  function AbstractServe(names: map<Key, Refs>, requests: seq<Request>): map<Key, Refs> {
    if requests == [] then names
    else
      var before, last := AbstractServe(names, requests[..|requests| - 1]), requests[|requests| - 1];
      match last
      case Pull(image, _) => AbstractPull(before, Canonical(image))
      case Remove(image) => AbstractRemove(before, Canonical(image))
  }

  /** Over every run of requests the store is, by name, a pair of a set of tags and a set of digests. */
  lemma {:induction false} ServeRefines(store: Store, requests: seq<Request>)
    requires StoreOk(store)
    ensures Abstract(Serve(store, requests)) == AbstractServe(Abstract(store), requests)
  {
    if requests != [] {
      var init, last := requests[..|requests| - 1], requests[|requests| - 1];
      ServeRefines(store, init);
      ServeKeeps(store, init);
      match last
      case Pull(image, auth) => PullRefines(Serve(store, init), image, auth);
      case Remove(image) => RemoveRefines(Serve(store, init), image);
    }
  }

  // ---------------------------------------------------------------- repeating and undoing

  lemma WithReferenceTwice(img: Image, r: Reference)
    ensures WithReference(WithReference(img, r), r) == WithReference(img, r)
  {
  }

  lemma PullTwice(store: Store, image: string, auth: Option<Auth>)
    requires StoreOk(store)
    ensures Pulled(Pulled(store, image, auth), image, auth) == Pulled(store, image, auth)
  {
    var r, pulled := Canonical(image), Pulled(store, image, auth);
    PullKeeps(store, image, auth);
    assert ImageOk(r.key, pulled[r.key]);
    NormaliseKeeps(r.key, pulled[r.key]);
    PullAsTwice(store, r, image, auth);
  }

  lemma PullAsTwice(store: Store, r: Reference, image: string, auth: Option<Auth>)
    requires Normalise(PulledAs(store, r, image, auth)[r.key]) == PulledAs(store, r, image, auth)[r.key]
    ensures PulledAs(PulledAs(store, r, image, auth), r, image, auth) == PulledAs(store, r, image, auth)
  {
    var before := GetImage(store, r.key);
    WithReferenceTwice(if before.Some? then before.value else Image(image, auth, [], []), r);
  }

  lemma RemoveTwice(store: Store, image: string)
    requires StoreOk(store)
    ensures Dropped(Dropped(store, image), image) == Dropped(store, image)
  {
    var r, dropped := Canonical(image), Dropped(store, image);
    RemoveKeeps(store, image);
    if r.key in dropped {
      assert ImageOk(r.key, dropped[r.key]) && ImageOk(r.key, store[r.key]);
      NormaliseKeeps(r.key, store[r.key]);
      NormaliseKeeps(r.key, dropped[r.key]);
      WithoutReferenceTwice(store[r.key], r);
    }
  }

  lemma OtherNamesUntouched(store: Store, key: Key, img: Image)
    ensures store[key := img] - {key} == store - {key} == (store - {key}) - {key}
  {
  }

  /** A second Pull, and a second Remove, of the same reference changes nothing; other names are never touched. */
  lemma RequestsAreIdempotent(store: Store, image: string, auth: Option<Auth>)
    requires StoreOk(store)
    ensures Pulled(Pulled(store, image, auth), image, auth) == Pulled(store, image, auth)
    ensures Dropped(Dropped(store, image), image) == Dropped(store, image)
    ensures var key := Canonical(image).key;
            Pulled(store, image, auth) - {key} == store - {key} == Dropped(store, image) - {key}
  {
    PullTwice(store, image, auth);
    RemoveTwice(store, image);
    var key := Canonical(image).key;
    OtherNamesUntouched(store, key, Pulled(store, image, auth)[key]);
    if key in Dropped(store, image) {
      OtherNamesUntouched(store, key, Dropped(store, image)[key]);
    }
  }

  lemma WithoutReferenceTwice(img: Image, r: Reference)
    requires ImageOk(r.key, img)
    ensures var img' := WithoutReference(img, r); !NamesTheOnlyOne(img', r) && WithoutReference(img', r) == img'
  {
    var img' := WithoutReference(img, r);
    RemovedElements(r.tag, img.tags);
    RemovedElements(r.digest, img.digests);
    RemovedElements(r.tag, img'.tags);
    RemovedElements(r.digest, img'.digests);
    assert |img'.tags| == 1 ==> img'.tags[0] in img'.tags;
    assert |img'.digests| == 1 ==> img'.digests[0] in img'.digests;
  }

  /** The list of the record that a reference goes to: tags for a tag, digests for a digest. */
  function SameKind(img: Image, r: Reference): seq<string> {
    if r.tag != "" then img.tags else img.digests
  }

  function Item(r: Reference): string {
    if r.tag != "" then r.tag else r.digest
  }

  /**
   Exactly when Remove undoes Pull: the name was unknown, or its record did not hold the reference but
   did hold another one of its kind.  Otherwise Remove also drops what was there before the Pull.
   */
  lemma RemoveUndoesPull(store: Store, image: string, auth: Option<Auth>)
    requires StoreOk(store)
    ensures var r := Canonical(image);
            Dropped(Pulled(store, image, auth), image) == store <==>
              (r.key in store ==> SameKind(store[r.key], r) != [] && Item(r) !in SameKind(store[r.key], r))
  {
    Stable(image);
    var r := Canonical(image);
    var pulled := Pulled(store, image, auth);
    PullKeeps(store, image, auth);
    assert ImageOk(r.key, pulled[r.key]);
    NormaliseKeeps(r.key, pulled[r.key]);
    if r.key in store {
      assert ImageOk(r.key, store[r.key]);
      NormaliseKeeps(r.key, store[r.key]);
      UndoOnRecord(store[r.key], r);
      assert store[r.key := store[r.key]] == store;
    } else {
      assert pulled - {r.key} == store;
    }
  }

  lemma {:induction false} RemovedAdded(item: string, list: seq<string>)
    requires NoDuplicates(list) && item != "" && item !in list
    ensures Removed(item, Added(item, list)) == list
  {
    assert (list + [item])[..|list|] == list;
    RemovedElements(item, list);
  }

  lemma UndoOnRecord(img: Image, r: Reference)
    requires ImageOk(r.key, img) && ReferenceOk(r)
    ensures var img', kind := WithReference(img, r), SameKind(img, r);
            (!NamesTheOnlyOne(img', r) && WithoutReference(img', r) == img) <==> kind != [] && Item(r) !in kind
  {
    assert "" !in img.tags && "" !in img.digests;
    RemovedElements("", img.tags);
    RemovedElements("", img.digests);
    if Item(r) in SameKind(img, r) {
      HeldIsLost(img, r);
    } else {
      RemovedAdded(Item(r), SameKind(img, r));
      assert img.tags != [] ==> img.tags[0] in img.tags;
      assert img.digests != [] ==> img.digests[0] in img.digests;
    }
  }

  lemma HeldIsLost(img: Image, r: Reference)
    requires ImageOk(r.key, img) && ReferenceOk(r) && Item(r) in SameKind(img, r)
    ensures WithoutReference(WithReference(img, r), r) != img
  {
    RemovedElements(r.tag, img.tags);
    RemovedElements(r.digest, img.digests);
    assert WithReference(img, r) == img;
  }
}
