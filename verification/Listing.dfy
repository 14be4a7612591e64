/**
 The two listing handlers: what is stored, joined with what is selected.  That every record is stored under
 its own id is part of what all runs of the lifecycle keep.
 */
module Listing {
  import opened Records
  import opened Selection
  import opened Sequences
  import opened StoreKeys

  /** No two keys hold the same record. */
  ghost predicate Distinct<T(!new)>(records: map<string, T>) {
    forall a, b | a in records && b in records && a != b :: records[a] != records[b]
  }

  /** The stored records that satisfy the condition, once each, and nothing else. */
  ghost predicate ListsExactly<T(!new)>(list: seq<T>, records: map<string, T>, keep: T -> bool) {
    forall x {:trigger CountedIn(list, records, keep, x)} :: CountedIn(list, records, keep, x)
  }

  ghost predicate CountedIn<T(!new)>(list: seq<T>, records: map<string, T>, keep: T -> bool, x: T) {
    multiset(list)[x] == if x in records.Values && keep(x) then 1 else 0
  }

  lemma CountOne<T>(list: seq<T>, i: nat)
    requires i < |list| && forall j | 0 <= j < |list| && j != i :: list[j] != list[i]
    ensures multiset(list)[list[i]] == 1
  {
    assert list == list[..i] + [list[i]] + list[i + 1..];
    assert list[i] !in list[..i] && list[i] !in list[i + 1..];
  }

  lemma EnumeratedOnce<T(!new)>(list: seq<T>, ids: seq<string>, records: map<string, T>, x: T)
    requires Enumerates(list, ids, records) && Distinct(records)
    ensures multiset(list)[x] == if x in records.Values then 1 else 0
  {
    if x in records.Values {
      var id :| id in records && records[id] == x;
      var i :| 0 <= i < |ids| && ids[i] == id;
      assert forall j | 0 <= j < |list| && j != i :: list[j] != list[i];
      CountOne(list, i);
    } else {
      assert x !in list;
    }
  }

  lemma SelectedOnce<T(!new)>(list: seq<T>, ids: seq<string>, records: map<string, T>, keep: T -> bool)
    requires Enumerates(list, ids, records) && Distinct(records)
    ensures ListsExactly(Select(list, keep), records, keep)
  {
    forall x ensures CountedIn(Select(list, keep), records, keep, x) {
      SelectCounts(list, keep, x);
      EnumeratedOnce(list, ids, records, x);
    }
  }

  /** Exactly the stored containers that match the filter are returned, once each. */
  method ListContainers(store: map<string, Entry>, names: seq<string>, filter: ContainerFilter,
                        ghost containers: map<string, Container>, ghost sandboxes: map<string, Sandbox>)
    returns (result: seq<Container>)
    requires Holds(store, containers, sandboxes) && Lists(names, store)
    requires forall id | id in containers :: containers[id].id == id
    ensures ListsExactly(result, containers, ContainerMatches(filter))
  {
    var stored := StoreKeys.ListContainers(store, names, containers, sandboxes);
    result := FilterContainers(stored, filter);
    SelectedOnce(stored, Stripped(names, CONTAINER_PREFIX), containers, ContainerMatches(filter));
  }

  /** Exactly the stored sandboxes that match the filter, or all without one, are returned, once each. */
  method ListPodSandbox(store: map<string, Entry>, names: seq<string>, filter: Option<SandboxFilter>,
                        ghost containers: map<string, Container>, ghost sandboxes: map<string, Sandbox>)
    returns (result: seq<Sandbox>)
    requires Holds(store, containers, sandboxes) && Lists(names, store)
    requires forall id | id in sandboxes :: sandboxes[id].id == id
    ensures ListsExactly(result, sandboxes, SandboxMatches(filter))
  {
    var stored := StoreKeys.ListSandboxes(store, names, containers, sandboxes);
    result := SelectPods(stored, filter);
    SelectedOnce(stored, Stripped(names, SANDBOX_PREFIX), sandboxes, SandboxMatches(filter));
  }
}
