/** ListContainers and ListPodSandbox: selection by label, state, pod and id. */
module Selection {
  import opened Records

  // ---------------------------------------------------------------- what a selection is

  /** The elements to keep, in their order. */
  function Select<T(!new)>(list: seq<T>, keep: T -> bool): seq<T> {
    if list == [] then []
    else
      var init, last := Select(list[..|list| - 1], keep), list[|list| - 1];
      if keep(last) then init + [last] else init
  }

  /** Every selector pair occurs in the labels. */
  predicate SubMap(selector: map<string, string>, labels: map<string, string>) {
    forall k | k in selector :: k in labels && labels[k] == selector[k]
  }

  /** The keys whose pair occurs in both maps. */
  function Common(selector: map<string, string>, labels: map<string, string>): set<string> {
    set k | k in selector && k in labels && labels[k] == selector[k]
  }

  lemma {:induction false} SubsetSize(a: set<string>, b: set<string>)
    requires a <= b
    ensures |a| <= |b| && (|a| == |b| ==> a == b)
  {
    if a != {} {
      var x :| x in a;
      SubsetSize(a - {x}, b - {x});
      assert a == (a - {x}) + {x} && b == (b - {x}) + {x};
    } else {
      assert |b| == 0 ==> b == {};
    }
  }

  /** The number of matches equals the selector's size exactly when the selector is a sub-map of the labels. */
  lemma CountingIsInclusion(selector: map<string, string>, labels: map<string, string>)
    ensures |Common(selector, labels)| == |selector| <==> SubMap(selector, labels)
  {
    SubsetSize(Common(selector, labels), selector.Keys);
    assert SubMap(selector, labels) ==> Common(selector, labels) == selector.Keys;
    assert |selector.Keys| == |selector|;
    if |Common(selector, labels)| == |selector| {
      assert forall k | k in selector :: k in Common(selector, labels);
    }
  }

  /** The two nested loops over both maps, each in whatever order the map yields. */
  method CountMatches(selector: map<string, string>, labels: map<string, string>) returns (matches: nat)
    ensures matches == |Common(selector, labels)|
  {
    matches := 0;
    var ks := selector.Keys;
    ghost var counted: set<string> := {};
    while ks != {}
      invariant ks <= selector.Keys
      invariant counted == set k | k in Common(selector, labels) && k !in ks
      invariant matches == |counted|
      decreases ks
    {
      var k :| k in ks;
      var v := selector[k];
      ghost var before := matches;
      var pks := labels.Keys;
      while pks != {}
        invariant pks <= labels.Keys
        invariant matches == before + if k in labels && k !in pks && labels[k] == v then 1 else 0
        decreases pks
      {
        var pk :| pk in pks;
        if pk == k && labels[pk] == v {
          matches := matches + 1;
        }
        pks := pks - {pk};
      }
      ks := ks - {k};
      ghost var counted' := set k | k in Common(selector, labels) && k !in ks;
      assert counted' == if k in Common(selector, labels) then counted + {k} else counted;
      counted := counted';
    }
    assert counted == Common(selector, labels);
  }

  // ---------------------------------------------------------------- containers

  /** A filter with every field set; the code requires one. */
  datatype ContainerFilter = ContainerFilter(id: string, state: Option<ContainerState>, podSandboxID: string, labelSelector: map<string, string>)

  function ContainerLabels(selector: map<string, string>): Container -> bool {
    (c: Container) => SubMap(selector, c.labels)
  }

  function ContainerInState(state: Option<ContainerState>): Container -> bool {
    (c: Container) => state.Some? ==> c.state == state.value
  }

  function ContainerOfPod(sandboxID: string): Container -> bool {
    (c: Container) => sandboxID != "" ==> c.podID == sandboxID
  }

  function ContainerWithID(id: string): Container -> bool {
    (c: Container) => id != "" ==> c.id == id
  }

  method FilterContainersByLabel(labels: map<string, string>, containers: seq<Container>) returns (ret: seq<Container>)
    ensures ret == Select(containers, ContainerLabels(labels))
  {
    if |labels| == 0 {
      SelectAll(containers, ContainerLabels(labels));
      return containers;
    }
    ret := [];
    for i := 0 to |containers|
      invariant ret == Select(containers[..i], ContainerLabels(labels))
    {
      var matches := CountMatches(labels, containers[i].labels);
      CountingIsInclusion(labels, containers[i].labels);
      SelectNext(containers, i, ContainerLabels(labels));
      if matches == |labels| {
        ret := ret + [containers[i]];
      }
    }
    assert containers[..|containers|] == containers;
  }

  method FilterContainersByState(state: Option<ContainerState>, containers: seq<Container>) returns (result: seq<Container>)
    ensures result == Select(containers, ContainerInState(state))
  {
    if state.None? {
      SelectAll(containers, ContainerInState(state));
      return containers;
    }
    result := [];
    for i := 0 to |containers|
      invariant result == Select(containers[..i], ContainerInState(state))
    {
      SelectNext(containers, i, ContainerInState(state));
      if containers[i].state == state.value {
        result := result + [containers[i]];
      }
    }
    assert containers[..|containers|] == containers;
  }

  method FilterContainersByPodSandboxID(sandboxID: string, containers: seq<Container>) returns (result: seq<Container>)
    ensures result == Select(containers, ContainerOfPod(sandboxID))
  {
    if sandboxID == "" {
      SelectAll(containers, ContainerOfPod(sandboxID));
      return containers;
    }
    result := [];
    for i := 0 to |containers|
      invariant result == Select(containers[..i], ContainerOfPod(sandboxID))
    {
      SelectNext(containers, i, ContainerOfPod(sandboxID));
      if containers[i].podID == sandboxID {
        result := result + [containers[i]];
      }
    }
    assert containers[..|containers|] == containers;
  }

  method FilterContainersByID(containerID: string, containers: seq<Container>) returns (result: seq<Container>)
    ensures result == Select(containers, ContainerWithID(containerID))
  {
    if containerID == "" {
      SelectAll(containers, ContainerWithID(containerID));
      return containers;
    }
    result := [];
    for i := 0 to |containers|
      invariant result == Select(containers[..i], ContainerWithID(containerID))
    {
      SelectNext(containers, i, ContainerWithID(containerID));
      if containers[i].id == containerID {
        result := result + [containers[i]];
      }
    }
    assert containers[..|containers|] == containers;
  }

  /** One condition for the whole filter. */
  function ContainerMatches(filters: ContainerFilter): Container -> bool {
    (c: Container) =>
      && (filters.id != "" ==> c.id == filters.id)
      && (filters.state.Some? ==> c.state == filters.state.value)
      && (filters.podSandboxID != "" ==> c.podID == filters.podSandboxID)
      && SubMap(filters.labelSelector, c.labels)
  }

  /** The chain of four filters is one conjunctive filter. */
  method FilterContainers(containers: seq<Container>, filters: ContainerFilter) returns (result: seq<Container>)
    ensures result == Select(containers, ContainerMatches(filters))
  {
    var ofPod := FilterContainersByPodSandboxID(filters.podSandboxID, containers);
    var labelled := FilterContainersByLabel(filters.labelSelector, ofPod);
    var inState := FilterContainersByState(filters.state, labelled);
    result := FilterContainersByID(filters.id, inState);
    FourFilters(containers, ContainerOfPod(filters.podSandboxID), ContainerLabels(filters.labelSelector),
                ContainerInState(filters.state), ContainerWithID(filters.id), ContainerMatches(filters));
  }

  // ---------------------------------------------------------------- sandboxes

  datatype SandboxFilter = SandboxFilter(id: string, state: Option<SandboxState>, labelSelector: map<string, string>)

  function SandboxLabels(selector: map<string, string>): Sandbox -> bool {
    (sb: Sandbox) => SubMap(selector, sb.labels)
  }

  function SandboxInState(state: Option<SandboxState>): Sandbox -> bool {
    (sb: Sandbox) => state.Some? ==> sb.state == state.value
  }

  function SandboxWithID(id: string): Sandbox -> bool {
    (sb: Sandbox) => id != "" ==> sb.id == id
  }

  function SandboxMatches(filter: Option<SandboxFilter>): Sandbox -> bool {
    (sb: Sandbox) =>
      filter.Some? ==>
        && (filter.value.id != "" ==> sb.id == filter.value.id)
        && (filter.value.state.Some? ==> sb.state == filter.value.state.value)
        && SubMap(filter.value.labelSelector, sb.labels)
  }

  method FilterPodsByName(podID: string, pods: seq<Sandbox>) returns (ret: seq<Sandbox>)
    ensures ret == Select(pods, SandboxWithID(podID))
  {
    if podID == "" {
      SelectAll(pods, SandboxWithID(podID));
      return pods;
    }
    ret := [];
    for i := 0 to |pods|
      invariant ret == Select(pods[..i], SandboxWithID(podID))
    {
      SelectNext(pods, i, SandboxWithID(podID));
      if podID == pods[i].id {
        ret := ret + [pods[i]];
      }
    }
    assert pods[..|pods|] == pods;
  }

  method FilterPodsByLabel(labels: map<string, string>, pods: seq<Sandbox>) returns (ret: seq<Sandbox>)
    ensures ret == Select(pods, SandboxLabels(labels))
  {
    if |labels| == 0 {
      SelectAll(pods, SandboxLabels(labels));
      return pods;
    }
    ret := [];
    for i := 0 to |pods|
      invariant ret == Select(pods[..i], SandboxLabels(labels))
    {
      var matches := CountMatches(labels, pods[i].labels);
      CountingIsInclusion(labels, pods[i].labels);
      SelectNext(pods, i, SandboxLabels(labels));
      if matches == |labels| {
        ret := ret + [pods[i]];
      }
    }
    assert pods[..|pods|] == pods;
  }

  method FilterPodsByState(state: Option<SandboxState>, pods: seq<Sandbox>) returns (result: seq<Sandbox>)
    ensures result == Select(pods, SandboxInState(state))
  {
    if state.None? {
      SelectAll(pods, SandboxInState(state));
      return pods;
    }
    result := [];
    for i := 0 to |pods|
      invariant result == Select(pods[..i], SandboxInState(state))
    {
      SelectNext(pods, i, SandboxInState(state));
      if pods[i].state == state.value {
        result := result + [pods[i]];
      }
    }
    assert pods[..|pods|] == pods;
  }

  /** The selection of ListPodSandbox: without a filter, everything. */
  method SelectPods(pods: seq<Sandbox>, filter: Option<SandboxFilter>) returns (result: seq<Sandbox>)
    ensures result == Select(pods, SandboxMatches(filter))
  {
    if filter.None? {
      SelectAll(pods, SandboxMatches(filter));
      return pods;
    }
    var named := FilterPodsByName(filter.value.id, pods);
    var labelled := FilterPodsByLabel(filter.value.labelSelector, named);
    result := FilterPodsByState(filter.value.state, labelled);
    FourFilters(pods, SandboxWithID(filter.value.id), SandboxLabels(filter.value.labelSelector),
                SandboxInState(filter.value.state), SandboxWithID(""), SandboxMatches(filter));
    SelectAll(result, SandboxWithID(""));
  }

  // ---------------------------------------------------------------- laws

  function Both<T>(p: T -> bool, q: T -> bool): T -> bool {
    x => p(x) && q(x)
  }

  lemma {:induction false} SelectAll<T(!new)>(list: seq<T>, keep: T -> bool)
    requires forall x | x in list :: keep(x)
    ensures Select(list, keep) == list
  {
    if list != [] {
      SelectAll(list[..|list| - 1], keep);
    }
  }

  lemma SelectNext<T(!new)>(list: seq<T>, i: nat, keep: T -> bool)
    requires i < |list|
    ensures Select(list[..i + 1], keep) == if keep(list[i]) then Select(list[..i], keep) + [list[i]] else Select(list[..i], keep)
  {
    assert list[..i + 1][..i] == list[..i];
  }

  lemma {:induction false} SelectSame<T(!new)>(list: seq<T>, p: T -> bool, q: T -> bool)
    requires forall x | x in list :: p(x) <==> q(x)
    ensures Select(list, p) == Select(list, q)
  {
    if list != [] {
      SelectSame(list[..|list| - 1], p, q);
    }
  }

  /** Filtering twice is filtering once by both conditions, whichever comes first. */
  lemma {:induction false} SelectChain<T(!new)>(list: seq<T>, p: T -> bool, q: T -> bool)
    ensures Select(Select(list, p), q) == Select(list, Both(p, q)) == Select(Select(list, q), p)
  {
    if list != [] {
      var init, last := list[..|list| - 1], list[|list| - 1];
      SelectChain(init, p, q);
      var ps, qs := Select(init, p), Select(init, q);
      assert (ps + [last])[..|ps|] == ps;
      assert (qs + [last])[..|qs|] == qs;
    }
  }

  /** A chain of filters is one filter by all their conditions. */
  lemma FourFilters<T(!new)>(list: seq<T>, p: T -> bool, q: T -> bool, r: T -> bool, t: T -> bool, all: T -> bool)
    requires forall x | x in list :: all(x) <==> p(x) && q(x) && r(x) && t(x)
    ensures Select(Select(Select(Select(list, p), q), r), t) == Select(list, all)
  {
    SelectChain(list, p, q);
    SelectChain(list, Both(p, q), r);
    SelectChain(list, Both(Both(p, q), r), t);
    SelectSame(list, Both(Both(Both(p, q), r), t), all);
  }

  /** Nothing is invented, lost or doubled: each element occurs as often as before, or not at all. */
  lemma {:induction false} SelectCounts<T(!new)>(list: seq<T>, keep: T -> bool, x: T)
    ensures multiset(Select(list, keep))[x] == if keep(x) then multiset(list)[x] else 0
  {
    if list != [] {
      var init, last := list[..|list| - 1], list[|list| - 1];
      SelectCounts(init, keep, x);
      assert list == init + [last];
    }
  }
}
