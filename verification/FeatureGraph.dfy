/** The feature-list check: a depth-first traversal that finds cycles and unknown dependencies. */
module FeatureGraph {
  import opened Wrappers

  type Graph = map<string, seq<string>>

  datatype GraphError = CycleAt(node: string) | UnknownDependency(dependency: string)

  // ----- what the traversal is meant to decide

  ghost predicate Edge(g: Graph, a: string, b: string) {
    a in g && b in g[a]
  }

  /** A walk of one or more nodes along dependencies. */
  ghost predicate Walk(g: Graph, p: seq<string>) {
    p != [] && forall i :: 0 <= i < |p| - 1 ==> Edge(g, p[i], p[i + 1])
  }

  ghost predicate OnCycle(g: Graph, a: string) {
    exists p :: Walk(g, p) && |p| > 1 && p[0] == a && p[|p| - 1] == a
  }

  ghost predicate Acyclic(g: Graph) {
    forall a :: !OnCycle(g, a)
  }

  ghost predicate Missing(g: Graph, dependency: string) {
    dependency !in g && exists a :: Edge(g, a, dependency)
  }

  ghost predicate Known(g: Graph) {
    forall d :: !Missing(g, d)
  }

  /** What an error claims of the graph. */
  ghost predicate Justified(g: Graph, e: GraphError) {
    match e
    case CycleAt(node) => OnCycle(g, node)
    case UnknownDependency(dependency) => Missing(g, dependency)
  }

  /** Each node once, all of its dependencies before it. */
  ghost predicate Topological(g: Graph, order: seq<string>) {
    && (forall i, j :: 0 <= i < j < |order| ==> order[i] != order[j])
    && (forall i :: 0 <= i < |order| ==> order[i] in g && forall d :: d in g[order[i]] ==> d in order[..i])
  }

  // ----- a complete topological order leaves no cycle and nothing unknown

  function IndexOf(order: seq<string>, a: string): (i: nat)
    requires a in order
    ensures i < |order| && order[i] == a
  {
    if order[0] == a then 0 else 1 + IndexOf(order[1..], a)
  }

  lemma EdgesGoBack(g: Graph, order: seq<string>, a: string, b: string)
    requires Topological(g, order) && a in order && Edge(g, a, b)
    ensures b in order && IndexOf(order, b) < IndexOf(order, a)
  {
  }

  lemma {:induction false} WalksGoBack(g: Graph, order: seq<string>, p: seq<string>)
    requires Topological(g, order) && Walk(g, p) && |p| > 1 && p[0] in order
    ensures p[|p| - 1] in order && IndexOf(order, p[|p| - 1]) < IndexOf(order, p[0])
    decreases |p|
  {
    assert Edge(g, p[0], p[1]);
    EdgesGoBack(g, order, p[0], p[1]);
    if |p| > 2 {
      assert Walk(g, p[1..]) by {
        forall i | 0 <= i < |p[1..]| - 1 ensures Edge(g, p[1..][i], p[1..][i + 1]) {
          assert Edge(g, p[i + 1], p[i + 2]);
        }
      }
      WalksGoBack(g, order, p[1..]);
    }
  }

  lemma CompleteOrderDecides(g: Graph, order: seq<string>)
    requires Topological(g, order) && forall a :: a in g ==> a in order
    ensures Known(g) && Acyclic(g)
  {
    forall a ensures !OnCycle(g, a) {
      if OnCycle(g, a) {
        var p :| Walk(g, p) && |p| > 1 && p[0] == a && p[|p| - 1] == a;
        assert Edge(g, p[0], p[1]);
        WalksGoBack(g, order, p);
      }
    }
    forall d ensures !Missing(g, d) {
      if Missing(g, d) {
        var a :| Edge(g, a, d);
        EdgesGoBack(g, order, a, d);
      }
    }
  }

  // ----- the traversal

  /** The two sets against the order in which their nodes entered: the nodes being visited form a walk,
      and the finished ones a topological order. */
  ghost predicate Consistent(g: Graph, visiting: set<string>, done: set<string>, stack: seq<string>,
                             order: seq<string>) {
    && (forall a :: a in visiting <==> a in stack)
    && (forall a :: a in done <==> a in order)
    && (forall a :: a in visiting ==> a in g && a !in done)
    && Topological(g, order)
    && (forall i :: 0 <= i < |stack| - 1 ==> Edge(g, stack[i], stack[i + 1]))
  }

  lemma Entered(g: Graph, visiting: set<string>, done: set<string>, stack: seq<string>, order: seq<string>,
                node: string)
    requires Consistent(g, visiting, done, stack, order)
    requires node in g && node !in visiting && node !in done
    requires stack != [] ==> Edge(g, stack[|stack| - 1], node)
    ensures Consistent(g, visiting + {node}, done, stack + [node], order)
  {
  }

  lemma Left(g: Graph, visiting: set<string>, done: set<string>, stack: seq<string>, order: seq<string>, node: string)
    requires Consistent(g, visiting + {node}, done, stack + [node], order) && node !in visiting
    requires forall a :: a in visiting <==> a in stack
    requires forall k :: 0 <= k < |g[node]| ==> g[node][k] in done
    ensures Consistent(g, visiting, done + {node}, stack, order + [node])
  {
    Extends(g, order, node);
    forall i | 0 <= i < |stack| - 1 ensures Edge(g, stack[i], stack[i + 1]) {
      assert Edge(g, (stack + [node])[i], (stack + [node])[i + 1]);
    }
  }

  class Traversal {
    const graph: Graph
    var visiting: set<string>
    var done: set<string>
    /** The nodes of `visiting` from the outermost call inwards, and the nodes of `done` as they were added. */
    ghost var stack: seq<string>
    ghost var order: seq<string>

    ghost predicate Valid()
      reads this
    {
      Consistent(graph, visiting, done, stack, order)
    }

    constructor (g: Graph)
      ensures Valid() && graph == g && visiting == {} && done == {} && stack == [] && order == []
    {
      graph := g;
      visiting, done, stack, order := {}, {}, [], [];
    }

    /** Fails only for a reason; otherwise adds the node, after its dependencies, and restores `visiting`. */
    method Visit(node: string) returns (r: Outcome<GraphError>)
      requires Valid() && node in graph
      requires stack != [] ==> Edge(graph, stack[|stack| - 1], node)
      modifies this
      ensures r.Fail? ==> Justified(graph, r.error)
      ensures r.Pass? ==> Valid() && node in done
      ensures r.Pass? ==> visiting == old(visiting) && stack == old(stack) && old(order) <= order
      decreases graph.Keys - visiting
    {
      if node in visiting {
        StackCloses(graph, stack, node);
        return Fail(CycleAt(node));
      }
      if node in done {
        return Pass;
      }
      Entered(graph, visiting, done, stack, order, node);
      visiting := visiting + {node};
      stack := stack + [node];
      var i := 0;
      while i < |graph[node]|
        invariant 0 <= i <= |graph[node]|
        invariant Valid() && visiting == old(visiting) + {node} && stack == old(stack) + [node]
        invariant old(order) <= order
        invariant forall k :: 0 <= k < i ==> graph[node][k] in done
      {
        var dependency := graph[node][i];
        assert Edge(graph, node, dependency);
        if dependency !in graph {
          return Fail(UnknownDependency(dependency));
        }
        var v := Visit(dependency);
        if v.Fail? {
          return v;
        }
        i := i + 1;
      }
      Left(graph, old(visiting), done, old(stack), order, node);
      visiting := visiting - {node};
      done := done + {node};
      stack := old(stack);
      order := order + [node];
      assert visiting == old(visiting);
      return Pass;
    }
  }

  lemma StackCloses(g: Graph, stack: seq<string>, node: string)
    requires node in stack
    requires forall i :: 0 <= i < |stack| - 1 ==> Edge(g, stack[i], stack[i + 1])
    requires Edge(g, stack[|stack| - 1], node)
    ensures OnCycle(g, node)
  {
    var k :| 0 <= k < |stack| && stack[k] == node;
    var p := stack[k..] + [node];
    forall i | 0 <= i < |p| - 1 ensures Edge(g, p[i], p[i + 1]) {
      assert p[i] == stack[k + i];
      assert i + 1 < |p| - 1 ==> p[i + 1] == stack[k + i + 1];
    }
    assert Walk(g, p);
  }

  lemma Extends(g: Graph, order: seq<string>, node: string)
    requires Topological(g, order) && node in g && node !in order
    requires forall k :: 0 <= k < |g[node]| ==> g[node][k] in order
    ensures Topological(g, order + [node])
  {
    var next := order + [node];
    forall i | 0 <= i < |next| ensures next[i] in g && forall d :: d in g[next[i]] ==> d in next[..i] {
      assert next[..i] == order[..i];
      assert order[..|order|] == order;
    }
  }

  // ----- the whole check

  datatype Feature = Feature(
    id: string,
    dependsOn: seq<string>,
    priority: string,
    decisionStatus: string,
    verification: string,
    deliverables: seq<string>,
    acceptance: seq<string>,
    releaseRelationship: string)

  datatype FeatureError =
    | DuplicateIds
    | InGraph(error: GraphError)
    | UnknownPriority(id: string)
    | UnearnedVerdict(id: string)
    | EmptySpecification(id: string)
    | DowngradedScope(id: string)

  function Ids(fs: seq<Feature>): (ids: seq<string>)
    ensures |ids| == |fs| && forall i :: 0 <= i < |fs| ==> ids[i] == fs[i].id
  {
    seq(|fs|, i requires 0 <= i < |fs| => fs[i].id)
  }

  ghost predicate Distinct(ids: seq<string>) {
    forall i, j :: 0 <= i < j < |ids| ==> ids[i] != ids[j]
  }

  function Elements(ids: seq<string>): set<string> {
    set i | 0 <= i < |ids| :: ids[i]
  }

  /** Comparing sizes decides whether identifiers repeat. */
  lemma {:induction false} SizesDecideDistinct(ids: seq<string>)
    ensures |Elements(ids)| <= |ids|
    ensures |Elements(ids)| == |ids| <==> Distinct(ids)
    decreases |ids|
  {
    if ids != [] {
      var n := |ids| - 1;
      var front := ids[..n];
      SizesDecideDistinct(front);
      assert Elements(ids) == Elements(front) + {ids[n]};
      assert ids[n] in Elements(front) <==> exists i :: 0 <= i < n && ids[i] == ids[n] by {
        assert forall i :: 0 <= i < n ==> front[i] == ids[i];
      }
      if Distinct(ids) {
        assert Distinct(front);
      }
      if Distinct(front) && ids[n] !in Elements(front) {
        assert forall i :: 0 <= i < n ==> front[i] == ids[i] && ids[i] in Elements(front);
      }
    }
  }

  function GraphOf(fs: seq<Feature>): Graph {
    if fs == [] then map[] else
      var n := |fs| - 1;
      GraphOf(fs[..n])[fs[n].id := fs[n].dependsOn]
  }

  lemma {:induction false} GraphHasIds(fs: seq<Feature>)
    ensures GraphOf(fs).Keys == Elements(Ids(fs))
    decreases |fs|
  {
    if fs != [] {
      var n := |fs| - 1;
      GraphHasIds(fs[..n]);
      assert Ids(fs) == Ids(fs[..n]) + [fs[n].id];
      var a, b := Ids(fs[..n]), Ids(fs);
      forall x ensures x in Elements(b) <==> x in Elements(a) + {b[n]} {
        assert forall i :: 0 <= i < n ==> a[i] == b[i];
      }
    }
  }

  lemma {:induction false} GraphHoldsDependencies(fs: seq<Feature>, i: nat)
    requires Distinct(Ids(fs)) && i < |fs|
    ensures fs[i].id in GraphOf(fs) && GraphOf(fs)[fs[i].id] == fs[i].dependsOn
    decreases |fs|
  {
    var n := |fs| - 1;
    assert Ids(fs)[i] == fs[i].id && Ids(fs)[n] == fs[n].id;
    if i < n {
      assert Distinct(Ids(fs[..n])) by {
        assert forall j :: 0 <= j < n ==> Ids(fs[..n])[j] == Ids(fs)[j];
      }
      GraphHoldsDependencies(fs[..n], i);
    }
  }

  // ----- the same, said of the features

  ghost predicate Named(fs: seq<Feature>, id: string) {
    exists j :: 0 <= j < |fs| && fs[j].id == id
  }

  /** Some feature depends on this identifier, and none has it. */
  ghost predicate Unnamed(fs: seq<Feature>, id: string) {
    !Named(fs, id) && exists i :: 0 <= i < |fs| && id in fs[i].dependsOn
  }

  /** Features that each depend on the next, the last on the first. */
  ghost predicate Ring(fs: seq<Feature>, c: seq<nat>) {
    && c != [] && (forall k :: 0 <= k < |c| ==> c[k] < |fs|)
    && (forall k :: 0 <= k < |c| - 1 ==> fs[c[k + 1]].id in fs[c[k]].dependsOn)
    && fs[c[0]].id in fs[c[|c| - 1]].dependsOn
  }

  /** What an error says of the features. */
  ghost predicate Explains(fs: seq<Feature>, e: GraphError) {
    match e
    case CycleAt(node) => exists c: seq<nat> :: Ring(fs, c) && fs[c[0]].id == node
    case UnknownDependency(dependency) => Unnamed(fs, dependency)
  }

  /** Every dependency is some feature's identifier, and no feature depends on itself through others. */
  ghost predicate Ordered(fs: seq<Feature>) {
    (forall id :: !Unnamed(fs, id)) && forall c: seq<nat> :: !Ring(fs, c)
  }

  /** The nodes are the features, each with its dependencies. */
  ghost predicate Reflects(g: Graph, fs: seq<Feature>) {
    && (forall i :: 0 <= i < |fs| ==> fs[i].id in g && g[fs[i].id] == fs[i].dependsOn)
    && forall a :: a in g ==> Named(fs, a)
  }

  lemma GraphReflects(fs: seq<Feature>)
    requires Distinct(Ids(fs))
    ensures Reflects(GraphOf(fs), fs)
  {
    GraphHasIds(fs);
    assert forall j :: 0 <= j < |fs| ==> Ids(fs)[j] == fs[j].id;
    forall i | 0 <= i < |fs| ensures fs[i].id in GraphOf(fs) && GraphOf(fs)[fs[i].id] == fs[i].dependsOn {
      GraphHoldsDependencies(fs, i);
    }
  }

  lemma MissingIffUnnamed(g: Graph, fs: seq<Feature>, id: string)
    requires Reflects(g, fs)
    ensures Missing(g, id) <==> Unnamed(fs, id)
  {
    if Missing(g, id) {
      var a :| Edge(g, a, id);
      assert Named(fs, a);
    }
    if Unnamed(fs, id) {
      var i :| 0 <= i < |fs| && id in fs[i].dependsOn;
      assert Edge(g, fs[i].id, id);
    }
  }

  /** The features along a walk that ends in the graph. */
  lemma {:induction false} FeaturesAlong(g: Graph, fs: seq<Feature>, p: seq<string>) returns (c: seq<nat>)
    requires Reflects(g, fs) && Walk(g, p) && p[|p| - 1] in g
    ensures |c| == |p| && forall k :: 0 <= k < |p| ==> c[k] < |fs| && fs[c[k]].id == p[k]
    decreases |p|
  {
    assert Named(fs, p[0]) by {
      assert |p| > 1 ==> Edge(g, p[0], p[1]);
    }
    var i :| 0 <= i < |fs| && fs[i].id == p[0];
    c := [i];
    if |p| > 1 {
      forall k | 0 <= k < |p[1..]| - 1 ensures Edge(g, p[1..][k], p[1..][k + 1]) {
        assert Edge(g, p[k + 1], p[k + 2]);
      }
      var rest := FeaturesAlong(g, fs, p[1..]);
      c := [i] + rest;
    }
  }

  lemma CycleIsRing(g: Graph, fs: seq<Feature>, node: string) returns (c: seq<nat>)
    requires Reflects(g, fs) && OnCycle(g, node)
    ensures Ring(fs, c) && fs[c[0]].id == node
  {
    var p :| Walk(g, p) && |p| > 1 && p[0] == node && p[|p| - 1] == node;
    assert Edge(g, p[0], p[1]);
    var all := FeaturesAlong(g, fs, p);
    forall k | 0 <= k < |p| - 1 ensures p[k + 1] in fs[all[k]].dependsOn {
      assert Edge(g, p[k], p[k + 1]);
    }
    c := all[..|all| - 1];
  }

  /** The identifiers round a ring, the first again at the end. */
  function IdsAlong(fs: seq<Feature>, c: seq<nat>): (p: seq<string>)
    requires c != [] && forall k :: 0 <= k < |c| ==> c[k] < |fs|
    ensures |p| == |c| + 1 && p[|c|] == fs[c[0]].id && forall k :: 0 <= k < |c| ==> p[k] == fs[c[k]].id
  {
    seq(|c|, k requires 0 <= k < |c| => fs[c[k]].id) + [fs[c[0]].id]
  }

  lemma RingIsCycle(g: Graph, fs: seq<Feature>, c: seq<nat>)
    requires Reflects(g, fs) && Ring(fs, c)
    ensures OnCycle(g, fs[c[0]].id)
  {
    var p := IdsAlong(fs, c);
    forall k | 0 <= k < |p| - 1 ensures Edge(g, p[k], p[k + 1]) {
      assert p[k] == fs[c[k]].id;
    }
    assert Walk(g, p);
  }

  lemma JustifiedIffExplained(g: Graph, fs: seq<Feature>, e: GraphError)
    requires Reflects(g, fs)
    ensures Justified(g, e) <==> Explains(fs, e)
  {
    match e
    case UnknownDependency(dependency) => MissingIffUnnamed(g, fs, dependency);
    case CycleAt(node) =>
      if OnCycle(g, node) {
        var c := CycleIsRing(g, fs, node);
      }
      if c: seq<nat> :| Ring(fs, c) && fs[c[0]].id == node {
        RingIsCycle(g, fs, c);
      }
  }

  /** A graph that reflects the features is sound exactly when they are. */
  lemma FeaturesDecide(g: Graph, fs: seq<Feature>)
    requires Reflects(g, fs)
    ensures Known(g) && Acyclic(g) <==> Ordered(fs)
  {
    forall id ensures Missing(g, id) <==> Unnamed(fs, id) {
      MissingIffUnnamed(g, fs, id);
    }
    forall c: seq<nat> | Ring(fs, c) ensures OnCycle(g, fs[c[0]].id) {
      RingIsCycle(g, fs, c);
    }
    forall node | OnCycle(g, node) ensures exists c: seq<nat> :: Ring(fs, c) {
      var c := CycleIsRing(g, fs, node);
    }
  }

  // ----- a feature on its own

  /** A feature that draws no complaint of its own. */
  predicate WellSpecified(f: Feature) {
    && f.priority in {"P0", "P1", "P2", "P3", "P4"}
    && f.decisionStatus == "PROPOSED" && f.verification == "NOT_RUN_HERE"
    && f.deliverables != [] && f.acceptance != []
    && (f.priority == "P3" ==> f.releaseRelationship == "required-frozen-v1")
  }

  /** A complaint that this feature deserves. */
  predicate Complains(f: Feature, e: FeatureError) {
    match e
    case UnknownPriority(id) => id == f.id && f.priority !in {"P0", "P1", "P2", "P3", "P4"}
    case UnearnedVerdict(id) => id == f.id && !(f.decisionStatus == "PROPOSED" && f.verification == "NOT_RUN_HERE")
    case EmptySpecification(id) => id == f.id && !(f.deliverables != [] && f.acceptance != [])
    case DowngradedScope(id) => id == f.id && f.priority == "P3" && f.releaseRelationship != "required-frozen-v1"
    case _ => false
  }

  function Complaints(f: Feature): (es: seq<FeatureError>)
    ensures es == [] <==> WellSpecified(f)
    ensures forall e :: e in es <==> Complains(f, e)
  {
    (if f.priority in {"P0", "P1", "P2", "P3", "P4"} then [] else [UnknownPriority(f.id)])
    + (if f.decisionStatus != "PROPOSED" || f.verification != "NOT_RUN_HERE" then [UnearnedVerdict(f.id)] else [])
    + (if f.deliverables == [] || f.acceptance == [] then [EmptySpecification(f.id)] else [])
    + (if f.priority == "P3" && f.releaseRelationship != "required-frozen-v1" then [DowngradedScope(f.id)] else [])
  }

  function AllComplaints(fs: seq<Feature>): (es: seq<FeatureError>)
    ensures es == [] <==> forall i :: 0 <= i < |fs| ==> WellSpecified(fs[i])
    ensures DuplicateIds !in es && forall e :: e in es ==> !e.InGraph?
  {
    if fs == [] then [] else
      var n := |fs| - 1;
      AllComplaints(fs[..n]) + Complaints(fs[n])
  }

  function Gather<T, U>(xs: seq<T>, own: T -> seq<U>): seq<U> {
    if xs == [] then [] else
      var n := |xs| - 1;
      Gather(xs[..n], own) + own(xs[n])
  }

  lemma {:induction false} GatherKeeps<T, U>(xs: seq<T>, own: T -> seq<U>, i: nat, e: U)
    requires i < |xs| && e in own(xs[i])
    ensures e in Gather(xs, own)
    decreases |xs|
  {
    var n := |xs| - 1;
    if i < n {
      GatherKeeps(xs[..n], own, i, e);
    }
  }

  lemma {:induction false} GatheredFrom<T, U>(xs: seq<T>, own: T -> seq<U>, e: U) returns (i: nat)
    requires e in Gather(xs, own)
    ensures i < |xs| && e in own(xs[i])
    decreases |xs|
  {
    var n := |xs| - 1;
    if e in own(xs[n]) {
      i := n;
    } else {
      i := GatheredFrom(xs[..n], own, e);
    }
  }

  lemma {:induction false} ComplaintsGathered(fs: seq<Feature>, own: Feature -> seq<FeatureError>)
    requires forall f: Feature :: own(f) == Complaints(f)
    ensures AllComplaints(fs) == Gather(fs, own)
    decreases |fs|
  {
    if fs != [] {
      var n := |fs| - 1;
      ComplaintsGathered(fs[..n], own);
      assert own(fs[n]) == Complaints(fs[n]);
    }
  }

  /** The complaints are exactly those that some feature deserves. */
  lemma ComplaintsCollected(fs: seq<Feature>, e: FeatureError)
    ensures e in AllComplaints(fs) <==> exists i :: 0 <= i < |fs| && Complains(fs[i], e)
  {
    var own := (f: Feature) => Complaints(f);
    ComplaintsGathered(fs, own);
    if e in Gather(fs, own) {
      var i := GatheredFrom(fs, own, e);
      assert Complains(fs[i], e);
    }
    if i :| 0 <= i < |fs| && Complains(fs[i], e) {
      GatherKeeps(fs, own, i, e);
    }
  }

  /** Visits every node; its verdict is exact, and on success the finished nodes are all of them, in an order
      that puts each after its dependencies. */
  method Traverse(g: Graph, ids: seq<string>) returns (r: Outcome<GraphError>, ghost order: seq<string>)
    requires g.Keys == Elements(ids)
    ensures r.Pass? <==> Known(g) && Acyclic(g)
    ensures r.Fail? ==> Justified(g, r.error)
    ensures r.Pass? ==> Topological(g, order) && forall a :: a in g <==> a in order
  {
    var t := new Traversal(g);
    order := [];
    for i := 0 to |ids|
      invariant t.Valid() && t.graph == g && t.stack == []
      invariant forall k :: 0 <= k < i ==> ids[k] in t.done
    {
      assert ids[i] in Elements(ids);
      r := t.Visit(ids[i]);
      if r.Fail? {
        return r, [];
      }
    }
    order := t.order;
    assert forall a :: a in g ==> a in order;
    CompleteOrderDecides(g, order);
    return Pass, order;
  }

  /** No error at all exactly when identifiers are distinct, every dependency is some feature's identifier, no chain of
      dependencies closes, and every feature is well specified. */
  method GraphErrors(fs: seq<Feature>) returns (errors: seq<FeatureError>)
    ensures !Distinct(Ids(fs)) ==> errors == [DuplicateIds]
    ensures Distinct(Ids(fs)) && Ordered(fs) ==> errors == AllComplaints(fs)
    ensures Distinct(Ids(fs)) && !Ordered(fs) ==>
              exists e :: Explains(fs, e) && errors == [InGraph(e)] + AllComplaints(fs)
    ensures errors == [] <==>
              Distinct(Ids(fs)) && Ordered(fs) && forall i :: 0 <= i < |fs| ==> WellSpecified(fs[i])
  {
    var ids := Ids(fs);
    SizesDecideDistinct(ids);
    if |ids| != |Elements(ids)| {
      return [DuplicateIds];
    }
    errors := CheckedErrors(fs, GraphOf(fs));
    GraphReflects(fs);
    FeaturesDecide(GraphOf(fs), fs);
    if !Ordered(fs) {
      var e :| Justified(GraphOf(fs), e) && errors == [InGraph(e)] + AllComplaints(fs);
      JustifiedIffExplained(GraphOf(fs), fs, e);
    }
  }

  /** The errors of a list whose identifiers are distinct. */
  method CheckedErrors(fs: seq<Feature>, g: Graph) returns (errors: seq<FeatureError>)
    requires Distinct(Ids(fs)) && g == GraphOf(fs)
    ensures Known(g) && Acyclic(g) ==> errors == AllComplaints(fs)
    ensures !(Known(g) && Acyclic(g)) ==> exists e :: Justified(g, e) && errors == [InGraph(e)] + AllComplaints(fs)
  {
    GraphHasIds(fs);
    var r, _ := Traverse(g, Ids(fs));
    if r.Fail? {
      errors := AddComplaints([InGraph(r.error)], fs);
    } else {
      errors := AddComplaints([], fs);
      assert [] + AllComplaints(fs) == AllComplaints(fs);
    }
  }

  method AddComplaints(found: seq<FeatureError>, fs: seq<Feature>) returns (errors: seq<FeatureError>)
    ensures errors == found + AllComplaints(fs)
  {
    errors := found;
    Started(found, fs);
    for i := 0 to |fs|
      invariant errors == Sofar(found, fs, i)
    {
      OneMoreFeature(found, fs, i);
      errors := errors + Complaints(fs[i]);
    }
    assert fs[..|fs|] == fs;
  }

  function Sofar(found: seq<FeatureError>, fs: seq<Feature>, i: nat): seq<FeatureError>
    requires i <= |fs|
  {
    found + AllComplaints(fs[..i])
  }

  lemma Started(found: seq<FeatureError>, fs: seq<Feature>)
    ensures Sofar(found, fs, 0) == found
  {
  }

  lemma OneMoreFeature(found: seq<FeatureError>, fs: seq<Feature>, i: nat)
    requires i < |fs|
    ensures Sofar(found, fs, i + 1) == Sofar(found, fs, i) + Complaints(fs[i])
  {
    assert fs[..i + 1][..i] == fs[..i];
  }
}
