/** The check that no value is derived, directly or through others, from itself. */
module Cycles {
  import opened Host

  datatype Spec =
    | Interface(addresses: seq<Option<string>>)   // for each address, the interface its prefix comes from
    | Tunnel(localFrom: Option<string>)
    | OtherSpec

  datatype Resource = Resource(name: string, spec: Spec)

  datatype Field = AddressField(i: nat) | LocalAddressField

  datatype Edge = Edge(target: nat, field: Field)

  datatype Problem = ReferenceCycle(resource: nat, field: Field, path: seq<nat>)

  // ----- the graph -------------------------------------------------------------------

  predicate Names(r: Resource, name: string) { r.spec.Interface? && r.name == name && name != "" }

  /** The first interface of every name. */
  ghost predicate Indexes(index: map<string, nat>, resources: seq<Resource>, count: nat)
    requires count <= |resources|
  {
    && (forall n :: n in index ==>
          index[n] < count && Names(resources[index[n]], n)
          && (forall k :: 0 <= k < index[n] ==> !Names(resources[k], n)))
    && forall k :: 0 <= k < count && Names(resources[k], resources[k].name) ==> resources[k].name in index
  }

  function EdgeTo(index: map<string, nat>, name: Option<string>, field: Field): seq<Edge> {
    if name.Some? && name.value in index then [Edge(index[name.value], field)] else []
  }

  function AddressEdges(index: map<string, nat>, addresses: seq<Option<string>>, i: nat): seq<Edge>
    requires i <= |addresses|
    decreases |addresses| - i
  {
    if i == |addresses| then []
    else EdgeTo(index, addresses[i], AddressField(i)) + AddressEdges(index, addresses, i + 1)
  }

  function EdgesOf(index: map<string, nat>, r: Resource): seq<Edge> {
    match r.spec
    case Interface(addresses) => AddressEdges(index, addresses, 0)
    case Tunnel(from) => EdgeTo(index, from, LocalAddressField)
    case OtherSpec => []
  }

  /** The first resource to take a name keeps it. */
  method BuildIndex(resources: seq<Resource>) returns (index: map<string, nat>)
    ensures Indexes(index, resources, |resources|)
  {
    index := map[];
    for i := 0 to |resources|
      invariant Indexes(index, resources, i)
    {
      var r := resources[i];
      if r.spec.Interface? && r.name != "" && r.name !in index { index := index[r.name := i]; }
    }
  }

  // ----- what is derived from what ---------------------------------------------------

  /** The first interface of a name: the one a value derived by that name is derived from. */
  ghost predicate FirstNamed(resources: seq<Resource>, name: string, b: nat) {
    && b < |resources| && resources[b].spec.Interface? && resources[b].name == name && name != ""
    && forall k :: 0 <= k < b ==> !(resources[k].spec.Interface? && resources[k].name == name)
  }

  /** A field of resource a takes its value from resource b: an address of an interface from the
      interface its prefix comes from, the local address of a tunnel from the one it names. */
  ghost predicate Derives(resources: seq<Resource>, a: nat, field: Field, b: nat) {
    a < |resources|
    && match field
       case AddressField(i) =>
         && resources[a].spec.Interface? && i < |resources[a].spec.addresses|
         && resources[a].spec.addresses[i].Some?
         && FirstNamed(resources, resources[a].spec.addresses[i].value, b)
       case LocalAddressField =>
         && resources[a].spec.Tunnel? && resources[a].spec.localFrom.Some?
         && FirstNamed(resources, resources[a].spec.localFrom.value, b)
  }

  lemma {:induction false} IndexFinds(index: map<string, nat>, resources: seq<Resource>, name: string, b: nat)
    requires Indexes(index, resources, |resources|)
    ensures name in index && index[name] == b <==> FirstNamed(resources, name, b)
  {
    if FirstNamed(resources, name, b) { assert Names(resources[b], resources[b].name); }
  }

  lemma {:induction false} AddressEdgesAre(index: map<string, nat>, addresses: seq<Option<string>>, i: nat)
    requires i <= |addresses|
    ensures forall e :: e in AddressEdges(index, addresses, i) <==>
              e.field.AddressField? && i <= e.field.i < |addresses| && e in EdgeTo(index, addresses[e.field.i], e.field)
    decreases |addresses| - i
  {
    if i < |addresses| { AddressEdgesAre(index, addresses, i + 1); }
  }

  /** The edges of a resource are the fields of it that take their value from another. */
  lemma {:induction false} EdgesAre(index: map<string, nat>, resources: seq<Resource>, a: nat)
    requires Indexes(index, resources, |resources|) && a < |resources|
    ensures forall e :: e in EdgesOf(index, resources[a]) <==> Derives(resources, a, e.field, e.target)
  {
    var spec := resources[a].spec;
    if spec.Interface? { AddressEdgesAre(index, spec.addresses, 0); }
    forall e ensures e in EdgesOf(index, resources[a]) <==> Derives(resources, a, e.field, e.target) {
      var name := if spec.Interface? && e.field.AddressField? && e.field.i < |spec.addresses|
                  then spec.addresses[e.field.i] else if spec.Tunnel? then spec.localFrom else None;
      if name.Some? { IndexFinds(index, resources, name.value, e.target); }
    }
  }

  method DerivationEdges(index: map<string, nat>, r: Resource) returns (edges: seq<Edge>)
    ensures edges == EdgesOf(index, r)
  {
    edges := [];
    match r.spec
    case Interface(addresses) =>
      for i := 0 to |addresses|
        invariant edges + AddressEdges(index, addresses, i) == AddressEdges(index, addresses, 0)
      {
        if addresses[i].Some? && addresses[i].value in index {
          edges := edges + [Edge(index[addresses[i].value], AddressField(i))];
        }
      }
    case Tunnel(from) =>
      if from.Some? && from.value in index { edges := [Edge(index[from.value], LocalAddressField)]; }
    case OtherSpec =>
  }

  datatype Graph = Graph(resources: seq<Resource>, index: map<string, nat>)

  ghost predicate GraphOk(g: Graph) { Indexes(g.index, g.resources, |g.resources|) }

  ghost predicate Leads(g: Graph, a: nat, b: nat) { exists field :: Derives(g.resources, a, field, b) }

  ghost predicate Walks(g: Graph, path: seq<nat>) {
    forall i :: 0 <= i < |path| - 1 ==> Leads(g, path[i], path[i + 1])
  }

  ghost predicate ClosedWalk(g: Graph, path: seq<nat>) {
    |path| >= 2 && path[0] == path[|path| - 1] && Walks(g, path)
  }

  /** What is reported: the walk comes back to where it started by the field that is named. */
  ghost predicate Reported(g: Graph, p: Problem) {
    ClosedWalk(g, p.path) && p.path[|p.path| - 2] == p.resource && Derives(g.resources, p.resource, p.field, p.path[0])
  }

  // ----- the check -------------------------------------------------------------------

  datatype Mark = Unvisited | OnStack | Finished

  /** The resources in the order their walks ended, each after everything it derives from. */
  ghost predicate InOrder(g: Graph, ended: seq<nat>) {
    forall i, b :: 0 <= i < |ended| && Leads(g, ended[i], b) ==> b in ended[..i]
  }

  lemma {:induction false} RankFalls(g: Graph, ended: seq<nat>, path: seq<nat>, i: nat) returns (rank: nat)
    requires InOrder(g, ended) && Walks(g, path) && i < |path| && path[0] in ended
    ensures rank < |ended| && ended[rank] == path[i]
    ensures i > 0 ==> exists first: nat :: rank < first < |ended| && ended[first] == path[0]
  {
    if i == 0 {
      rank :| 0 <= rank < |ended| && ended[rank] == path[0];
    } else {
      var before := RankFalls(g, ended, path, i - 1);
      assert Leads(g, path[i - 1], path[i]);
      rank :| 0 <= rank < before && ended[..before][rank] == path[i];
    }
  }

  /** When every resource came after what it derives from, nothing derives from itself. */
  lemma {:induction false} NoCycleInOrder(g: Graph, ended: seq<nat>, path: seq<nat>)
    requires InOrder(g, ended) && (forall i, j :: 0 <= i < j < |ended| ==> ended[i] != ended[j])
    requires forall r: nat :: r < |g.resources| ==> r in ended
    ensures !ClosedWalk(g, path)
  {
    if ClosedWalk(g, path) {
      assert Leads(g, path[0], path[1]);
      var rank := RankFalls(g, ended, path, |path| - 1);
      assert false;
    }
  }

  lemma {:induction false} EdgesLead(g: Graph, r: nat, edges: seq<Edge>)
    requires GraphOk(g) && r < |g.resources| && edges == EdgesOf(g.index, g.resources[r])
    ensures forall i :: 0 <= i < |edges| ==>
              && Derives(g.resources, r, edges[i].field, edges[i].target)
              && Leads(g, r, edges[i].target) && edges[i].target < |g.resources|
  {
    EdgesAre(g.index, g.resources, r);
    assert forall i :: 0 <= i < |edges| ==> edges[i] in edges;
  }

  lemma {:induction false} AllFollowed(g: Graph, r: nat, edges: seq<Edge>, marks: seq<Mark>)
    requires GraphOk(g) && r < |g.resources| && edges == EdgesOf(g.index, g.resources[r])
    requires forall j :: 0 <= j < |edges| ==> edges[j].target < |marks| && marks[edges[j].target] == Finished
    ensures forall b: nat :: Leads(g, r, b) ==> b < |marks| && marks[b] == Finished
  {
    EdgesAre(g.index, g.resources, r);
    forall b: nat | Leads(g, r, b) ensures b < |marks| && marks[b] == Finished {
      var field :| Derives(g.resources, r, field, b);
      assert Edge(b, field) in edges;
      var j :| 0 <= j < |edges| && edges[j] == Edge(b, field);
    }
  }

  class Checker {
    const graph: Graph
    var marks: seq<Mark>
    var stack: seq<nat>
    var problems: seq<Problem>
    ghost var ended: seq<nat>

    constructor (graph: Graph)
      requires GraphOk(graph)
      ensures this.graph == graph && problems == [] && Valid() && stack == [] && ended == []
      ensures forall r :: 0 <= r < |graph.resources| ==> marks[r] == Unvisited
    {
      this.graph := graph;
      marks := seq(|graph.resources|, _ => Unvisited);
      stack, problems, ended := [], [], [];
    }

    ghost predicate Shape()
      reads this
    {
      && |marks| == |graph.resources|
      && (forall i :: 0 <= i < |stack| ==> stack[i] < |marks|)
      && (forall r: nat :: r < |marks| ==> (marks[r] == OnStack <==> r in stack))
    }

    /** As long as nothing was found: the resources that are finished, in an order in which
        each comes after what it derives from. */
    ghost predicate Acyclic()
      reads this
    {
      && InOrder(graph, ended)
      && (forall i, j :: 0 <= i < j < |ended| ==> ended[i] != ended[j])
      && (forall i :: 0 <= i < |ended| ==> ended[i] < |marks|)
      && (forall r: nat :: r < |marks| ==> (marks[r] == Finished <==> r in ended))
    }

    ghost predicate Valid()
      reads this
    {
      && Shape() && Walks(graph, stack)
      && (forall p :: p in problems ==> Reported(graph, p))
      && (problems == [] ==> Acyclic())
    }

    ghost function Left(): set<nat>
      reads this
    {
      set r: nat | r < |marks| && marks[r] == Unvisited
    }

    method CyclePath(back: nat) returns (path: seq<nat>)
      requires stack != [] && back in stack && Walks(graph, stack) && Leads(graph, stack[|stack| - 1], back)
      ensures ClosedWalk(graph, path) && path[0] == back && path[|path| - 2] == stack[|stack| - 1]
    {
      var start := 0;
      while stack[start] != back
        invariant 0 <= start < |stack| && back in stack[start..]
        decreases |stack| - start
      {
        assert stack[start..] == [stack[start]] + stack[start + 1..];
        start := start + 1;
      }
      path := stack[start..] + [back];
      forall i | 0 <= i < |path| - 1 ensures Leads(graph, path[i], path[i + 1]) {
        if i < |path| - 2 { assert path[i] == stack[start + i] && path[i + 1] == stack[start + i + 1]; }
      }
    }

    /** Walks from one resource and says whether it came upon a cycle. */
    method Walk(r: nat) returns (found: bool)
      requires GraphOk(graph) && Valid() && r < |marks| && marks[r] != OnStack
      requires stack == [] || Leads(graph, stack[|stack| - 1], r)
      modifies this
      ensures Valid() && stack == old(stack) && |marks| == old(|marks|) && Left() <= old(Left())
      ensures marks[r] == Finished && forall k :: 0 <= k < |marks| && old(marks[k]) == Finished ==> marks[k] == Finished
      ensures if found then |problems| == |old(problems)| + 1 && old(problems) <= problems
          else problems == old(problems)
      decreases |Left()|, 1
    {
      if marks[r] == Finished { return false; }
      assert r in Left();
      ghost var before := Left();
      Enter(r);
      found := WalkEdges(r);
      Leave(r);
    }

    method Enter(r: nat)
      requires Valid() && r < |marks| && marks[r] == Unvisited
      requires stack == [] || Leads(graph, stack[|stack| - 1], r)
      modifies this
      ensures Valid() && stack == old(stack) + [r] && marks == old(marks)[r := OnStack]
      ensures problems == old(problems) && ended == old(ended) && Left() == old(Left()) - {r}
    {
      marks := marks[r := OnStack];
      stack := stack + [r];
    }

    method Leave(r: nat)
      requires Valid() && stack != [] && stack[|stack| - 1] == r && r !in stack[..|stack| - 1]
      requires problems == [] ==> forall b: nat :: Leads(graph, r, b) ==> b < |marks| && marks[b] == Finished
      modifies this
      ensures Valid() && stack == old(stack)[..|old(stack)| - 1] && marks == old(marks)[r := Finished]
          && problems == old(problems)
      ensures Left() == old(Left())
    {
      assert stack == stack[..|stack| - 1] + [r] && r in stack && marks[r] == OnStack;
      stack := stack[..|stack| - 1];
      marks := marks[r := Finished];
      if problems == [] {
        ghost var before := ended;
        assert r !in before;
        ended := ended + [r];
        forall i, b: nat | 0 <= i < |ended| && Leads(graph, ended[i], b) ensures b in ended[..i] {
          if i < |before| {
            assert ended[..i] == before[..i] && before[i] == ended[i];
          } else {
            assert ended[..i] == before;
          }
        }
        assert forall i, j :: 0 <= i < j < |ended| ==> ended[i] != ended[j];
        assert forall k: nat :: k in ended <==> k in before || k == r;
      }
    }

    /** Reports the cycle an edge closes. */
    method Found(r: nat, edge: Edge)
      requires Valid() && stack != [] && stack[|stack| - 1] == r && edge.target in stack
      requires Derives(graph.resources, r, edge.field, edge.target)
      modifies this`problems
      ensures Valid() && |problems| == |old(problems)| + 1 && old(problems) <= problems
    {
      assert Leads(graph, r, edge.target);
      var path := CyclePath(edge.target);
      problems := problems + [ReferenceCycle(r, edge.field, path)];
    }

    method WalkEdges(r: nat) returns (found: bool)
      requires GraphOk(graph) && Valid() && stack != [] && stack[|stack| - 1] == r
      modifies this
      ensures Valid() && stack == old(stack) && |marks| == old(|marks|) && Left() <= old(Left())
      ensures forall k :: 0 <= k < |marks| && old(marks[k]) == Finished ==> marks[k] == Finished
      ensures if found then |problems| == |old(problems)| + 1 && old(problems) <= problems
          else problems == old(problems)
      ensures !found && problems == [] ==> forall b: nat :: Leads(graph, r, b) ==> b < |marks| && marks[b] == Finished
      decreases |Left()|, 2
    {
      var edges := DerivationEdges(graph.index, graph.resources[r]);
      EdgesLead(graph, r, edges);
      for i := 0 to |edges|
        invariant Valid() && stack == old(stack) && |marks| == old(|marks|) && Left() <= old(Left())
            && problems == old(problems)
        invariant forall k :: 0 <= k < |marks| && old(marks[k]) == Finished ==> marks[k] == Finished
        invariant forall j :: 0 <= j < i ==> edges[j].target < |marks| && marks[edges[j].target] == Finished
      {
        var edge := edges[i];
        if marks[edge.target] == OnStack {
          Found(r, edge);
          return true;
        }
        Smaller(Left(), old(Left()));
        found := Walk(edge.target);
        if found { return true; }
      }
      AllFollowed(graph, r, edges, marks);
      return false;
    }

    /** Reports a cycle exactly when there is one; every path it prints is a real one. */
    method Check()
      requires GraphOk(graph) && Valid() && stack == [] && problems == []
      requires forall r :: 0 <= r < |marks| ==> marks[r] == Unvisited
      modifies this
      ensures problems != [] <==> exists path :: ClosedWalk(graph, path)
      ensures forall p :: p in problems ==> Reported(graph, p)
    {
      for r := 0 to |graph.resources|
        invariant Valid() && stack == []
        invariant forall k :: 0 <= k < r ==> marks[k] == Finished
      {
        var found := Walk(r);
      }
      if problems == [] {
        forall path ensures !ClosedWalk(graph, path) { NoCycleInOrder(graph, ended, path); }
      } else {
        assert problems[0] in problems;
      }
    }
  }

  lemma {:induction false} Smaller(a: set<nat>, b: set<nat>)
    requires a <= b
    ensures |a| <= |b|
  {
    assert b == a + (b - a);
  }

  /** A configuration is refused for a reference cycle exactly when some resource derives,
      directly or through others, from itself; each path printed is such a derivation. */
  method CheckDerivationCycles(resources: seq<Resource>) returns (problems: seq<Problem>, graph: Graph)
    ensures graph.resources == resources && Indexes(graph.index, resources, |resources|)
    ensures problems != [] <==> exists path :: ClosedWalk(graph, path)
    ensures forall p :: p in problems ==> Reported(graph, p)
  {
    var index := BuildIndex(resources);
    var checker := new Checker(Graph(resources, index));
    checker.Check();
    problems, graph := checker.problems, checker.graph;
  }
}
