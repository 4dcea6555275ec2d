/**
 * The causal graph: named signal nodes, weighted directed edges kept
 * acyclic by refusing (and remembering) any edge that would close a cycle,
 * weight learning from receipts, pruning, ranking, and export to and import
 * from a plain dict.
 */
module Causal {
  import opened Wrappers
  import opened Decimal
  import opened Json

  type Edge = (string, string)

  // ---------------------------------------------------------------------
  // Paths and reachability

  /** `p` walks along edges of `es`, one node after another. */
  ghost predicate Path(es: set<Edge>, p: seq<string>) {
    |p| >= 1 && forall i | 0 <= i < |p| - 1 :: (p[i], p[i + 1]) in es
  }

  /** `b` can be reached from `a`, by zero or more edges. */
  ghost predicate Reachable(es: set<Edge>, a: string, b: string) {
    exists p :: Path(es, p) && p[0] == a && p[|p| - 1] == b
  }

  /** No edge's target leads back to its source (so there is no self-loop either). */
  ghost predicate Acyclic(es: set<Edge>) {
    forall e | e in es :: !Reachable(es, e.1, e.0)
  }

  lemma ReachRefl(es: set<Edge>, a: string)
    ensures Reachable(es, a, a)
  {
    assert Path(es, [a]);
  }

  lemma ReachStep(es: set<Edge>, a: string, b: string, c: string)
    requires Reachable(es, a, b) && (b, c) in es
    ensures Reachable(es, a, c)
  {
    var p :| Path(es, p) && p[0] == a && p[|p| - 1] == b;
    var q := p + [c];
    assert forall i | 0 <= i < |q| - 1 :: (q[i], q[i + 1]) in es by {
      forall i | 0 <= i < |q| - 1 ensures (q[i], q[i + 1]) in es {
        if i < |p| - 1 {
          assert q[i] == p[i] && q[i + 1] == p[i + 1];
        }
      }
    }
    assert Path(es, q);
  }

  lemma PathConcat(es: set<Edge>, p: seq<string>, q: seq<string>)
    requires Path(es, p) && Path(es, q) && p[|p| - 1] == q[0]
    ensures Path(es, p + q[1..])
  {
    var r := p + q[1..];
    forall i | 0 <= i < |r| - 1 ensures (r[i], r[i + 1]) in es {
      if i < |p| - 1 {
        assert r[i] == p[i] && r[i + 1] == p[i + 1];
      } else {
        assert r[i] == q[i - |p| + 1] && r[i + 1] == q[i - |p| + 2];
      }
    }
  }

  lemma ReachTrans(es: set<Edge>, a: string, b: string, c: string)
    requires Reachable(es, a, b) && Reachable(es, b, c)
    ensures Reachable(es, a, c)
  {
    var p :| Path(es, p) && p[0] == a && p[|p| - 1] == b;
    var q :| Path(es, q) && q[0] == b && q[|q| - 1] == c;
    PathConcat(es, p, q);
    var r := p + q[1..];
    assert r[0] == a && r[|r| - 1] == c;
  }

  lemma PathMono(es: set<Edge>, fs: set<Edge>, p: seq<string>)
    requires Path(es, p) && es <= fs
    ensures Path(fs, p)
  {
  }

  /** Along a path that starts inside a set closed under the edges, every node stays inside. */
  lemma {:induction false} PathStaysIn(es: set<Edge>, inside: set<string>, p: seq<string>, n: nat)
    requires Path(es, p) && p[0] in inside && n < |p|
    requires forall e | e in es && e.0 in inside :: e.1 in inside
    ensures p[n] in inside
  {
    if n > 0 {
      PathStaysIn(es, inside, p, n - 1);
      assert (p[n - 1], p[n]) in es;
    }
  }

  /** Nothing outside a closed set is reachable from inside it. */
  lemma ClosedUnreachable(es: set<Edge>, inside: set<string>, a: string, b: string)
    requires a in inside && b !in inside
    requires forall e | e in es && e.0 in inside :: e.1 in inside
    ensures !Reachable(es, a, b)
  {
    if Reachable(es, a, b) {
      var p :| Path(es, p) && p[0] == a && p[|p| - 1] == b;
      PathStaysIn(es, inside, p, |p| - 1);
    }
  }

  /** A walk in a subgraph is a walk in the whole graph. */
  lemma ReachMono(fs: set<Edge>, es: set<Edge>)
    requires fs <= es
    ensures forall a, b :: Reachable(fs, a, b) ==> Reachable(es, a, b)
  {
    forall a, b | Reachable(fs, a, b) ensures Reachable(es, a, b) {
      var p :| Path(fs, p) && p[0] == a && p[|p| - 1] == b;
      PathMono(fs, es, p);
    }
  }

  /** A subgraph of an acyclic graph is acyclic. */
  lemma AcyclicSubset(es: set<Edge>, fs: set<Edge>)
    requires Acyclic(es) && fs <= es
    ensures Acyclic(fs)
  {
    ReachMono(fs, es);
  }

  lemma AcyclicNoSelfLoop(es: set<Edge>, x: string)
    requires Acyclic(es)
    ensures (x, x) !in es
  {
    ReachRefl(es, x);
  }

  /**
   * Cut a path at the first visit to `s`: the part before uses no edge leaving
   * `s`, so a path to `s` with the new edge `(s, t)` is a path without it.
   */
  lemma {:induction false} ReachBeforeNewEdge(es: set<Edge>, s: string, t: string, p: seq<string>)
    requires Path(es + {(s, t)}, p) && p[|p| - 1] == s
    ensures Reachable(es, p[0], s)
    decreases |p|
  {
    var k :| 0 <= k < |p| && p[k] == s && forall j | 0 <= j < k :: p[j] != s by {
      FirstIndex(p, s);
    }
    var q := p[..k + 1];
    forall i | 0 <= i < |q| - 1 ensures (q[i], q[i + 1]) in es {
      assert (p[i], p[i + 1]) in es + {(s, t)};
      assert p[i] != s;
    }
    assert Path(es, q);
  }

  lemma FirstIndex(p: seq<string>, s: string)
    requires s in p
    ensures exists k :: 0 <= k < |p| && p[k] == s && forall j | 0 <= j < k :: p[j] != s
  {
    var k := 0;
    while p[k] != s
      invariant 0 <= k < |p| && s in p[k..]
      invariant forall j | 0 <= j < k :: p[j] != s
      decreases |p| - k
    {
      k := k + 1;
    }
  }

  /** Adding an edge whose target does not reach its source keeps the graph acyclic. */
  lemma AddEdgeAcyclic(es: set<Edge>, s: string, t: string)
    requires Acyclic(es) && !Reachable(es, t, s)
    ensures Acyclic(es + {(s, t)})
  {
    var fs := es + {(s, t)};
    // Any walk in the new graph that ends at s avoids the new edge.
    assert forall x :: Reachable(fs, x, s) ==> Reachable(es, x, s) by {
      forall x | Reachable(fs, x, s) ensures Reachable(es, x, s) {
        var p :| Path(fs, p) && p[0] == x && p[|p| - 1] == s;
        ReachBeforeNewEdge(es, s, t, p);
      }
    }
    forall e | e in fs ensures !Reachable(fs, e.1, e.0) {
      if Reachable(fs, e.1, e.0) {
        var p :| Path(fs, p) && p[0] == e.1 && p[|p| - 1] == e.0;
        if e == (s, t) {
        } else if i :| 0 <= i < |p| - 1 && (p[i], p[i + 1]) == (s, t) {
          CycleThroughEdge(fs, p, i, e);
        } else {
          assert Path(es, p);
        }
      }
    }
  }

  /**
   * A cycle `e.1 ~> e.0 -> e.1` that passes over the edge `(p[i], p[i + 1])`
   * lets `p[i + 1]` reach `p[i]`: follow the rest of the cycle round.
   */
  lemma CycleThroughEdge(fs: set<Edge>, p: seq<string>, i: int, e: Edge)
    requires e in fs && Path(fs, p) && p[0] == e.1 && p[|p| - 1] == e.0 && 0 <= i < |p| - 1
    ensures Reachable(fs, p[i + 1], p[i])
  {
    var before, after := p[..i + 1], p[i + 1..];
    assert Path(fs, before) && Path(fs, after);
    assert before[0] == e.1 && before[|before| - 1] == p[i];
    assert after[0] == p[i + 1] && after[|after| - 1] == e.0;
    assert Path(fs, [e.0, e.1]);
    ReachTrans(fs, p[i + 1], e.0, e.1);
    ReachTrans(fs, p[i + 1], e.1, p[i]);
  }

  // ---------------------------------------------------------------------
  // The graph as a value, and what each operation does to it

  datatype Graph = Graph(nodes: set<string>, edges: map<Edge, real>, blocked: set<Edge>)

  const EmptyGraph: Graph := Graph({}, map[], {})

  function Min(a: real, b: real): real { if a <= b then a else b }
  function Max(a: real, b: real): real { if a >= b then a else b }

  /** `max(0.0, min(1.0, weight))`. */
  function Clamp01(w: real): (c: real)
    ensures 0.0 <= c <= 1.0
    ensures 0.0 <= w <= 1.0 ==> c == w
    ensures w < 0.0 ==> c == 0.0
    ensures w > 1.0 ==> c == 1.0
  {
    Max(0.0, Min(1.0, w))
  }

  /** The invariant of every graph built by the operations below: acyclic, endpoints known, weights in [0, 1]. */
  ghost predicate Inv(g: Graph) {
    && Acyclic(g.edges.Keys)
    && (forall e | e in g.edges :: e.0 in g.nodes && e.1 in g.nodes && 0.0 <= g.edges[e] <= 1.0)
  }

  /** `add_edge(source, target, weight)`: the new graph and the result. */
  ghost function AddEdgeSpec(g: Graph, s: string, t: string, w: real): (Graph, bool) {
    var nodes := g.nodes + {s, t};
    if Reachable(g.edges.Keys, t, s) then (Graph(nodes, g.edges, g.blocked + {(s, t)}), false)
    else (Graph(nodes, g.edges[(s, t) := Clamp01(w)], g.blocked), true)
  }

  /** `allow(inputs, target)`. */
  ghost predicate Allowed(g: Graph, inputs: seq<string>, target: string) {
    || (exists i | 0 <= i < |inputs| :: inputs[i] !in g.nodes)
    || target !in g.nodes
    || (forall i | 0 <= i < |inputs| ::
          && (inputs[i], target) !in g.blocked
          && ((inputs[i], target) in g.edges || !Reachable(g.edges.Keys, target, inputs[i])))
  }

  /** The current weight of an edge, 0.5 when it is absent. */
  function WeightOr(g: Graph, e: Edge): real {
    if e in g.edges then g.edges[e] else 0.5
  }

  /** One pass of the loop of `update_from_receipt`, for the edge `inp -> target`. */
  ghost function Learn(g: Graph, inp: string, target: string, status: Value, inc: real, dec: real): Graph {
    var e := (inp, target);
    if status == Str("accepted") then AddEdgeSpec(g, inp, target, Min(1.0, WeightOr(g, e) + inc)).0
    else if status == Str("rejected") then
      var w := Max(0.0, WeightOr(g, e) - dec);
      if w > 0.0 then AddEdgeSpec(g, inp, target, w).0
      else if e in g.edges then g.(edges := g.edges - {e})
      else g
    else g
  }

  /** The loop of `update_from_receipt` over the first `|inputs|` inputs. */
  ghost function LearnAll(g: Graph, inputs: seq<string>, target: string, status: Value, inc: real, dec: real): Graph
    decreases |inputs|
  {
    if inputs == [] then g
    else Learn(LearnAll(g, inputs[..|inputs| - 1], target, status, inc, dec), inputs[|inputs| - 1], target, status, inc, dec)
  }

  /**
   * What a `for x in v` loop sees of a JSON value: list items, the one-character
   * strings of a string, the keys of a dict; anything else is not iterable.
   */
  function Iterated(v: Value): Result<seq<Value>> {
    match v
    case List(items) => Ok(items)
    case Str(s) => Ok(seq(|s|, i requires 0 <= i < |s| => Str([s[i]])))
    case Dict(o) => Ok(seq(|o.keys|, i requires 0 <= i < |o.keys| => Str(o.keys[i])))
    case _ => Failure("TypeError: object is not iterable")
  }

  function AllStr(vs: seq<Value>): bool {
    forall i | 0 <= i < |vs| :: vs[i].Str?
  }

  function StrsOf(vs: seq<Value>): seq<string>
    requires AllStr(vs)
  {
    seq(|vs|, i requires 0 <= i < |vs| => vs[i].s)
  }

  /** The node names a value iterates over. */
  function Names(v: Value): Result<seq<string>> {
    match Iterated(v)
    case Failure(e) => Failure(e)
    case Ok(vs) => if AllStr(vs) then Ok(StrsOf(vs)) else Failure("node names that are not strings are outside the model")
  }

  /** What `update_from_receipt(receipt, hypothesis)` will do: nothing, or learn over these inputs for this target and status. */
  datatype Plan = Plan(inputs: seq<string>, target: string, status: Value)

  function ReceiptPlan(receipt: Obj, hypothesis: Obj): Result<Option<Plan>> {
    var meta := Get(hypothesis, "meta").GetOr(Dict(EmptyObj));
    if !meta.Dict? then Failure("AttributeError: 'meta' has no attribute 'get'")
    else
      var inputs := Get(meta.obj, "inputs").GetOr(List([]));
      var target := Get(meta.obj, "target").GetOr(Null);
      if !Truthy(inputs) || !Truthy(target) then Ok(None)
      else if !target.Str? then Failure("a target that is not a string is outside the model")
      else match Names(inputs)
        case Failure(e) => Failure(e)
        case Ok(names) => Ok(Some(Plan(names, target.s, Get(receipt, "status").GetOr(Str("")))))
  }

  /** `prune(threshold)`: the edges lighter than the threshold go. */
  function Pruned(g: Graph, threshold: real): Graph {
    g.(edges := map e | e in g.edges && g.edges[e] >= threshold :: g.edges[e])
  }

  /** Python's `len(xs[:k])` for a list of `n` items. */
  function SliceCount(n: nat, k: int): nat {
    if k >= 0 then (if k <= n then k else n)
    else if n + k >= 0 then n + k else 0
  }

  function Chosen(top: seq<(Edge, real)>): set<Edge> {
    set i | 0 <= i < |top| :: top[i].0
  }

  /**
   * `top_k(k)`: as many entries as the slice keeps, each a distinct edge with
   * its weight, heaviest first, and no edge left out heavier than one kept.
   */
  predicate IsTopK(edges: map<Edge, real>, k: int, top: seq<(Edge, real)>) {
    && |top| == SliceCount(|edges|, k)
    && (forall i | 0 <= i < |top| :: top[i].0 in edges && top[i].1 == edges[top[i].0])
    && (forall i, j | 0 <= i < j < |top| :: top[i].0 != top[j].0 && top[i].1 >= top[j].1)
    && (forall e, i | e in edges && e !in Chosen(top) && 0 <= i < |top| :: edges[e] <= top[i].1)
  }

  /** The defaults of `update_from_receipt` and `prune`. */
  const DefaultIncrease: real := 0.1
  const DefaultDecrease: real := 0.05
  const DefaultPruneThreshold: real := 0.1

  // ---------------------------------------------------------------------
  // Export and import

  function EdgeObj(e: Edge, w: real): Obj {
    Obj(["source", "target", "weight"], map["source" := Str(e.0), "target" := Str(e.1), "weight" := Num(Finite(w))])
  }

  function BlockedObj(e: Edge): Obj {
    Obj(["source", "target"], map["source" := Str(e.0), "target" := Str(e.1)])
  }

  function NodeItems(ns: seq<string>): seq<Value> {
    seq(|ns|, i requires 0 <= i < |ns| => Str(ns[i]))
  }

  function EdgeItems(es: seq<Edge>, w: map<Edge, real>): seq<Value> {
    seq(|es|, i requires 0 <= i < |es| => Dict(EdgeObj(es[i], if es[i] in w then w[es[i]] else 0.0)))
  }

  function BlockedItems(bs: seq<Edge>): seq<Value> {
    seq(|bs|, i requires 0 <= i < |bs| => Dict(BlockedObj(bs[i])))
  }

  /** The dict `to_dict` returns, for the iteration orders `ns`, `es` and `bs` of the three collections. */
  function DictOf(ns: seq<string>, es: seq<Edge>, bs: seq<Edge>, w: map<Edge, real>): Obj {
    Obj(["nodes", "edges", "blocked_edges"],
      map["nodes" := List(NodeItems(ns)), "edges" := List(EdgeItems(es, w)), "blocked_edges" := List(BlockedItems(bs))])
  }

  /** `xs` lists every member of `s` exactly once. */
  predicate Enumerates<T(==)>(xs: seq<T>, s: set<T>) {
    && (forall i, j | 0 <= i < j < |xs| :: xs[i] != xs[j])
    && (forall i | 0 <= i < |xs| :: xs[i] in s)
    && (forall x | x in s :: x in xs)
  }

  /** `d` is what `to_dict` returns for `g`, in some iteration order of its sets and of its edge dict. */
  ghost predicate Represents(d: Obj, g: Graph) {
    exists ns, es, bs :: Enumerates(ns, g.nodes) && Enumerates(es, g.edges.Keys) && Enumerates(bs, g.blocked)
      && d == DictOf(ns, es, bs, g.edges)
  }

  /** A stored weight: what `json` reads back as a number. */
  function WeightOf(v: Value): Result<real> {
    match v
    case Num(Finite(x)) => Ok(x)
    case Int(i) => Ok(i as real)
    case _ => Failure("a weight that is not a finite number is outside the model")
  }

  /** `edge["source"]`, `edge["target"]` (and `edge["weight"]`) of one item of the lists. */
  function EndsAt(v: Value): Result<Edge> {
    if !v.Dict? then Failure("TypeError: indices must be integers")
    else if "source" !in v.obj.vals then Failure("KeyError: 'source'")
    else if "target" !in v.obj.vals then Failure("KeyError: 'target'")
    else if !v.obj.vals["source"].Str? || !v.obj.vals["target"].Str? then Failure("node names that are not strings are outside the model")
    else Ok((v.obj.vals["source"].s, v.obj.vals["target"].s))
  }

  function EdgeAt(v: Value): Result<(Edge, real)> {
    match EndsAt(v)
    case Failure(e) => Failure(e)
    case Ok(e) =>
      if "weight" !in v.obj.vals then Failure("KeyError: 'weight'")
      else match WeightOf(v.obj.vals["weight"])
        case Failure(m) => Failure(m)
        case Ok(w) => Ok((e, w))
  }

  /** A collection filled item by item, and the error that stopped it, if any. */
  datatype Partial<T> = Partial(value: T, error: Option<string>)

  /** The `edges` loop of `from_dict`: later items overwrite earlier ones. */
  function LoadEdges(items: seq<Value>): Partial<map<Edge, real>>
    decreases |items|
  {
    if items == [] then Partial(map[], None)
    else
      var p := LoadEdges(items[..|items| - 1]);
      if p.error.Some? then p
      else match EdgeAt(items[|items| - 1])
        case Failure(e) => Partial(p.value, Some(e))
        case Ok(ew) => Partial(p.value[ew.0 := ew.1], None)
  }

  /** The `blocked_edges` loop of `from_dict`. */
  function LoadBlocked(items: seq<Value>): Partial<set<Edge>>
    decreases |items|
  {
    if items == [] then Partial({}, None)
    else
      var p := LoadBlocked(items[..|items| - 1]);
      if p.error.Some? then p
      else match EndsAt(items[|items| - 1])
        case Failure(e) => Partial(p.value, Some(e))
        case Ok(e) => Partial(p.value + {e}, None)
  }

  /** `self.edges = {}` and the loop over `data.get("edges", [])`. */
  function EdgesFrom(v: Value): Partial<map<Edge, real>> {
    match Iterated(v)
    case Failure(e) => Partial(map[], Some(e))
    case Ok(items) => LoadEdges(items)
  }

  /** `self.blocked_edges = set()` and the loop over `data.get("blocked_edges", [])`. */
  function BlockedFrom(v: Value): Partial<set<Edge>> {
    match Iterated(v)
    case Failure(e) => Partial({}, Some(e))
    case Ok(items) => LoadBlocked(items)
  }

  /**
   * `from_dict(data)` on a graph `g`: the fields as the method leaves them,
   * and the exception it raises. Each field is replaced in turn, so an
   * exception leaves the fields replaced so far, and a list read up to the bad item.
   */
  function Load(g: Graph, data: Obj): Partial<Graph> {
    match Names(Get(data, "nodes").GetOr(List([])))
    case Failure(e) => Partial(g, Some(e))
    case Ok(ns) =>
      var nodes := set x | x in ns;
      var pe := EdgesFrom(Get(data, "edges").GetOr(List([])));
      if pe.error.Some? then Partial(Graph(nodes, pe.value, g.blocked), pe.error)
      else
        var pb := BlockedFrom(Get(data, "blocked_edges").GetOr(List([])));
        Partial(Graph(nodes, pe.value, pb.value), pb.error)
  }

  // ---------------------------------------------------------------------
  // Properties of the operations

  lemma EmptyInv()
    ensures Inv(EmptyGraph)
  {
  }

  /** `add_edge` keeps the graph acyclic, its endpoints known and its weights in [0, 1]. */
  lemma AddEdgeKeeps(g: Graph, s: string, t: string, w: real)
    requires Inv(g)
    ensures Inv(AddEdgeSpec(g, s, t, w).0)
    ensures {s, t} <= AddEdgeSpec(g, s, t, w).0.nodes
  {
    if !Reachable(g.edges.Keys, t, s) {
      assert g.edges[(s, t) := Clamp01(w)].Keys == g.edges.Keys + {(s, t)};
      AddEdgeAcyclic(g.edges.Keys, s, t);
    }
  }

  /** A self-loop is always refused, and recorded as blocked. */
  lemma SelfLoopRefused(g: Graph, x: string, w: real)
    ensures AddEdgeSpec(g, x, x, w) == (Graph(g.nodes + {x}, g.edges, g.blocked + {(x, x)}), false)
  {
    ReachRefl(g.edges.Keys, x);
    assert g.nodes + {x, x} == g.nodes + {x};
  }

  /** In an acyclic graph, an edge already present can always be re-weighted. */
  lemma ExistingEdgeReweighted(g: Graph, s: string, t: string, w: real)
    requires Inv(g) && (s, t) in g.edges
    ensures AddEdgeSpec(g, s, t, w) == (Graph(g.nodes + {s, t}, g.edges[(s, t) := Clamp01(w)], g.blocked), true)
  {
  }

  /**
   * `allow` predicts `add_edge` on known nodes: an allowed pair is added, and
   * a refused pair that is not already blocked would be refused by `add_edge`.
   */
  lemma AllowPredictsAdd(g: Graph, inp: string, target: string, w: real)
    requires Inv(g) && inp in g.nodes && target in g.nodes
    ensures Allowed(g, [inp], target) ==> AddEdgeSpec(g, inp, target, w).1
    ensures !Allowed(g, [inp], target) && (inp, target) !in g.blocked ==> !AddEdgeSpec(g, inp, target, w).1
  {
    var one := [inp];
    assert one[0] == inp;
    if Allowed(g, one, target) {
      assert !(exists i | 0 <= i < |one| :: one[i] !in g.nodes);
      assert (inp, target) in g.edges || !Reachable(g.edges.Keys, target, inp);
    }
  }

  lemma LearnKeeps(g: Graph, inp: string, target: string, status: Value, inc: real, dec: real)
    requires Inv(g)
    ensures Inv(Learn(g, inp, target, status, inc, dec))
  {
    var e := (inp, target);
    if status == Str("accepted") {
      AddEdgeKeeps(g, inp, target, Min(1.0, WeightOr(g, e) + inc));
    } else if status == Str("rejected") {
      var w := Max(0.0, WeightOr(g, e) - dec);
      if w > 0.0 {
        AddEdgeKeeps(g, inp, target, w);
      } else if e in g.edges {
        AcyclicSubset(g.edges.Keys, (g.edges - {e}).Keys);
      }
    }
  }

  /** `update_from_receipt` keeps the invariant, whatever the receipt. */
  lemma {:induction false} LearnAllKeeps(g: Graph, inputs: seq<string>, target: string, status: Value, inc: real, dec: real)
    requires Inv(g)
    ensures Inv(LearnAll(g, inputs, target, status, inc, dec))
    decreases |inputs|
  {
    if inputs != [] {
      LearnAllKeeps(g, inputs[..|inputs| - 1], target, status, inc, dec);
      LearnKeeps(LearnAll(g, inputs[..|inputs| - 1], target, status, inc, dec), inputs[|inputs| - 1], target, status, inc, dec);
    }
  }

  /** A status other than accepted or rejected changes nothing. */
  lemma {:induction false} OtherStatusNoOp(g: Graph, inputs: seq<string>, target: string, status: Value, inc: real, dec: real)
    requires status != Str("accepted") && status != Str("rejected")
    ensures LearnAll(g, inputs, target, status, inc, dec) == g
    decreases |inputs|
  {
    if inputs != [] {
      OtherStatusNoOp(g, inputs[..|inputs| - 1], target, status, inc, dec);
    }
  }

  /** One input touches only its own edge to the target: every other edge keeps its presence and weight. */
  lemma LearnTouchesOneEdge(g: Graph, inp: string, target: string, status: Value, inc: real, dec: real, other: Edge)
    requires other != (inp, target)
    ensures var h := Learn(g, inp, target, status, inc, dec);
      && (other in h.edges <==> other in g.edges)
      && (other in g.edges ==> h.edges[other] == g.edges[other])
      && h.nodes <= g.nodes + {inp, target} && g.nodes <= h.nodes
      && h.blocked <= g.blocked + {(inp, target)} && g.blocked <= h.blocked
  {
  }

  /** "accepted" raises the edge to min(1, w + inc), w being 0.5 for a missing edge, unless the edge would close a cycle. */
  lemma AcceptedRaises(g: Graph, inp: string, target: string, inc: real, dec: real)
    requires Inv(g) && inc >= 0.0 && !Reachable(g.edges.Keys, target, inp)
    ensures var h := Learn(g, inp, target, Str("accepted"), inc, dec);
      (inp, target) in h.edges && h.edges[(inp, target)] == Min(1.0, WeightOr(g, (inp, target)) + inc)
  {
  }

  /** "rejected" lowers the edge to max(0, w - dec), w being 0.5 for a missing edge, and deletes it at 0. */
  lemma RejectedLowers(g: Graph, inp: string, target: string, inc: real, dec: real)
    requires Inv(g) && dec >= 0.0
    ensures var h := Learn(g, inp, target, Str("rejected"), inc, dec);
      var w := Max(0.0, WeightOr(g, (inp, target)) - dec);
      && (w > 0.0 && !Reachable(g.edges.Keys, target, inp) ==> (inp, target) in h.edges && h.edges[(inp, target)] == w)
      && (w == 0.0 ==> (inp, target) !in h.edges)
  {
  }

  /** `prune` keeps the invariant and removes exactly the edges lighter than the threshold. */
  lemma PruneKeeps(g: Graph, threshold: real)
    requires Inv(g)
    ensures Inv(Pruned(g, threshold))
  {
    AcyclicSubset(g.edges.Keys, Pruned(g, threshold).edges.Keys);
  }

  lemma PruneExact(g: Graph, threshold: real)
    ensures var h := Pruned(g, threshold);
      && h.nodes == g.nodes && h.blocked == g.blocked
      && (forall e :: e in h.edges <==> e in g.edges && g.edges[e] >= threshold)
      && (forall e | e in h.edges :: h.edges[e] == g.edges[e])
  {
  }

  lemma PruneIdempotent(g: Graph, threshold: real)
    ensures Pruned(Pruned(g, threshold), threshold) == Pruned(g, threshold)
  {
  }

  lemma {:induction false} ChosenCard(top: seq<(Edge, real)>)
    requires forall i, j | 0 <= i < j < |top| :: top[i].0 != top[j].0
    ensures |Chosen(top)| == |top|
    decreases |top|
  {
    if top != [] {
      var n := |top| - 1;
      ChosenSnoc(top[..n], top[n]);
      assert top[..n] + [top[n]] == top;
      ChosenCard(top[..n]);
      assert top[n].0 !in Chosen(top[..n]);
    }
  }

  /** With `k` at least the number of edges, `top_k` lists every edge. */
  lemma TopKAll(edges: map<Edge, real>, k: int, top: seq<(Edge, real)>)
    requires IsTopK(edges, k, top) && k >= |edges|
    ensures Chosen(top) == edges.Keys
  {
    ChosenCard(top);
    var missing := edges.Keys - Chosen(top);
    assert edges.Keys == Chosen(top) + missing;
    assert |missing| == 0;
  }

  // ---------------------------------------------------------------------
  // The invariant of the depth-first search

  /**
   * Everything on the stack or visited lies in `universe` and is reachable
   * from `target`; `source` has not been visited; `target` has been visited
   * or is on the stack; and every edge out of a visited node leads to a
   * visited node or to one on the stack.
   */
  ghost predicate Searching(es: set<Edge>, target: string, source: string, universe: set<string>,
                            visited: set<string>, stack: seq<string>) {
    && visited <= universe
    && (forall i | 0 <= i < |stack| :: stack[i] in universe && Reachable(es, target, stack[i]))
    && (forall x | x in visited :: Reachable(es, target, x))
    && source !in visited
    && (target in visited || target in stack)
    && (forall e | e in es && e.0 in visited :: e.1 in visited || e.1 in stack)
  }

  /** Visiting a new node of the universe leaves fewer unvisited: the search terminates. */
  lemma VisitShrinks(universe: set<string>, visited: set<string>, node: string)
    requires node in universe && node !in visited
    ensures |universe - (visited + {node})| < |universe - visited|
  {
    assert universe - visited == (universe - (visited + {node})) + {node};
  }

  /** Popping a node already visited keeps the invariant. */
  lemma SearchSkip(es: set<Edge>, target: string, source: string, universe: set<string>,
                   visited: set<string>, rest: seq<string>, node: string)
    requires Searching(es, target, source, universe, visited, rest + [node]) && node in visited
    ensures Searching(es, target, source, universe, visited, rest)
  {
    var stack := rest + [node];
    assert forall i | 0 <= i < |rest| :: rest[i] == stack[i];
    forall x | x in stack && x != node ensures x in rest {
      var i :| 0 <= i < |stack| && stack[i] == x;
      assert i < |rest|;
    }
  }

  /** Visiting a popped node other than `source` and pushing its unvisited children keeps the invariant. */
  lemma SearchExpand(es: set<Edge>, target: string, source: string, universe: set<string>,
                     visited: set<string>, rest: seq<string>, node: string, kids: seq<string>)
    requires Searching(es, target, source, universe, visited, rest + [node]) && node != source
    requires universe == {target} + set e | e in es :: e.1
    requires forall i | 0 <= i < |kids| :: (node, kids[i]) in es
    requires forall e | e in es && e.0 == node && e.1 !in visited + {node} :: e.1 in kids
    ensures Searching(es, target, source, universe, visited + {node}, rest + kids)
  {
    var stack := rest + [node];
    var stack' := rest + kids;
    assert node == stack[|stack| - 1];
    assert forall i | 0 <= i < |rest| :: rest[i] == stack[i] && stack'[i] == rest[i];
    forall x | x in stack && x != node ensures x in stack' {
      var i :| 0 <= i < |stack| && stack[i] == x;
      assert i < |rest| && stack'[i] == x;
    }
    forall i | 0 <= i < |stack'| ensures stack'[i] in universe && Reachable(es, target, stack'[i]) {
      if i >= |rest| {
        var k := stack'[i];
        assert k == kids[i - |rest|];
        assert (node, k) in es;
        assert k == (node, k).1;
        ReachStep(es, target, node, k);
      }
    }
    forall e | e in es && e.0 == node && e.1 !in visited + {node} ensures e.1 in stack' {
      var i :| 0 <= i < |kids| && kids[i] == e.1;
      assert stack'[|rest| + i] == e.1;
    }
  }

  // ---------------------------------------------------------------------
  // The invariant of the selection behind `top_k`

  /** `top` is a heaviest-first prefix of the ranking and `rest` the edges not yet taken. */
  predicate TopSoFar(edges: map<Edge, real>, top: seq<(Edge, real)>, rest: set<Edge>) {
    && rest == edges.Keys - Chosen(top) && |rest| == |edges| - |top|
    && (forall i | 0 <= i < |top| :: top[i].0 in edges && top[i].1 == edges[top[i].0])
    && (forall i, j | 0 <= i < j < |top| :: top[i].0 != top[j].0 && top[i].1 >= top[j].1)
    && (forall e, i | e in rest && 0 <= i < |top| :: edges[e] <= top[i].1)
  }

  lemma ChosenSnoc(top: seq<(Edge, real)>, x: (Edge, real))
    ensures Chosen(top + [x]) == Chosen(top) + {x.0}
  {
    var t := top + [x];
    assert forall i | 0 <= i < |top| :: t[i] == top[i];
    assert t[|top|] == x;
  }

  /** Taking a heaviest remaining edge extends the ranking. */
  lemma TopStep(edges: map<Edge, real>, top: seq<(Edge, real)>, rest: set<Edge>, e: Edge)
    requires TopSoFar(edges, top, rest)
    requires e in rest && forall x | x in rest :: edges[x] <= edges[e]
    ensures TopSoFar(edges, top + [(e, edges[e])], rest - {e})
  {
    ChosenSnoc(top, (e, edges[e]));
    assert rest - {e} == edges.Keys - Chosen(top + [(e, edges[e])]);
    assert |rest - {e}| == |rest| - 1;
    TopStepEntries(edges, top, e);
    TopStepOrder(edges, top, rest, e);
    TopStepRest(edges, top, rest, e);
  }

  lemma TopStepEntries(edges: map<Edge, real>, top: seq<(Edge, real)>, e: Edge)
    requires forall i | 0 <= i < |top| :: top[i].0 in edges && top[i].1 == edges[top[i].0]
    requires e in edges
    ensures var t := top + [(e, edges[e])];
      forall i | 0 <= i < |t| :: t[i].0 in edges && t[i].1 == edges[t[i].0]
  {
    var t := top + [(e, edges[e])];
    forall i | 0 <= i < |t| ensures t[i].0 in edges && t[i].1 == edges[t[i].0] {
      if i < |top| {
        assert t[i] == top[i];
      }
    }
  }

  lemma TopStepOrder(edges: map<Edge, real>, top: seq<(Edge, real)>, rest: set<Edge>, e: Edge)
    requires forall i, j | 0 <= i < j < |top| :: top[i].0 != top[j].0 && top[i].1 >= top[j].1
    requires e in edges && e in rest && rest == edges.Keys - Chosen(top)
    requires forall x, i | x in rest && 0 <= i < |top| :: edges[x] <= top[i].1
    ensures var t := top + [(e, edges[e])];
      forall i, j | 0 <= i < j < |t| :: t[i].0 != t[j].0 && t[i].1 >= t[j].1
  {
    var t := top + [(e, edges[e])];
    forall i, j | 0 <= i < j < |t| ensures t[i].0 != t[j].0 && t[i].1 >= t[j].1 {
      if j == |top| {
        assert t[i] == top[i] && top[i].0 in Chosen(top);
        assert t[j] == (e, edges[e]);
      } else {
        assert t[i] == top[i] && t[j] == top[j];
      }
    }
  }

  lemma TopStepRest(edges: map<Edge, real>, top: seq<(Edge, real)>, rest: set<Edge>, e: Edge)
    requires e in rest && rest <= edges.Keys && forall x | x in rest :: edges[x] <= edges[e]
    requires forall x, i | x in rest && 0 <= i < |top| :: edges[x] <= top[i].1
    ensures var t := top + [(e, edges[e])];
      forall x, i | x in rest - {e} && 0 <= i < |t| :: edges[x] <= t[i].1
  {
    var t := top + [(e, edges[e])];
    forall x, i | x in rest - {e} && 0 <= i < |t| ensures edges[x] <= t[i].1 {
      if i < |top| {
        assert t[i] == top[i];
      }
    }
  }

  /** When the slice is exhausted, the selection is the answer. */
  lemma TopDone(edges: map<Edge, real>, k: int, top: seq<(Edge, real)>, rest: set<Edge>)
    requires TopSoFar(edges, top, rest) && |top| == SliceCount(|edges|, k)
    ensures IsTopK(edges, k, top)
  {
  }

  // ---------------------------------------------------------------------
  // Reading back

  /** `list(s)`: every member once, in an order the model leaves open. */
  method ListOf<T(==)>(s: set<T>) returns (xs: seq<T>)
    ensures Enumerates(xs, s)
  {
    xs := [];
    var rest := s;
    while rest != {}
      invariant rest <= s
      invariant forall i, j | 0 <= i < j < |xs| :: xs[i] != xs[j]
      invariant forall i | 0 <= i < |xs| :: xs[i] in s && xs[i] !in rest
      invariant forall x | x in s && x !in rest :: x in xs
      decreases rest
    {
      var x :| x in rest;
      rest := rest - {x};
      xs := xs + [x];
    }
  }

  /** Once an item fails, the rest of the list is never read. */
  lemma {:induction false} LoadEdgesStops(items: seq<Value>, n: nat)
    requires n <= |items| && LoadEdges(items[..n]).error.Some?
    ensures LoadEdges(items) == LoadEdges(items[..n])
    decreases |items| - n
  {
    if n < |items| {
      assert items[..n + 1][..n] == items[..n];
      LoadEdgesStops(items, n + 1);
    } else {
      assert items[..n] == items;
    }
  }

  lemma {:induction false} LoadBlockedStops(items: seq<Value>, n: nat)
    requires n <= |items| && LoadBlocked(items[..n]).error.Some?
    ensures LoadBlocked(items) == LoadBlocked(items[..n])
    decreases |items| - n
  {
    if n < |items| {
      assert items[..n + 1][..n] == items[..n];
      LoadBlockedStops(items, n + 1);
    } else {
      assert items[..n] == items;
    }
  }

  lemma EdgeItemsPrefix(es: seq<Edge>, w: map<Edge, real>, n: nat)
    requires n <= |es|
    ensures EdgeItems(es, w)[..n] == EdgeItems(es[..n], w)
  {
  }

  lemma BlockedItemsPrefix(bs: seq<Edge>, n: nat)
    requires n <= |bs|
    ensures BlockedItems(bs)[..n] == BlockedItems(bs[..n])
  {
  }

  lemma MapSnoc(es: seq<Edge>, w: map<Edge, real>)
    requires es != [] && forall i | 0 <= i < |es| :: es[i] in w
    ensures var n := |es| - 1;
      (map e | e in es[..n] :: w[e])[es[n] := w[es[n]]] == map e | e in es :: w[e]
  {
    var n := |es| - 1;
    assert forall e :: e in es <==> e in es[..n] || e == es[n];
  }

  lemma SetSnoc(bs: seq<Edge>)
    requires bs != []
    ensures var n := |bs| - 1; (set e | e in bs[..n]) + {bs[n]} == set e | e in bs
  {
    var n := |bs| - 1;
    assert forall e :: e in bs <==> e in bs[..n] || e == bs[n];
  }

  lemma EdgeAtObj(e: Edge, w: real)
    ensures EdgeAt(Dict(EdgeObj(e, w))) == Ok((e, w))
  {
  }

  lemma LoadEdgesSnoc(items: seq<Value>, ew: (Edge, real))
    requires items != [] && LoadEdges(items[..|items| - 1]).error.None? && EdgeAt(items[|items| - 1]) == Ok(ew)
    ensures LoadEdges(items) == Partial(LoadEdges(items[..|items| - 1]).value[ew.0 := ew.1], None)
  {
  }

  lemma LoadBlockedSnoc(items: seq<Value>, e: Edge)
    requires items != [] && LoadBlocked(items[..|items| - 1]).error.None? && EndsAt(items[|items| - 1]) == Ok(e)
    ensures LoadBlocked(items) == Partial(LoadBlocked(items[..|items| - 1]).value + {e}, None)
  {
  }

  /** Loading the edge list `to_dict` wrote gives back the weights of the listed edges. */
  lemma {:induction false} LoadEdgeItems(es: seq<Edge>, w: map<Edge, real>)
    requires forall i | 0 <= i < |es| :: es[i] in w
    ensures LoadEdges(EdgeItems(es, w)) == Partial(map e | e in es :: w[e], None)
    decreases |es|
  {
    var items := EdgeItems(es, w);
    if es == [] {
      assert items == [];
    } else {
      var n := |es| - 1;
      EdgeItemsPrefix(es, w, n);
      LoadEdgeItems(es[..n], w);
      var before := map e | e in es[..n] :: w[e];
      assert LoadEdges(items[..n]) == Partial(before, None);
      assert items[n] == Dict(EdgeObj(es[n], w[es[n]]));
      EdgeAtObj(es[n], w[es[n]]);
      LoadEdgesSnoc(items, (es[n], w[es[n]]));
      MapSnoc(es, w);
    }
  }

  lemma {:induction false} LoadBlockedItems(bs: seq<Edge>)
    ensures LoadBlocked(BlockedItems(bs)) == Partial((set e | e in bs), None)
    decreases |bs|
  {
    var items := BlockedItems(bs);
    if bs == [] {
      assert items == [];
      assert (set e | e in bs) == {};
    } else {
      var n := |bs| - 1;
      BlockedItemsPrefix(bs, n);
      LoadBlockedItems(bs[..n]);
      var before := set e | e in bs[..n];
      assert LoadBlocked(items[..n]) == Partial(before, None);
      assert items[n] == Dict(BlockedObj(bs[n]));
      assert EndsAt(items[n]) == Ok(bs[n]);
      LoadBlockedSnoc(items, bs[n]);
      SetSnoc(bs);
    }
  }

  lemma NamesOfNodeItems(ns: seq<string>)
    ensures Names(List(NodeItems(ns))) == Ok(ns)
  {
    assert StrsOf(NodeItems(ns)) == ns;
  }

  /** Loading a dict of the shape `to_dict` writes. */
  lemma LoadDictOf(g0: Graph, ns: seq<string>, es: seq<Edge>, bs: seq<Edge>, w: map<Edge, real>)
    requires forall i | 0 <= i < |es| :: es[i] in w
    ensures Load(g0, DictOf(ns, es, bs, w))
      == Partial(Graph((set x | x in ns), (map e | e in es :: w[e]), (set e | e in bs)), None)
  {
    var d := DictOf(ns, es, bs, w);
    assert Get(d, "nodes") == Some(List(NodeItems(ns)));
    assert Get(d, "edges") == Some(List(EdgeItems(es, w)));
    assert Get(d, "blocked_edges") == Some(List(BlockedItems(bs)));
    NamesOfNodeItems(ns);
    LoadEdgeItems(es, w);
    LoadBlockedItems(bs);
  }

  /** `from_dict(to_dict())` restores the graph, whatever state it is loaded into. */
  lemma RoundTrip(g: Graph, d: Obj, g0: Graph)
    requires Represents(d, g)
    ensures Load(g0, d) == Partial(g, None)
  {
    var ns, es, bs :| Enumerates(ns, g.nodes) && Enumerates(es, g.edges.Keys) && Enumerates(bs, g.blocked)
      && d == DictOf(ns, es, bs, g.edges);
    LoadDictOf(g0, ns, es, bs, g.edges);
    assert (set x | x in ns) == g.nodes;
    assert (map e | e in es :: g.edges[e]) == g.edges;
    assert (set e | e in bs) == g.blocked;
  }

  // ---------------------------------------------------------------------
  // The graph object

  class CausalGraph {
    var nodes: set<string>
    var edges: map<Edge, real>
    var blocked: set<Edge>

    function Model(): Graph
      reads this
    {
      Graph(nodes, edges, blocked)
    }

    constructor()
      ensures Model() == EmptyGraph
    {
      nodes, edges, blocked := {}, map[], {};
    }

    /** `add_node(name)`. */
    method AddNode(name: string)
      modifies this
      ensures Model() == old(Model()).(nodes := old(nodes) + {name})
    {
      nodes := nodes + {name};
    }

    /** `_would_create_cycle(source, target)`: a depth-first search from `target`, true exactly when it meets `source`. */
    method WouldCreateCycle(source: string, target: string) returns (cycle: bool)
      ensures cycle == Reachable(edges.Keys, target, source)
    {
      var es := edges.Keys;
      ghost var universe := {target} + set e | e in es :: e.1;
      var visited: set<string> := {};
      var stack := [target];
      ReachRefl(es, target);
      while stack != []
        invariant Searching(es, target, source, universe, visited, stack)
        decreases |universe - visited|, |stack|
      {
        var node := stack[|stack| - 1];
        var rest := stack[..|stack| - 1];
        assert stack == rest + [node];
        stack := rest;
        if node == source {
          return true;
        }
        if node in visited {
          SearchSkip(es, target, source, universe, visited, rest, node);
          continue;
        }
        assert node in universe;
        VisitShrinks(universe, visited, node);
        var kids := Children(node, visited + {node});
        SearchExpand(es, target, source, universe, visited, rest, node, kids);
        visited := visited + {node};
        stack := rest + kids;
      }
      ClosedUnreachable(es, visited, target, source);
      return false;
    }

    /**
     * `add_edge(source, target, weight)`: both endpoints become nodes; an edge
     * that would close a cycle is recorded as blocked and refused, any other
     * is stored with its weight clamped to [0, 1].
     */
    method AddEdge(source: string, target: string, weight: real) returns (added: bool)
      modifies this
      ensures (Model(), added) == AddEdgeSpec(old(Model()), source, target, weight)
    {
      AddNode(source);
      AddNode(target);
      assert nodes == old(nodes) + {source, target};
      var cycle := WouldCreateCycle(source, target);
      if cycle {
        blocked := blocked + {(source, target)};
        return false;
      }
      edges := edges[(source, target) := Clamp01(weight)];
      return true;
    }

    /** `allow(inputs, target)`. */
    method Allow(inputs: seq<string>, target: string) returns (ok: bool)
      ensures ok == Allowed(Model(), inputs, target)
    {
      for i := 0 to |inputs|
        invariant forall j | 0 <= j < i :: inputs[j] in nodes
      {
        if inputs[i] !in nodes {
          return true;
        }
      }
      if target !in nodes {
        return true;
      }
      for i := 0 to |inputs|
        invariant forall j | 0 <= j < i ::
          ((inputs[j], target) !in blocked && ((inputs[j], target) in edges || !Reachable(edges.Keys, target, inputs[j])))
      {
        if (inputs[i], target) in blocked {
          return false;
        }
        if (inputs[i], target) !in edges {
          var cycle := WouldCreateCycle(inputs[i], target);
          if cycle {
            return false;
          }
        }
      }
      return true;
    }

    /**
     * `update_from_receipt(receipt, hypothesis, increase, decrease)`: no change
     * without inputs or target; otherwise each input's edge to the target
     * learns from the receipt's status.
     */
    method UpdateFromReceipt(receipt: Obj, hypothesis: Obj, increase: real, decrease: real) returns (r: Result<bool>)
      modifies this
      ensures var plan := ReceiptPlan(receipt, hypothesis);
        && (r.Failure? <==> plan.Failure?)
        && (plan.Ok? && plan.value.Some? ==>
              r == Ok(true) && Model() == LearnAll(old(Model()), plan.value.value.inputs, plan.value.value.target,
                                                   plan.value.value.status, increase, decrease))
        && (!(plan.Ok? && plan.value.Some?) ==> Model() == old(Model()))
    {
      var plan := ReceiptPlan(receipt, hypothesis);
      if plan.Failure? {
        return Failure(plan.error);
      }
      if plan.value.None? {
        return Ok(false);
      }
      var inputs, target, status := plan.value.value.inputs, plan.value.value.target, plan.value.value.status;
      ghost var g0 := Model();
      for i := 0 to |inputs|
        invariant Model() == LearnAll(g0, inputs[..i], target, status, increase, decrease)
      {
        assert inputs[..i + 1][..i] == inputs[..i];
        LearnOne(inputs[i], target, status, increase, decrease);
      }
      assert inputs[..|inputs|] == inputs;
      return Ok(true);
    }

    /** One pass of the loop of `update_from_receipt`. */
    method LearnOne(inp: string, target: string, status: Value, increase: real, decrease: real)
      modifies this
      ensures Model() == Learn(old(Model()), inp, target, status, increase, decrease)
    {
      var e := (inp, target);
      var current := if e in edges then edges[e] else 0.5;
      if status == Str("accepted") {
        var _ := AddEdge(inp, target, Min(1.0, current + increase));
      } else if status == Str("rejected") {
        var w := Max(0.0, current - decrease);
        if w > 0.0 {
          var _ := AddEdge(inp, target, w);
        } else if e in edges {
          edges := edges - {e};
        }
      }
    }

    /** `prune(threshold)`: collect the edges lighter than the threshold, then delete them one by one. */
    method Prune(threshold: real)
      modifies this
      ensures Model() == Pruned(old(Model()), threshold)
    {
      var light: set<Edge> := {};
      var rest := edges.Keys;
      while rest != {}
        invariant unchanged(this)
        invariant rest <= edges.Keys
        invariant light == set e | e in edges && e !in rest && edges[e] < threshold
        decreases rest
      {
        var e :| e in rest;
        rest := rest - {e};
        if edges[e] < threshold {
          light := light + {e};
        }
      }
      ghost var before := edges;
      var doomed := light;
      while doomed != {}
        invariant doomed <= light && nodes == old(nodes) && blocked == old(blocked)
        invariant edges == map e | e in before && e !in light - doomed :: before[e]
        decreases doomed
      {
        var e :| e in doomed;
        doomed := doomed - {e};
        edges := edges - {e};
      }
      assert light == set e | e in before && before[e] < threshold;
      assert edges == Pruned(old(Model()), threshold).edges;
    }

    /** `top_k(k)`: the edges sorted by weight, heaviest first, cut by the slice `[:k]`. */
    method TopK(k: int) returns (top: seq<(Edge, real)>)
      ensures IsTopK(edges, k, top)
    {
      var count := SliceCount(|edges|, k);
      top := [];
      var rest := edges.Keys;
      while |top| < count
        invariant TopSoFar(edges, top, rest) && |top| <= count
        decreases count - |top|
      {
        var e := Heaviest(rest);
        TopStep(edges, top, rest, e);
        top := top + [(e, edges[e])];
        rest := rest - {e};
      }
      TopDone(edges, k, top, rest);
    }

    /** An edge of `rest` that no other edge of `rest` outweighs. */
    method Heaviest(rest: set<Edge>) returns (e: Edge)
      requires rest != {} && rest <= edges.Keys
      ensures e in rest && forall x | x in rest :: edges[x] <= edges[e]
    {
      var left := rest;
      e :| e in left;
      left := left - {e};
      while left != {}
        invariant left <= rest && e in rest
        invariant forall x | x in rest && x !in left :: edges[x] <= edges[e]
        decreases left
      {
        var x :| x in left;
        left := left - {x};
        if edges[x] > edges[e] {
          e := x;
        }
      }
    }

    /** `to_dict()`. */
    method ToDict() returns (d: Obj)
      ensures Represents(d, Model())
    {
      var ns := ListOf(nodes);
      var es := ListOf(edges.Keys);
      var bs := ListOf(blocked);
      d := DictOf(ns, es, bs, edges);
    }

    /** `from_dict(data)`: the error it raises, if any; the fields as `Load` describes them. */
    method FromDict(data: Obj) returns (error: Option<string>)
      modifies this
      ensures Load(old(Model()), data) == Partial(Model(), error)
    {
      var ns := Names(Get(data, "nodes").GetOr(List([])));
      if ns.Failure? {
        return Some(ns.error);
      }
      nodes := set x | x in ns.value;
      error := ReadEdges(Get(data, "edges").GetOr(List([])));
      if error.Some? {
        return;
      }
      error := ReadBlocked(Get(data, "blocked_edges").GetOr(List([])));
    }

    /** The `edges` part of `from_dict`. */
    method ReadEdges(v: Value) returns (error: Option<string>)
      modifies this
      ensures EdgesFrom(v) == Partial(edges, error) && nodes == old(nodes) && blocked == old(blocked)
    {
      edges := map[];
      var items := Iterated(v);
      if items.Failure? {
        return Some(items.error);
      }
      var xs := items.value;
      for i := 0 to |xs|
        invariant nodes == old(nodes) && blocked == old(blocked)
        invariant LoadEdges(xs[..i]) == Partial(edges, None)
      {
        assert xs[..i + 1][..i] == xs[..i];
        var ew := EdgeAt(xs[i]);
        if ew.Failure? {
          LoadEdgesStops(xs, i + 1);
          return Some(ew.error);
        }
        edges := edges[ew.value.0 := ew.value.1];
      }
      assert xs[..|xs|] == xs;
      return None;
    }

    /** The `blocked_edges` part of `from_dict`. */
    method ReadBlocked(v: Value) returns (error: Option<string>)
      modifies this
      ensures BlockedFrom(v) == Partial(blocked, error) && nodes == old(nodes) && edges == old(edges)
    {
      blocked := {};
      var items := Iterated(v);
      if items.Failure? {
        return Some(items.error);
      }
      var ys := items.value;
      for i := 0 to |ys|
        invariant nodes == old(nodes) && edges == old(edges)
        invariant LoadBlocked(ys[..i]) == Partial(blocked, None)
      {
        assert ys[..i + 1][..i] == ys[..i];
        var e := EndsAt(ys[i]);
        if e.Failure? {
          LoadBlockedStops(ys, i + 1);
          return Some(e.error);
        }
        blocked := blocked + {e.value};
      }
      assert ys[..|ys|] == ys;
      return None;
    }

    /** The inner loop of the search: the targets of the edges out of `node` not yet visited, in edge order. */
    method Children(node: string, visited: set<string>) returns (kids: seq<string>)
      ensures forall i | 0 <= i < |kids| :: (node, kids[i]) in edges && kids[i] !in visited
      ensures forall e | e in edges && e.0 == node && e.1 !in visited :: e.1 in kids
    {
      kids := [];
      var rest := edges.Keys;
      while rest != {}
        invariant rest <= edges.Keys
        invariant forall i | 0 <= i < |kids| :: (node, kids[i]) in edges && kids[i] !in visited
        invariant forall e | e in edges && e !in rest && e.0 == node && e.1 !in visited :: e.1 in kids
        decreases rest
      {
        var e :| e in rest;
        rest := rest - {e};
        if e.0 == node && e.1 !in visited {
          kids := kids + [e.1];
        }
      }
    }
  }
}
