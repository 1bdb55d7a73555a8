/** The gate between planning and dispatch: the dependency graph has no cycle, and within a wave no
    packet may write inside what another is authorized to write. */
module DagAssert {
  import opened Wrappers

  type Node = string
  type Edge = (Node, Node)

  /* Cycles. */

  predicate IsPath(edges: seq<Edge>, p: seq<Node>) {
    forall i :: 0 <= i < |p| - 1 ==> (p[i], p[i + 1]) in edges
  }

  /** A walk along at least one edge that ends where it begins; a self-loop is one. */
  predicate IsCycle(edges: seq<Edge>, p: seq<Node>) {
    |p| >= 2 && p[0] == p[|p| - 1] && IsPath(edges, p)
  }

  ghost predicate Acyclic(edges: seq<Edge>) {
    forall p :: !IsCycle(edges, p)
  }

  predicate NoRepeats(s: seq<Node>) {
    forall i, j :: 0 <= i < j < |s| ==> s[i] != s[j]
  }

  predicate Touch(nodes: set<Node>, edges: seq<Edge>) {
    forall e :: e in edges ==> e.0 in nodes && e.1 in nodes
  }

  /** Edges into `m` from nodes outside `gone`, duplicates counted. */
  function Indeg(edges: seq<Edge>, m: Node, gone: set<Node>): nat {
    if edges == [] then 0
    else
      var e := edges[|edges| - 1];
      Indeg(edges[..|edges| - 1], m, gone) + (if e.1 == m && e.0 !in gone then 1 else 0)
  }

  lemma {:induction false} IndegJoin(a: seq<Edge>, b: seq<Edge>, m: Node, gone: set<Node>)
    ensures Indeg(a + b, m, gone) == Indeg(a, m, gone) + Indeg(b, m, gone)
  {
    if b == [] {
      assert a + b == a;
    } else {
      IndegJoin(a, b[..|b| - 1], m, gone);
      assert (a + b)[..|a + b| - 1] == a + b[..|b| - 1];
    }
  }

  lemma {:induction false} IndegZero(edges: seq<Edge>, m: Node, gone: set<Node>)
    ensures Indeg(edges, m, gone) == 0 <==> forall e :: e in edges && e.1 == m ==> e.0 in gone
  {
    if edges != [] {
      var init, last := edges[..|edges| - 1], edges[|edges| - 1];
      IndegZero(init, m, gone);
      assert edges == init + [last];
    }
  }

  /** Removed in this order, each node had all its predecessors removed before it. */
  ghost predicate Topological(edges: seq<Edge>, order: seq<Node>) {
    && NoRepeats(order)
    && (forall i, e :: 0 <= i < |order| && e in edges && e.1 == order[i] ==> e.0 in order[..i])
  }

  lemma {:induction false} PathStartsEarlier(edges: seq<Edge>, order: seq<Node>, p: seq<Node>, i: nat)
    requires Topological(edges, order) && IsPath(edges, p) && |p| >= 2
    requires i < |order| && p[|p| - 1] == order[i]
    ensures p[0] in order[..i]
  {
    var n := |p| - 1;
    assert (p[n - 1], p[n]) in edges;
    if n >= 2 {
      var j :| 0 <= j < i && order[j] == p[n - 1];
      PathStartsEarlier(edges, order, p[..n], j);
    }
  }

  /** If every node could be removed in order, there is no cycle. */
  lemma OrderMeansAcyclic(nodes: set<Node>, edges: seq<Edge>, order: seq<Node>)
    requires Touch(nodes, edges) && Topological(edges, order)
    requires forall n :: n in nodes ==> n in order
    ensures Acyclic(edges)
  {
    forall p ensures !IsCycle(edges, p) {
      if IsCycle(edges, p) {
        assert (p[0], p[1]) in edges;
        var i :| 0 <= i < |order| && order[i] == p[0];
        PathStartsEarlier(edges, order, p, i);
        assert false;
      }
    }
  }

  predicate HasPredecessor(edges: seq<Edge>, left: set<Node>, m: Node) {
    exists a :: a in left && (a, m) in edges
  }

  /** Every node of the set has a predecessor in the set. */
  predicate Stuck(edges: seq<Edge>, left: set<Node>) {
    forall m {:trigger HasPredecessor(edges, left, m)} :: m in left ==> HasPredecessor(edges, left, m)
  }

  lemma PathPrepend(edges: seq<Edge>, a: Node, q: seq<Node>)
    requires q != [] && IsPath(edges, q) && (a, q[0]) in edges
    ensures IsPath(edges, [a] + q)
  {
    var p := [a] + q;
    forall i | 0 <= i < |p| - 1 ensures (p[i], p[i + 1]) in edges {
      assert i > 0 ==> p[i] == q[i - 1] && p[i + 1] == q[i];
    }
  }

  lemma PathSlice(edges: seq<Edge>, p: seq<Node>, i: nat, j: nat)
    requires IsPath(edges, p) && i <= j < |p|
    ensures IsPath(edges, p[i..j + 1])
  {
    var c := p[i..j + 1];
    forall k | 0 <= k < |c| - 1 ensures (c[k], c[k + 1]) in edges {
      assert (p[i + k], p[i + k + 1]) in edges;
    }
  }

  lemma {:induction false} WalkBack(edges: seq<Edge>, left: set<Node>, k: nat) returns (p: seq<Node>)
    requires left != {} && Stuck(edges, left)
    ensures |p| == k + 1 && IsPath(edges, p) && forall i :: 0 <= i < |p| ==> p[i] in left
  {
    if k == 0 {
      var m :| m in left;
      p := [m];
    } else {
      var q := WalkBack(edges, left, k - 1);
      assert HasPredecessor(edges, left, q[0]);
      var a :| a in left && (a, q[0]) in edges;
      p := [a] + q;
      PathPrepend(edges, a, q);
    }
  }

  lemma {:induction false} Pigeonhole(s: seq<Node>, pool: set<Node>)
    requires NoRepeats(s) && forall i :: 0 <= i < |s| ==> s[i] in pool
    ensures |s| <= |pool|
  {
    if s != [] {
      var n := |s| - 1;
      Pigeonhole(s[..n], pool - {s[n]});
    }
  }

  /** Where every node has a predecessor, a long enough walk back closes a cycle. */
  lemma StuckMeansCycle(edges: seq<Edge>, left: set<Node>)
    requires left != {} && Stuck(edges, left)
    ensures !Acyclic(edges)
  {
    var p := WalkBack(edges, left, |left|);
    if NoRepeats(p) {
      Pigeonhole(p, left);
      assert false;
    }
    var i, j :| 0 <= i < j < |p| && p[i] == p[j];
    PathSlice(edges, p, i, j);
    assert IsCycle(edges, p[i..j + 1]);
  }

  /* The removal loop. */

  /** Between two removals: the counts, and the queue of nodes whose count is down to zero. */
  ghost predicate Counted(nodes: set<Node>, edges: seq<Edge>, indeg: map<Node, nat>, gone: set<Node>) {
    indeg.Keys == nodes && forall m :: m in nodes ==> indeg[m] == Indeg(edges, m, gone)
  }

  ghost predicate Queued(nodes: set<Node>, indeg: map<Node, nat>, gone: set<Node>, queue: seq<Node>) {
    && NoRepeats(queue)
    && indeg.Keys == nodes
    && (forall m :: m in queue <==> m in nodes && m !in gone && indeg[m] == 0)
  }

  /** While the edges of removed node `n` are being counted off, `i` of them so far. */
  ghost predicate CountingOff(nodes: set<Node>, edges: seq<Edge>, indeg: map<Node, nat>, gone: set<Node>, n: Node,
                              i: nat) {
    && i <= |edges| && indeg.Keys == nodes
    && (forall m :: m in nodes ==> indeg[m] == Indeg(edges[..i], m, gone + {n}) + Indeg(edges[i..], m, gone))
  }

  /** What one edge adds to an in-degree. */
  function Counts(e: Edge, m: Node, gone: set<Node>): nat {
    if e.1 == m && e.0 !in gone then 1 else 0
  }

  lemma IndegFirst(edges: seq<Edge>, m: Node, gone: set<Node>, i: nat)
    requires i < |edges|
    ensures Indeg(edges[i..], m, gone) == Counts(edges[i], m, gone) + Indeg(edges[i + 1..], m, gone)
    ensures Indeg(edges[..i + 1], m, gone) == Indeg(edges[..i], m, gone) + Counts(edges[i], m, gone)
  {
    assert edges[i..] == [edges[i]] + edges[i + 1..];
    IndegJoin([edges[i]], edges[i + 1..], m, gone);
    assert [edges[i]][..0] == [];
    assert edges[..i + 1][..i] == edges[..i];
  }

  lemma CountOffStarts(nodes: set<Node>, edges: seq<Edge>, indeg: map<Node, nat>, gone: set<Node>, n: Node)
    requires Counted(nodes, edges, indeg, gone)
    ensures CountingOff(nodes, edges, indeg, gone, n, 0)
  {
    assert edges[0..] == edges && edges[..0] == [];
  }

  lemma CountOffEnds(nodes: set<Node>, edges: seq<Edge>, indeg: map<Node, nat>, gone: set<Node>, n: Node)
    requires CountingOff(nodes, edges, indeg, gone, n, |edges|)
    ensures Counted(nodes, edges, indeg, gone + {n})
  {
    assert edges[..|edges|] == edges && edges[|edges|..] == [];
  }

  lemma CountOffEdge(nodes: set<Node>, edges: seq<Edge>, indeg: map<Node, nat>, gone: set<Node>, n: Node, i: nat)
    requires CountingOff(nodes, edges, indeg, gone, n, i) && i < |edges| && Touch(nodes, edges) && n !in gone
    ensures edges[i].0 != n ==> CountingOff(nodes, edges, indeg, gone, n, i + 1)
    ensures edges[i].0 == n ==> edges[i].1 in nodes && indeg[edges[i].1] > 0
    ensures edges[i].0 == n ==> CountingOff(nodes, edges, indeg[edges[i].1 := indeg[edges[i].1] - 1], gone, n, i + 1)
  {
    assert edges[i] in edges;
    forall m | m in nodes
      ensures Indeg(edges[i..], m, gone) == Counts(edges[i], m, gone) + Indeg(edges[i + 1..], m, gone)
      ensures Indeg(edges[..i + 1], m, gone + {n}) == Indeg(edges[..i], m, gone + {n}) + Counts(edges[i], m, gone + {n})
    {
      IndegFirst(edges, m, gone, i);
      IndegFirst(edges, m, gone + {n}, i);
    }
  }

  method CountEdges(nodes: set<Node>, edges: seq<Edge>) returns (indeg: map<Node, nat>)
    requires Touch(nodes, edges)
    ensures Counted(nodes, edges, indeg, {})
  {
    indeg := map n | n in nodes :: 0;
    for i := 0 to |edges|
      invariant indeg.Keys == nodes && forall m :: m in nodes ==> indeg[m] == Indeg(edges[..i], m, {})
    {
      assert edges[..i + 1][..i] == edges[..i] && edges[i] in edges;
      var b := edges[i].1;
      indeg := indeg[b := indeg[b] + 1];
    }
    assert edges[..|edges|] == edges;
  }

  /** The nodes without predecessors, in whatever order the set yields them. */
  method InitialQueue(nodes: set<Node>, indeg: map<Node, nat>) returns (queue: seq<Node>)
    requires indeg.Keys == nodes
    ensures Queued(nodes, indeg, {}, queue)
  {
    queue := [];
    var rest := nodes;
    while rest != {}
      invariant NoRepeats(queue) && rest <= nodes
      invariant forall m :: m in queue <==> m in nodes && m !in rest && indeg[m] == 0
      decreases rest
    {
      var n :| n in rest;
      rest := rest - {n};
      if indeg[n] == 0 {
        queue := queue + [n];
      }
    }
  }

  /** The counts and the queue while the edges of `n` are being counted off. */
  ghost predicate Counting(nodes: set<Node>, edges: seq<Edge>, indeg: map<Node, nat>, queue: seq<Node>,
                           gone: set<Node>, n: Node, i: nat) {
    && CountingOff(nodes, edges, indeg, gone, n, i) && Queued(nodes, indeg, gone + {n}, queue)
    && (forall m :: m in gone + {n} ==> m in nodes && indeg[m] == 0)
  }

  /** One edge of the removed node: its target is one less, and queued when it is down to zero. */
  lemma CountEdgeOff(nodes: set<Node>, edges: seq<Edge>, indeg: map<Node, nat>, queue: seq<Node>, gone: set<Node>,
                     n: Node, i: nat, b: Node)
    requires Touch(nodes, edges) && n !in gone && i < |edges| && edges[i] == (n, b)
    requires Counting(nodes, edges, indeg, queue, gone, n, i)
    ensures b in indeg && indeg[b] > 0
    ensures var next := indeg[b := indeg[b] - 1];
      Counting(nodes, edges, next, if next[b] == 0 then queue + [b] else queue, gone, n, i + 1)
  {
    CountOffEdge(nodes, edges, indeg, gone, n, i);
    assert b !in queue && b !in gone + {n};
  }

  /** Counts off the edges of a removed node, queueing what gets down to zero. */
  method CountOff(nodes: set<Node>, edges: seq<Edge>, counts: map<Node, nat>, ghost gone: set<Node>, n: Node,
                  waiting: seq<Node>)
    returns (indeg: map<Node, nat>, queue: seq<Node>)
    requires Touch(nodes, edges) && Counted(nodes, edges, counts, gone) && n in nodes && n !in gone
    requires Queued(nodes, counts, gone + {n}, waiting) && counts[n] == 0
    requires forall m :: m in gone ==> m in nodes && counts[m] == 0
    ensures Counted(nodes, edges, indeg, gone + {n}) && Queued(nodes, indeg, gone + {n}, queue)
    ensures forall m :: m in gone + {n} ==> indeg[m] == 0
  {
    indeg, queue := counts, waiting;
    CountOffStarts(nodes, edges, indeg, gone, n);
    for i := 0 to |edges|
      invariant Counting(nodes, edges, indeg, queue, gone, n, i)
    {
      if edges[i].0 == n {
        var b := edges[i].1;
        CountEdgeOff(nodes, edges, indeg, queue, gone, n, i, b);
        indeg := indeg[b := indeg[b] - 1];
        if indeg[b] == 0 {
          queue := queue + [b];
        }
      } else {
        CountOffEdge(nodes, edges, indeg, gone, n, i);
      }
    }
    CountOffEnds(nodes, edges, indeg, gone, n);
  }

  /** Removes nodes without predecessors until none is left to remove: it answers true exactly for
      graphs without a cycle, duplicate edges and self-loops included. */
  method SortsTopologically(nodes: set<Node>, edges: seq<Edge>) returns (ok: bool, seen: nat)
    requires Touch(nodes, edges)
    ensures ok <==> Acyclic(edges)
    ensures seen <= |nodes| && (ok <==> seen == |nodes|)
  {
    var indeg := CountEdges(nodes, edges);
    var queue := InitialQueue(nodes, indeg);
    ghost var gone: set<Node>, order: seq<Node> := {}, [];
    seen := 0;
    while queue != []
      invariant gone <= nodes && seen == |gone| == |order|
      invariant Counted(nodes, edges, indeg, gone) && Queued(nodes, indeg, gone, queue)
      invariant forall m :: m in gone ==> indeg[m] == 0
      invariant forall m :: m in order <==> m in gone
      invariant Topological(edges, order)
      decreases nodes - gone
    {
      var n := queue[|queue| - 1];
      assert n in queue;
      PopKeepsQueued(nodes, indeg, gone, queue);
      RemovalIsOrdered(edges, order, gone, n);
      queue := queue[..|queue| - 1];
      seen := seen + 1;
      indeg, queue := CountOff(nodes, edges, indeg, gone, n, queue);
      gone, order := gone + {n}, order + [n];
    }
    ok := seen == |nodes|;
    EmptyQueueMeans(nodes, edges, indeg, gone, order);
  }

  lemma PopKeepsQueued(nodes: set<Node>, indeg: map<Node, nat>, gone: set<Node>, queue: seq<Node>)
    requires Queued(nodes, indeg, gone, queue) && queue != []
    ensures Queued(nodes, indeg, gone + {queue[|queue| - 1]}, queue[..|queue| - 1])
  {
    assert queue == queue[..|queue| - 1] + [queue[|queue| - 1]];
  }

  lemma RemovalIsOrdered(edges: seq<Edge>, order: seq<Node>, gone: set<Node>, n: Node)
    requires Topological(edges, order) && (forall m :: m in order <==> m in gone)
    requires n !in gone && Indeg(edges, n, gone) == 0
    ensures Topological(edges, order + [n])
  {
    IndegZero(edges, n, gone);
    var longer := order + [n];
    forall i, e | 0 <= i < |longer| && e in edges && e.1 == longer[i]
      ensures e.0 in longer[..i]
    {
      if i < |order| {
        assert longer[..i] == order[..i];
      } else {
        assert longer[..i] == order;
      }
    }
  }

  /** What an empty queue means. */
  lemma EmptyQueueMeans(nodes: set<Node>, edges: seq<Edge>, indeg: map<Node, nat>, gone: set<Node>, order: seq<Node>)
    requires Touch(nodes, edges) && gone <= nodes
    requires Counted(nodes, edges, indeg, gone) && Queued(nodes, indeg, gone, [])
    requires Topological(edges, order) && (forall m :: m in order <==> m in gone)
    ensures |gone| <= |nodes| && (|gone| == |nodes| <==> Acyclic(edges))
  {
    var left := nodes - gone;
    assert |left| == |nodes| - |gone|;
    if left == {} {
      OrderMeansAcyclic(nodes, edges, order);
    } else {
      forall m | m in left ensures HasPredecessor(edges, left, m) {
        IndegZero(edges, m, gone);
        assert m !in [];
        var e :| e in edges && e.1 == m && e.0 !in gone;
        assert (e.0, m) in edges;
      }
      StuckMeansCycle(edges, left);
    }
  }

  /* Authorized paths. */

  function RStrip(p: string): string {
    if p == "" || p[|p| - 1] != '/' then p else RStrip(p[..|p| - 1])
  }

  /** A path as it is compared: without trailing slashes, then one. */
  function Norm(p: string): (r: string)
    ensures r != "" && r[|r| - 1] == '/'
  {
    RStrip(p) + "/"
  }

  /** A path without a trailing slash is compared as itself and one slash. */
  lemma NormAddsOneSlash(p: string)
    requires p == "" || p[|p| - 1] != '/'
    ensures Norm(p) == p + "/"
  {}

  /** The first slash at or after `i`, or the end. */
  function SlashFrom(u: string, i: nat): (k: nat)
    requires i <= |u|
    ensures i <= k <= |u|
    ensures forall j :: i <= j < k ==> u[j] != '/'
    ensures k < |u| ==> u[k] == '/'
    decreases |u| - i
  {
    if i == |u| || u[i] == '/' then i else SlashFrom(u, i + 1)
  }

  /** The components from `i` on, each ended by a slash or the end. */
  function PartsFrom(u: string, i: nat): seq<string>
    requires i <= |u|
    decreases |u| - i
  {
    if i == |u| then []
    else
      var k := SlashFrom(u, i);
      [u[i..k]] + (if k == |u| then [] else PartsFrom(u, k + 1))
  }

  function Parts(u: string): seq<string> { PartsFrom(u, 0) }

  predicate Closed(u: string) {
    u == "" || u[|u| - 1] == '/'
  }

  /** The components put together again, each with a slash behind it. */
  function Joined(parts: seq<string>): string
    decreases |parts|
  {
    if parts == [] then "" else parts[0] + "/" + Joined(parts[1..])
  }

  predicate Slashless(parts: seq<string>) {
    forall k :: 0 <= k < |parts| ==> '/' !in parts[k]
  }

  lemma JoinFirst(first: string, rest: seq<string>)
    requires '/' !in first && Slashless(rest)
    ensures Joined([first] + rest) == first + "/" + Joined(rest) && Slashless([first] + rest)
  {
    assert ([first] + rest)[0] == first && ([first] + rest)[1..] == rest;
  }

  lemma SplitAtSlash(u: string, i: nat, k: nat)
    requires i <= k < |u| && u[k] == '/'
    ensures u[i..k] + "/" + u[k + 1..] == u[i..]
  {}

  lemma JoinStep(u: string, i: nat, k: nat, rest: seq<string>, parts: seq<string>)
    requires i <= k < |u| && u[k] == '/' && (forall j :: i <= j < k ==> u[j] != '/')
    requires parts == [u[i..k]] + rest && Joined(rest) == u[k + 1..] && Slashless(rest)
    ensures Joined(parts) == u[i..] && Slashless(parts)
  {
    JoinFirst(u[i..k], rest);
    SplitAtSlash(u, i, k);
  }

  /** The components of a closed path are its text between slashes: joined again they are the path, and
      none holds a slash. */
  lemma {:induction false} PartsJoin(u: string, i: nat)
    requires Closed(u) && i <= |u|
    ensures Joined(PartsFrom(u, i)) == u[i..] && Slashless(PartsFrom(u, i))
    decreases |u| - i
  {
    if i < |u| {
      ClosedHasSlash(u, i);
      var k := SlashFrom(u, i);
      PartsUnfold(u, i, k);
      PartsJoin(u, k + 1);
      JoinStep(u, i, k, PartsFrom(u, k + 1), PartsFrom(u, i));
    }
  }

  lemma ConsPrefix(a: string, s: seq<string>, b: string, t: seq<string>)
    ensures [a] + s <= [b] + t <==> a == b && s <= t
  {
    if [a] + s <= [b] + t {
      assert ([a] + s)[0] == ([b] + t)[0];
      assert s == ([a] + s)[1..] && t == ([b] + t)[1..];
    }
  }

  lemma ByComponents(prefix: bool, a: string, s: seq<string>, vs: seq<string>, b: string, t: seq<string>,
                     us: seq<string>)
    requires vs == [a] + s && us == [b] + t
    requires prefix ==> a == b
    requires a == b ==> (prefix <==> s <= t)
    ensures prefix <==> vs <= us
  {
    ConsPrefix(a, s, b, t);
  }

  predicate Agree(v: string, u: string, i: nat) {
    i <= |v| && i <= |u| && forall j :: 0 <= j < i ==> v[j] == u[j]
  }

  /** The components from `i` on are a prefix of the other's. */
  predicate NestedFrom(v: string, u: string, i: nat)
    requires i <= |v| && i <= |u|
  {
    PartsFrom(v, i) <= PartsFrom(u, i)
  }

  predicate SameFirst(v: string, u: string, k: nat, m: nat) {
    k == m && k < |v| && Agree(v, u, k + 1)
  }

  lemma SameSlice(v: string, u: string, i: nat, k: nat, m: nat)
    requires i <= k <= |v| && i <= m <= |u| && v[i..k] == u[i..m]
    ensures k == m && forall j :: i <= j < k ==> v[j] == u[j]
  {
    assert |v[i..k]| == k - i && |u[i..m]| == m - i;
    forall j | i <= j < k ensures v[j] == u[j] {
      assert v[j] == v[i..k][j - i] && u[j] == u[i..m][j - i];
    }
  }

  /** The first components are the same, as text or position by position. */
  lemma AgreeMore(v: string, u: string, i: nat, k: nat, m: nat)
    requires Agree(v, u, i) && i < |v| && i < |u| && k == SlashFrom(v, i) < |v| && m == SlashFrom(u, i) < |u|
    ensures v[i..k] == u[i..m] <==> SameFirst(v, u, k, m)
  {
    if v[i..k] == u[i..m] {
      SameSlice(v, u, i, k, m);
    }
  }

  lemma PrefixSharesFirst(v: string, u: string, i: nat, k: nat, m: nat)
    requires v <= u && i < |v| && k == SlashFrom(v, i) < |v| && m == SlashFrom(u, i) < |u|
    ensures SameFirst(v, u, k, m)
  {
    assert v[k] == u[k];
    assert k == m;
  }

  lemma ClosedHasSlash(u: string, i: nat)
    requires Closed(u) && i < |u|
    ensures SlashFrom(u, i) < |u|
  {
    assert u[|u| - 1] == '/';
  }

  lemma PartsUnfold(u: string, i: nat, k: nat)
    requires i < |u| && k == SlashFrom(u, i) < |u|
    ensures PartsFrom(u, i) == [u[i..k]] + PartsFrom(u, k + 1)
  {}

  /** The components from `i` on are the first one and those from behind its slash on. */
  predicate StartsWith(u: string, i: nat, k: nat, us: seq<string>, rest: seq<string>) {
    i <= k <= |u| && us == [u[i..k]] + rest
  }

  lemma PartsStart(u: string, i: nat, k: nat)
    requires i < |u| && k == SlashFrom(u, i) < |u|
    ensures StartsWith(u, i, k, PartsFrom(u, i), PartsFrom(u, k + 1))
  {
    PartsUnfold(u, i, k);
  }

  /** Comparing two lists of components by their first ones. */
  lemma FirstStep(v: string, u: string, i: nat, k: nat, m: nat, s: seq<string>, t: seq<string>, vs: seq<string>,
                  us: seq<string>)
    requires Agree(v, u, i) && i < |v| && i < |u| && k == SlashFrom(v, i) < |v| && m == SlashFrom(u, i) < |u|
    requires StartsWith(v, i, k, vs, s) && StartsWith(u, i, m, us, t)
    requires SameFirst(v, u, k, m) ==> (v <= u <==> s <= t)
    ensures v <= u <==> vs <= us
  {
    AgreeMore(v, u, i, k, m);
    if v <= u {
      PrefixSharesFirst(v, u, i, k, m);
    }
    ByComponents(v <= u, v[i..k], s, vs, u[i..m], t, us);
  }

  /** Among closed paths, being a prefix as text is being a prefix by components. */
  lemma {:induction false} PrefixFrom(v: string, u: string, i: nat)
    requires Closed(v) && Closed(u) && Agree(v, u, i)
    ensures v <= u <==> NestedFrom(v, u, i)
    decreases |v| - i
  {
    if i == |v| || i == |u| {
      PrefixEnds(v, u, i);
    } else {
      var k, m := SlashFrom(v, i), SlashFrom(u, i);
      ClosedHasSlash(v, i);
      ClosedHasSlash(u, i);
      PartsStart(v, i, k);
      PartsStart(u, i, m);
      if SameFirst(v, u, k, m) {
        PrefixFrom(v, u, k + 1);
      }
      FirstStep(v, u, i, k, m, PartsFrom(v, k + 1), PartsFrom(u, m + 1), PartsFrom(v, i), PartsFrom(u, i));
    }
  }

  lemma PrefixEnds(v: string, u: string, i: nat)
    requires Closed(v) && Agree(v, u, i) && (i == |v| || i == |u|)
    ensures v <= u <==> NestedFrom(v, u, i)
  {
    if i == |v| {
      assert v == u[..i];
    } else {
      ClosedHasSlash(v, i);
      PartsUnfold(v, i, SlashFrom(v, i));
    }
  }

  lemma TextPrefixIsPartPrefix(v: string, u: string)
    requires Closed(v) && Closed(u)
    ensures v <= u <==> Parts(v) <= Parts(u)
  {
    PrefixFrom(v, u, 0);
  }

  predicate Overlap(pa: string, pb: string) {
    Norm(pb) <= Norm(pa) || Norm(pa) <= Norm(pb)
  }

  /** Two authorized paths overlap exactly when one's components are a prefix of the other's. */
  lemma OverlapIsNesting(pa: string, pb: string)
    ensures Overlap(pa, pb) <==> Parts(Norm(pa)) <= Parts(Norm(pb)) || Parts(Norm(pb)) <= Parts(Norm(pa))
  {
    TextPrefixIsPartPrefix(Norm(pa), Norm(pb));
    TextPrefixIsPartPrefix(Norm(pb), Norm(pa));
  }

  /** Trailing slashes do not count. */
  lemma SlashesDoNotCount(pa: string, pb: string)
    ensures Overlap(pa + "/", pb) == Overlap(pa, pb)
  {
    assert (pa + "/")[..|pa|] == pa;
  }

  /* The gate. */

  datatype Verdict = Pass | BadInput(pid: Node) | CycleFound(seen: nat, total: nat)
                   | Intersect(wave: nat, a: Node, b: Node, pa: string, pb: string)

  type Packets = map<Node, seq<string>>

  function NodesOf(edges: seq<Edge>, waves: seq<seq<Node>>): set<Node> {
    (set e | e in edges :: e.0) + (set e | e in edges :: e.1) + (set w, n | w in waves && n in w :: n)
  }

  predicate Loads(wave: seq<Node>, packets: Packets) {
    forall i :: 0 <= i < |wave| ==> wave[i] in packets
  }

  predicate ApartPaths(ps: seq<string>, qs: seq<string>) {
    forall a, b :: 0 <= a < |ps| && 0 <= b < |qs| ==> !Overlap(ps[a], qs[b])
  }

  /** No two positions of the wave have overlapping paths. */
  predicate Disjoint(wave: seq<Node>, packets: Packets)
    requires Loads(wave, packets)
  {
    forall i, j :: 0 <= i < j < |wave| ==> ApartPaths(packets[wave[i]], packets[wave[j]])
  }

  predicate WaveOk(wave: seq<Node>, packets: Packets) {
    Loads(wave, packets) && Disjoint(wave, packets)
  }

  predicate WavesOk(waves: seq<seq<Node>>, packets: Packets) {
    forall w :: 0 <= w < |waves| ==> WaveOk(waves[w], packets)
  }

  /** Endpoints of edges and members of waves. */
  method CollectNodes(edges: seq<Edge>, waves: seq<seq<Node>>) returns (nodes: set<Node>)
    ensures nodes == NodesOf(edges, waves) && Touch(nodes, edges)
  {
    nodes := NodesOf(edges, waves);
  }

  method ComparePaths(ps: seq<string>, qs: seq<string>) returns (hit: Option<(string, string)>)
    ensures hit.None? <==> ApartPaths(ps, qs)
    ensures hit.Some? ==> hit.value.0 in ps && hit.value.1 in qs && Overlap(hit.value.0, hit.value.1)
  {
    for a := 0 to |ps|
      invariant forall x, y :: 0 <= x < a && 0 <= y < |qs| ==> !Overlap(ps[x], qs[y])
    {
      for b := 0 to |qs|
        invariant forall y :: 0 <= y < b ==> !Overlap(ps[a], qs[y])
      {
        if Overlap(ps[a], qs[b]) {
          return Some((ps[a], qs[b]));
        }
      }
    }
    return None;
  }

  /** The reported packets are at two positions of the wave, and the reported paths are theirs. */
  predicate Clash(v: Verdict, wave: seq<Node>, packets: Packets)
    requires v.Intersect? && Loads(wave, packets)
  {
    && Overlap(v.pa, v.pb)
    && (exists i, j :: 0 <= i < j < |wave| && wave[i] == v.a && wave[j] == v.b)
    && v.a in packets && v.pa in packets[v.a] && v.b in packets && v.pb in packets[v.b]
  }

  method CheckWave(w: nat, wave: seq<Node>, packets: Packets) returns (verdict: Verdict)
    ensures verdict.Pass? <==> WaveOk(wave, packets)
    ensures verdict.BadInput? ==> verdict.pid in wave && verdict.pid !in packets
    ensures verdict.Intersect? ==> verdict.wave == w && !WaveOk(wave, packets)
    ensures verdict.Intersect? ==> Loads(wave, packets) && Clash(verdict, wave, packets)
    ensures !verdict.CycleFound?
  {
    for i := 0 to |wave|
      invariant forall k :: 0 <= k < i ==> wave[k] in packets
    {
      if wave[i] !in packets {
        return BadInput(wave[i]);
      }
    }
    for i := 0 to |wave|
      invariant forall x, y :: 0 <= x < i && x < y < |wave| ==> ApartPaths(packets[wave[x]], packets[wave[y]])
    {
      for j := i + 1 to |wave|
        invariant forall y :: i < y < j ==> ApartPaths(packets[wave[i]], packets[wave[y]])
      {
        var hit := ComparePaths(packets[wave[i]], packets[wave[j]]);
        if hit.Some? {
          return Intersect(w, wave[i], wave[j], hit.value.0, hit.value.1);
        }
      }
    }
    return Pass;
  }

  method CheckWaves(waves: seq<seq<Node>>, packets: Packets) returns (verdict: Verdict)
    ensures verdict.Pass? <==> WavesOk(waves, packets)
    ensures verdict.Intersect? ==> verdict.wave < |waves| && Loads(waves[verdict.wave], packets)
    ensures verdict.Intersect? ==> Clash(verdict, waves[verdict.wave], packets)
    ensures verdict.BadInput? ==> verdict.pid !in packets
    ensures !verdict.CycleFound?
  {
    for w := 0 to |waves|
      invariant forall k :: 0 <= k < w ==> WaveOk(waves[k], packets)
    {
      verdict := CheckWave(w, waves[w], packets);
      if !verdict.Pass? {
        return;
      }
    }
    return Pass;
  }

  /** The whole gate: it passes exactly when the graph is acyclic and every wave loads and is
      path-disjoint, and a failure of the first test means there is a cycle. */
  method AssertDag(edges: seq<Edge>, waves: seq<seq<Node>>, packets: Packets) returns (verdict: Verdict)
    ensures verdict.Pass? <==> Acyclic(edges) && WavesOk(waves, packets)
    ensures verdict.CycleFound? <==> !Acyclic(edges)
    ensures verdict.CycleFound? ==> verdict.seen < verdict.total == |NodesOf(edges, waves)|
    ensures verdict.Intersect? ==> verdict.wave < |waves| && Loads(waves[verdict.wave], packets)
    ensures verdict.Intersect? ==> Clash(verdict, waves[verdict.wave], packets)
    ensures verdict.BadInput? ==> verdict.pid !in packets
  {
    var nodes := CollectNodes(edges, waves);
    var ok, seen := SortsTopologically(nodes, edges);
    if !ok {
      return CycleFound(seen, |nodes|);
    }
    verdict := CheckWaves(waves, packets);
  }
}
