/** The bounded import search returns exactly the neighbourhood it should, and says so when it cannot. */
module ImportSearch {
  import opened Prelude
  import opened ImportGraph

  /** `found` is false for a path that is not indexed. */
  datatype Result = Result(nodes: map<NodeId, NodeInfo>, edges: map<Edge, Import>, truncated: bool, found: bool)

  /** The nodes and the relations that belong in a graph, and the files that may wait at each depth. */
  datatype Scope = Scope(nodes: iset<NodeId>, relations: iset<(Edge, Import)>, waiting: iset<(Path, nat)>)
  {
    ghost predicate AllNodes(ids: set<NodeId>) {
      forall id :: id in ids ==> id in nodes
    }

    ghost predicate AllEdges(es: set<Edge>) {
      forall e :: e in es ==> exists m :: (e, m) in relations
    }

    /** There are more nodes or more edges than the caps allow. */
    ghost predicate Overflows() {
      || (exists ids :: AllNodes(ids) && |ids| > GRAPH_MAX_NODES)
      || (exists es :: AllEdges(es) && |es| > GRAPH_MAX_EDGES)
    }
  }

  datatype Query = Query(repo: Repo, root: Path, direction: Direction, depth: nat)
  {
    ghost predicate Valid() {
      repo.Valid() && root in repo.files
    }

    /** A depth below 1 searches like 1. */
    function Radius(): nat {
      Max(1, depth)
    }

    ghost function Within(k: nat): set<Path> {
      Level(repo, direction, root, k)
    }

    /** The files whose relations belong in the graph. */
    ghost function Inner(): set<Path> {
      Within(Radius() - 1)
    }

    ghost predicate NodeOf(done: set<Path>, id: NodeId) {
      id == FileId(root) || exists p :: p in done && Hop(repo, direction, p, id)
    }

    ghost predicate EdgeOf(done: set<Path>, e: Edge) {
      e.from.FileId? && exists p, m :: p in done && Incident(repo, direction, p, e.from.path, m, e.to)
    }

    ghost predicate EdgeVia(done: set<Path>, e: Edge, m: Import) {
      e.from.FileId? && exists p :: p in done && Incident(repo, direction, p, e.from.path, m, e.to)
    }

    /** What belongs in the graph, as sets. */
    ghost function Extent(): Scope {
      Scope(
        iset id | NodeOf(Inner(), id),
        iset r: (Edge, Import) | EdgeVia(Inner(), r.0, r.1),
        iset x: (Path, nat) | x.0 in repo.files && x.1 < Radius() && x.0 in Within(x.1))
    }

    ghost predicate TouchOf(p: Path, t: Touch) {
      || (direction != Importers && t.edge == Edge(FileId(p), t.id) && Relates(repo, p, t.via, t.id))
      || (direction != Imports && t.id.FileId? && t.edge == Edge(t.id, FileId(p))
          && Relates(repo, t.id.path, t.via, FileId(p)))
    }
  }

  // ----- The relations looked at are the relations of the file -----

  lemma {:induction false} InTouchesOfAre(repo: Repo, p: Path, c: Path, imports: seq<Import>, t: Touch)
    ensures t in InTouchesOf(repo, p, c, imports) <==>
            && t.via in imports && repo.Target(c, t.via) == FileId(p)
            && t == Touch(FileId(c), Edge(FileId(c), FileId(p)), t.via)
  {
    if imports != [] {
      InTouchesOfAre(repo, p, c, imports[1..], t);
      assert imports == [imports[0]] + imports[1..];
    }
  }

  lemma {:induction false} InTouchesAre(repo: Repo, p: Path, candidates: seq<Path>, t: Touch)
    requires forall c :: c in candidates ==> c in repo.files
    ensures t in InTouches(repo, p, candidates) <==>
            && t.id.FileId? && t.id.path in candidates && t.edge == Edge(t.id, FileId(p))
            && Relates(repo, t.id.path, t.via, FileId(p))
  {
    if candidates != [] {
      InTouchesOfAre(repo, p, candidates[0], repo.files[candidates[0]].imports, t);
      InTouchesAre(repo, p, candidates[1..], t);
      assert candidates == [candidates[0]] + candidates[1..];
    }
  }

  lemma OutTouchesAre(repo: Repo, p: Path, t: Touch)
    requires p in repo.files
    ensures t in OutTouches(repo, p, repo.files[p].imports) <==>
            t.edge == Edge(FileId(p), t.id) && Relates(repo, p, t.via, t.id)
  {
    var imports := repo.files[p].imports;
    if t.edge == Edge(FileId(p), t.id) && Relates(repo, p, t.via, t.id) {
      var i :| 0 <= i < |imports| && imports[i] == t.via;
      assert OutTouches(repo, p, imports)[i] == t;
    }
  }

  /** What one expansion looks at: the relations of `p` under the direction, all of them and nothing else. */
  lemma TouchesAre(q: Query, p: Path, t: Touch)
    requires q.Valid() && p in q.repo.files
    ensures t in Touches(q.repo, q.direction, p) <==> q.TouchOf(p, t)
  {
    OutTouchesAre(q.repo, p, t);
    InTouchesAre(q.repo, p, q.repo.order, t);
  }

  ghost function Ids(ts: seq<Touch>): set<NodeId> {
    set t | t in ts :: t.id
  }

  ghost function EdgesIn(ts: seq<Touch>): set<Edge> {
    set t | t in ts :: t.edge
  }

  ghost function FilesIn(ts: seq<Touch>): set<Path> {
    set t | t in ts && t.id.FileId? :: t.id.path
  }

  ghost function Paths(frontier: seq<(Path, nat)>): set<Path> {
    set x | x in frontier :: x.0
  }

  lemma TouchedNodes(q: Query, p: Path, id: NodeId)
    requires q.Valid() && p in q.repo.files
    ensures id in Ids(Touches(q.repo, q.direction, p)) <==> Hop(q.repo, q.direction, p, id)
  {
    var ts := Touches(q.repo, q.direction, p);
    if id in Ids(ts) {
      var t :| t in ts && t.id == id;
      TouchesAre(q, p, t);
    }
    forall m | q.direction != Importers && Relates(q.repo, p, m, id) ensures id in Ids(ts) {
      TouchesAre(q, p, Touch(id, Edge(FileId(p), id), m));
    }
    forall m | q.direction != Imports && id.FileId? && Relates(q.repo, id.path, m, FileId(p)) ensures id in Ids(ts) {
      TouchesAre(q, p, Touch(id, Edge(id, FileId(p)), m));
    }
  }

  lemma TouchedEdges(q: Query, p: Path, e: Edge)
    requires q.Valid() && p in q.repo.files
    ensures e in EdgesIn(Touches(q.repo, q.direction, p)) <==>
            e.from.FileId? && exists m :: Incident(q.repo, q.direction, p, e.from.path, m, e.to)
  {
    var ts := Touches(q.repo, q.direction, p);
    if e in EdgesIn(ts) {
      var t :| t in ts && t.edge == e;
      TouchesAre(q, p, t);
      assert Incident(q.repo, q.direction, p, e.from.path, t.via, e.to);
    }
    forall m | e.from.FileId? && Incident(q.repo, q.direction, p, e.from.path, m, e.to) ensures e in EdgesIn(ts) {
      if q.direction != Importers && e.from == FileId(p) {
        TouchesAre(q, p, Touch(e.to, e, m));
      } else {
        TouchesAre(q, p, Touch(e.from, e, m));
      }
    }
  }

  // ----- What one expansion does -----

  lemma IdsCons(t: Touch, rest: seq<Touch>)
    ensures Ids([t] + rest) == {t.id} + Ids(rest)
    ensures EdgesIn([t] + rest) == {t.edge} + EdgesIn(rest)
    ensures FilesIn([t] + rest) == (if t.id.FileId? then {t.id.path} else {}) + FilesIn(rest)
  {
    var ts := [t] + rest;
    assert forall x :: x in ts <==> x == t || x in rest;
  }

  lemma NodeFits(repo: Repo, s: Search, id: NodeId)
    requires AddNode(repo, s, id).1
    ensures AddNode(repo, s, id).0 == s.(nodes := AddNode(repo, s, id).0.nodes)
    ensures AddNode(repo, s, id).0.nodes.Keys == s.nodes.Keys + {id}
  {
    if id in s.nodes {
      assert s.nodes.Keys == s.nodes.Keys + {id};
    }
  }

  lemma EdgeFits(s: Search, e: Edge, via: Import)
    requires AddEdge(s, e, via).1
    ensures AddEdge(s, e, via).0 == s.(edges := AddEdge(s, e, via).0.edges)
    ensures AddEdge(s, e, via).0.edges.Keys == s.edges.Keys + {e}
  {
    if e in s.edges {
      assert s.edges.Keys == s.edges.Keys + {e};
    }
  }

  lemma EnqueueAdds(s: Search, id: NodeId, d: nat, depth: nat) returns (added: seq<(Path, nat)>)
    ensures var r := Enqueue(s, id, d, depth); r == s.(visited := r.visited, frontier := r.frontier)
    ensures Enqueue(s, id, d, depth).visited == s.visited + if id.FileId? && d + 1 < depth then {id.path} else {}
    ensures Queued(s, Enqueue(s, id, d, depth), added, d)
  {
    if id.FileId? && d + 1 < depth && id.path !in s.visited {
      added := [(id.path, d + 1)];
      assert Paths(added) == {id.path};
      assert (s.visited + {id.path}) - s.visited == {id.path};
    } else {
      added := [];
      assert Paths(added) == {};
      assert s.frontier + added == s.frontier;
    }
  }

  /** `r` is `s` with these nodes, edges and visited files added. */
  ghost predicate Grown(s: Search, r: Search, ids: set<NodeId>, edges: set<Edge>, files: set<Path>) {
    && r.nodes.Keys == s.nodes.Keys + ids
    && r.edges.Keys == s.edges.Keys + edges
    && r.visited == s.visited + files
  }

  lemma GrownTwice(s: Search, mid: Search, r: Search, ids: set<NodeId>, edges: set<Edge>, files: set<Path>,
                   moreIds: set<NodeId>, moreEdges: set<Edge>, moreFiles: set<Path>)
    requires Grown(s, mid, ids, edges, files) && Grown(mid, r, moreIds, moreEdges, moreFiles)
    ensures Grown(s, r, ids + moreIds, edges + moreEdges, files + moreFiles)
  {
  }

  ghost function FilesFor(ts: seq<Touch>, d: nat, depth: nat): set<Path> {
    if d + 1 < depth then FilesIn(ts) else {}
  }

  lemma FilesForCons(t: Touch, rest: seq<Touch>, d: nat, depth: nat)
    ensures FilesFor([t] + rest, d, depth) ==
            (if t.id.FileId? && d + 1 < depth then {t.id.path} else {}) + FilesFor(rest, d, depth)
  {
    IdsCons(t, rest);
  }

  lemma GrownCons(s: Search, mid: Search, r: Search, ts: seq<Touch>, d: nat, depth: nat)
    requires ts != []
    requires Grown(s, mid, {ts[0].id}, {ts[0].edge}, if ts[0].id.FileId? && d + 1 < depth then {ts[0].id.path} else {})
    requires Grown(mid, r, Ids(ts[1..]), EdgesIn(ts[1..]), FilesFor(ts[1..], d, depth))
    ensures Grown(s, r, Ids(ts), EdgesIn(ts), FilesFor(ts, d, depth))
  {
    var t, rest := ts[0], ts[1..];
    assert ts == [t] + rest;
    IdsCons(t, rest);
    FilesForCons(t, rest, d, depth);
    GrownTwice(s, mid, r, {t.id}, {t.edge}, if t.id.FileId? && d + 1 < depth then {t.id.path} else {},
               Ids(rest), EdgesIn(rest), FilesFor(rest, d, depth));
  }

  /** One relation that fits. */
  lemma OneFits(repo: Repo, s: Search, t: Touch, d: nat, depth: nat)
    requires ProcessOne(repo, s, t, d, depth).1
    ensures Grown(s, ProcessOne(repo, s, t, d, depth).0, {t.id}, {t.edge},
                  if t.id.FileId? && d + 1 < depth then {t.id.path} else {})
  {
    NodeFits(repo, s, t.id);
    var s1 := AddNode(repo, s, t.id).0;
    EdgeFits(s1, t.edge, t.via);
    var s2 := AddEdge(s1, t.edge, t.via).0;
    var added := EnqueueAdds(s2, t.id, d, depth);
  }

  lemma FirstFits(repo: Repo, s: Search, ts: seq<Touch>, d: nat, depth: nat)
    requires ts != [] && !Process(repo, s, ts, d, depth).truncated
    ensures var (next, ok) := ProcessOne(repo, s, ts[0], d, depth);
            ok && Process(repo, s, ts, d, depth) == Process(repo, next, ts[1..], d, depth)
  {
    assert ts == [ts[0]] + ts[1..];
    ProcessCons(repo, s, ts[0], ts[1..], d, depth);
  }

  /** An expansion that fits records every relation it looked at. */
  lemma {:induction false} ProcessFits(repo: Repo, s: Search, ts: seq<Touch>, d: nat, depth: nat)
    requires !Process(repo, s, ts, d, depth).truncated
    ensures Grown(s, Process(repo, s, ts, d, depth), Ids(ts), EdgesIn(ts), FilesFor(ts, d, depth))
    decreases |ts|
  {
    if ts != [] {
      FirstFits(repo, s, ts, d, depth);
      OneFits(repo, s, ts[0], d, depth);
      var next := ProcessOne(repo, s, ts[0], d, depth).0;
      ProcessFits(repo, next, ts[1..], d, depth);
      GrownCons(s, next, Process(repo, next, ts[1..], d, depth), ts, d, depth);
    }
  }

  ghost predicate Queued(s: Search, r: Search, added: seq<(Path, nat)>, d: nat) {
    && r.frontier == s.frontier + added
    && s.visited <= r.visited && Paths(added) == r.visited - s.visited
    && |r.visited| == |s.visited| + |added|
    && (forall x :: x in added ==> x.1 == d + 1)
  }

  lemma OneQueues(repo: Repo, s: Search, t: Touch, d: nat, depth: nat) returns (added: seq<(Path, nat)>)
    ensures Queued(s, ProcessOne(repo, s, t, d, depth).0, added, d)
  {
    var (s1, ok1) := AddNode(repo, s, t.id);
    var (s2, ok2) := AddEdge(s1, t.edge, t.via);
    assert s2.visited == s.visited && s2.frontier == s.frontier;
    if ok1 && ok2 {
      added := EnqueueAdds(s2, t.id, d, depth);
    } else {
      added := [];
      assert s.frontier + [] == s.frontier;
      assert Paths([]) == {};
    }
  }

  lemma QueuedTwice(s: Search, mid: Search, r: Search, a: seq<(Path, nat)>, b: seq<(Path, nat)>, d: nat)
    requires Queued(s, mid, a, d) && Queued(mid, r, b, d)
    ensures Queued(s, r, a + b, d)
  {
    assert Paths(a + b) == Paths(a) + Paths(b);
    assert (s.frontier + a) + b == s.frontier + (a + b);
  }

  /** Every file an expansion puts on the frontier is newly visited, and put there once. */
  lemma {:induction false} ProcessQueues(
    repo: Repo, s: Search, ts: seq<Touch>, d: nat, depth: nat)
    returns (added: seq<(Path, nat)>)
    ensures Queued(s, Process(repo, s, ts, d, depth), added, d)
    decreases |ts|
  {
    if ts == [] {
      added := [];
      assert s.frontier == s.frontier + added;
    } else {
      added := OneQueues(repo, s, ts[0], d, depth);
      var (next, ok) := ProcessOne(repo, s, ts[0], d, depth);
      if ok {
        var more := ProcessQueues(repo, next, ts[1..], d, depth);
        QueuedTwice(s, next, Process(repo, next, ts[1..], d, depth), added, more, d);
        added := added + more;
      }
    }
  }

  // ----- What holds of every search, truncated or not -----

  ghost predicate Capped(s: Search) {
    |s.nodes| <= GRAPH_MAX_NODES && |s.edges| <= GRAPH_MAX_EDGES
  }

  ghost predicate NodesSound(repo: Repo, scope: Scope, s: Search) {
    forall id :: id in s.nodes ==> id in scope.nodes && s.nodes[id] == repo.Info(id)
  }

  ghost predicate EdgesSound(scope: Scope, s: Search) {
    forall e :: e in s.edges ==> e.from in s.nodes && e.to in s.nodes && (e, s.edges[e]) in scope.relations
  }

  ghost predicate QueueSound(scope: Scope, s: Search) {
    && (forall v :: v in s.visited ==> FileId(v) in s.nodes)
    && (forall x :: x in s.frontier ==> x.0 in s.visited && x in scope.waiting)
  }

  ghost predicate Sound(repo: Repo, scope: Scope, s: Search) {
    && Capped(s) && NodesSound(repo, scope, s) && EdgesSound(scope, s) && QueueSound(scope, s)
    && (s.truncated ==> scope.Overflows())
  }

  /** A relation of the file `p`, met at depth `d`. */
  ghost predicate Belongs(scope: Scope, p: Path, d: nat, depth: nat, t: Touch) {
    && t.id in scope.nodes && (t.edge, t.via) in scope.relations
    && t.edge.from in {FileId(p), t.id} && t.edge.to in {FileId(p), t.id}
    && (t.id.FileId? && d + 1 < depth ==> (t.id.path, d + 1) in scope.waiting)
  }

  lemma TouchNear(q: Query, inner: set<Path>, p: Path, t: Touch)
    requires p in inner && q.TouchOf(p, t)
    ensures q.NodeOf(inner, t.id) && q.EdgeVia(inner, t.edge, t.via)
    ensures t.edge.from in {FileId(p), t.id} && t.edge.to in {FileId(p), t.id}
  {
    assert Hop(q.repo, q.direction, p, t.id);
    assert Incident(q.repo, q.direction, p, t.edge.from.path, t.via, t.edge.to);
  }

  lemma TouchWithin(q: Query, p: Path, d: nat, t: Touch)
    requires q.Valid() && p in q.Within(d) && q.TouchOf(p, t) && t.id.FileId?
    ensures t.id.path in q.repo.files && t.id.path in q.Within(d + 1)
  {
    assert Hop(q.repo, q.direction, p, t.id);
    LevelGrows(q.repo, q.direction, q.root, d, t.id.path);
  }

  lemma WithinInner(q: Query, p: Path, d: nat)
    requires d < q.Radius() && p in q.Within(d)
    ensures p in q.Inner()
  {
  }

  lemma ExtentHas(q: Query, id: NodeId, e: Edge, m: Import, p: Path, d: nat)
    ensures id in q.Extent().nodes <==> q.NodeOf(q.Inner(), id)
    ensures (e, m) in q.Extent().relations <==> q.EdgeVia(q.Inner(), e, m)
    ensures (p, d) in q.Extent().waiting <==> p in q.repo.files && d < q.Radius() && p in q.Within(d)
  {
  }

  lemma TouchBelongs(q: Query, p: Path, d: nat, t: Touch)
    requires q.Valid() && (p, d) in q.Extent().waiting && q.TouchOf(p, t)
    ensures Belongs(q.Extent(), p, d, q.depth, t)
  {
    ExtentHas(q, t.id, t.edge, t.via, p, d);
    WithinInner(q, p, d);
    TouchNear(q, q.Inner(), p, t);
    if t.id.FileId? {
      TouchWithin(q, p, d, t);
      ExtentHas(q, t.id, t.edge, t.via, t.id.path, d + 1);
    }
  }

  lemma NodeStepSound(repo: Repo, scope: Scope, s: Search, id: NodeId)
    requires Sound(repo, scope, s) && id in scope.nodes
    ensures Sound(repo, scope, AddNode(repo, s, id).0)
  {
    if id !in s.nodes && |s.nodes| >= GRAPH_MAX_NODES {
      NodesOverflow(repo, scope, s, id);
    }
  }

  lemma NodesOverflow(repo: Repo, scope: Scope, s: Search, id: NodeId)
    requires NodesSound(repo, scope, s) && id in scope.nodes && id !in s.nodes && |s.nodes| >= GRAPH_MAX_NODES
    ensures scope.Overflows()
  {
    var ids := s.nodes.Keys + {id};
    assert scope.AllNodes(ids) && |ids| == |s.nodes| + 1;
  }

  lemma EdgesOverflow(scope: Scope, s: Search, e: Edge, via: Import)
    requires EdgesSound(scope, s) && (e, via) in scope.relations && e !in s.edges && |s.edges| >= GRAPH_MAX_EDGES
    ensures scope.Overflows()
  {
    var es := s.edges.Keys + {e};
    forall x | x in es ensures exists m :: (x, m) in scope.relations {
      assert (x, if x == e then via else s.edges[x]) in scope.relations;
    }
    assert scope.AllEdges(es) && |es| == |s.edges| + 1;
  }

  lemma EdgeStepSound(repo: Repo, scope: Scope, s: Search, e: Edge, via: Import)
    requires Sound(repo, scope, s) && (e, via) in scope.relations && e.from in s.nodes && e.to in s.nodes
    ensures Sound(repo, scope, AddEdge(s, e, via).0)
  {
    if e in s.edges {
    } else if |s.edges| >= GRAPH_MAX_EDGES {
      EdgesOverflow(scope, s, e, via);
    } else {
      assert EdgesSound(scope, AddEdge(s, e, via).0);
    }
  }

  lemma EnqueueSound(repo: Repo, scope: Scope, s: Search, id: NodeId, d: nat, depth: nat)
    requires Sound(repo, scope, s) && id in s.nodes
    requires id.FileId? && d + 1 < depth ==> (id.path, d + 1) in scope.waiting
    ensures Sound(repo, scope, Enqueue(s, id, d, depth))
  {
    var next := Enqueue(s, id, d, depth);
    assert next.frontier == s.frontier || next.frontier == s.frontier + [(id.path, d + 1)];
    assert QueueSound(scope, next);
  }

  lemma EdgeAndQueueSound(repo: Repo, scope: Scope, s: Search, p: Path, d: nat, depth: nat, t: Touch)
    requires Sound(repo, scope, s) && FileId(p) in s.nodes && t.id in s.nodes && Belongs(scope, p, d, depth, t)
    ensures var (next, ok) := AddEdge(s, t.edge, t.via);
            && Sound(repo, scope, next) && next.nodes == s.nodes
            && (ok ==> Sound(repo, scope, Enqueue(next, t.id, d, depth)))
  {
    EdgeStepSound(repo, scope, s, t.edge, t.via);
    var (next, ok) := AddEdge(s, t.edge, t.via);
    if ok {
      EnqueueSound(repo, scope, next, t.id, d, depth);
    }
  }

  lemma OneSound(repo: Repo, scope: Scope, s: Search, p: Path, d: nat, depth: nat, t: Touch)
    requires Sound(repo, scope, s) && FileId(p) in s.nodes && Belongs(scope, p, d, depth, t)
    ensures Sound(repo, scope, ProcessOne(repo, s, t, d, depth).0)
    ensures FileId(p) in ProcessOne(repo, s, t, d, depth).0.nodes
  {
    NodeStepSound(repo, scope, s, t.id);
    var (s1, ok1) := AddNode(repo, s, t.id);
    if ok1 {
      EdgeAndQueueSound(repo, scope, s1, p, d, depth, t);
    }
  }

  lemma {:induction false} ProcessSound(
    repo: Repo, scope: Scope, s: Search, p: Path, d: nat, depth: nat, ts: seq<Touch>)
    requires Sound(repo, scope, s) && FileId(p) in s.nodes
    requires forall t :: t in ts ==> Belongs(scope, p, d, depth, t)
    ensures Sound(repo, scope, Process(repo, s, ts, d, depth))
    decreases |ts|
  {
    if ts != [] {
      OneSound(repo, scope, s, p, d, depth, ts[0]);
      ProcessSound(repo, scope, ProcessOne(repo, s, ts[0], d, depth).0, p, d, depth, ts[1..]);
    }
  }

  /** Expanding the head of the frontier keeps the search sound. */
  lemma VisitSound(q: Query, s: Search)
    requires q.Valid() && Sound(q.repo, q.Extent(), s) && s.frontier != []
    ensures var (p, d) := s.frontier[0];
            p in q.repo.files && Sound(q.repo, q.Extent(), Visit(q.repo, q.direction, Pop(s), p, d, q.depth))
  {
    var (p, d) := s.frontier[0];
    assert s.frontier[0] in s.frontier;
    var ts := Touches(q.repo, q.direction, p);
    forall t | t in ts ensures Belongs(q.Extent(), p, d, q.depth, t) {
      TouchesAre(q, p, t);
      TouchBelongs(q, p, d, t);
    }
    assert Sound(q.repo, q.Extent(), Pop(s));
    ProcessSound(q.repo, q.Extent(), Pop(s), p, d, q.depth, ts);
  }

  lemma BeginSound(q: Query)
    requires q.Valid()
    ensures Sound(q.repo, q.Extent(), Begin(q.repo, q.root))
  {
    RootInLevel(q.repo, q.direction, q.root, 0);
  }

  // ----- What holds of a search that has not been truncated -----

  /** Files exactly one hop from `done`. */
  ghost predicate NextTo(q: Query, done: set<Path>, v: Path) {
    exists p :: p in done && Hop(q.repo, q.direction, p, FileId(v))
  }

  /** The graph holds exactly the relations of the files in `done`. */
  ghost predicate Covers(q: Query, s: Search, done: set<Path>) {
    && (forall id :: id in s.nodes <==> q.NodeOf(done, id))
    && (forall e :: e in s.edges <==> q.EdgeOf(done, e))
  }

  /**
   * Depth `k` is being expanded and `level` holds the files up to there: `done` has been expanded, the first `c`
   * entries of the frontier are the rest of the level, and the others are the part of the next level found so far.
   */
  ghost predicate AtLevel(q: Query, s: Search, k: nat, level: set<Path>, done: set<Path>, c: nat) {
    && k < q.Radius() && c <= |s.frontier|
    && (forall i :: 0 <= i < |s.frontier| ==> s.frontier[i].1 == if i < c then k else k + 1)
    && level == done + Paths(s.frontier[..c])
    && s.visited == level + Paths(s.frontier[c..])
    && (forall v :: v in Paths(s.frontier[c..]) <==> k + 1 < q.Radius() && v !in level && NextTo(q, done, v))
  }

  lemma CoversVisit(q: Query, s: Search, done: set<Path>, p: Path, d: nat)
    requires q.Valid() && p in q.repo.files && Covers(q, s, done)
    requires !Visit(q.repo, q.direction, s, p, d, q.depth).truncated
    ensures Covers(q, Visit(q.repo, q.direction, s, p, d, q.depth), done + {p})
  {
    var ts := Touches(q.repo, q.direction, p);
    var r := Visit(q.repo, q.direction, s, p, d, q.depth);
    ProcessFits(q.repo, s, ts, d, q.depth);
    forall id ensures id in r.nodes <==> q.NodeOf(done + {p}, id) {
      TouchedNodes(q, p, id);
      assert id in r.nodes.Keys <==> id in s.nodes.Keys || id in Ids(ts);
    }
    forall e ensures e in r.edges <==> q.EdgeOf(done + {p}, e) {
      TouchedEdges(q, p, e);
      assert e in r.edges.Keys <==> e in s.edges.Keys || e in EdgesIn(ts);
    }
  }

  lemma TouchedFiles(q: Query, p: Path, v: Path)
    requires q.Valid() && p in q.repo.files
    ensures v in FilesIn(Touches(q.repo, q.direction, p)) <==> Hop(q.repo, q.direction, p, FileId(v))
  {
    TouchedNodes(q, p, FileId(v));
    assert v in FilesIn(Touches(q.repo, q.direction, p)) <==> FileId(v) in Ids(Touches(q.repo, q.direction, p));
  }

  lemma PathsConcat(a: seq<(Path, nat)>, b: seq<(Path, nat)>)
    ensures Paths(a + b) == Paths(a) + Paths(b)
  {
  }

  /** `added` are the files one hop from `p` not met before, when there is a level after `k`. */
  ghost predicate Adds(q: Query, s: Search, r: Search, p: Path, k: nat, added: seq<(Path, nat)>) {
    && r.frontier == s.frontier + added && r.visited == s.visited + Paths(added)
    && (forall x :: x in added ==> x.1 == k + 1)
    && (forall v :: v in Paths(added) <==>
          k + 1 < q.Radius() && v !in s.visited && Hop(q.repo, q.direction, p, FileId(v)))
  }

  lemma QueuedAdds(q: Query, s: Search, r: Search, p: Path, k: nat, files: set<Path>, added: seq<(Path, nat)>)
    requires Queued(s, r, added, k) && r.visited == s.visited + if k + 1 < q.depth then files else {}
    requires forall v :: v in files <==> Hop(q.repo, q.direction, p, FileId(v))
    ensures Adds(q, s, r, p, k, added)
  {
    assert Paths(added) == r.visited - s.visited;
  }

  lemma VisitAdds(q: Query, s: Search, p: Path, k: nat) returns (added: seq<(Path, nat)>)
    requires q.Valid() && p in q.repo.files && !Visit(q.repo, q.direction, s, p, k, q.depth).truncated
    ensures Adds(q, s, Visit(q.repo, q.direction, s, p, k, q.depth), p, k, added)
  {
    var ts := Touches(q.repo, q.direction, p);
    ProcessFits(q.repo, s, ts, k, q.depth);
    added := ProcessQueues(q.repo, s, ts, k, q.depth);
    forall v ensures v in FilesIn(ts) <==> Hop(q.repo, q.direction, p, FileId(v)) {
      TouchedFiles(q, p, v);
    }
    QueuedAdds(q, s, Process(q.repo, s, ts, k, q.depth), p, k, FilesIn(ts), added);
  }

  lemma NextFound(q: Query, k: nat, level: set<Path>, done: set<Path>, p: Path, later: set<Path>, added: set<Path>)
    requires forall v :: v in later <==> k + 1 < q.Radius() && v !in level && NextTo(q, done, v)
    requires forall v :: v in added <==>
               k + 1 < q.Radius() && v !in level + later && Hop(q.repo, q.direction, p, FileId(v))
    ensures forall v :: v in later + added <==> k + 1 < q.Radius() && v !in level && NextTo(q, done + {p}, v)
  {
    forall v ensures NextTo(q, done + {p}, v) <==> NextTo(q, done, v) || Hop(q.repo, q.direction, p, FileId(v)) {
      NextToOneMore(q, done, p, v);
    }
  }

  lemma NextToOneMore(q: Query, done: set<Path>, p: Path, v: Path)
    ensures NextTo(q, done + {p}, v) <==> NextTo(q, done, v) || Hop(q.repo, q.direction, p, FileId(v))
  {
  }

  /** The head leaves, `added` joins at the back. */
  lemma FrontierStep(f: seq<(Path, nat)>, added: seq<(Path, nat)>, k: nat, c: nat)
    requires 0 < c <= |f|
    requires forall i :: 0 <= i < |f| ==> f[i].1 == if i < c then k else k + 1
    requires forall x :: x in added ==> x.1 == k + 1
    ensures var g := f[1..] + added;
            && (forall i :: 0 <= i < |g| ==> g[i].1 == if i < c - 1 then k else k + 1)
            && g[..c - 1] == f[1..c] && g[c - 1..] == f[c..] + added
    ensures Paths(f[..c]) == {f[0].0} + Paths(f[1..c])
    ensures Paths(f[c..] + added) == Paths(f[c..]) + Paths(added)
  {
    PathsConcat(f[c..], added);
    assert f[..c] == [f[0]] + f[1..c];
    PathsConcat([f[0]], f[1..c]);
    assert Paths([f[0]]) == {f[0].0};
  }

  lemma LevelStep(
    q: Query, s: Search, r: Search, k: nat, level: set<Path>, done: set<Path>, c: nat, added: seq<(Path, nat)>)
    requires AtLevel(q, s, k, level, done, c) && c > 0
    requires Adds(q, Pop(s), r, s.frontier[0].0, k, added)
    ensures AtLevel(q, r, k, level, done + {s.frontier[0].0}, c - 1)
  {
    var p := s.frontier[0].0;
    FrontierStep(s.frontier, added, k, c);
    NextFound(q, k, level, done, p, Paths(s.frontier[c..]), Paths(added));
  }

  lemma LevelVisit(q: Query, s: Search, k: nat, level: set<Path>, done: set<Path>, c: nat)
    requires q.Valid() && AtLevel(q, s, k, level, done, c) && c > 0
    requires s.frontier[0].0 in q.repo.files
    requires !Visit(q.repo, q.direction, Pop(s), s.frontier[0].0, k, q.depth).truncated
    ensures var p := s.frontier[0].0;
            AtLevel(q, Visit(q.repo, q.direction, Pop(s), p, k, q.depth), k, level, done + {p}, c - 1)
  {
    var p := s.frontier[0].0;
    var added := VisitAdds(q, Pop(s), p, k);
    LevelStep(q, s, Visit(q.repo, q.direction, Pop(s), p, k, q.depth), k, level, done, c, added);
  }

  lemma HopsToFiles(q: Query, p: Path, v: Path)
    requires q.Valid() && Hop(q.repo, q.direction, p, FileId(v))
    ensures v in q.repo.files
  {
  }

  /** The level after `level`, in the search's terms. */
  lemma NextLevel(q: Query, k: nat, v: Path)
    requires q.Valid()
    ensures v in q.Within(k + 1) <==> v in q.Within(k) || NextTo(q, q.Within(k), v)
  {
    forall p | p in q.Within(k) && Hop(q.repo, q.direction, p, FileId(v)) ensures v in q.repo.files {
      HopsToFiles(q, p, v);
    }
    if v in q.repo.files {
      LevelGrows(q.repo, q.direction, q.root, k, v);
    }
  }

  lemma LevelUp(q: Query, s: Search, k: nat, done: set<Path>)
    requires q.Valid() && AtLevel(q, s, k, q.Within(k), done, 0) && s.frontier != []
    ensures AtLevel(q, s, k + 1, q.Within(k + 1), done, |s.frontier|)
  {
    var level := q.Within(k);
    assert s.frontier[..0] == [] && s.frontier[0..] == s.frontier && s.frontier[..|s.frontier|] == s.frontier;
    assert done == level;
    assert s.frontier[0].0 in Paths(s.frontier);
    forall v ensures v in q.Within(k + 1) <==> v in level + Paths(s.frontier) {
      NextLevel(q, k, v);
    }
    assert q.Within(k + 1) == level + Paths(s.frontier);
    assert s.frontier[|s.frontier|..] == [];
    forall v | NextTo(q, level, v) ensures v in q.Within(k + 1) {
      NextLevel(q, k, v);
    }
  }

  lemma NothingNext(q: Query, s: Search, k: nat, level: set<Path>, done: set<Path>, v: Path)
    requires AtLevel(q, s, k, level, done, 0) && s.frontier == [] && k + 1 < q.Radius() && NextTo(q, done, v)
    ensures v in level
  {
    assert v !in Paths(s.frontier[0..]);
  }

  ghost predicate Closed(q: Query, level: set<Path>) {
    forall v {:trigger NextTo(q, level, v)} :: NextTo(q, level, v) ==> v in level
  }

  /** A level with nothing next to it is the last. */
  lemma {:induction false} LevelsStop(q: Query, k: nat, last: nat)
    requires q.Valid() && k <= last && Closed(q, q.Within(k))
    ensures q.Within(last) == q.Within(k)
  {
    if k < last {
      LevelsStop(q, k, last - 1);
      forall v ensures v in q.Within(last) <==> v in q.Within(last - 1) {
        NextLevel(q, last - 1, v);
      }
    }
  }

  lemma AllDone(q: Query, s: Search, k: nat, level: set<Path>, done: set<Path>, c: nat)
    requires AtLevel(q, s, k, level, done, c) && s.frontier == []
    ensures done == level && k < q.Radius()
    ensures k + 1 < q.Radius() ==> Closed(q, level)
  {
    forall v | k + 1 < q.Radius() && NextTo(q, done, v) ensures v in level {
      NothingNext(q, s, k, level, done, v);
    }
  }

  // ----- One round of the loop -----

  /** The loop invariant: `done` has been expanded, at depth `k`, and `c` entries of that depth are left. */
  ghost predicate Searching(q: Query, s: Search, k: nat, done: set<Path>, c: nat) {
    && Sound(q.repo, q.Extent(), s)
    && (!s.truncated ==> Covers(q, s, done) && AtLevel(q, s, k, q.Within(k), done, c))
  }

  lemma FirstLevel(q: Query)
    requires q.Valid()
    ensures q.Within(0) == {q.root}
  {
    RootInLevel(q.repo, q.direction, q.root, 0);
  }

  lemma BeginAtLevel(q: Query)
    ensures AtLevel(q, Begin(q.repo, q.root), 0, {q.root}, {}, 1)
  {
    var s := Begin(q.repo, q.root);
    assert s.frontier[..1] == s.frontier && s.frontier[1..] == [];
    assert Paths(s.frontier) == {q.root} && Paths([]) == {};
  }

  lemma BeginSearching(q: Query)
    requires q.Valid()
    ensures InSearch(q, Begin(q.repo, q.root))
  {
    BeginSound(q);
    FirstLevel(q);
    BeginAtLevel(q);
    assert Searching(q, Begin(q.repo, q.root), 0, {}, 1);
  }

  /** Taking the next file of the level being visited. */
  lemma AdvanceInLevel(q: Query, s: Search, k: nat, done: set<Path>, c: nat)
    requires q.Valid() && Searching(q, s, k, done, c) && !s.truncated && s.frontier != [] && c > 0
    ensures s.frontier[0].1 == k && s.frontier[0].0 in q.repo.files
    ensures InSearch(q, Visit(q.repo, q.direction, Pop(s), s.frontier[0].0, s.frontier[0].1, q.depth))
  {
    VisitSound(q, s);
    AtLevelDepth(q, s, k, q.Within(k), done, c);
    if Visit(q.repo, q.direction, Pop(s), s.frontier[0].0, k, q.depth).truncated {
      TruncatedIsInSearch(q, Visit(q.repo, q.direction, Pop(s), s.frontier[0].0, k, q.depth));
    } else {
      CompleteVisit(q, s, k, q.Within(k), done, c);
    }
  }

  lemma CompleteVisit(q: Query, s: Search, k: nat, level: set<Path>, done: set<Path>, c: nat)
    requires q.Valid() && s.frontier != [] && c > 0 && s.frontier[0].0 in q.repo.files && level == q.Within(k)
    requires Covers(q, s, done) && AtLevel(q, s, k, level, done, c)
    requires var r := Visit(q.repo, q.direction, Pop(s), s.frontier[0].0, k, q.depth);
             Sound(q.repo, q.Extent(), r) && !r.truncated
    ensures InSearch(q, Visit(q.repo, q.direction, Pop(s), s.frontier[0].0, k, q.depth))
  {
    var p := s.frontier[0].0;
    PopCovers(q, s, done);
    CoversVisit(q, Pop(s), done, p, k);
    LevelVisit(q, s, k, level, done, c);
    IsInSearch(q, Visit(q.repo, q.direction, Pop(s), p, k, q.depth), k, level, done + {p}, c - 1);
  }

  lemma PopCovers(q: Query, s: Search, done: set<Path>)
    requires Covers(q, s, done) && s.frontier != []
    ensures Covers(q, Pop(s), done)
  {
  }

  lemma TruncatedIsInSearch(q: Query, s: Search)
    requires Sound(q.repo, q.Extent(), s) && s.truncated
    ensures InSearch(q, s)
  {
    assert Searching(q, s, 0, {}, 0);
  }

  lemma IsInSearch(q: Query, s: Search, k: nat, level: set<Path>, done: set<Path>, c: nat)
    requires level == q.Within(k)
    requires Sound(q.repo, q.Extent(), s) && Covers(q, s, done) && AtLevel(q, s, k, level, done, c)
    ensures InSearch(q, s)
  {
    assert Searching(q, s, k, done, c);
  }

  lemma AtLevelDepth(q: Query, s: Search, k: nat, level: set<Path>, done: set<Path>, c: nat)
    requires AtLevel(q, s, k, level, done, c) && s.frontier != [] && c > 0
    ensures s.frontier[0].1 == k
  {
  }

  /** Some level is being visited. */
  ghost predicate InSearch(q: Query, s: Search) {
    exists k: nat, done: set<Path>, c: nat :: Searching(q, s, k, done, c)
  }

  /** When a level has been visited, the frontier is the next one. */
  lemma NextFile(q: Query, s: Search) returns (k: nat, done: set<Path>, c: nat)
    requires q.Valid() && InSearch(q, s) && !s.truncated && s.frontier != []
    ensures Searching(q, s, k, done, c) && c > 0
  {
    k, done, c :| Searching(q, s, k, done, c);
    if c == 0 {
      SearchingNextLevel(q, s, k, done);
      k, c := k + 1, |s.frontier|;
    }
  }

  lemma Advance(q: Query, s: Search)
    requires q.Valid() && InSearch(q, s) && !s.truncated && s.frontier != []
    ensures s.frontier[0].0 in q.repo.files
    ensures InSearch(q, Visit(q.repo, q.direction, Pop(s), s.frontier[0].0, s.frontier[0].1, q.depth))
  {
    var k, done, c := NextFile(q, s);
    AdvanceInLevel(q, s, k, done, c);
  }

  lemma SearchingNextLevel(q: Query, s: Search, k: nat, done: set<Path>)
    requires q.Valid() && Searching(q, s, k, done, 0) && !s.truncated && s.frontier != []
    ensures Searching(q, s, k + 1, done, |s.frontier|)
  {
    LevelUp(q, s, k, done);
  }

  /** Each round takes one entry off the frontier, and each entry is there for a file visited for the first time. */
  lemma VisitPays(q: Query, s: Search)
    requires q.Valid() && s.frontier != [] && s.frontier[0].0 in q.repo.files
    ensures var r := Visit(q.repo, q.direction, Pop(s), s.frontier[0].0, s.frontier[0].1, q.depth);
            |r.frontier| - |r.visited| == |s.frontier| - |s.visited| - 1
  {
    var (p, d) := s.frontier[0];
    var added := ProcessQueues(q.repo, Pop(s), Touches(q.repo, q.direction, p), d, q.depth);
  }

  lemma {:induction false} FileIdsAreDistinct(visited: set<Path>, ids: set<NodeId>)
    requires forall v :: v in visited ==> FileId(v) in ids
    ensures |visited| <= |ids|
  {
    if visited != {} {
      var v :| v in visited;
      FileIdsAreDistinct(visited - {v}, ids - {FileId(v)});
    }
  }

  lemma VisitedBounded(repo: Repo, scope: Scope, s: Search)
    requires Sound(repo, scope, s)
    ensures |s.visited| <= GRAPH_MAX_NODES
  {
    FileIdsAreDistinct(s.visited, s.nodes.Keys);
  }

  lemma Round(q: Query, s: Search)
    requires q.Valid() && InSearch(q, s) && !s.truncated && s.frontier != []
    ensures s.frontier[0].0 in q.repo.files
    ensures var r := Visit(q.repo, q.direction, Pop(s), s.frontier[0].0, s.frontier[0].1, q.depth);
            && InSearch(q, r)
            && |r.visited| <= GRAPH_MAX_NODES
            && |r.frontier| - |r.visited| == |s.frontier| - |s.visited| - 1
  {
    Advance(q, s);
    VisitPays(q, s);
    InSearchIsBounded(q, Visit(q.repo, q.direction, Pop(s), s.frontier[0].0, s.frontier[0].1, q.depth));
  }

  lemma InSearchIsBounded(q: Query, s: Search)
    requires InSearch(q, s)
    ensures |s.visited| <= GRAPH_MAX_NODES
  {
    VisitedBounded(q.repo, q.Extent(), s);
  }

  // ----- The result -----

  /** What every result promises, truncated or not. */
  ghost predicate Faithful(q: Query, r: Result) {
    && r.found
    && |r.nodes| <= GRAPH_MAX_NODES && |r.edges| <= GRAPH_MAX_EDGES
    && (forall id :: id in r.nodes ==> q.NodeOf(q.Inner(), id) && r.nodes[id] == q.repo.Info(id))
    && (forall e :: e in r.edges ==> e.from in r.nodes && e.to in r.nodes && q.EdgeVia(q.Inner(), e, r.edges[e]))
  }

  /** The root and everything one hop from an inner file; every import relation of an inner file. */
  ghost predicate Exact(q: Query, r: Result) {
    && (forall id :: id in r.nodes <==> q.NodeOf(q.Inner(), id))
    && (forall e :: e in r.edges <==> q.EdgeOf(q.Inner(), e))
  }

  lemma SearchFaithful(q: Query, s: Search)
    requires Sound(q.repo, q.Extent(), s)
    ensures Faithful(q, Result(s.nodes, s.edges, s.truncated, true))
  {
    forall id | id in s.nodes ensures q.NodeOf(q.Inner(), id) {
      assert id in q.Extent().nodes;
    }
    forall e | e in s.edges ensures q.EdgeVia(q.Inner(), e, s.edges[e]) {
      assert (e, s.edges[e]) in q.Extent().relations;
    }
  }

  lemma SearchExact(q: Query, s: Search, k: nat, done: set<Path>, c: nat)
    requires q.Valid() && Searching(q, s, k, done, c) && !s.truncated && s.frontier == []
    ensures Exact(q, Result(s.nodes, s.edges, s.truncated, true))
  {
    AllDone(q, s, k, q.Within(k), done, c);
    if k + 1 < q.Radius() {
      LevelsStop(q, k, q.Radius() - 1);
    }
  }

  lemma SubsetIsSmaller<T>(a: set<T>, b: set<T>)
    requires a <= b
    ensures |a| <= |b|
  {
    assert b == a + (b - a);
  }

  /** A graph that is complete and within the caps leaves no room for an overflow. */
  lemma ExactFits(q: Query, r: Result)
    requires Faithful(q, r) && Exact(q, r)
    ensures !q.Extent().Overflows()
  {
    forall ids | q.Extent().AllNodes(ids) ensures |ids| <= GRAPH_MAX_NODES {
      forall id | id in ids ensures id in r.nodes.Keys {
        assert id in q.Extent().nodes;
      }
      SubsetIsSmaller(ids, r.nodes.Keys);
    }
    forall es | q.Extent().AllEdges(es) ensures |es| <= GRAPH_MAX_EDGES {
      forall e | e in es ensures e in r.edges.Keys {
        var m :| (e, m) in q.Extent().relations;
        assert q.EdgeVia(q.Inner(), e, m);
        assert q.EdgeOf(q.Inner(), e);
      }
      SubsetIsSmaller(es, r.edges.Keys);
    }
  }

  lemma Conclude(q: Query, s: Search)
    requires q.Valid() && InSearch(q, s) && (s.truncated || s.frontier == [])
    ensures var r := Result(s.nodes, s.edges, s.truncated, true);
            && Faithful(q, r)
            && (!r.truncated ==> Exact(q, r))
            && (r.truncated <==> q.Extent().Overflows())
  {
    SearchFaithful(q, s);
    if !s.truncated {
      var k: nat, done: set<Path>, c: nat :| Searching(q, s, k, done, c);
      SearchExact(q, s, k, done, c);
      ExactFits(q, Result(s.nodes, s.edges, s.truncated, true));
    }
  }

  /**
   * The import graph of `root`. It is truncated exactly when what belongs in it is over a cap; when it is not, it
   * holds everything that belongs in it.
   */
  method BuildImportGraph(repo: Repo, root: Path, direction: Direction, depth: nat) returns (r: Result)
    requires repo.Valid()
    ensures root !in repo.files ==> r == Result(map[], map[], false, false)
    ensures root in repo.files ==>
      var q := Query(repo, root, direction, depth);
      && Faithful(q, r)
      && (!r.truncated ==> Exact(q, r))
      && (r.truncated <==> q.Extent().Overflows())
  {
    if root !in repo.files {
      return Result(map[], map[], false, false);
    }
    r := SearchFrom(repo, root, direction, depth);
  }

  method SearchFrom(repo: Repo, root: Path, direction: Direction, depth: nat) returns (r: Result)
    requires Query(repo, root, direction, depth).Valid()
    ensures var q := Query(repo, root, direction, depth);
      && Faithful(q, r)
      && (!r.truncated ==> Exact(q, r))
      && (r.truncated <==> q.Extent().Overflows())
  {
    ghost var q := Query(repo, root, direction, depth);
    var search := new ImportGraphSearch(repo, root, direction, depth);
    BeginSearching(q);
    while search.frontier != [] && !search.truncated
      invariant search.repo == repo && search.direction == direction && search.depth == depth
      invariant InSearch(q, search.Contents())
      invariant |search.visited| <= GRAPH_MAX_NODES
      decreases GRAPH_MAX_NODES - |search.visited| + |search.frontier|
    {
      Round(q, search.Contents());
      search.ExpandNext();
    }
    r := Result(search.nodes, search.edges, search.truncated, true);
    Conclude(q, search.Contents());
  }

  /** Read as a graph of files: an untruncated result holds exactly the files within `Radius` hops of the root. */
  lemma FilesWithinDepth(q: Query, r: Result, v: Path)
    requires q.Valid() && Exact(q, r)
    ensures FileId(v) in r.nodes <==>
            exists walk :: Walk(q.repo, q.direction, walk, q.root, v) && |walk| <= q.Radius() + 1
  {
    InnerNeighbours(q, v);
    forall walk | Walk(q.repo, q.direction, walk, q.root, v) ensures v in q.repo.files {
      assert v == walk[|walk| - 1];
    }
  }

  lemma InnerNeighbours(q: Query, v: Path)
    requires q.Valid()
    ensures q.NodeOf(q.Inner(), FileId(v)) <==> v in q.Within(q.Radius())
  {
    var k := q.Radius() - 1;
    NextLevel(q, k, v);
    if v == q.root {
      RootInLevel(q.repo, q.direction, q.root, k + 1);
    } else if v in q.Within(k) {
      LastHop(q, k, v);
    }
    assert q.NodeOf(q.Within(k), FileId(v)) <==> v == q.root || NextTo(q, q.Within(k), v);
  }

  /** A file within `k` hops, other than the root, is one hop from a file within `k` hops. */
  lemma LastHop(q: Query, k: nat, v: Path)
    requires q.Valid() && v in q.Within(k)
    ensures v == q.root || NextTo(q, q.Within(k), v)
  {
    var walk :| Walk(q.repo, q.direction, walk, q.root, v) && |walk| <= k + 1;
    if |walk| > 1 {
      var p := WalkBack(q.repo, q.direction, walk, q.root, v);
      assert p in q.Within(k);
    }
  }

  /** An external module is in an untruncated result exactly when an inner file imports it and imports are followed. */
  lemma ModulesOfInnerFiles(q: Query, r: Result, name: Import)
    requires q.Valid() && Exact(q, r)
    ensures ModuleId(name) in r.nodes <==>
            q.direction != Importers
            && exists p :: p in q.Inner() && p in q.repo.files
                           && name in q.repo.files[p].imports && q.repo.resolve(p, name).None?
  {
    if ModuleId(name) in r.nodes {
      var p :| p in q.Inner() && Hop(q.repo, q.direction, p, ModuleId(name));
      var m :| Relates(q.repo, p, m, ModuleId(name));
      assert m == name;
    }
    forall p | q.direction != Importers && p in q.Inner() && p in q.repo.files
               && name in q.repo.files[p].imports && q.repo.resolve(p, name).None?
      ensures ModuleId(name) in r.nodes
    {
      assert Relates(q.repo, p, name, ModuleId(name));
      assert Hop(q.repo, q.direction, p, ModuleId(name));
    }
  }

  /** Every node of every result is described as the index has it: a file by its path and language, a module by the
      import it stands for. */
  lemma NodesAreDescribed(q: Query, r: Result, id: NodeId)
    requires q.Valid() && Faithful(q, r) && id in r.nodes
    ensures match id
            case FileId(p) =>
              p in q.repo.files && r.nodes[id] == FileNode(p, q.repo.files[p].language)
            case ModuleId(m) => r.nodes[id] == ModuleNode(m)
  {
    if id.FileId? && id.path != q.root {
      var p :| p in q.Inner() && Hop(q.repo, q.direction, p, id);
      HopsToFiles(q, p, id.path);
    }
  }
}
