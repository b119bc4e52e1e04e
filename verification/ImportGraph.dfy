/** The bounded search of the import graph around one file, and what its result means. */
module ImportGraph {
  import opened Prelude

  const GRAPH_MAX_NODES := 80
  const GRAPH_MAX_EDGES := 120

  datatype Path = Path(text: string)
  datatype Import = Import(text: string)

  /** `imports` in the order the search takes them. */
  datatype CodeFile = CodeFile(path: Path, language: string, imports: seq<Import>)

  /** Ids of external modules are taken as disjoint from file paths. */
  datatype NodeId = FileId(path: Path) | ModuleId(name: Import)

  datatype NodeInfo = FileNode(path: Path, language: string) | ModuleNode(name: Import)

  datatype Edge = Edge(from: NodeId, to: NodeId)

  datatype Direction = Imports | Importers | Both

  /** The indexed files, their order, and how an import of a file resolves to one of them. */
  datatype Repo = Repo(files: map<Path, CodeFile>, order: seq<Path>, resolve: (Path, Import) -> Option<Path>)
  {
    ghost predicate Valid() {
      && (forall p :: p in files <==> p in order)
      && (forall p, m :: p in files && m in files[p].imports && resolve(p, m).Some? ==> resolve(p, m).value in files)
    }

    function Target(p: Path, m: Import): NodeId {
      var target := resolve(p, m);
      if target.Some? then FileId(target.value) else ModuleId(m)
    }

    function Info(id: NodeId): NodeInfo {
      match id
      case FileId(p) => FileNode(p, if p in files then files[p].language else "")
      case ModuleId(m) => ModuleNode(m)
    }
  }

  // ----- What the graph should be -----

  /** `p` imports `id` through `m`. */
  predicate Relates(repo: Repo, p: Path, m: Import, id: NodeId) {
    p in repo.files && m in repo.files[p].imports && repo.Target(p, m) == id
  }

  /** The import relations incident to `p` under the direction. */
  predicate Incident(repo: Repo, direction: Direction, p: Path, from: Path, m: Import, to: NodeId) {
    && Relates(repo, from, m, to)
    && ((direction != Importers && from == p) || (direction != Imports && to == FileId(p)))
  }

  /** One hop from file `p` leads to `id`. */
  ghost predicate Hop(repo: Repo, direction: Direction, p: Path, id: NodeId) {
    || (direction != Importers && exists m :: Relates(repo, p, m, id))
    || (direction != Imports && id.FileId? && exists m :: Relates(repo, id.path, m, FileId(p)))
  }

  /** A walk of file hops. */
  ghost predicate Walk(repo: Repo, direction: Direction, walk: seq<Path>, from: Path, to: Path) {
    && walk != [] && walk[0] == from && walk[|walk| - 1] == to
    && (forall i :: 0 < i < |walk| ==> walk[i] in repo.files && Hop(repo, direction, walk[i - 1], FileId(walk[i])))
  }

  /** The files at most `k` hops from `root`. */
  ghost function Level(repo: Repo, direction: Direction, root: Path, k: nat): set<Path> {
    set q | q in repo.files && exists walk :: Walk(repo, direction, walk, root, q) && |walk| <= k + 1
  }

  lemma WalkOn(repo: Repo, direction: Direction, walk: seq<Path>, from: Path, p: Path, q: Path)
    requires Walk(repo, direction, walk, from, p) && q in repo.files && Hop(repo, direction, p, FileId(q))
    ensures Walk(repo, direction, walk + [q], from, q)
  {
  }

  /** A walk of more than one file is a walk and a hop. */
  lemma WalkBack(repo: Repo, direction: Direction, walk: seq<Path>, from: Path, q: Path) returns (p: Path)
    requires from in repo.files && Walk(repo, direction, walk, from, q) && |walk| > 1
    ensures p in repo.files && Walk(repo, direction, walk[..|walk| - 1], from, p) && Hop(repo, direction, p, FileId(q))
  {
    p := walk[|walk| - 2];
  }

  lemma RootInLevel(repo: Repo, direction: Direction, root: Path, k: nat)
    requires root in repo.files
    ensures root in Level(repo, direction, root, k)
  {
    assert Walk(repo, direction, [root], root, root);
  }

  /** The files within `k + 1` hops are those within `k`, and those a hop from them. */
  lemma LevelGrows(repo: Repo, direction: Direction, root: Path, k: nat, q: Path)
    requires root in repo.files && q in repo.files
    ensures q in Level(repo, direction, root, k + 1) <==>
            || q in Level(repo, direction, root, k)
            || exists p :: p in Level(repo, direction, root, k) && Hop(repo, direction, p, FileId(q))
  {
    if q in Level(repo, direction, root, k + 1) && q !in Level(repo, direction, root, k) {
      var walk :| Walk(repo, direction, walk, root, q) && |walk| <= k + 2;
      var p := WalkBack(repo, direction, walk, root, q);
      assert p in Level(repo, direction, root, k);
    }
    forall p | p in Level(repo, direction, root, k) && Hop(repo, direction, p, FileId(q))
      ensures q in Level(repo, direction, root, k + 1)
    {
      var walk :| Walk(repo, direction, walk, root, p) && |walk| <= k + 1;
      WalkOn(repo, direction, walk, root, p, q);
    }
  }

  // ----- The search, as a function -----

  /** One relation the search looks at: the node it leads to, the edge it is, the import it comes from. */
  datatype Touch = Touch(id: NodeId, edge: Edge, via: Import)

  datatype Search = Search(
    nodes: map<NodeId, NodeInfo>, edges: map<Edge, Import>, frontier: seq<(Path, nat)>, visited: set<Path>,
    truncated: bool)

  function AddNode(repo: Repo, s: Search, id: NodeId): (Search, bool) {
    if id in s.nodes then (s, true)
    else if |s.nodes| >= GRAPH_MAX_NODES then (s.(truncated := true), false)
    else (s.(nodes := s.nodes[id := repo.Info(id)]), true)
  }

  function AddEdge(s: Search, e: Edge, via: Import): (Search, bool) {
    if e in s.edges then (s, true)
    else if |s.edges| >= GRAPH_MAX_EDGES then (s.(truncated := true), false)
    else (s.(edges := s.edges[e := via]), true)
  }

  function Enqueue(s: Search, id: NodeId, d: nat, depth: nat): Search {
    if id.FileId? && d + 1 < depth && id.path !in s.visited then
      s.(visited := s.visited + {id.path}, frontier := s.frontier + [(id.path, d + 1)])
    else s
  }

  function ProcessOne(repo: Repo, s: Search, t: Touch, d: nat, depth: nat): (Search, bool) {
    var (s1, ok1) := AddNode(repo, s, t.id);
    if !ok1 then (s1, false)
    else
      var (s2, ok2) := AddEdge(s1, t.edge, t.via);
      if !ok2 then (s2, false) else (Enqueue(s2, t.id, d, depth), true)
  }

  /** Look at the relations in order, up to the first that no longer fits. */
  function Process(repo: Repo, s: Search, ts: seq<Touch>, d: nat, depth: nat): Search
    decreases |ts|
  {
    if ts == [] then s
    else
      var (next, ok) := ProcessOne(repo, s, ts[0], d, depth);
      if ok then Process(repo, next, ts[1..], d, depth) else next
  }

  function OutTouches(repo: Repo, p: Path, imports: seq<Import>): seq<Touch> {
    seq(|imports|, i requires 0 <= i < |imports| =>
      Touch(repo.Target(p, imports[i]), Edge(FileId(p), repo.Target(p, imports[i])), imports[i]))
  }

  function InTouch(repo: Repo, p: Path, c: Path, m: Import): seq<Touch> {
    if repo.resolve(c, m) == Some(p) then [Touch(FileId(c), Edge(FileId(c), FileId(p)), m)] else []
  }

  function InTouchesOf(repo: Repo, p: Path, c: Path, imports: seq<Import>): seq<Touch> {
    if imports == [] then []
    else InTouch(repo, p, c, imports[0]) + InTouchesOf(repo, p, c, imports[1..])
  }

  lemma {:induction false} InTouchesStep(repo: Repo, p: Path, c: Path, imports: seq<Import>, i: nat)
    requires i < |imports|
    ensures InTouchesOf(repo, p, c, imports[i..]) ==
            InTouch(repo, p, c, imports[i]) + InTouchesOf(repo, p, c, imports[i + 1..])
    ensures repo.resolve(c, imports[i]) != Some(p) ==>
            InTouchesOf(repo, p, c, imports[i..]) == InTouchesOf(repo, p, c, imports[i + 1..])
  {
    assert imports[i..][1..] == imports[i + 1..];
  }

  function InTouches(repo: Repo, p: Path, candidates: seq<Path>): seq<Touch>
    requires forall c :: c in candidates ==> c in repo.files
  {
    if candidates == [] then []
    else InTouchesOf(repo, p, candidates[0], repo.files[candidates[0]].imports) + InTouches(repo, p, candidates[1..])
  }

  ghost function Touches(repo: Repo, direction: Direction, p: Path): seq<Touch>
    requires repo.Valid() && p in repo.files
  {
    (if direction != Importers then OutTouches(repo, p, repo.files[p].imports) else [])
    + (if direction != Imports then InTouches(repo, p, repo.order) else [])
  }

  function Begin(repo: Repo, root: Path): Search {
    Search(map[FileId(root) := repo.Info(FileId(root))], map[], [(root, 0)], {root}, false)
  }

  function Pop(s: Search): Search
    requires s.frontier != []
  {
    s.(frontier := s.frontier[1..])
  }

  /** All the relations the search looks at when it takes `(p, d)` off the frontier. */
  ghost function Visit(repo: Repo, direction: Direction, s: Search, p: Path, d: nat, depth: nat): Search
    requires repo.Valid() && p in repo.files
  {
    Process(repo, s, Touches(repo, direction, p), d, depth)
  }

  lemma {:induction false} ProcessCons(repo: Repo, s: Search, t: Touch, rest: seq<Touch>, d: nat, depth: nat)
    ensures var (next, ok) := ProcessOne(repo, s, t, d, depth);
            Process(repo, s, [t] + rest, d, depth) == if ok then Process(repo, next, rest, d, depth) else next
    ensures var (next, ok) := ProcessOne(repo, s, t, d, depth); ok ==> next.truncated == s.truncated
    ensures var (next, ok) := ProcessOne(repo, s, t, d, depth); !ok ==> next.truncated
  {
    assert ([t] + rest)[1..] == rest;
  }

  /** Looking at two lists in a row is looking at their concatenation, stopping between them when truncated. */
  lemma {:induction false} ProcessBoth(repo: Repo, s: Search, a: seq<Touch>, b: seq<Touch>, d: nat, depth: nat)
    requires !s.truncated
    ensures var half := Process(repo, s, a, d, depth);
            Process(repo, s, a + b, d, depth) == if half.truncated then half else Process(repo, half, b, d, depth)
    decreases |a|
  {
    if a == [] {
      assert a + b == b;
    } else {
      var (next, ok) := ProcessOne(repo, s, a[0], d, depth);
      assert a == [a[0]] + a[1..];
      assert a + b == [a[0]] + (a[1..] + b);
      ProcessCons(repo, s, a[0], a[1..], d, depth);
      ProcessCons(repo, s, a[0], a[1..] + b, d, depth);
      if ok {
        ProcessBoth(repo, next, a[1..], b, d, depth);
      }
    }
  }

  // ----- The search, as a loop -----

  class ImportGraphSearch {
    const repo: Repo
    const direction: Direction
    const depth: nat
    var nodes: map<NodeId, NodeInfo>
    var edges: map<Edge, Import>
    var frontier: seq<(Path, nat)>
    var visited: set<Path>
    var truncated: bool

    ghost function Contents(): Search
      reads this
    {
      Search(nodes, edges, frontier, visited, truncated)
    }

    constructor (repo: Repo, root: Path, direction: Direction, depth: nat)
      ensures this.repo == repo && this.direction == direction && this.depth == depth
      ensures Contents() == Begin(repo, root)
    {
      this.repo := repo;
      this.direction := direction;
      this.depth := depth;
      nodes := map[FileId(root) := repo.Info(FileId(root))];
      edges := map[];
      frontier := [(root, 0)];
      visited := {root};
      truncated := false;
    }

    method TryAddNode(id: NodeId) returns (ok: bool)
      modifies `nodes, `truncated
      ensures (Contents(), ok) == AddNode(repo, old(Contents()), id)
    {
      if id in nodes {
        return true;
      }
      if |nodes| >= GRAPH_MAX_NODES {
        truncated := true;
        return false;
      }
      nodes := nodes[id := repo.Info(id)];
      return true;
    }

    method TryAddEdge(e: Edge, via: Import) returns (ok: bool)
      modifies `edges, `truncated
      ensures (Contents(), ok) == AddEdge(old(Contents()), e, via)
    {
      if e in edges {
        return true;
      }
      if |edges| >= GRAPH_MAX_EDGES {
        truncated := true;
        return false;
      }
      edges := edges[e := via];
      return true;
    }

    method Look(id: NodeId, e: Edge, via: Import, d: nat) returns (ok: bool)
      modifies this
      ensures (Contents(), ok) == ProcessOne(repo, old(Contents()), Touch(id, e, via), d, depth)
    {
      ok := TryAddNode(id);
      if !ok {
        return;
      }
      ok := TryAddEdge(e, via);
      if !ok {
        return;
      }
      if id.FileId? && d + 1 < depth && id.path !in visited {
        visited := visited + {id.path};
        frontier := frontier + [(id.path, d + 1)];
      }
    }

    method FollowImports(p: Path, d: nat)
      requires p in repo.files
      modifies this
      ensures Contents() == Process(repo, old(Contents()), OutTouches(repo, p, repo.files[p].imports), d, depth)
    {
      var imports := repo.files[p].imports;
      ghost var touches := OutTouches(repo, p, imports);
      var i := 0;
      while i < |imports|
        invariant 0 <= i <= |imports|
        invariant Process(repo, Contents(), touches[i..], d, depth) == Process(repo, old(Contents()), touches, d, depth)
      {
        var target := repo.Target(p, imports[i]);
        assert touches[i..][0] == Touch(target, Edge(FileId(p), target), imports[i]);
        assert touches[i..][1..] == touches[i + 1..];
        var ok := Look(target, Edge(FileId(p), target), imports[i], d);
        if !ok {
          return;
        }
        i := i + 1;
      }
    }

    /** The inner loop over one candidate's imports. */
    method FollowImporter(p: Path, c: Path, d: nat)
      requires c in repo.files
      modifies this
      ensures Contents() == Process(repo, old(Contents()), InTouchesOf(repo, p, c, repo.files[c].imports), d, depth)
    {
      var imports := repo.files[c].imports;
      assert imports[0..] == imports;
      var i := 0;
      while i < |imports|
        invariant 0 <= i <= |imports|
        invariant Process(repo, Contents(), InTouchesOf(repo, p, c, imports[i..]), d, depth)
               == Process(repo, old(Contents()), InTouchesOf(repo, p, c, imports), d, depth)
      {
        InTouchesStep(repo, p, c, imports, i);
        if repo.resolve(c, imports[i]) != Some(p) {
          i := i + 1;
          continue;
        }
        ProcessCons(repo, Contents(), Touch(FileId(c), Edge(FileId(c), FileId(p)), imports[i]),
                    InTouchesOf(repo, p, c, imports[i + 1..]), d, depth);
        var ok := Look(FileId(c), Edge(FileId(c), FileId(p)), imports[i], d);
        if !ok {
          return;
        }
        i := i + 1;
      }
    }

    method FollowImporters(p: Path, d: nat)
      requires repo.Valid() && p in repo.files
      requires !truncated
      modifies this
      ensures Contents() == Process(repo, old(Contents()), InTouches(repo, p, repo.order), d, depth)
    {
      assert repo.order[0..] == repo.order;
      var i := 0;
      while i < |repo.order|
        invariant 0 <= i <= |repo.order|
        invariant !truncated
        invariant Process(repo, Contents(), InTouches(repo, p, repo.order[i..]), d, depth)
               == Process(repo, old(Contents()), InTouches(repo, p, repo.order), d, depth)
      {
        var c := repo.order[i];
        assert c in repo.order;
        assert repo.order[i..][0] == c && repo.order[i..][1..] == repo.order[i + 1..];
        ProcessBoth(repo, Contents(), InTouchesOf(repo, p, c, repo.files[c].imports),
                    InTouches(repo, p, repo.order[i + 1..]), d, depth);
        FollowImporter(p, c, d);
        if truncated {
          return;
        }
        i := i + 1;
      }
    }

    method ExpandNext()
      requires repo.Valid() && frontier != [] && frontier[0].0 in repo.files
      requires !truncated
      modifies this
      ensures var (p, d) := old(frontier[0]);
              Contents() == Visit(repo, direction, Pop(old(Contents())), p, d, depth)
    {
      var (p, d) := frontier[0];
      frontier := frontier[1..];
      ghost var out := if direction != Importers then OutTouches(repo, p, repo.files[p].imports) else [];
      ghost var back := if direction != Imports then InTouches(repo, p, repo.order) else [];
      ProcessBoth(repo, Contents(), out, back, d, depth);
      if direction != Importers {
        FollowImports(p, d);
      }
      if direction != Imports && !truncated {
        FollowImporters(p, d);
      }
    }
  }
}
