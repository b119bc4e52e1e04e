/** The bounded search of possible calls around one symbol. */
module CallGraph {
  const GRAPH_MAX_NODES := 80
  const GRAPH_MAX_EDGES := 120

  datatype Symbol = Symbol(text: string)

  /** A piece of indexed code; `calls` are the identifiers it seems to call. */
  datatype Chunk = Chunk(path: string, line: int, name: Symbol, calls: seq<Symbol>)

  datatype NodeId = ChunkId(path: string, line: int, name: Symbol) | Unresolved(name: Symbol)

  datatype Edge = Edge(source: NodeId, target: NodeId)

  datatype Direction = Callers | Callees | Both

  /** `last` is the part of a dotted name after the last dot, `lower` its lower-case form, `sorted` a sorted list. */
  datatype Index = Index(
    chunks: seq<Chunk>, last: Symbol -> Symbol, lower: Symbol -> Symbol, sorted: set<Symbol> -> seq<Symbol>)
  {
    ghost predicate Valid() {
      forall names, n :: n in sorted(names) <==> n in names
    }

    predicate Matches(candidate: Symbol, symbol: Symbol) {
      candidate == symbol || last(candidate) == last(symbol)
    }

    predicate Defines(c: Chunk, symbol: Symbol) {
      c.name.text != "" && Matches(c.name, symbol)
    }

    predicate Calls(c: Chunk, symbol: Symbol) {
      exists call :: call in c.calls && Matches(call, symbol)
    }
  }

  function Id(c: Chunk): NodeId {
    ChunkId(c.path, c.line, c.name)
  }

  // ----- What the graph should be -----

  /** The nodes `symbol` may stand for: its definitions, or a node of its own when there are none. */
  predicate TargetOf(index: Index, symbol: Symbol, id: NodeId) {
    || (exists c :: c in index.chunks && index.Defines(c, symbol) && id == Id(c))
    || (id == Unresolved(symbol) && forall c :: c in index.chunks ==> !index.Defines(c, symbol))
  }

  ghost predicate CallerEdge(index: Index, symbol: Symbol, e: Edge) {
    TargetOf(index, symbol, e.target) && exists c :: c in index.chunks && index.Calls(c, symbol) && e.source == Id(c)
  }

  ghost predicate CalleeEdge(index: Index, symbol: Symbol, e: Edge) {
    exists c, callee :: c in index.chunks && index.Defines(c, symbol) && callee in c.calls
                        && e.source == Id(c) && TargetOf(index, callee, e.target)
  }

  /** The possible calls that touch `symbol`. */
  ghost predicate CallEdge(index: Index, direction: Direction, symbol: Symbol, e: Edge) {
    (direction != Callees && CallerEdge(index, symbol, e)) || (direction != Callers && CalleeEdge(index, symbol, e))
  }

  ghost predicate CallerName(index: Index, symbol: Symbol, name: Symbol) {
    name.text != "" && exists c :: c in index.chunks && index.Calls(c, symbol) && name == c.name
  }

  ghost predicate CalleeName(index: Index, symbol: Symbol, name: Symbol) {
    exists c :: c in index.chunks && index.Defines(c, symbol) && name in c.calls
  }

  /** The symbols the search goes on to from `symbol`. */
  ghost predicate NextTo(index: Index, direction: Direction, symbol: Symbol, name: Symbol) {
    || (direction != Callees && CallerName(index, symbol, name))
    || (direction != Callers && CalleeName(index, symbol, name))
  }

  ghost predicate Near(index: Index, direction: Direction, symbol: Symbol, id: NodeId) {
    || TargetOf(index, symbol, id)
    || exists e :: CallEdge(index, direction, symbol, e) && (id == e.source || id == e.target)
  }

  /** A named piece, by where it is, whose name ends like `symbol`. */
  ghost predicate DefinedBy(index: Index, symbol: Symbol, id: NodeId) {
    exists c :: c in index.chunks && c.name.text != "" && index.last(c.name) == index.last(symbol)
                && id == ChunkId(c.path, c.line, c.name)
  }

  /** Symbols stand for the same thing when the parts after their last dots agree, whatever comes before. */
  lemma TargetsIff(index: Index, symbol: Symbol, id: NodeId)
    ensures TargetOf(index, symbol, id) <==>
            || DefinedBy(index, symbol, id)
            || (id == Unresolved(symbol) && !exists other :: DefinedBy(index, symbol, other))
  {
    forall c | c in index.chunks && index.Defines(c, symbol) ensures DefinedBy(index, symbol, Id(c)) {
    }
    forall other | DefinedBy(index, symbol, other) ensures exists c :: c in index.chunks && index.Defines(c, symbol) {
      var c :| c in index.chunks && c.name.text != "" && index.last(c.name) == index.last(symbol)
               && other == ChunkId(c.path, c.line, c.name);
      assert index.Defines(c, symbol);
    }
  }

  /** The edges about a symbol, spelt out: who calls something of that name, and what its definitions call. */
  lemma CallEdgesIff(index: Index, direction: Direction, symbol: Symbol, e: Edge)
    ensures CallEdge(index, direction, symbol, e) <==>
            || (&& direction in {Callers, Both} && TargetOf(index, symbol, e.target)
                && exists c, call :: c in index.chunks && call in c.calls && index.last(call) == index.last(symbol)
                                     && e.source == ChunkId(c.path, c.line, c.name))
            || (&& direction in {Callees, Both}
                && exists c, call :: c in index.chunks && c.name.text != "" && index.last(c.name) == index.last(symbol)
                                     && call in c.calls && e.source == ChunkId(c.path, c.line, c.name)
                                     && TargetOf(index, call, e.target))
  {
    if CallerEdge(index, symbol, e) {
      var c :| c in index.chunks && index.Calls(c, symbol) && e.source == Id(c);
      var call :| call in c.calls && index.Matches(call, symbol);
      assert index.last(call) == index.last(symbol);
    }
    forall c, call | c in index.chunks && call in c.calls && index.last(call) == index.last(symbol)
                     && e.source == ChunkId(c.path, c.line, c.name)
      ensures index.Calls(c, symbol) && e.source == Id(c)
    {
      assert index.Matches(call, symbol);
    }
    if CalleeEdge(index, symbol, e) {
      var c, call :| c in index.chunks && index.Defines(c, symbol) && call in c.calls
                     && e.source == Id(c) && TargetOf(index, call, e.target);
      assert index.last(c.name) == index.last(symbol);
    }
    forall c, call | c in index.chunks && c.name.text != "" && index.last(c.name) == index.last(symbol)
                     && call in c.calls && e.source == ChunkId(c.path, c.line, c.name)
                     && TargetOf(index, call, e.target)
      ensures CalleeEdge(index, symbol, e)
    {
      assert index.Defines(c, symbol) && e.source == Id(c);
    }
  }

  lemma SomeTarget(index: Index, symbol: Symbol) returns (id: NodeId)
    ensures TargetOf(index, symbol, id)
  {
    id := Unresolved(symbol);
    if c :| c in index.chunks && index.Defines(c, symbol) {
      id := Id(c);
    }
  }

  /** The search goes on along the edges: to the names of the pieces that call the symbol, and to whatever its own
      definitions call. */
  lemma NextFollowsEdges(index: Index, symbol: Symbol, name: Symbol)
    ensures CallerName(index, symbol, name) <==>
              && name.text != ""
              && exists e :: CallerEdge(index, symbol, e) && e.source.ChunkId? && e.source.name == name
    ensures CalleeName(index, symbol, name) ==>
              exists e :: CalleeEdge(index, symbol, e) && TargetOf(index, name, e.target)
    ensures forall e :: CalleeEdge(index, symbol, e) ==>
              exists called :: CalleeName(index, symbol, called) && TargetOf(index, called, e.target)
  {
    if CallerName(index, symbol, name) {
      var c :| c in index.chunks && index.Calls(c, symbol) && name == c.name;
      var id := SomeTarget(index, symbol);
      assert CallerEdge(index, symbol, Edge(Id(c), id));
    }
    if CalleeName(index, symbol, name) {
      var c :| c in index.chunks && index.Defines(c, symbol) && name in c.calls;
      var id := SomeTarget(index, name);
      assert CalleeEdge(index, symbol, Edge(Id(c), id));
    }
    forall e | CalleeEdge(index, symbol, e)
      ensures exists called :: CalleeName(index, symbol, called) && TargetOf(index, called, e.target)
    {
      var c, called :| c in index.chunks && index.Defines(c, symbol) && called in c.calls
                       && e.source == Id(c) && TargetOf(index, called, e.target);
      assert CalleeName(index, symbol, called);
    }
  }

  // ----- The search -----

  ghost function DefinitionsIn(index: Index, chunks: seq<Chunk>, symbol: Symbol): set<NodeId> {
    set c | c in chunks && index.Defines(c, symbol) :: Id(c)
  }

  lemma DefinitionsAreTargets(index: Index, symbol: Symbol, found: seq<NodeId>)
    requires forall id :: id in found <==> id in DefinitionsIn(index, index.chunks, symbol)
    ensures forall id :: id in (if found == [] then [Unresolved(symbol)] else found) <==> TargetOf(index, symbol, id)
  {
    forall c | c in index.chunks && index.Defines(c, symbol) ensures Id(c) in found {
      assert Id(c) in DefinitionsIn(index, index.chunks, symbol);
    }
    if found != [] {
      assert found[0] in found;
    }
  }

  datatype Result = Result(nodes: set<NodeId>, edges: set<Edge>, truncated: bool)

  /** `after` has what `before` had, and a full set stays as it was. */
  ghost predicate Extends(before: Result, after: Result) {
    && before.nodes <= after.nodes && before.edges <= after.edges && (before.truncated ==> after.truncated)
    && (|before.nodes| >= GRAPH_MAX_NODES ==> after.nodes == before.nodes)
    && (|before.edges| >= GRAPH_MAX_EDGES ==> after.edges == before.edges)
  }

  ghost predicate NoNodeRoom(index: Index, direction: Direction, r: Result, symbol: Symbol) {
    |r.nodes| >= GRAPH_MAX_NODES && exists id :: Near(index, direction, symbol, id) && id !in r.nodes
  }

  ghost predicate NoEdgeRoom(index: Index, direction: Direction, r: Result, symbol: Symbol) {
    |r.edges| >= GRAPH_MAX_EDGES && exists e :: CallEdge(index, direction, symbol, e) && e !in r.edges
  }

  /** Something about `symbol` is missing from a graph that is full. */
  ghost predicate NoRoom(index: Index, direction: Direction, r: Result, symbol: Symbol) {
    NoNodeRoom(index, direction, r, symbol) || NoEdgeRoom(index, direction, r, symbol)
  }

  /** The graph is made of the relations of the symbols in `expanded`: of these only, of all of these unless cut short,
      and cut short only by one that did not fit. */
  ghost predicate Records(index: Index, direction: Direction, r: Result, expanded: set<Symbol>) {
    && (forall e :: e in r.edges ==> TouchesOne(index, direction, expanded, e))
    && (forall id :: id in r.nodes ==> NearOne(index, direction, expanded, id))
    && (!r.truncated ==> forall s :: s in expanded ==> Holds(index, direction, r, s))
    && (r.truncated ==> exists s :: s in expanded && NoRoom(index, direction, r, s))
  }

  ghost predicate TouchesOne(index: Index, direction: Direction, expanded: set<Symbol>, e: Edge) {
    exists s :: s in expanded && CallEdge(index, direction, s, e)
  }

  ghost predicate NearOne(index: Index, direction: Direction, expanded: set<Symbol>, id: NodeId) {
    exists s :: s in expanded && Near(index, direction, s, id)
  }

  /** All about `s` is in the graph. */
  ghost predicate Holds(index: Index, direction: Direction, r: Result, s: Symbol) {
    && (forall e :: CallEdge(index, direction, s, e) ==> e in r.edges)
    && (forall id :: TargetOf(index, s, id) ==> id in r.nodes)
  }

  /** No two of the symbols differ only in letter case. */
  ghost predicate OneSpelling(index: Index, symbols: set<Symbol>) {
    forall s, t :: s in symbols && t in symbols && index.lower(s) == index.lower(t) ==> s == t
  }

  /** `visited` holds the lower-case forms of `expanded`, each of one symbol. */
  ghost predicate Visits(index: Index, visited: set<Symbol>, expanded: set<Symbol>) {
    && (forall v :: v in visited <==> exists s :: s in expanded && index.lower(s) == v)
    && OneSpelling(index, expanded)
  }

  lemma VisitsMore(index: Index, visited: set<Symbol>, expanded: set<Symbol>, symbol: Symbol)
    requires Visits(index, visited, expanded) && index.lower(symbol) !in visited
    ensures Visits(index, visited + {index.lower(symbol)}, expanded + {symbol}) && symbol !in expanded
  {
    forall v
      ensures v in visited + {index.lower(symbol)} <==> exists s :: s in expanded + {symbol} && index.lower(s) == v
    {
      if v == index.lower(symbol) {
        assert symbol in expanded + {symbol};
      }
    }
  }

  lemma HoldsOn(index: Index, direction: Direction, before: Result, after: Result, s: Symbol)
    requires Holds(index, direction, before, s) && before.edges <= after.edges && before.nodes <= after.nodes
    ensures Holds(index, direction, after, s)
  {
  }

  lemma RecordsMore(
    index: Index, direction: Direction, before: Result, after: Result, expanded: set<Symbol>, symbol: Symbol)
    requires Records(index, direction, before, expanded) && !before.truncated
    requires before.edges <= after.edges && before.nodes <= after.nodes
    requires forall e :: e in after.edges ==> e in before.edges || CallEdge(index, direction, symbol, e)
    requires forall id :: id in after.nodes ==> id in before.nodes || Near(index, direction, symbol, id)
    requires if after.truncated then NoRoom(index, direction, after, symbol) else Holds(index, direction, after, symbol)
    ensures Records(index, direction, after, expanded + {symbol})
  {
    assert symbol in expanded + {symbol};
    forall e | e in after.edges ensures TouchesOne(index, direction, expanded + {symbol}, e) {
      if e in before.edges {
        var s :| s in expanded && CallEdge(index, direction, s, e);
        assert s in expanded + {symbol};
      }
    }
    forall id | id in after.nodes ensures NearOne(index, direction, expanded + {symbol}, id) {
      if id in before.nodes {
        var s :| s in expanded && Near(index, direction, s, id);
        assert s in expanded + {symbol};
      }
    }
    forall s | !after.truncated && s in expanded + {symbol} ensures Holds(index, direction, after, s) {
      if s in expanded {
        HoldsOn(index, direction, before, after, s);
      }
    }
  }

  ghost predicate Met(index: Index, visited: set<Symbol>, symbols: seq<Symbol>) {
    forall s :: s in symbols ==> index.lower(s) in visited
  }

  lemma MetMore(index: Index, visited: set<Symbol>, symbols: seq<Symbol>, i: nat)
    requires i < |symbols| && Met(index, visited, symbols[..i])
    ensures index.lower(symbols[i]) in visited ==> Met(index, visited, symbols[..i + 1])
    ensures Met(index, visited + {index.lower(symbols[i])}, symbols[..i + 1])
  {
    assert symbols[..i + 1] == symbols[..i] + [symbols[i]];
  }

  /** `next` lists what the symbols of `taken` lead to: all of it unless cut short, and nothing at the last level. */
  ghost predicate Queues(
    index: Index, direction: Direction, more: bool, truncated: bool, taken: set<Symbol>, next: seq<Symbol>)
  {
    && (forall n :: n in next ==> more && NextToOne(index, direction, taken, n))
    && (!truncated && more ==> forall n :: NextToOne(index, direction, taken, n) ==> n in next)
  }

  ghost predicate NextToOne(index: Index, direction: Direction, taken: set<Symbol>, n: Symbol) {
    exists s :: s in taken && NextTo(index, direction, s, n)
  }

  lemma NextToOneMore(index: Index, direction: Direction, taken: set<Symbol>, symbol: Symbol, n: Symbol)
    ensures NextToOne(index, direction, taken + {symbol}, n) <==>
            NextToOne(index, direction, taken, n) || NextTo(index, direction, symbol, n)
  {
    assert symbol in taken + {symbol};
    assert forall s :: s in taken ==> s in taken + {symbol};
  }

  lemma QueuesMore(
    index: Index, direction: Direction, more: bool, truncated: bool, taken: set<Symbol>, next: seq<Symbol>,
    symbol: Symbol, names: seq<Symbol>)
    requires Queues(index, direction, more, false, taken, next)
    requires forall n :: n in names ==> more && NextTo(index, direction, symbol, n)
    requires !truncated && more ==> forall n :: NextTo(index, direction, symbol, n) ==> n in names
    ensures Queues(index, direction, more, truncated, taken + {symbol}, next + names)
  {
    forall n
      ensures NextToOne(index, direction, taken + {symbol}, n) <==>
              NextToOne(index, direction, taken, n) || NextTo(index, direction, symbol, n)
    {
      NextToOneMore(index, direction, taken, symbol, n);
    }
  }

  /** The edges from the first `n` chunks that call `symbol`. */
  ghost predicate CallersRecorded(index: Index, symbol: Symbol, n: nat, edges: set<Edge>) {
    forall j, id ::
      0 <= j < n && j < |index.chunks| && index.Calls(index.chunks[j], symbol) && TargetOf(index, symbol, id) ==>
        Edge(Id(index.chunks[j]), id) in edges
  }

  ghost predicate CallersNamed(index: Index, symbol: Symbol, n: nat, names: seq<Symbol>) {
    forall j ::
      0 <= j < n && j < |index.chunks| && index.Calls(index.chunks[j], symbol) && index.chunks[j].name.text != "" ==>
        index.chunks[j].name in names
  }

  /** The edges from `c` to what one of its calls may stand for. */
  ghost predicate CallRecorded(index: Index, c: Chunk, callee: Symbol, edges: set<Edge>) {
    forall id :: TargetOf(index, callee, id) ==> Edge(Id(c), id) in edges
  }

  ghost predicate CallsRecorded(index: Index, c: Chunk, edges: set<Edge>) {
    forall callee :: callee in c.calls ==> CallRecorded(index, c, callee, edges)
  }

  ghost predicate DefinitionsRecorded(index: Index, symbol: Symbol, n: nat, edges: set<Edge>) {
    forall j :: 0 <= j < n && j < |index.chunks| && index.Defines(index.chunks[j], symbol) ==>
      CallsRecorded(index, index.chunks[j], edges)
  }

  ghost predicate CalleesNamed(index: Index, symbol: Symbol, n: nat, names: seq<Symbol>) {
    forall j, name ::
      0 <= j < n && j < |index.chunks| && index.Defines(index.chunks[j], symbol) && name in index.chunks[j].calls ==>
        name in names
  }

  class CallGraphSearch {
    const index: Index
    const direction: Direction
    var nodes: set<NodeId>
    var edges: set<Edge>
    var visited: set<Symbol>
    var truncated: bool

    constructor (index: Index, direction: Direction)
      ensures this.index == index && this.direction == direction
      ensures nodes == {} && edges == {} && visited == {} && !truncated
    {
      this.index := index;
      this.direction := direction;
      nodes, edges, visited, truncated := {}, {}, {}, false;
    }

    /** The caps; the source of every edge is a node, and so is its target unless the search was cut short. */
    ghost predicate Valid()
      reads this
    {
      && |nodes| <= GRAPH_MAX_NODES && |edges| <= GRAPH_MAX_EDGES
      && (forall e :: e in edges ==> e.source in nodes && (truncated || e.target in nodes))
    }

    ghost function Contents(): Result
      reads this
    {
      Result(nodes, edges, truncated)
    }

    twostate predicate Grows()
      reads this
    {
      Extends(old(Contents()), Contents())
    }

    /** If the search was cut short since, then by something about `symbol` that did not fit. */
    twostate predicate CutBy(symbol: Symbol)
      reads this
    {
      truncated && !old(truncated) ==> NoRoom(index, direction, Contents(), symbol)
    }

    method TryAddNode(id: NodeId) returns (ok: bool)
      requires Valid()
      modifies `nodes, `truncated
      ensures Valid() && Grows()
      ensures ok <==> id in old(nodes) || |old(nodes)| < GRAPH_MAX_NODES
      ensures nodes == if ok then old(nodes) + {id} else old(nodes)
      ensures truncated == (old(truncated) || !ok)
    {
      if id in nodes {
        return true;
      }
      if |nodes| >= GRAPH_MAX_NODES {
        truncated := true;
        return false;
      }
      nodes := nodes + {id};
      return true;
    }

    method TryAddEdge(source: NodeId, target: NodeId) returns (ok: bool)
      requires Valid() && source in nodes && (truncated || target in nodes)
      modifies `edges, `truncated
      ensures Valid() && Grows()
      ensures ok <==> Edge(source, target) in old(edges) || |old(edges)| < GRAPH_MAX_EDGES
      ensures edges == if ok then old(edges) + {Edge(source, target)} else old(edges)
      ensures truncated == (old(truncated) || !ok)
    {
      if Edge(source, target) in edges {
        return true;
      }
      if |edges| >= GRAPH_MAX_EDGES {
        truncated := true;
        return false;
      }
      edges := edges + {Edge(source, target)};
      return true;
    }

    /** The nodes for `symbol`, in index order. */
    method Targets(symbol: Symbol) returns (targets: seq<NodeId>)
      ensures forall id :: id in targets <==> TargetOf(index, symbol, id)
      ensures targets != []
    {
      targets := [];
      for i := 0 to |index.chunks|
        invariant forall id :: id in targets <==> id in DefinitionsIn(index, index.chunks[..i], symbol)
      {
        assert index.chunks[..i + 1] == index.chunks[..i] + [index.chunks[i]];
        if index.Defines(index.chunks[i], symbol) {
          targets := targets + [Id(index.chunks[i])];
        }
      }
      assert index.chunks[..|index.chunks|] == index.chunks;
      DefinitionsAreTargets(index, symbol, targets);
      if targets == [] {
        targets := [Unresolved(symbol)];
      }
    }

    method AddNodes(targets: seq<NodeId>)
      requires Valid()
      modifies `nodes, `truncated
      ensures Valid() && Grows()
      ensures forall id :: id in nodes ==> id in old(nodes) || id in targets
      ensures !truncated ==> forall id :: id in targets ==> id in nodes
      ensures truncated && !old(truncated) ==> |nodes| >= GRAPH_MAX_NODES && exists id :: id in targets && id !in nodes
    {
      for i := 0 to |targets|
        invariant Valid() && Grows()
        invariant truncated && !old(truncated) ==>
            |nodes| >= GRAPH_MAX_NODES && exists id :: id in targets && id !in nodes
        invariant forall id :: id in nodes ==> id in old(nodes) || id in targets
        invariant !truncated ==> forall j :: 0 <= j < i ==> targets[j] in nodes
      {
        var ok := TryAddNode(targets[i]);
      }
    }

    /** The edges from one source to all the targets, up to the first that does not fit. */
    method AddEdges(source: NodeId, targets: seq<NodeId>)
      requires Valid() && source in nodes
      requires truncated || forall id :: id in targets ==> id in nodes
      modifies `edges, `truncated
      ensures Valid() && Grows()
      ensures forall e :: e in edges ==> e in old(edges) || (e.source == source && e.target in targets)
      ensures !truncated ==> forall id :: id in targets ==> Edge(source, id) in edges
      ensures truncated && !old(truncated) ==>
        |edges| >= GRAPH_MAX_EDGES && exists id :: id in targets && Edge(source, id) !in edges
    {
      for i := 0 to |targets|
        invariant Valid() && Grows()
        invariant truncated || forall id :: id in targets ==> id in nodes
        invariant forall e :: e in edges ==> e in old(edges) || (e.source == source && e.target in targets)
        invariant !truncated ==> forall j :: 0 <= j < i ==> Edge(source, targets[j]) in edges
        invariant truncated == old(truncated)
      {
        var ok := TryAddEdge(source, targets[i]);
        if !ok {
          return;
        }
      }
    }

    /** Edges between `old` and now are among the possible calls of `symbol`. */
    twostate predicate EdgesFrom(symbol: Symbol)
      reads this
    {
      forall e :: e in edges ==> e in old(edges) || CallEdge(index, direction, symbol, e)
    }

    /** A new node is a target of `symbol` or an end of one of its possible calls. */
    twostate predicate NodesFrom(symbol: Symbol)
      reads this
    {
      forall id :: id in nodes ==> id in old(nodes) || Near(index, direction, symbol, id)
    }

    method FollowCaller(c: Chunk, symbol: Symbol, targets: seq<NodeId>) returns (ok: bool)
      requires Valid() && direction != Callees && c in index.chunks && index.Calls(c, symbol)
      requires forall id :: id in targets <==> TargetOf(index, symbol, id)
      requires targets != [] && (truncated || forall id :: id in targets ==> id in nodes)
      modifies `nodes, `edges, `truncated
      ensures Valid() && Grows() && EdgesFrom(symbol) && NodesFrom(symbol) && CutBy(symbol)
      ensures !truncated ==> ok && forall id :: TargetOf(index, symbol, id) ==> Edge(Id(c), id) in edges
    {
      ok := TryAddNode(Id(c));
      if !ok {
        return;
      }
      assert TargetOf(index, symbol, targets[0]);
      assert CallEdge(index, direction, symbol, Edge(Id(c), targets[0]));
      AddEdges(Id(c), targets);
    }

    method FollowCallers(symbol: Symbol, targets: seq<NodeId>, more: bool) returns (names: seq<Symbol>)
      requires Valid() && direction != Callees
      requires forall id :: id in targets <==> TargetOf(index, symbol, id)
      requires targets != [] && (truncated || forall id :: id in targets ==> id in nodes)
      modifies `nodes, `edges, `truncated
      ensures Valid() && Grows() && EdgesFrom(symbol) && NodesFrom(symbol) && CutBy(symbol)
      ensures !truncated ==> forall e :: CallerEdge(index, symbol, e) ==> e in edges
      ensures forall n :: n in names ==> more && CallerName(index, symbol, n)
      ensures !truncated && more ==> forall n :: CallerName(index, symbol, n) ==> n in names
    {
      names := [];
      for i := 0 to |index.chunks|
        invariant Valid() && Grows() && EdgesFrom(symbol) && NodesFrom(symbol) && CutBy(symbol)
        invariant truncated || forall id :: id in targets ==> id in nodes
        invariant !truncated ==> CallersRecorded(index, symbol, i, edges)
        invariant forall n :: n in names ==> more && CallerName(index, symbol, n)
        invariant !truncated && more ==> CallersNamed(index, symbol, i, names)
      {
        var c := index.chunks[i];
        if !index.Calls(c, symbol) {
          continue;
        }
        var ok := FollowCaller(c, symbol, targets);
        if !ok {
          return;
        }
        if c.name.text != "" && more {
          names := names + [c.name];
        }
      }
    }

    /** The edges from one definition to what one of its calls may stand for. */
    method FollowCall(c: Chunk, callee: Symbol, symbol: Symbol)
      requires Valid() && direction != Callers && Id(c) in nodes
      requires c in index.chunks && index.Defines(c, symbol) && callee in c.calls
      modifies `nodes, `edges, `truncated
      ensures Valid() && Grows() && EdgesFrom(symbol) && NodesFrom(symbol) && CutBy(symbol)
      ensures !truncated ==> forall id :: TargetOf(index, callee, id) ==> Edge(Id(c), id) in edges
    {
      var targets := Targets(callee);
      for i := 0 to |targets|
        invariant Valid() && Grows() && EdgesFrom(symbol) && NodesFrom(symbol) && CutBy(symbol)
        invariant !truncated ==> forall j :: 0 <= j < i ==> Edge(Id(c), targets[j]) in edges
      {
        assert TargetOf(index, callee, targets[i]);
        var ok := FollowTarget(Id(c), targets[i], symbol);
        if !ok {
          return;
        }
      }
    }

    /** One edge and the node it leads to, unless one of them does not fit. */
    method FollowTarget(source: NodeId, target: NodeId, symbol: Symbol) returns (ok: bool)
      requires Valid() && source in nodes && CallEdge(index, direction, symbol, Edge(source, target))
      modifies `nodes, `edges, `truncated
      ensures Valid() && Grows() && EdgesFrom(symbol) && NodesFrom(symbol) && CutBy(symbol)
      ensures if ok then Edge(source, target) in edges && truncated == old(truncated) else truncated
    {
      ok := TryAddNode(target);
      if !ok {
        return;
      }
      ok := TryAddEdge(source, target);
    }

    method FollowDefinition(c: Chunk, symbol: Symbol, more: bool) returns (names: seq<Symbol>, ok: bool)
      requires Valid() && direction != Callers && c in index.chunks && index.Defines(c, symbol)
      modifies `nodes, `edges, `truncated
      ensures Valid() && Grows() && EdgesFrom(symbol) && NodesFrom(symbol) && CutBy(symbol)
      ensures !ok ==> truncated
      ensures !truncated ==> CallsRecorded(index, c, edges)
      ensures forall n :: n in names ==> more && n in c.calls
      ensures !truncated && more ==> forall n :: n in c.calls ==> n in names
    {
      names := [];
      assert TargetOf(index, symbol, Id(c));
      ok := TryAddNode(Id(c));
      if !ok {
        return;
      }
      for i := 0 to |c.calls|
        invariant Valid() && Grows() && EdgesFrom(symbol) && NodesFrom(symbol) && CutBy(symbol) && Id(c) in nodes
        invariant !truncated ==> forall j :: 0 <= j < i ==> CallRecorded(index, c, c.calls[j], edges)
        invariant forall n :: n in names ==> more && n in c.calls
        invariant !truncated && more ==> forall j :: 0 <= j < i ==> c.calls[j] in names
      {
        FollowCall(c, c.calls[i], symbol);
        if more {
          names := names + [c.calls[i]];
        }
      }
    }

    method FollowCallees(symbol: Symbol, more: bool) returns (names: seq<Symbol>)
      requires Valid() && direction != Callers
      modifies `nodes, `edges, `truncated
      ensures Valid() && Grows() && EdgesFrom(symbol) && NodesFrom(symbol) && CutBy(symbol)
      ensures !truncated ==> forall e :: CalleeEdge(index, symbol, e) ==> e in edges
      ensures forall n :: n in names ==> more && CalleeName(index, symbol, n)
      ensures !truncated && more ==> forall n :: CalleeName(index, symbol, n) ==> n in names
    {
      names := [];
      for i := 0 to |index.chunks|
        invariant Valid() && Grows() && EdgesFrom(symbol) && NodesFrom(symbol) && CutBy(symbol)
        invariant !truncated ==> DefinitionsRecorded(index, symbol, i, edges)
        invariant forall n :: n in names ==> more && CalleeName(index, symbol, n)
        invariant !truncated && more ==> CalleesNamed(index, symbol, i, names)
      {
        var c := index.chunks[i];
        if !index.Defines(c, symbol) {
          continue;
        }
        var found, ok := FollowDefinition(c, symbol, more);
        names := names + found;
        if !ok {
          return;
        }
      }
    }

    /** Everything about one symbol. */
    method ExpandSymbol(symbol: Symbol, more: bool) returns (names: seq<Symbol>)
      requires Valid()
      modifies `nodes, `edges, `truncated
      ensures Valid() && Grows() && EdgesFrom(symbol) && NodesFrom(symbol) && CutBy(symbol)
      ensures !truncated ==> Holds(index, direction, Contents(), symbol)
      ensures forall n :: n in names ==> more && NextTo(index, direction, symbol, n)
      ensures !truncated && more ==> forall n :: NextTo(index, direction, symbol, n) ==> n in names
    {
      var targets := Targets(symbol);
      AddNodes(targets);
      names := [];
      if direction != Callees {
        names := FollowCallers(symbol, targets, more);
      }
      if direction != Callers && !truncated {
        var called := FollowCallees(symbol, more);
        names := names + called;
      }
    }

    /** Expand a symbol met for the first time. */
    method Visit(symbol: Symbol, more: bool, ghost expanded: set<Symbol>) returns (names: seq<Symbol>)
      requires Valid() && Records(index, direction, Contents(), expanded) && Visits(index, visited, expanded)
      requires !truncated && index.lower(symbol) !in visited
      modifies this
      ensures Valid() && Records(index, direction, Contents(), expanded + {symbol})
      ensures Visits(index, visited, expanded + {symbol})
      ensures visited == old(visited) + {index.lower(symbol)} && symbol !in expanded
      ensures forall n :: n in names ==> more && NextTo(index, direction, symbol, n)
      ensures !truncated && more ==> forall n :: NextTo(index, direction, symbol, n) ==> n in names
    {
      ghost var before := Contents();
      VisitsMore(index, visited, expanded, symbol);
      visited := visited + {index.lower(symbol)};
      names := ExpandSymbol(symbol, more);
      RecordsMore(index, direction, before, Contents(), expanded, symbol);
    }

    method ExpandFrontier(frontier: seq<Symbol>, more: bool, ghost expanded: set<Symbol>)
      returns (next: seq<Symbol>, ghost taken: set<Symbol>)
      requires Valid() && Records(index, direction, Contents(), expanded) && Visits(index, visited, expanded)
      modifies this
      ensures Valid() && Records(index, direction, Contents(), expanded + taken)
      ensures Visits(index, visited, expanded + taken)
      ensures old(truncated) ==> truncated
      ensures forall s :: s in taken ==> s in frontier && s !in expanded
      ensures !truncated ==> Met(index, visited, frontier)
      ensures Queues(index, direction, more, truncated, taken, next)
    {
      next, taken := [], {};
      assert expanded + taken == expanded;
      for i := 0 to |frontier|
        invariant Valid() && Records(index, direction, Contents(), expanded + taken)
        invariant Visits(index, visited, expanded + taken)
        invariant old(truncated) ==> truncated
        invariant forall s :: s in taken ==> s in frontier && s !in expanded
        invariant !truncated ==> Met(index, visited, frontier[..i])
        invariant Queues(index, direction, more, truncated, taken, next)
      {
        var symbol := frontier[i];
        if !truncated {
          MetMore(index, visited, frontier, i);
        }
        if index.lower(symbol) in visited || truncated {
          continue;
        }
        var names := Visit(symbol, more, expanded + taken);
        QueuesMore(index, direction, more, truncated, taken, next, symbol, names);
        next := next + names;
        assert (expanded + taken) + {symbol} == expanded + (taken + {symbol});
        taken := taken + {symbol};
      }
      assert frontier[..|frontier|] == frontier;
    }
  }

  // ----- The result -----

  /** `s` was expanded within the first `k` levels. */
  ghost predicate InLevels(levels: seq<set<Symbol>>, k: nat, s: Symbol) {
    exists j :: 0 <= j < k && j < |levels| && s in levels[j]
  }

  ghost function All(levels: seq<set<Symbol>>): set<Symbol> {
    set j, s | 0 <= j < |levels| && s in levels[j] :: s
  }

  /** The first level is the symbol asked for, and each other is reached from the one before. */
  ghost predicate Reached(
    index: Index, direction: Direction, symbol: Symbol, levels: seq<set<Symbol>>, k: nat, s: Symbol)
  {
    if k == 0 then s == symbol else k <= |levels| && NextToOne(index, direction, levels[k - 1], s)
  }

  ghost predicate Grown(index: Index, direction: Direction, symbol: Symbol, depth: nat, levels: seq<set<Symbol>>) {
    && |levels| <= depth
    && (forall k, s :: 0 <= k < |levels| && s in levels[k] ==> Reached(index, direction, symbol, levels, k, s))
  }

  /** `n` has been expanded within the first `k` levels, if only in another spelling of its case. */
  ghost predicate Represented(index: Index, levels: seq<set<Symbol>>, k: nat, n: Symbol) {
    exists s :: InLevels(levels, k, s) && index.lower(s) == index.lower(n)
  }

  /** All that level `k` leads to has been expanded by the next level. */
  ghost predicate LevelFollowed(index: Index, direction: Direction, levels: seq<set<Symbol>>, k: nat)
    requires k < |levels|
  {
    forall n :: NextToOne(index, direction, levels[k], n) ==> Represented(index, levels, k + 2, n)
  }

  ghost predicate Followed(index: Index, direction: Direction, symbol: Symbol, depth: nat, levels: seq<set<Symbol>>) {
    && (depth > 0 ==> levels != [] && levels[0] == {symbol})
    && (forall k :: 0 <= k < |levels| && k + 1 < depth ==> LevelFollowed(index, direction, levels, k))
  }

  lemma AllAre(levels: seq<set<Symbol>>, s: Symbol)
    ensures s in All(levels) <==> InLevels(levels, |levels|, s)
  {
  }

  lemma AllAppend(levels: seq<set<Symbol>>, taken: set<Symbol>)
    ensures All(levels + [taken]) == All(levels) + taken
  {
    var more := levels + [taken];
    assert more[|levels|] == taken;
    assert forall j :: 0 <= j < |levels| ==> more[j] == levels[j];
  }

  lemma RepresentedStays(index: Index, levels: seq<set<Symbol>>, taken: set<Symbol>, k: nat, n: Symbol)
    requires Represented(index, levels, k, n)
    ensures Represented(index, levels + [taken], k, n)
  {
    var s :| InLevels(levels, k, s) && index.lower(s) == index.lower(n);
    var j :| 0 <= j < k && j < |levels| && s in levels[j];
    assert (levels + [taken])[j] == levels[j];
    assert InLevels(levels + [taken], k, s);
  }

  lemma FollowedStays(index: Index, direction: Direction, levels: seq<set<Symbol>>, taken: set<Symbol>, k: nat)
    requires k < |levels| && LevelFollowed(index, direction, levels, k)
    ensures LevelFollowed(index, direction, levels + [taken], k)
  {
    var more := levels + [taken];
    assert more[k] == levels[k];
    forall n | NextToOne(index, direction, more[k], n) ensures Represented(index, more, k + 2, n) {
      RepresentedStays(index, levels, taken, k + 2, n);
    }
  }

  lemma ReachedStays(
    index: Index, direction: Direction, symbol: Symbol, levels: seq<set<Symbol>>, taken: set<Symbol>, k: nat,
    s: Symbol)
    requires k <= |levels|
    ensures Reached(index, direction, symbol, levels + [taken], k, s) <==>
            Reached(index, direction, symbol, levels, k, s)
  {
  }

  lemma GrownMore(
    index: Index, direction: Direction, symbol: Symbol, depth: nat, levels: seq<set<Symbol>>, taken: set<Symbol>)
    requires Grown(index, direction, symbol, depth, levels) && |levels| < depth
    requires forall s :: s in taken ==> Reached(index, direction, symbol, levels, |levels|, s)
    ensures Grown(index, direction, symbol, depth, levels + [taken])
  {
    var more := levels + [taken];
    forall k, s | 0 <= k < |more| && s in more[k] ensures Reached(index, direction, symbol, more, k, s) {
      assert k < |levels| ==> more[k] == levels[k];
      ReachedStays(index, direction, symbol, levels, taken, k, s);
    }
  }

  /** The level after the last one covers what that leads to, in some spelling. */
  lemma LastFollowed(
    index: Index, direction: Direction, visited: set<Symbol>, levels: seq<set<Symbol>>, taken: set<Symbol>,
    frontier: seq<Symbol>)
    requires levels != [] && Visits(index, visited, All(levels + [taken])) && Met(index, visited, frontier)
    requires forall n :: NextToOne(index, direction, levels[|levels| - 1], n) ==> n in frontier
    ensures LevelFollowed(index, direction, levels + [taken], |levels| - 1)
  {
    var more, k := levels + [taken], |levels| - 1;
    assert more[k] == levels[k];
    forall n | NextToOne(index, direction, more[k], n) ensures Represented(index, more, k + 2, n) {
      assert n in frontier;
      assert index.lower(n) in visited;
      var s :| s in All(more) && index.lower(s) == index.lower(n);
      AllAre(more, s);
    }
  }

  /** Before level `|levels|`: what is on the frontier, and what has been followed, unless cut short. */
  ghost predicate Ready(
    index: Index, direction: Direction, symbol: Symbol, depth: nat, truncated: bool, levels: seq<set<Symbol>>,
    frontier: seq<Symbol>)
  {
    && Grown(index, direction, symbol, depth, levels)
    && (forall s :: s in frontier ==> Reached(index, direction, symbol, levels, |levels|, s))
    && (!truncated ==>
          && (|levels| < depth ==> forall s :: Reached(index, direction, symbol, levels, |levels|, s) ==> s in frontier)
          && (levels != [] ==> levels[0] == {symbol})
          && (forall k :: 0 <= k < |levels| - 1 ==> LevelFollowed(index, direction, levels, k)))
  }

  lemma EarlierFollowed(
    index: Index, direction: Direction, visited: set<Symbol>, levels: seq<set<Symbol>>, taken: set<Symbol>,
    frontier: seq<Symbol>, k: nat)
    requires k < |levels| && (k < |levels| - 1 ==> LevelFollowed(index, direction, levels, k))
    requires Visits(index, visited, All(levels + [taken])) && Met(index, visited, frontier)
    requires forall n :: NextToOne(index, direction, levels[|levels| - 1], n) ==> n in frontier
    ensures LevelFollowed(index, direction, levels + [taken], k)
  {
    if k < |levels| - 1 {
      FollowedStays(index, direction, levels, taken, k);
    } else {
      LastFollowed(index, direction, visited, levels, taken, frontier);
    }
  }

  lemma NextReady(
    index: Index, direction: Direction, symbol: Symbol, depth: nat, truncated: bool, visited: set<Symbol>,
    levels: seq<set<Symbol>>, frontier: seq<Symbol>, taken: set<Symbol>, next: seq<Symbol>, sorted: seq<Symbol>)
    requires Ready(index, direction, symbol, depth, false, levels, frontier) && |levels| < depth
    requires forall s :: s in taken ==> s in frontier
    requires Visits(index, visited, All(levels + [taken]))
    requires !truncated ==> Met(index, visited, frontier)
    requires !truncated && levels == [] ==> taken == {symbol}
    requires Queues(index, direction, |levels| + 1 < depth, truncated, taken, next)
    requires forall n :: n in sorted <==> n in next
    ensures Ready(index, direction, symbol, depth, truncated, levels + [taken], sorted)
  {
    GrownMore(index, direction, symbol, depth, levels, taken);
    assert (levels + [taken])[|levels|] == taken;
    forall k | !truncated && 0 <= k < |levels| ensures LevelFollowed(index, direction, levels + [taken], k) {
      assert forall n :: NextToOne(index, direction, levels[|levels| - 1], n) ==>
        Reached(index, direction, symbol, levels, |levels|, n);
      EarlierFollowed(index, direction, visited, levels, taken, frontier, k);
    }
  }

  lemma LevelDone(
    index: Index, direction: Direction, symbol: Symbol, depth: nat, truncated: bool, visited: set<Symbol>,
    levels: seq<set<Symbol>>, frontier: seq<Symbol>, taken: set<Symbol>, next: seq<Symbol>, sorted: seq<Symbol>)
    requires Ready(index, direction, symbol, depth, false, levels, frontier) && |levels| < depth
    requires levels == [] ==> frontier == [symbol]
    requires forall s :: s in taken ==> s in frontier
    requires Visits(index, visited, All(levels) + taken)
    requires !truncated ==> Met(index, visited, frontier)
    requires Queues(index, direction, |levels| + 1 < depth, truncated, taken, next)
    requires forall n :: n in sorted <==> n in next
    ensures All(levels + [taken]) == All(levels) + taken
    ensures Ready(index, direction, symbol, depth, truncated, levels + [taken], sorted)
  {
    AllAppend(levels, taken);
    if levels == [] && !truncated {
      FirstTaken(index, visited, symbol, taken);
    }
    NextReady(index, direction, symbol, depth, truncated, visited, levels, frontier, taken, next, sorted);
  }

  lemma FirstTaken(index: Index, visited: set<Symbol>, symbol: Symbol, taken: set<Symbol>)
    requires Visits(index, visited, All([]) + taken) && Met(index, visited, [symbol])
    requires forall s :: s in taken ==> s == symbol
    ensures taken == {symbol}
  {
    assert All([]) + taken == taken;
    assert symbol in [symbol];
    assert index.lower(symbol) in visited;
  }

  lemma ReadyIsFollowed(
    index: Index, direction: Direction, symbol: Symbol, depth: nat, levels: seq<set<Symbol>>,
    frontier: seq<Symbol>)
    requires Ready(index, direction, symbol, depth, false, levels, frontier)
    requires levels == [] ==> depth == 0
    requires |levels| == depth || frontier == []
    ensures Followed(index, direction, symbol, depth, levels)
  {
    forall k | 0 <= k < |levels| && k + 1 < depth ensures LevelFollowed(index, direction, levels, k) {
      if k == |levels| - 1 {
        assert forall n :: NextToOne(index, direction, levels[k], n) ==>
          Reached(index, direction, symbol, levels, |levels|, n);
      }
    }
  }

  /** What every result promises, cut short or not. */
  ghost predicate Bounded(r: Result) {
    && |r.nodes| <= GRAPH_MAX_NODES && |r.edges| <= GRAPH_MAX_EDGES
    && (forall e :: e in r.edges ==> e.source in r.nodes && (r.truncated || e.target in r.nodes))
  }

  /** There are more nodes or more edges about `expanded` than the caps allow. */
  ghost predicate Overflows(index: Index, direction: Direction, expanded: set<Symbol>) {
    || (exists ids :: AllNear(index, direction, expanded, ids) && |ids| > GRAPH_MAX_NODES)
    || (exists es :: AllTouch(index, direction, expanded, es) && |es| > GRAPH_MAX_EDGES)
  }

  ghost predicate AllNear(index: Index, direction: Direction, expanded: set<Symbol>, ids: set<NodeId>) {
    forall id :: id in ids ==> NearOne(index, direction, expanded, id)
  }

  ghost predicate AllTouch(index: Index, direction: Direction, expanded: set<Symbol>, es: set<Edge>) {
    forall e :: e in es ==> TouchesOne(index, direction, expanded, e)
  }

  lemma SubsetIsSmaller<T>(a: set<T>, b: set<T>)
    requires a <= b
    ensures |a| <= |b|
  {
    assert b == a + (b - a);
  }

  /** What does not fit is one too many. */
  lemma NoNodeRoomOverflows(index: Index, direction: Direction, r: Result, expanded: set<Symbol>, s: Symbol)
    requires AllNear(index, direction, expanded, r.nodes) && s in expanded && NoNodeRoom(index, direction, r, s)
    ensures Overflows(index, direction, expanded)
  {
    var id :| Near(index, direction, s, id) && id !in r.nodes;
    assert NearOne(index, direction, expanded, id);
    var ids := r.nodes + {id};
    assert |ids| == |r.nodes| + 1;
    assert AllNear(index, direction, expanded, ids);
  }

  lemma NoEdgeRoomOverflows(index: Index, direction: Direction, r: Result, expanded: set<Symbol>, s: Symbol)
    requires AllTouch(index, direction, expanded, r.edges) && s in expanded && NoEdgeRoom(index, direction, r, s)
    ensures Overflows(index, direction, expanded)
  {
    var e :| CallEdge(index, direction, s, e) && e !in r.edges;
    assert TouchesOne(index, direction, expanded, e);
    var es := r.edges + {e};
    assert |es| == |r.edges| + 1;
    assert AllTouch(index, direction, expanded, es);
  }

  lemma NearIsHeld(index: Index, direction: Direction, r: Result, expanded: set<Symbol>, id: NodeId)
    requires Bounded(r) && !r.truncated && Records(index, direction, r, expanded)
    requires NearOne(index, direction, expanded, id)
    ensures id in r.nodes
  {
    var s :| s in expanded && Near(index, direction, s, id);
    assert Holds(index, direction, r, s);
  }

  /** A search is cut short exactly when the graph of what it expanded is over a cap. */
  lemma TruncatedIff(index: Index, direction: Direction, r: Result, expanded: set<Symbol>)
    requires Bounded(r) && Records(index, direction, r, expanded)
    ensures r.truncated <==> Overflows(index, direction, expanded)
  {
    if r.truncated {
      var s :| s in expanded && NoRoom(index, direction, r, s);
      assert AllNear(index, direction, expanded, r.nodes) && AllTouch(index, direction, expanded, r.edges);
      if NoNodeRoom(index, direction, r, s) {
        NoNodeRoomOverflows(index, direction, r, expanded, s);
      } else {
        NoEdgeRoomOverflows(index, direction, r, expanded, s);
      }
    } else {
      forall ids | AllNear(index, direction, expanded, ids) ensures |ids| <= GRAPH_MAX_NODES {
        forall id | id in ids ensures id in r.nodes {
          NearIsHeld(index, direction, r, expanded, id);
        }
        SubsetIsSmaller(ids, r.nodes);
      }
      forall es | AllTouch(index, direction, expanded, es) ensures |es| <= GRAPH_MAX_EDGES {
        forall e | e in es ensures e in r.edges {
          var s :| s in expanded && CallEdge(index, direction, s, e);
          assert Holds(index, direction, r, s);
        }
        SubsetIsSmaller(es, r.edges);
      }
    }
  }

  /**
   * The possible calls around `symbol`: the relations of the symbols in `levels`, each expanded in one spelling and
   * reached from the one before; when the search is not cut short, of everything these lead to within the depth. It is
   * cut short exactly when their relations are over a cap.
   */
  method BuildCallGraph(index: Index, symbol: Symbol, direction: Direction, depth: nat)
    returns (r: Result, ghost levels: seq<set<Symbol>>)
    requires index.Valid()
    ensures Bounded(r)
    ensures Records(index, direction, r, All(levels))
    ensures Grown(index, direction, symbol, depth, levels) && OneSpelling(index, All(levels))
    ensures !r.truncated ==> Followed(index, direction, symbol, depth, levels)
    ensures r.truncated <==> Overflows(index, direction, All(levels))
  {
    var search := new CallGraphSearch(index, direction);
    var frontier := [symbol];
    levels := [];
    for k := 0 to depth
      invariant search.index == index && search.direction == direction
      invariant search.Valid() && Records(index, direction, search.Contents(), All(levels))
      invariant Visits(index, search.visited, All(levels))
      invariant |levels| == k && !search.truncated
      invariant levels == [] ==> frontier == [symbol]
      invariant Ready(index, direction, symbol, depth, search.truncated, levels, frontier)
    {
      var next, taken := search.ExpandFrontier(frontier, k + 1 < depth, All(levels));
      var following := index.sorted(set n | n in next);
      LevelDone(
        index, direction, symbol, depth, search.truncated, search.visited, levels, frontier, taken, next,
        following);
      levels := levels + [taken];
      frontier := following;
      if frontier == [] || search.truncated {
        break;
      }
    }
    r := Result(search.nodes, search.edges, search.truncated);
    if !r.truncated {
      ReadyIsFollowed(index, direction, symbol, depth, levels, frontier);
    }
    TruncatedIff(index, direction, r, All(levels));
  }

  // ----- Which neighbourhood that is -----

  ghost predicate Walk(index: Index, direction: Direction, walk: seq<Symbol>, from: Symbol, to: Symbol) {
    && walk != [] && walk[0] == from && walk[|walk| - 1] == to
    && (forall i :: 0 < i < |walk| ==> NextTo(index, direction, walk[i - 1], walk[i]))
  }

  /** `s` is less than `depth` hops away from `symbol`. */
  ghost predicate Within(index: Index, direction: Direction, symbol: Symbol, depth: nat, s: Symbol) {
    exists walk :: Walk(index, direction, walk, symbol, s) && |walk| <= depth
  }

  /** Letter case never tells two symbols of the neighbourhood apart. */
  ghost predicate CaseDistinct(index: Index, direction: Direction, symbol: Symbol, depth: nat) {
    forall s, t ::
      && Within(index, direction, symbol, depth, s) && Within(index, direction, symbol, depth, t)
      && index.lower(s) == index.lower(t)
      ==> s == t
  }

  lemma WalkOn(index: Index, direction: Direction, walk: seq<Symbol>, from: Symbol, p: Symbol, s: Symbol)
    requires Walk(index, direction, walk, from, p) && NextTo(index, direction, p, s)
    ensures Walk(index, direction, walk + [s], from, s)
  {
  }

  lemma {:induction false} ExpandedWalk(
    index: Index, direction: Direction, symbol: Symbol, depth: nat, levels: seq<set<Symbol>>, k: nat, s: Symbol)
    returns (walk: seq<Symbol>)
    requires Grown(index, direction, symbol, depth, levels) && k < |levels| && s in levels[k]
    ensures Walk(index, direction, walk, symbol, s) && |walk| == k + 1
    decreases k
  {
    assert Reached(index, direction, symbol, levels, k, s);
    if k == 0 {
      walk := [symbol];
    } else {
      var p :| p in levels[k - 1] && NextTo(index, direction, p, s);
      var front := ExpandedWalk(index, direction, symbol, depth, levels, k - 1, p);
      WalkOn(index, direction, front, symbol, p, s);
      walk := front + [s];
    }
  }

  /** Whatever its letters, a search expands only symbols less than `depth` hops away, truncated or not. */
  lemma ExpandedIsWithin(
    index: Index, direction: Direction, symbol: Symbol, depth: nat, levels: seq<set<Symbol>>, s: Symbol)
    requires Grown(index, direction, symbol, depth, levels) && s in All(levels)
    ensures Within(index, direction, symbol, depth, s)
  {
    AllAre(levels, s);
    var k :| 0 <= k < |levels| && s in levels[k];
    var walk := ExpandedWalk(index, direction, symbol, depth, levels, k, s);
  }

  /** Where case distinguishes the neighbourhood, the end of every short walk has been expanded. */
  lemma {:induction false} WalkExpanded(
    index: Index, direction: Direction, symbol: Symbol, depth: nat, levels: seq<set<Symbol>>, walk: seq<Symbol>,
    s: Symbol)
    requires CaseDistinct(index, direction, symbol, depth)
    requires Grown(index, direction, symbol, depth, levels) && Followed(index, direction, symbol, depth, levels)
    requires Walk(index, direction, walk, symbol, s) && |walk| <= depth
    ensures InLevels(levels, |walk|, s)
    decreases |walk|
  {
    if |walk| == 1 {
      assert s in levels[0];
    } else {
      var front := walk[..|walk| - 1];
      var p := front[|front| - 1];
      WalkExpanded(index, direction, symbol, depth, levels, front, p);
      var k :| 0 <= k < |front| && k < |levels| && p in levels[k];
      assert LevelFollowed(index, direction, levels, k);
      assert NextToOne(index, direction, levels[k], s);
      var t :| InLevels(levels, k + 2, t) && index.lower(t) == index.lower(s);
      AllAre(levels, t);
      ExpandedIsWithin(index, direction, symbol, depth, levels, t);
    }
  }

  /** An untruncated search expands exactly the symbols less than `depth` hops away if and only if no two of these
      differ only in letter case. */
  lemma ExpandedWithinDepthIff(
    index: Index, direction: Direction, symbol: Symbol, depth: nat, levels: seq<set<Symbol>>)
    requires Grown(index, direction, symbol, depth, levels) && Followed(index, direction, symbol, depth, levels)
    requires OneSpelling(index, All(levels))
    ensures (forall s :: s in All(levels) <==> Within(index, direction, symbol, depth, s)) <==>
            CaseDistinct(index, direction, symbol, depth)
  {
    if CaseDistinct(index, direction, symbol, depth) {
      forall s ensures s in All(levels) <==> Within(index, direction, symbol, depth, s) {
        ExpandedWithinDepth(index, direction, symbol, depth, levels, s);
      }
    }
  }

  lemma ExpandedWithinDepth(
    index: Index, direction: Direction, symbol: Symbol, depth: nat, levels: seq<set<Symbol>>, s: Symbol)
    requires CaseDistinct(index, direction, symbol, depth)
    requires Grown(index, direction, symbol, depth, levels) && Followed(index, direction, symbol, depth, levels)
    ensures s in All(levels) <==> Within(index, direction, symbol, depth, s)
  {
    if s in All(levels) {
      ExpandedIsWithin(index, direction, symbol, depth, levels, s);
    }
    forall walk | Walk(index, direction, walk, symbol, s) && |walk| <= depth ensures s in All(levels) {
      WalkExpanded(index, direction, symbol, depth, levels, walk, s);
      AllAre(levels, s);
    }
  }

  /** `e` is a possible call touching a symbol less than `depth` hops away. */
  ghost predicate CallWithin(index: Index, direction: Direction, symbol: Symbol, depth: nat, e: Edge) {
    exists s :: Within(index, direction, symbol, depth, s) && CallEdge(index, direction, s, e)
  }

  /** Every edge of every graph is such a call; where case distinguishes the neighbourhood, an untruncated graph has
      all of them. */
  lemma CallsWithinDepth(
    index: Index, direction: Direction, symbol: Symbol, depth: nat, levels: seq<set<Symbol>>, r: Result, e: Edge)
    requires Records(index, direction, r, All(levels)) && Grown(index, direction, symbol, depth, levels)
    ensures e in r.edges ==> CallWithin(index, direction, symbol, depth, e)
    ensures !r.truncated && Followed(index, direction, symbol, depth, levels)
      && CaseDistinct(index, direction, symbol, depth)
      ==> (CallWithin(index, direction, symbol, depth, e) ==> e in r.edges)
  {
    if e in r.edges {
      var s :| s in All(levels) && CallEdge(index, direction, s, e);
      ExpandedIsWithin(index, direction, symbol, depth, levels, s);
    }
    if && !r.truncated && Followed(index, direction, symbol, depth, levels)
       && CaseDistinct(index, direction, symbol, depth) && CallWithin(index, direction, symbol, depth, e)
    {
      var s :| Within(index, direction, symbol, depth, s) && CallEdge(index, direction, s, e);
      ExpandedWithinDepth(index, direction, symbol, depth, levels, s);
      assert Holds(index, direction, r, s);
    }
  }

  // ----- An index whose calls are missed -----

  const RUN := Symbol("run")
  const LOAD := Symbol("load")
  const CAPITAL := Symbol("Load")

  /** `run` calls `load` and `Load`, which are different functions. */
  const PIECES := [Chunk("run.py", 1, RUN, [LOAD, CAPITAL]),
                   Chunk("load.py", 1, LOAD, [Symbol("open")]),
                   Chunk("load.py", 9, CAPITAL, [Symbol("parse")])]

  function LowerCase(s: Symbol): Symbol {
    if s == CAPITAL then LOAD else s
  }

  /** Names without dots, of which only one has a capital. */
  function CollidingIndex(sorted: set<Symbol> -> seq<Symbol>): Index {
    Index(PIECES, s => s, LowerCase, sorted)
  }

  lemma CollidingNamesAreWithin(sorted: set<Symbol> -> seq<Symbol>)
    ensures var index := CollidingIndex(sorted);
            Within(index, Callees, RUN, 2, LOAD) && Within(index, Callees, RUN, 2, CAPITAL)
  {
    var index := CollidingIndex(sorted);
    assert index.chunks[0].calls[0] == LOAD && index.chunks[0].calls[1] == CAPITAL;
    assert index.chunks[0] in index.chunks && index.Defines(index.chunks[0], RUN);
    assert CalleeName(index, RUN, LOAD) && CalleeName(index, RUN, CAPITAL);
    assert Walk(index, Callees, [RUN, LOAD], RUN, LOAD);
    assert Walk(index, Callees, [RUN, CAPITAL], RUN, CAPITAL);
  }

  /** What `definition` calls is recorded only if its own name was expanded. */
  lemma MissedCall(
    sorted: set<Symbol> -> seq<Symbol>, levels: seq<set<Symbol>>, r: Result, name: Symbol, callee: Symbol, k: nat)
    requires Records(CollidingIndex(sorted), Callees, r, All(levels)) && name !in All(levels)
    requires 1 <= k < 3 && PIECES[k].name == name && PIECES[k].calls == [callee]
    ensures var e := Edge(Id(PIECES[k]), Unresolved(callee));
            CallEdge(CollidingIndex(sorted), Callees, name, e) && e !in r.edges
  {
    var index, e := CollidingIndex(sorted), Edge(Id(PIECES[k]), Unresolved(callee));
    assert PIECES[k] in index.chunks && callee in PIECES[k].calls;
    assert TargetOf(index, callee, e.target);
    forall s | s in All(levels) ensures !CallEdge(index, Callees, s, e) {
      assert s != name;
    }
  }

  /** Nothing but these three is expanded at depth 2. */
  lemma OnlyThreeExpanded(sorted: set<Symbol> -> seq<Symbol>, levels: seq<set<Symbol>>)
    requires Grown(CollidingIndex(sorted), Callees, RUN, 2, levels)
    ensures All(levels) <= {RUN, LOAD, CAPITAL}
  {
    var index := CollidingIndex(sorted);
    forall k, s | 0 <= k < |levels| && s in levels[k] ensures s in {RUN, LOAD, CAPITAL} {
      assert Reached(index, Callees, RUN, levels, k, s);
      if k == 1 {
        var p :| p in levels[0] && NextTo(index, Callees, p, s);
        assert Reached(index, Callees, RUN, levels, 0, p);
        CalleesOfRun(sorted, s);
      }
    }
  }

  lemma CalleesOfRun(sorted: set<Symbol> -> seq<Symbol>, s: Symbol)
    requires CalleeName(CollidingIndex(sorted), RUN, s)
    ensures s == LOAD || s == CAPITAL
  {
    var c :| c in PIECES && CollidingIndex(sorted).Defines(c, RUN) && s in c.calls;
    assert c == PIECES[0];
  }

  /** The four calls there are, and the nodes they join. */
  lemma FourCalls(sorted: set<Symbol> -> seq<Symbol>, s: Symbol, e: Edge)
    requires s in {RUN, LOAD, CAPITAL} && CallEdge(CollidingIndex(sorted), Callees, s, e)
    ensures e in KnownEdges()
  {
    var index := CollidingIndex(sorted);
    var c, callee :| c in index.chunks && index.Defines(c, s) && callee in c.calls
                     && e.source == Id(c) && TargetOf(index, callee, e.target);
    var k :| 0 <= k < |PIECES| && PIECES[k] == c;
    TargetIs(sorted, callee, e.target);
  }

  lemma TargetIs(sorted: set<Symbol> -> seq<Symbol>, callee: Symbol, id: NodeId)
    requires TargetOf(CollidingIndex(sorted), callee, id)
    ensures id == if callee == RUN then Id(PIECES[0]) else if callee == LOAD then Id(PIECES[1])
                  else if callee == CAPITAL then Id(PIECES[2]) else Unresolved(callee)
  {
    var index := CollidingIndex(sorted);
    assert forall c :: c in index.chunks <==> c == PIECES[0] || c == PIECES[1] || c == PIECES[2];
    assert index.Defines(PIECES[0], RUN) && index.Defines(PIECES[1], LOAD) && index.Defines(PIECES[2], CAPITAL);
  }

  ghost function KnownEdges(): set<Edge> {
    {Edge(Id(PIECES[0]), Id(PIECES[1])), Edge(Id(PIECES[0]), Id(PIECES[2])),
     Edge(Id(PIECES[1]), Unresolved(Symbol("open"))), Edge(Id(PIECES[2]), Unresolved(Symbol("parse")))}
  }

  ghost function KnownNodes(): set<NodeId> {
    {Id(PIECES[0]), Id(PIECES[1]), Id(PIECES[2]), Unresolved(Symbol("open")), Unresolved(Symbol("parse"))}
  }

  lemma FiveNodes(sorted: set<Symbol> -> seq<Symbol>, s: Symbol, id: NodeId)
    requires s in {RUN, LOAD, CAPITAL} && Near(CollidingIndex(sorted), Callees, s, id)
    ensures id in KnownNodes()
  {
    var index := CollidingIndex(sorted);
    if TargetOf(index, s, id) {
      TargetIs(sorted, s, id);
    } else {
      var e :| CallEdge(index, Callees, s, e) && (id == e.source || id == e.target);
      FourCalls(sorted, s, e);
      EndsAreKnown(e);
    }
  }

  lemma EndsAreKnown(e: Edge)
    requires e in KnownEdges()
    ensures e.source in KnownNodes() && e.target in KnownNodes()
  {
  }

  /** So its search is never cut short. */
  lemma CollidingIndexFits(sorted: set<Symbol> -> seq<Symbol>, expanded: set<Symbol>)
    requires expanded <= {RUN, LOAD, CAPITAL}
    ensures !Overflows(CollidingIndex(sorted), Callees, expanded)
  {
    var index := CollidingIndex(sorted);
    forall ids | AllNear(index, Callees, expanded, ids) ensures |ids| <= GRAPH_MAX_NODES {
      forall id | id in ids ensures id in KnownNodes() {
        var s :| s in expanded && Near(index, Callees, s, id);
        FiveNodes(sorted, s, id);
      }
      SubsetIsSmaller(ids, KnownNodes());
    }
    forall es | AllTouch(index, Callees, expanded, es) ensures |es| <= GRAPH_MAX_EDGES {
      forall e | e in es ensures e in KnownEdges() {
        var s :| s in expanded && CallEdge(index, Callees, s, e);
        FourCalls(sorted, s, e);
      }
      SubsetIsSmaller(es, KnownEdges());
    }
  }

  /** What a search of `symbol` promises, cut short or not. */
  ghost predicate Searched(
    index: Index, direction: Direction, symbol: Symbol, depth: nat, r: Result, levels: seq<set<Symbol>>)
  {
    && Bounded(r) && Records(index, direction, r, All(levels))
    && Grown(index, direction, symbol, depth, levels) && OneSpelling(index, All(levels))
  }

  lemma SearchFits(sorted: set<Symbol> -> seq<Symbol>, r: Result, levels: seq<set<Symbol>>)
    requires Searched(CollidingIndex(sorted), Callees, RUN, 2, r, levels)
    ensures !r.truncated
  {
    OnlyThreeExpanded(sorted, levels);
    CollidingIndexFits(sorted, All(levels));
    TruncatedIff(CollidingIndex(sorted), Callees, r, All(levels));
  }

  lemma SearchHidesCall(sorted: set<Symbol> -> seq<Symbol>, r: Result, levels: seq<set<Symbol>>)
    requires Searched(CollidingIndex(sorted), Callees, RUN, 2, r, levels)
    ensures exists e :: CallWithin(CollidingIndex(sorted), Callees, RUN, 2, e) && e !in r.edges
  {
    var index := CollidingIndex(sorted);
    CollidingNamesAreWithin(sorted);
    assert index.lower(LOAD) == index.lower(CAPITAL);
    if LOAD !in All(levels) {
      MissedCall(sorted, levels, r, LOAD, Symbol("open"), 1);
      assert CallWithin(index, Callees, RUN, 2, Edge(Id(PIECES[1]), Unresolved(Symbol("open"))));
    } else {
      MissedCall(sorted, levels, r, CAPITAL, Symbol("parse"), 2);
      assert CallWithin(index, Callees, RUN, 2, Edge(Id(PIECES[2]), Unresolved(Symbol("parse"))));
    }
  }

  /** Every search of the callees of `run` at depth 2 claims to be complete and leaves out a call made one hop away. */
  lemma CaseHidesCalls(sorted: set<Symbol> -> seq<Symbol>)
    ensures forall r, levels :: Searched(CollidingIndex(sorted), Callees, RUN, 2, r, levels) ==> !r.truncated
    ensures forall r, levels :: Searched(CollidingIndex(sorted), Callees, RUN, 2, r, levels) ==>
      exists e :: CallWithin(CollidingIndex(sorted), Callees, RUN, 2, e) && e !in r.edges
  {
    forall r, levels | Searched(CollidingIndex(sorted), Callees, RUN, 2, r, levels)
      ensures !r.truncated
      ensures exists e :: CallWithin(CollidingIndex(sorted), Callees, RUN, 2, e) && e !in r.edges
    {
      SearchFits(sorted, r, levels);
      SearchHidesCall(sorted, r, levels);
    }
  }

  /** Such a search, whatever the order names are taken in. */
  method SearchColliding(sorted: set<Symbol> -> seq<Symbol>) returns (r: Result)
    requires CollidingIndex(sorted).Valid()
    ensures !r.truncated
    ensures exists e :: CallWithin(CollidingIndex(sorted), Callees, RUN, 2, e) && e !in r.edges
  {
    ghost var levels;
    r, levels := BuildCallGraph(CollidingIndex(sorted), RUN, Callees, 2);
    CaseHidesCalls(sorted);
    assert Searched(CollidingIndex(sorted), Callees, RUN, 2, r, levels);
  }
}
