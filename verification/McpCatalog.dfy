/** How the catalog of remote tools is put together from the configured servers. */
module McpCatalog {
  import opened Prelude
  import opened McpRouter

  const MAX_SCHEMA_SIZE := 20000

  datatype Server = Server(name: string, enabled: bool, allowed: seq<ToolName>, policies: map<ToolName, Policy>)
  {
    /** The policy is the operator's, and denies by default. */
    function PolicyOf(tool: ToolName): Policy {
      if tool in policies then policies[tool] else Deny
    }

    predicate Active() {
      enabled && allowed != []
    }
  }

  datatype RemoteTool = RemoteTool(name: ToolName, schema: Schema)

  /** What a server answers when asked for its tools. */
  datatype Listing = Tools(tools: seq<RemoteTool>) | Failed(error: string)

  datatype Problem = ServerFailed(server: string, error: string) | SchemaTooLarge(server: string, tool: ToolName)

  datatype Found = Entry(tool: Tool) | Trouble(problem: Problem)

  datatype Catalog = Catalog(tools: seq<Tool>, errors: seq<Problem>, truncated: bool)

  function QualifiedName(server: string, tool: ToolName): ToolName {
    ToolName(server + "." + tool.text)
  }

  function EntryFor(server: Server, tool: RemoteTool): Tool {
    Tool(QualifiedName(server.name, tool.name), server.name, tool.name, tool.schema, server.PolicyOf(tool.name))
  }

  // ----- Everything there is to find, in order -----

  function FoundIn(server: Server, tools: seq<RemoteTool>): seq<Found> {
    if tools == [] then []
    else
      var tool := tools[|tools| - 1];
      FoundIn(server, tools[..|tools| - 1]) +
      if tool.name !in server.allowed then []
      else if |tool.schema.json| > MAX_SCHEMA_SIZE then [Trouble(SchemaTooLarge(server.name, tool.name))]
      else [Entry(EntryFor(server, tool))]
  }

  function FoundAt(server: Server, listing: Listing): seq<Found> {
    match listing
    case Failed(error) => [Trouble(ServerFailed(server.name, error))]
    case Tools(tools) => FoundIn(server, tools)
  }

  function FoundAll(servers: seq<Server>, listings: seq<Listing>): seq<Found>
    requires |servers| == |listings|
  {
    if servers == [] then []
    else
      FoundAll(servers[..|servers| - 1], listings[..|listings| - 1])
      + FoundAt(servers[|servers| - 1], listings[|listings| - 1])
  }

  function Entries(found: seq<Found>): seq<Tool> {
    if found == [] then []
    else Entries(found[..|found| - 1]) + if found[|found| - 1].Entry? then [found[|found| - 1].tool] else []
  }

  function Problems(found: seq<Found>): seq<Problem> {
    if found == [] then []
    else Problems(found[..|found| - 1]) + if found[|found| - 1].Trouble? then [found[|found| - 1].problem] else []
  }

  lemma {:induction false} EntriesConcat(a: seq<Found>, b: seq<Found>)
    ensures Entries(a + b) == Entries(a) + Entries(b)
    ensures Problems(a + b) == Problems(a) + Problems(b)
  {
    if b == [] {
      assert a + b == a;
    } else {
      EntriesConcat(a, b[..|b| - 1]);
      assert (a + b)[..|a + b| - 1] == a + b[..|b| - 1];
    }
  }

  /** `cut` is `found` up to the entry that fills the catalog, or all of it. */
  ghost predicate CutAt(cut: seq<Found>, found: seq<Found>, max: nat) {
    && cut <= found
    && (if |Entries(cut)| < max then cut == found else |Entries(cut)| == max && cut != [] && cut[|cut| - 1].Entry?)
  }

  // ----- Discovery -----

  function ActiveServers(servers: seq<Server>): seq<Server> {
    if servers == [] then []
    else
      var last := servers[|servers| - 1];
      ActiveServers(servers[..|servers| - 1]) + if last.Active() then [last] else []
  }

  /** The tools of one server; `full` when the catalog is. */
  method AddTools(
    server: Server, tools: seq<RemoteTool>, catalog: seq<Tool>, errors: seq<Problem>, max: nat,
    ghost before: seq<Found>)
    returns (catalog': seq<Tool>, errors': seq<Problem>, full: bool, ghost seen: seq<Found>)
    requires catalog == Entries(before) && errors == Problems(before) && |catalog| < max
    ensures catalog' == Entries(before + seen) && errors' == Problems(before + seen)
    ensures full <==> |catalog'| >= max
    ensures seen <= FoundIn(server, tools) && |catalog'| <= max
    ensures if full then seen != [] && seen[|seen| - 1].Entry? else seen == FoundIn(server, tools)
  {
    catalog', errors', seen := catalog, errors, [];
    assert before + seen == before;
    for i := 0 to |tools|
      invariant seen == FoundIn(server, tools[..i])
      invariant catalog' == Entries(before + seen) && errors' == Problems(before + seen) && |catalog'| < max
    {
      var tool := tools[i];
      FoundInStep(server, tools, i);
      if tool.name !in server.allowed {
        continue;
      }
      if |tool.schema.json| > MAX_SCHEMA_SIZE {
        errors' := errors' + [SchemaTooLarge(server.name, tool.name)];
        FoundMore(before, seen, Trouble(SchemaTooLarge(server.name, tool.name)));
        seen := seen + [Trouble(SchemaTooLarge(server.name, tool.name))];
        continue;
      }
      catalog' := catalog' + [EntryFor(server, tool)];
      FoundMore(before, seen, Entry(EntryFor(server, tool)));
      seen := seen + [Entry(EntryFor(server, tool))];
      if |catalog'| >= max {
        FoundInGrows(server, tools, i + 1);
        full := true;
        return;
      }
    }
    assert tools[..|tools|] == tools;
    full := false;
  }

  lemma FoundInStep(server: Server, tools: seq<RemoteTool>, i: nat)
    requires i < |tools|
    ensures FoundIn(server, tools[..i + 1]) == FoundIn(server, tools[..i]) +
      if tools[i].name !in server.allowed then []
      else if |tools[i].schema.json| > MAX_SCHEMA_SIZE then [Trouble(SchemaTooLarge(server.name, tools[i].name))]
      else [Entry(EntryFor(server, tools[i]))]
  {
    assert tools[..i + 1][..i] == tools[..i];
  }

  lemma {:induction false} FoundInGrows(server: Server, tools: seq<RemoteTool>, i: nat)
    requires i <= |tools|
    ensures FoundIn(server, tools[..i]) <= FoundIn(server, tools)
    decreases |tools| - i
  {
    if i < |tools| {
      FoundInStep(server, tools, i);
      FoundInGrows(server, tools, i + 1);
    } else {
      assert tools[..i] == tools;
    }
  }

  lemma FoundMore(before: seq<Found>, seen: seq<Found>, found: Found)
    ensures Entries(before + (seen + [found])) == Entries(before + seen) + if found.Entry? then [found.tool] else []
    ensures Problems(before + (seen + [found])) ==
            Problems(before + seen) + if found.Trouble? then [found.problem] else []
  {
    assert (before + (seen + [found]))[..|before + seen|] == before + seen;
  }

  lemma FoundAllStep(servers: seq<Server>, listings: seq<Listing>, i: nat)
    requires |servers| == |listings| && i < |servers|
    ensures FoundAll(servers[..i + 1], listings[..i + 1]) ==
            FoundAll(servers[..i], listings[..i]) + FoundAt(servers[i], listings[i])
  {
    assert servers[..i + 1][..i] == servers[..i] && listings[..i + 1][..i] == listings[..i];
  }

  lemma {:induction false} FoundAllGrows(servers: seq<Server>, listings: seq<Listing>, i: nat)
    requires |servers| == |listings| && i <= |servers|
    ensures FoundAll(servers[..i], listings[..i]) <= FoundAll(servers, listings)
    decreases |servers| - i
  {
    if i < |servers| {
      FoundAllStep(servers, listings, i);
      FoundAllGrows(servers, listings, i + 1);
    } else {
      assert servers[..i] == servers && listings[..i] == listings;
    }
  }

  lemma CutWhenFull(before: seq<Found>, seen: seq<Found>, more: seq<Found>, all: seq<Found>, max: nat)
    requires seen <= more && before + more <= all
    requires seen != [] && seen[|seen| - 1].Entry? && |Entries(before + seen)| == max
    ensures CutAt(before + seen, all, max)
  {
    assert (before + seen)[|before + seen| - 1] == seen[|seen| - 1];
  }

  lemma FoundAtGrows(servers: seq<Server>, listings: seq<Listing>, i: nat)
    requires |servers| == |listings| && i < |servers|
    ensures FoundAll(servers[..i], listings[..i]) + FoundAt(servers[i], listings[i]) <= FoundAll(servers, listings)
  {
    FoundAllStep(servers, listings, i);
    FoundAllGrows(servers, listings, i + 1);
  }

  /** The first `max` entries, the problems met up to the last of them, and whether there are that many entries. */
  ghost predicate IsCatalogOf(r: Catalog, found: seq<Found>, max: nat) {
    && r.tools == Take(Entries(found), max)
    && (r.truncated <==> |Entries(found)| >= max)
    && exists cut :: CutAt(cut, found, max) && r.errors == Problems(cut)
  }

  lemma CutIsCatalog(r: Catalog, cut: seq<Found>, found: seq<Found>, max: nat)
    requires CutAt(cut, found, max) && r == Catalog(Entries(cut), Problems(cut), |Entries(cut)| >= max)
    ensures IsCatalogOf(r, found, max)
  {
    CatalogIsTheFirst(cut, found, max);
  }

  /** `listings` are the answers of the active servers, in order; `max` is at least 1. */
  method Discover(servers: seq<Server>, listings: seq<Listing>, max: nat) returns (r: Catalog)
    requires max >= 1 && |listings| == |ActiveServers(servers)|
    ensures IsCatalogOf(r, FoundAll(ActiveServers(servers), listings), max)
  {
    var active := ActiveServers(servers);
    if active == [] {
      r := Catalog([], [], false);
      CutIsCatalog(r, [], [], max);
      return;
    }
    ghost var cut: seq<Found> := [];
    var catalog, errors := [], [];
    for i := 0 to |active|
      invariant cut == FoundAll(active[..i], listings[..i])
      invariant catalog == Entries(cut) && errors == Problems(cut) && |catalog| < max
    {
      FoundAllStep(active, listings, i);
      match listings[i]
      case Failed(error) =>
        errors := errors + [ServerFailed(active[i].name, error)];
        EntriesConcat(cut, [Trouble(ServerFailed(active[i].name, error))]);
        cut := cut + [Trouble(ServerFailed(active[i].name, error))];
      case Tools(tools) =>
        var full;
        ghost var seen;
        catalog, errors, full, seen := AddTools(active[i], tools, catalog, errors, max, cut);
        if full {
          FoundAtGrows(active, listings, i);
          CutWhenFull(cut, seen, FoundIn(active[i], tools), FoundAll(active, listings), max);
          r := Catalog(catalog, errors, true);
          CutIsCatalog(r, cut + seen, FoundAll(active, listings), max);
          return;
        }
        cut := cut + seen;
    }
    assert active[..|active|] == active && listings[..|listings|] == listings;
    r := Catalog(catalog, errors, false);
    CutIsCatalog(r, cut, FoundAll(active, listings), max);
  }

  // ----- What the catalog is -----

  lemma {:induction false} EntriesOfPrefix(a: seq<Found>, b: seq<Found>)
    requires a <= b
    ensures Entries(a) <= Entries(b)
  {
    EntriesConcat(a, b[|a|..]);
    assert b == a + b[|a|..];
  }

  /** The catalog is the first `max` entries there are, and is called truncated exactly when there are that many. */
  lemma CatalogIsTheFirst(cut: seq<Found>, found: seq<Found>, max: nat)
    requires CutAt(cut, found, max)
    ensures Entries(cut) == Take(Entries(found), max)
    ensures |Entries(cut)| >= max <==> |Entries(found)| >= max
  {
    EntriesOfPrefix(cut, found);
  }

  /** `tool` is offered by one of the servers, allowed there, under that server's policy. */
  ghost predicate OfferedBy(server: Server, tool: Tool) {
    && tool.name in server.allowed && tool.server == server.name
    && tool.qualifiedName == QualifiedName(server.name, tool.name)
    && tool.policy == server.PolicyOf(tool.name) && |tool.schema.json| <= MAX_SCHEMA_SIZE
  }

  lemma {:induction false} EntriesInAreOffered(server: Server, tools: seq<RemoteTool>, tool: Tool)
    requires tool in Entries(FoundIn(server, tools))
    ensures OfferedBy(server, tool)
  {
    var front, last := tools[..|tools| - 1], tools[|tools| - 1];
    var more := FoundIn(server, tools)[|FoundIn(server, front)|..];
    assert FoundIn(server, tools) == FoundIn(server, front) + more;
    EntriesConcat(FoundIn(server, front), more);
    if tool in Entries(FoundIn(server, front)) {
      EntriesInAreOffered(server, front, tool);
    } else {
      assert more == [Entry(EntryFor(server, last))];
      assert Entries(more) == [EntryFor(server, last)] by { EntriesConcat([], more); }
    }
  }

  lemma {:induction false} EntriesAreOffered(
    servers: seq<Server>, listings: seq<Listing>, tool: Tool)
    returns (server: Server)
    requires |servers| == |listings| && tool in Entries(FoundAll(servers, listings))
    ensures server in servers && OfferedBy(server, tool)
  {
    var n := |servers| - 1;
    var front, last := FoundAll(servers[..n], listings[..n]), FoundAt(servers[n], listings[n]);
    EntriesConcat(front, last);
    if tool in Entries(front) {
      server := EntriesAreOffered(servers[..n], listings[..n], tool);
    } else {
      server := servers[n];
      assert listings[n].Tools?;
      EntriesInAreOffered(server, listings[n].tools, tool);
    }
  }

  ghost predicate DotFree(name: string) {
    '.' !in name
  }

  lemma FirstDotDiffers(a: string, s: string, b: string, t: string)
    requires |a| < |b| && DotFree(b)
    ensures a + "." + s != b + "." + t
  {
    assert (a + "." + s)[|a|] == '.';
    assert (b + "." + t)[|a|] == b[|a|];
  }

  /** A qualified name says which server and tool it is for, when server names hold no dot. */
  lemma QualifiedNameIsInjective(a: string, s: ToolName, b: string, t: ToolName)
    requires DotFree(a) && DotFree(b) && QualifiedName(a, s) == QualifiedName(b, t)
    ensures a == b && s == t
  {
    var x, y := a + "." + s.text, b + "." + t.text;
    assert x == y;
    if |a| < |b| {
      FirstDotDiffers(a, s.text, b, t.text);
    } else if |b| < |a| {
      FirstDotDiffers(b, t.text, a, s.text);
    }
    assert a == x[..|a|] && b == y[..|b|];
    assert s.text == x[|a| + 1..] && t.text == y[|b| + 1..];
  }

  /** Server names as the configuration accepts them. */
  ghost predicate WellNamed(servers: seq<Server>) {
    && (forall i :: 0 <= i < |servers| ==> DotFree(servers[i].name))
    && (forall i, j :: 0 <= i < |servers| && 0 <= j < |servers| && servers[i].name == servers[j].name ==>
          servers[i] == servers[j])
  }

  /** Entries of one qualified name differ at most in their schema, whatever the remote servers list. */
  lemma SameNameSameTool(servers: seq<Server>, listings: seq<Listing>, a: Tool, b: Tool)
    requires |servers| == |listings| && WellNamed(servers)
    requires a in Entries(FoundAll(servers, listings)) && b in Entries(FoundAll(servers, listings))
    requires a.qualifiedName == b.qualifiedName
    ensures a == b.(schema := a.schema)
  {
    var s := EntriesAreOffered(servers, listings, a);
    var t := EntriesAreOffered(servers, listings, b);
    QualifiedNameIsInjective(s.name, a.name, t.name, b.name);
  }

  /** `catalog` was discovered from these servers. */
  ghost predicate Discovered(servers: seq<Server>, listings: seq<Listing>, catalog: seq<Tool>)
    requires |servers| == |listings|
  {
    forall tool :: tool in catalog ==> tool in Entries(FoundAll(servers, listings))
  }

  lemma ResultIsDiscovered(r: Catalog, servers: seq<Server>, listings: seq<Listing>, max: nat)
    requires |servers| == |listings| && IsCatalogOf(r, FoundAll(servers, listings), max)
    ensures Discovered(servers, listings, r.tools)
  {
  }

  /** One qualified name stands for one server and tool, whatever servers two catalogs were discovered from. */
  lemma NameStandsForOneTool(
    servers: seq<Server>, listings: seq<Listing>, a: Tool, servers': seq<Server>, listings': seq<Listing>, b: Tool)
    requires |servers| == |listings| && WellNamed(servers) && a in Entries(FoundAll(servers, listings))
    requires |servers'| == |listings'| && WellNamed(servers') && b in Entries(FoundAll(servers', listings'))
    requires a.qualifiedName == b.qualifiedName
    ensures a.server == b.server && a.name == b.name
  {
    var s := EntriesAreOffered(servers, listings, a);
    var t := EntriesAreOffered(servers', listings', b);
    QualifiedNameIsInjective(s.name, a.name, t.name, b.name);
  }

  /**
   * The catalog is discovered again when an approval is resolved, maybe from other servers, under other policies. An
   * approved request still goes to the server and tool it was planned for, or nowhere; and it goes there exactly when
   * its name is still listed, the tool still needs approval, and the arguments meet the first schema listed for it.
   */
  lemma ApprovalNeverDiverts(
    servers: seq<Server>, listings: seq<Listing>, catalog: seq<Tool>,
    servers': seq<Server>, listings': seq<Listing>, later: seq<Tool>,
    prior: set<Fingerprint>, remaining: int, check: Validator, ps: seq<Proposal>, c: Call)
    requires |servers| == |listings| && WellNamed(servers) && Discovered(servers, listings, catalog)
    requires |servers'| == |listings'| && WellNamed(servers') && Discovered(servers', listings', later)
    requires c in Asked(Verdicts(Rules(ByName(catalog), prior, remaining, check), ps))
    ensures var entry := FirstEntry(later, c.qualifiedName);
            ApprovedCall(later, c.qualifiedName, c.arguments, check) ==
              if entry.Some? && entry.value.policy == ApprovalRequired && check(entry.value.schema, c.arguments).None?
              then Some(c) else None
  {
    PlannedAreEligible(Rules(ByName(catalog), prior, remaining, check), ps, c);
    ByNameIsListed(catalog, c.qualifiedName);
    FirstEntryIsListed(later, c.qualifiedName);
    var entry := FirstEntry(later, c.qualifiedName);
    if entry.Some? {
      NameStandsForOneTool(servers, listings, ByName(catalog)[c.qualifiedName], servers', listings', entry.value);
    }
  }

  /** The policy that decides is the one its server has when the approval is resolved. */
  lemma CurrentPolicyDecides(
    servers: seq<Server>, listings: seq<Listing>, later: seq<Tool>, server: Server, tool: ToolName,
    arguments: Arguments, check: Validator)
    requires |servers| == |listings| && WellNamed(servers) && Discovered(servers, listings, later) && server in servers
    ensures ApprovedCall(later, QualifiedName(server.name, tool), arguments, check).Some? ==>
      tool in server.allowed && server.PolicyOf(tool) == ApprovalRequired
  {
    var name := QualifiedName(server.name, tool);
    FirstEntryIsListed(later, name);
    var entry := FirstEntry(later, name);
    if entry.Some? {
      var offering := EntriesAreOffered(servers, listings, entry.value);
      QualifiedNameIsInjective(offering.name, entry.value.name, server.name, tool);
    }
  }

  /** A server that lists a tool twice: the request is planned under the second schema and refused under the first. */
  lemma RepeatedToolIsRefused(
    server: Server, tool: ToolName, first: Schema, second: Schema, arguments: Arguments, check: Validator, max: nat)
    requires server.Active() && tool in server.allowed && server.PolicyOf(tool) == ApprovalRequired && max >= 2
    requires |first.json| <= MAX_SCHEMA_SIZE && |second.json| <= MAX_SCHEMA_SIZE
    requires check(first, arguments).Some? && check(second, arguments).None?
    ensures var listed := Tools([RemoteTool(tool, first), RemoteTool(tool, second)]);
            var catalog := [EntryFor(server, RemoteTool(tool, first)), EntryFor(server, RemoteTool(tool, second))];
            var name := QualifiedName(server.name, tool);
            var vs := Verdicts(Rules(ByName(catalog), {}, 1, check), [Proposal(Some(name), Some(arguments))]);
            && Take(Entries(FoundAll([server], [listed])), max) == catalog
            && Asked(vs) == [Call(name, server.name, tool, arguments)]
            && ApprovedCall(catalog, name, arguments, check) == None
  {
    var a, b := RemoteTool(tool, first), RemoteTool(tool, second);
    var catalog, name := [EntryFor(server, a), EntryFor(server, b)], QualifiedName(server.name, tool);
    TwoEntries(server, a, b);
    LastEntryWins(catalog, 1, name);
    OneVerdict(Rules(ByName(catalog), {}, 1, check), Proposal(Some(name), Some(arguments)));
  }

  lemma TwoEntries(server: Server, a: RemoteTool, b: RemoteTool)
    requires a.name in server.allowed && |a.schema.json| <= MAX_SCHEMA_SIZE
    requires b.name in server.allowed && |b.schema.json| <= MAX_SCHEMA_SIZE
    ensures Entries(FoundAll([server], [Tools([a, b])])) == [EntryFor(server, a), EntryFor(server, b)]
  {
    var x, y := Entry(EntryFor(server, a)), Entry(EntryFor(server, b));
    assert [a, b][..1] == [a] && [a][..0] == [];
    assert FoundIn(server, [a]) == FoundIn(server, []) + [x];
    assert FoundIn(server, [a, b]) == [x] + [y];
    FoundAllOne(server, Tools([a, b]));
    EntriesConcat([x], [y]);
    EntryAlone(x);
    EntryAlone(y);
  }

  lemma FoundAllOne(server: Server, listing: Listing)
    ensures FoundAll([server], [listing]) == FoundAt(server, listing)
  {
    assert [server][..0] == [] && [listing][..0] == [];
  }

  lemma EntryAlone(found: Found)
    requires found.Entry?
    ensures Entries([found]) == [found.tool]
  {
    assert [found][..0] == [];
  }

  // ----- Exactly what is found -----

  /** The entry of a tool that is allowed, with a schema not too large. Its policy is the operator's, or to deny. */
  ghost predicate EntryOf(server: Server, remote: RemoteTool, tool: Tool) {
    && remote.name in server.allowed && |remote.schema.json| <= 20000
    && tool.qualifiedName == ToolName(server.name + "." + remote.name.text)
    && tool.server == server.name && tool.name == remote.name && tool.schema == remote.schema
    && tool.policy == if remote.name in server.policies then server.policies[remote.name] else Deny
  }

  /** What one listed tool comes to. */
  ghost predicate FoundFor(server: Server, remote: RemoteTool, found: Found) {
    match found
    case Entry(tool) => EntryOf(server, remote, tool)
    case Trouble(problem) =>
      && remote.name in server.allowed && |remote.schema.json| > 20000
      && problem == SchemaTooLarge(server.name, remote.name)
  }

  lemma {:induction false} FoundInIff(server: Server, tools: seq<RemoteTool>, found: Found)
    ensures found in FoundIn(server, tools) <==>
            exists j :: 0 <= j < |tools| && FoundFor(server, tools[j], found)
  {
    if tools != [] {
      var n := |tools| - 1;
      var front := tools[..n];
      FoundInIff(server, front, found);
      assert forall j :: 0 <= j < n ==> front[j] == tools[j];
      assert found in FoundIn(server, tools) <==>
        found in FoundIn(server, front) || FoundFor(server, tools[n], found);
      if found in FoundIn(server, front) {
        var j :| 0 <= j < n && FoundFor(server, front[j], found);
        assert FoundFor(server, tools[j], found);
      }
    }
  }

  /** What one server's answer comes to. */
  ghost predicate FoundFrom(server: Server, listing: Listing, found: Found) {
    match listing
    case Failed(error) => found == Trouble(ServerFailed(server.name, error))
    case Tools(tools) => exists j :: 0 <= j < |tools| && FoundFor(server, tools[j], found)
  }

  /** Everything found is an entry or a problem of one of the listed tools, or of a server that failed, and nothing of
      the kind is passed over. */
  lemma {:induction false} FoundAllIff(servers: seq<Server>, listings: seq<Listing>, found: Found)
    requires |servers| == |listings|
    ensures found in FoundAll(servers, listings) <==>
            exists i :: 0 <= i < |servers| && FoundFrom(servers[i], listings[i], found)
  {
    if servers != [] {
      var n := |servers| - 1;
      var front, rest := servers[..n], listings[..n];
      FoundAllIff(front, rest, found);
      if listings[n].Tools? {
        FoundInIff(servers[n], listings[n].tools, found);
      }
      assert found in FoundAt(servers[n], listings[n]) <==> FoundFrom(servers[n], listings[n], found);
      assert forall i :: 0 <= i < n ==> front[i] == servers[i] && rest[i] == listings[i];
      if found in FoundAll(front, rest) {
        var i :| 0 <= i < n && FoundFrom(front[i], rest[i], found);
        assert FoundFrom(servers[i], listings[i], found);
      }
    }
  }

  lemma {:induction false} EntriesAndProblems(found: seq<Found>, tool: Tool, problem: Problem)
    ensures tool in Entries(found) <==> Entry(tool) in found
    ensures problem in Problems(found) <==> Trouble(problem) in found
  {
    if found != [] {
      var n := |found| - 1;
      EntriesAndProblems(found[..n], tool, problem);
      assert found == found[..n] + [found[n]];
    }
  }

  /** Exactly which tools can be in a catalog. */
  lemma EntriesIff(servers: seq<Server>, listings: seq<Listing>, tool: Tool)
    requires |servers| == |listings|
    ensures tool in Entries(FoundAll(servers, listings)) <==>
            exists i :: 0 <= i < |servers| && FoundFrom(servers[i], listings[i], Entry(tool))
  {
    EntriesAndProblems(FoundAll(servers, listings), tool, ServerFailed("", ""));
    FoundAllIff(servers, listings, Entry(tool));
  }

  lemma {:induction false} ActiveServersIff(servers: seq<Server>, server: Server)
    ensures server in ActiveServers(servers) <==> server in servers && server.enabled && server.allowed != []
  {
    if servers != [] {
      var n := |servers| - 1;
      ActiveServersIff(servers[..n], server);
      assert servers == servers[..n] + [servers[n]];
    }
  }

  /** Without a policy of its own a tool is never called, and no approval for it is ever asked. */
  lemma UnconfiguredIsNeverPlanned(
    servers: seq<Server>, listings: seq<Listing>, catalog: seq<Tool>, prior: set<Fingerprint>, remaining: int,
    check: Validator, ps: seq<Proposal>, c: Call)
    returns (server: Server)
    requires |servers| == |listings| && Discovered(servers, listings, catalog)
    requires var vs := Verdicts(Rules(ByName(catalog), prior, remaining, check), ps);
             c in Accepted(vs) || c in Asked(vs)
    ensures server in servers && server.name == c.server
    ensures c.tool in server.allowed && c.tool in server.policies
    ensures var vs := Verdicts(Rules(ByName(catalog), prior, remaining, check), ps);
            server.policies[c.tool] == if c in Accepted(vs) then Auto else ApprovalRequired
  {
    var rules := Rules(ByName(catalog), prior, remaining, check);
    PlannedAreEligible(rules, ps, c);
    ByNameIsListed(catalog, c.qualifiedName);
    server := EntriesAreOffered(servers, listings, rules.byName[c.qualifiedName]);
  }
}
