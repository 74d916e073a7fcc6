/**
 * The names tools travel under: which client tool answers to which upstream name on the way back, and the
 * carrying of client tools outside the upstream's set under `mcp__client__` names.
 */
module ToolNames {
  import opened Options
  import opened ReverseMap

  /** ASCII lower case, which is what tool names are made of. */
  function LowerChar(c: char): char {
    if 'A' <= c <= 'Z' then c - 'A' + 'a' else c
  }

  function Lower(s: string): (r: string)
    ensures |r| == |s|
  {
    if s == "" then "" else [LowerChar(s[0])] + Lower(s[1..])
  }

  /** One entry of the tool map, in the order its names were first set. */
  datatype Declared = Declared(clientName: string, mapping: Mapping)

  predicate Identity(d: Declared) {
    Lower(d.clientName) == Lower(d.mapping.ccTool)
  }

  /**
   * The client tool an upstream name goes back to: the last declared under that very name, whatever the case; when
   * there is none, the first with the highest score that is not zero.
   */
  predicate Claims(tools: seq<Declared>, ccTool: string, k: nat) {
    && k < |tools| && tools[k].mapping.ccTool == ccTool
    && if Identity(tools[k])
          then forall j :: k < j < |tools| && tools[j].mapping.ccTool == ccTool ==> !Identity(tools[j])
       else
         && tools[k].mapping.score != 0
         && (forall j :: 0 <= j < |tools| && tools[j].mapping.ccTool == ccTool ==>
               !Identity(tools[j]) && tools[j].mapping.score <= tools[k].mapping.score)
         && (forall j :: 0 <= j < k && tools[j].mapping.ccTool == ccTool ==>
               tools[j].mapping.score < tools[k].mapping.score)
  }

  /** A lookup with only true inverses, and one for every upstream name that has a claim. */
  ghost predicate IsReverse(tools: seq<Declared>, lookup: Lookup) {
    && (forall ccTool <- lookup :: exists k: nat ::
          Claims(tools, ccTool, k) && lookup[ccTool] == Entry(tools[k].clientName, tools[k].mapping))
    && (forall k :: 0 <= k < |tools| && (Identity(tools[k]) || tools[k].mapping.score != 0) ==>
          tools[k].mapping.ccTool in lookup)
  }

  /** A lookup of identity claims: each name in it is claimed, by `from`, as the last of its kind. */
  ghost predicate IdentitiesOf(tools: seq<Declared>, lookup: Lookup, from: map<string, nat>) {
    && lookup.Keys == from.Keys
    && (forall c <- from :: LastIdentity(tools, c, from[c]) && lookup[c] == EntryOf(tools[from[c]]))
    && (forall j :: 0 <= j < |tools| && Identity(tools[j]) ==> tools[j].mapping.ccTool in lookup)
  }

  /** One more declaration that is no identity claim changes nothing; one that is takes its name. */
  lemma IdentitiesMore(tools: seq<Declared>, d: Declared, lookup: Lookup, from: map<string, nat>)
    requires IdentitiesOf(tools, lookup, from)
    ensures if Identity(d) then IdentitiesOf(tools + [d], lookup[d.mapping.ccTool := EntryOf(d)],
            from[d.mapping.ccTool := |tools|])
            else IdentitiesOf(tools + [d], lookup, from)
  {
    hide Identity;
    var all := tools + [d];
    forall c | c in from && !(Identity(d) && d.mapping.ccTool == c) ensures LastIdentity(all, c, from[c]) {
      assert all[from[c]] == tools[from[c]];
    }
  }

  method ClaimIdentities(tools: seq<Declared>) returns (lookup: Lookup, ghost from: map<string, nat>)
    ensures IdentitiesOf(tools, lookup, from)
  {
    lookup, from := map[], map[];
    for n := 0 to |tools|
      invariant IdentitiesOf(tools[..n], lookup, from)
    {
      hide IdentitiesOf;
      var d := tools[n];
      IdentitiesMore(tools[..n], d, lookup, from);
      assert tools[..n + 1] == tools[..n] + [d];
      if Identity(d) {
        lookup := lookup[d.mapping.ccTool := Entry(d.clientName, d.mapping)];
        from := from[d.mapping.ccTool := n];
      }
    }
    assert tools[..|tools|] == tools;
  }

  /** The identity claims, and for every other name the first declaration with the best score so far. */
  ghost predicate BestsOf(tools: seq<Declared>, claimed: set<string>, lookup: Lookup, from: map<string, nat>) {
    && claimed <= lookup.Keys == from.Keys
    && (forall c <- from :: c !in claimed ==> FirstBest(tools, c, from[c]) && lookup[c] == EntryOf(tools[from[c]]))
    && (forall j :: 0 <= j < |tools| && tools[j].mapping.score != 0 ==> tools[j].mapping.ccTool in lookup)
  }

  predicate Improves(d: Declared, claimed: set<string>, lookup: Lookup) {
    && !Identity(d) && d.mapping.ccTool !in claimed && d.mapping.score != 0
    && (d.mapping.ccTool !in lookup || d.mapping.score > lookup[d.mapping.ccTool].mapping.score)
  }

  lemma BestsMore(tools: seq<Declared>, d: Declared, claimed: set<string>, lookup: Lookup, from: map<string, nat>)
    requires BestsOf(tools, claimed, lookup, from) && (Identity(d) ==> d.mapping.ccTool in claimed)
    ensures if Improves(d, claimed, lookup)
            then BestsOf(tools + [d], claimed, lookup[d.mapping.ccTool := EntryOf(d)],
                from[d.mapping.ccTool := |tools|])
            else BestsOf(tools + [d], claimed, lookup, from)
  {
    hide Identity;
    var all, c := tools + [d], d.mapping.ccTool;
    forall b | b in from && b !in claimed && !(Improves(d, claimed, lookup) && b == c)
        ensures FirstBest(all, b, from[b]) {
      assert FirstBest(tools, b, from[b]) && all[from[b]] == tools[from[b]];
    }
    if Improves(d, claimed, lookup) {
      forall j | 0 <= j < |tools| && all[j].mapping.ccTool == c ensures all[j].mapping.score < d.mapping.score {
        assert all[j] == tools[j];
        if c in from { assert FirstBest(tools, c, from[c]); }
      }
      assert FirstBest(all, c, |tools|);
    }
  }

  /** Identity claims first, the last one standing; then the rest by score, never over an identity. */
  method BuildReverseLookup(tools: seq<Declared>) returns (lookup: Lookup)
    ensures IsReverse(tools, lookup)
  {
    ghost var from: map<string, nat>;
    lookup, from := ClaimIdentities(tools);
    var identityClaimed := lookup.Keys;
    ghost var identities, first := lookup, from;
    for n := 0 to |tools|
      invariant BestsOf(tools[..n], identityClaimed, lookup, from)
      invariant forall c <- identityClaimed :: lookup[c] == identities[c] && from[c] == first[c]
    {
      hide BestsOf, IdentitiesOf, Lower;
      var d := tools[n];
      IdentityIsClaimed(tools, n, identities, first);
      BestsMore(tools[..n], d, identityClaimed, lookup, from);
      BestsKeys(tools[..n], identityClaimed, lookup, from);
      assert tools[..n + 1] == tools[..n] + [d];
      if Improves(d, identityClaimed, lookup) {
        lookup := lookup[d.mapping.ccTool := Entry(d.clientName, d.mapping)];
        from := from[d.mapping.ccTool := n];
      }
      BestsKeys(tools[..n + 1], identityClaimed, lookup, from);
    }
    assert tools[..|tools|] == tools;
    BothAreReverse(tools, identities, first, lookup, from);
  }

  lemma BestsKeys(tools: seq<Declared>, claimed: set<string>, lookup: Lookup, from: map<string, nat>)
    requires BestsOf(tools, claimed, lookup, from)
    ensures claimed <= lookup.Keys == from.Keys
  {
  }

  lemma IdentityIsClaimed(tools: seq<Declared>, n: nat, identities: Lookup, first: map<string, nat>)
    requires n < |tools| && IdentitiesOf(tools, identities, first)
    ensures Identity(tools[n]) ==> tools[n].mapping.ccTool in identities
  {
  }

  lemma BothAreReverse(tools: seq<Declared>, identities: Lookup, first: map<string, nat>, lookup: Lookup,
      from: map<string, nat>)
    requires IdentitiesOf(tools, identities, first) && BestsOf(tools, identities.Keys, lookup, from)
    requires forall c <- identities :: lookup[c] == identities[c] && from[c] == first[c]
    ensures IsReverse(tools, lookup)
  {
    hide Lower, Identity;
    forall c | c in lookup
      ensures exists k: nat :: Claims(tools, c, k) && lookup[c] == Entry(tools[k].clientName, tools[k].mapping) {
      if c !in identities {
        assert FirstBest(tools, c, from[c]);
        forall j | 0 <= j < |tools| && tools[j].mapping.ccTool == c ensures !Identity(tools[j]) {}
      }
      assert Claims(tools, c, from[c]);
    }
  }

  function EntryOf(d: Declared): Entry {
    Entry(d.clientName, d.mapping)
  }

  predicate LastIdentity(tools: seq<Declared>, ccTool: string, k: nat) {
    && k < |tools| && tools[k].mapping.ccTool == ccTool && Identity(tools[k])
    && forall j :: k < j < |tools| && tools[j].mapping.ccTool == ccTool ==> !Identity(tools[j])
  }

  predicate FirstBest(tools: seq<Declared>, ccTool: string, k: nat) {
    && k < |tools| && tools[k].mapping.ccTool == ccTool && !Identity(tools[k]) && tools[k].mapping.score != 0
    && (forall j :: 0 <= j < |tools| && tools[j].mapping.ccTool == ccTool ==>
          tools[j].mapping.score <= tools[k].mapping.score)
    && (forall j :: 0 <= j < k && tools[j].mapping.ccTool == ccTool ==> tools[j].mapping.score < tools[k].mapping.score)
  }

  /** No two positions claim the same name, so a reverse lookup is the only one there is. */
  lemma ReverseIsUnique(tools: seq<Declared>, a: Lookup, b: Lookup)
    requires IsReverse(tools, a) && IsReverse(tools, b)
    ensures a == b
  {
    hide Claims;
    forall c | c in a ensures c in b && a[c] == b[c] { ReverseAgrees(tools, a, b, c); }
    forall c | c in b ensures c in a { ReverseAgrees(tools, b, a, c); }
  }

  lemma ClaimIsUnique(tools: seq<Declared>, c: string, k: nat, l: nat)
    requires Claims(tools, c, k) && Claims(tools, c, l)
    ensures k == l
  {
    hide Lower, Identity;
  }

  lemma ReverseAgrees(tools: seq<Declared>, a: Lookup, b: Lookup, c: string)
    requires IsReverse(tools, a) && IsReverse(tools, b) && c in a
    ensures c in b && a[c] == b[c]
  {
    var k: nat :| Claims(tools, c, k) && a[c] == Entry(tools[k].clientName, tools[k].mapping);
    var l: nat :| Claims(tools, c, l) && b[c] == Entry(tools[l].clientName, tools[l].mapping);
    ClaimIsUnique(tools, c, k, l);
  }

  // Dropping later tools under a name already seen.

  /**
   * `anthropic` tools are defined by the provider; `custom` is the type left out or "custom"; `fields` are the
   * properties its input schema names.
   */
  datatype Tool = Tool(name: string, custom: bool, advertisable: bool, anthropic: bool, fields: seq<string>)

  predicate Named(tools: seq<Tool>, name: string) {
    exists t :: t in tools && t.name == name
  }

  function Deduped(tools: seq<Tool>): seq<Tool> {
    if tools == [] then []
    else
      var before, last := tools[..|tools| - 1], tools[|tools| - 1];
      if last.name != "" && Named(before, last.name) then Deduped(before) else Deduped(before) + [last]
  }

  method DedupeToolsByName(tools: seq<Tool>) returns (out: seq<Tool>)
    ensures out == Deduped(tools)
  {
    var seen: set<string> := {};
    out := [];
    for n := 0 to |tools|
      invariant out == Deduped(tools[..n])
      invariant forall name :: name in seen <==> name != "" && Named(tools[..n], name)
    {
      assert tools[..n + 1][..n] == tools[..n] && tools[..n + 1] == tools[..n] + [tools[n]];
      assert forall name :: Named(tools[..n + 1], name) <==> Named(tools[..n], name) || tools[n].name == name by {
        NamedOneMore(tools[..n], tools[n]);
      }
      var t := tools[n];
      if t.name == "" || t.name !in seen {
        if t.name != "" { seen := seen + {t.name}; }
        out := out + [t];
      }
    }
    assert tools[..|tools|] == tools;
  }

  lemma NamedOneMore(tools: seq<Tool>, t: Tool)
    ensures forall name :: Named(tools + [t], name) <==> Named(tools, name) || t.name == name
  {
    forall name ensures Named(tools + [t], name) <==> Named(tools, name) || t.name == name {
      if Named(tools, name) {
        var u :| u in tools && u.name == name;
        assert u in tools + [t];
      }
      assert t in tools + [t];
    }
  }

  predicate DistinctNames(tools: seq<Tool>) {
    forall j, k :: 0 <= j < k < |tools| && tools[j].name != "" ==> tools[j].name != tools[k].name
  }

  lemma {:induction false} DedupedNames(tools: seq<Tool>)
    ensures forall name :: Named(Deduped(tools), name) <==> Named(tools, name)
  {
    hide Named;
    if tools != [] {
      var before, last := tools[..|tools| - 1], tools[|tools| - 1];
      DedupedNames(before);
      assert tools == before + [last];
      NamedOneMore(before, last);
      NamedOneMore(Deduped(before), last);
    }
  }

  lemma {:induction false} DedupedIsDistinct(tools: seq<Tool>)
    ensures DistinctNames(Deduped(tools))
  {
    if tools != [] {
      var before, last := tools[..|tools| - 1], tools[|tools| - 1];
      DedupedIsDistinct(before);
      DedupedNames(before);
      if last.name == "" || !Named(before, last.name) { DistinctOneMore(Deduped(before), last); }
    }
  }

  lemma DistinctOneMore(tools: seq<Tool>, t: Tool)
    requires DistinctNames(tools) && (t.name == "" || !Named(tools, t.name))
    ensures DistinctNames(tools + [t])
  {
    forall j, k | 0 <= j < k < |tools + [t]| && (tools + [t])[j].name != ""
      ensures (tools + [t])[j].name != (tools + [t])[k].name
    {
      if k == |tools| { assert tools[j] in tools; }
    }
  }

  /** `t` is declared, and first under its name if it has one. */
  predicate IsFirst(tools: seq<Tool>, t: Tool) {
    exists k :: 0 <= k < |tools| && tools[k] == t && (t.name != "" ==> !Named(tools[..k], t.name))
  }

  lemma FirstStays(tools: seq<Tool>, last: Tool, t: Tool)
    requires IsFirst(tools, t)
    ensures IsFirst(tools + [last], t)
  {
    hide Named;
    var k :| 0 <= k < |tools| && tools[k] == t && (t.name != "" ==> !Named(tools[..k], t.name));
    assert (tools + [last])[k] == t && (tools + [last])[..k] == tools[..k];
  }

  lemma LastIsFirst(tools: seq<Tool>, last: Tool)
    requires last.name != "" ==> !Named(tools, last.name)
    ensures IsFirst(tools + [last], last)
  {
    hide Named;
    assert (tools + [last])[|tools|] == last && (tools + [last])[..|tools|] == tools;
  }

  lemma {:induction false} DedupedAreFirst(tools: seq<Tool>)
    ensures forall t <- Deduped(tools) :: IsFirst(tools, t)
  {
    hide Named, IsFirst;
    if tools != [] {
      var before, last := tools[..|tools| - 1], tools[|tools| - 1];
      DedupedAreFirst(before);
      assert tools == before + [last];
      forall t | t in Deduped(tools) ensures IsFirst(tools, t) {
        if t in Deduped(before) { FirstStays(before, last, t); } else { LastIsFirst(before, last); }
      }
    }
  }

  /** No name goes out twice, none is lost, and the tool that keeps a name is the first declared under it. */
  lemma DedupedIsFirst(tools: seq<Tool>)
    ensures DistinctNames(Deduped(tools))
    ensures forall name :: Named(Deduped(tools), name) <==> Named(tools, name)
    ensures forall t <- Deduped(tools) :: IsFirst(tools, t)
  {
    DedupedIsDistinct(tools);
    DedupedNames(tools);
    DedupedAreFirst(tools);
  }

  // Carrying the tools a client declares.

  const CLIENT_TOOL_MCP_PREFIX := "mcp__client__"

  /**
   * The bundled names and tables: `templates` are the advertisable definitions, `aliases` the cross-client tool map.
   */
  datatype Bundle = Bundle(native: set<string>, unadvertisable: set<string>, templates: seq<Tool>,
                           aliases: map<string, Mapping>, validName: string -> bool)

  predicate IsMcpToolName(name: string) {
    |name| >= 5 && name[..5] == "mcp__"
  }

  /** Every alias maps onto one of the provider's own tools, never onto an MCP name. */
  ghost predicate BundleLawful(b: Bundle) {
    forall name <- b.aliases :: !IsMcpToolName(b.aliases[name].ccTool)
  }

  function WireName(name: string): string {
    CLIENT_TOOL_MCP_PREFIX + name
  }

  /** Under its own name and with its input untouched: `back` 0 stands for the identity translation. */
  function SameName(ccTool: string): Mapping {
    Mapping(ccTool, Some(0), [], 10)
  }

  /** How a tool of the provider's set, an MCP tool or an aliased tool is mapped; None for the rest. */
  function KnownMapping(b: Bundle, name: string): Option<Mapping> {
    if name in b.native || IsMcpToolName(name) then Some(SameName(name))
    else if Lower(name) in b.aliases then Some(b.aliases[Lower(name)])
    else None
  }

  /** Whether a declaration names one of the provider's own tools. */
  predicate NamesCCTool(b: Bundle, tools: seq<Tool>) {
    exists t :: t in tools && t.name != "" && !IsMcpToolName(t.name) &&
      ((exists u :: u in b.templates && !IsMcpToolName(u.name) && Lower(u.name) == Lower(t.name))
       || (t.name in b.unadvertisable && t.anthropic))
  }

  /** What it takes to go out under an MCP name. */
  predicate Carriable(b: Bundle, tools: seq<Tool>, t: Tool) {
    t.name != "" && t.custom && t.advertisable && b.validName(WireName(t.name)) && !Named(tools, WireName(t.name))
  }

  /** Setting a name already in the map keeps its place. */
  function SetTool(tools: seq<Declared>, name: string, m: Mapping): seq<Declared> {
    if tools == [] then [Declared(name, m)]
    else if tools[0].clientName == name then [Declared(name, m)] + tools[1..]
    else [tools[0]] + SetTool(tools[1..], name, m)
  }

  function ToolNamed(tools: seq<Declared>, name: string): Option<Mapping> {
    if tools == [] then None else if tools[0].clientName == name then Some(tools[0].mapping)
    else ToolNamed(tools[1..], name)
  }

  predicate DistinctTools(tools: seq<Declared>) {
    forall j, k :: 0 <= j < k < |tools| ==> tools[j].clientName != tools[k].clientName
  }

  lemma {:induction false} SetToolSets(tools: seq<Declared>, name: string, m: Mapping)
    ensures forall n :: ToolNamed(SetTool(tools, name, m), n) == if n == name then Some(m) else ToolNamed(tools, n)
    ensures DistinctTools(tools) ==> DistinctTools(SetTool(tools, name, m))
    ensures forall d <- SetTool(tools, name, m) :: d in tools || d == Declared(name, m)
  {
    if tools != [] && tools[0].clientName != name {
      SetToolSets(tools[1..], name, m);
      if DistinctTools(tools) {
        var after := SetTool(tools, name, m);
        forall j, k | 0 <= j < k < |after| ensures after[j].clientName != after[k].clientName {
          if j == 0 {
            assert after[k] == after[1..][k - 1] && after[k] in SetTool(tools[1..], name, m);
          } else {
            assert after[j] == after[1..][j - 1] && after[k] == after[1..][k - 1];
          }
        }
      }
    }
  }

  datatype ToolMap =
    | Carried(tools: seq<Declared>, shaped: seq<Tool>, claimed: set<string>)
    | Unsupported(names: seq<string>)

  /** How a tool is mapped once the declaration names one of the provider's: as known, or under its MCP name. */
  function CarriedMapping(b: Bundle, name: string): Mapping {
    var known := KnownMapping(b, name);
    if known.Some? then known.value else SameName(WireName(name))
  }

  function Uncarried(b: Bundle, all: seq<Tool>, tools: seq<Tool>): seq<string> {
    if tools == [] then []
    else
      var last := tools[|tools| - 1];
      Uncarried(b, all, tools[..|tools| - 1])
      + if KnownMapping(b, last.name).None? && !Carriable(b, all, last) then [last.name] else []
  }

  lemma {:induction false} UncarriedNames(b: Bundle, all: seq<Tool>, tools: seq<Tool>, t: Tool)
    requires t in tools && KnownMapping(b, t.name).None? && Uncarried(b, all, tools) == []
    ensures Carriable(b, all, t)
  {
    hide KnownMapping, Carriable;
    if t != tools[|tools| - 1] {
      assert t in tools[..|tools| - 1];
      UncarriedNames(b, all, tools[..|tools| - 1], t);
    }
  }

  /** A tool map that carries every tool of a declaration, and nothing else. */
  ghost predicate CarriesAll(b: Bundle, tools: seq<Tool>, r: ToolMap) {
    && r.Carried? && DistinctTools(r.tools)
    && (forall t <- tools :: ToolNamed(r.tools, t.name) == Some(CarriedMapping(b, t.name)))
    && (forall d <- r.tools :: Named(tools, d.clientName) && d.mapping == CarriedMapping(b, d.clientName))
    && (forall s <- r.shaped ::
          exists t :: t in tools && KnownMapping(b, t.name).None? && s == t.(name := WireName(t.name)))
    && (forall t <- tools :: KnownMapping(b, t.name).None? ==> t.(name := WireName(t.name)) in r.shaped)
  }

  // The tool map of any declaration.

  /** Where a tool that nothing else can carry goes, one after the other. */
  const CC_FALLBACK_TOOLS: seq<string> := ["Bash", "Read", "Grep", "Glob", "WebSearch", "WebFetch"]

  function Claimed(b: Bundle, tools: seq<Tool>): set<string> {
    set t | t in tools && KnownMapping(b, t.name).Some? :: KnownMapping(b, t.name).value.ccTool
  }

  function Without(names: seq<string>, claimed: set<string>): (r: seq<string>)
    ensures forall name :: name in r <==> name in names && name !in claimed
  {
    if names == [] then []
    else if names[0] in claimed then Without(names[1..], claimed)
    else [names[0]] + Without(names[1..], claimed)
  }

  /** The fallback tools the declaration does not use itself; all of them when it uses every one. */
  function Pool(claimed: set<string>): (r: seq<string>)
    ensures r != [] && forall name <- r :: name in CC_FALLBACK_TOOLS
  {
    var free := Without(CC_FALLBACK_TOOLS, claimed);
    if free == [] then CC_FALLBACK_TOOLS else free
  }

  /** How many of the first `n` tools are unknown, each declaration counted. */
  function Unknowns(b: Bundle, tools: seq<Tool>, n: nat): nat
    requires n <= |tools|
  {
    if n == 0 then 0 else Unknowns(b, tools, n - 1) + if KnownMapping(b, tools[n - 1].name).None? then 1 else 0
  }

  /** With no way back, and a score that never claims one. */
  function FallbackMapping(b: Bundle, tools: seq<Tool>, i: nat): Mapping
    requires i < |tools|
  {
    var pool := Pool(Claimed(b, tools));
    Mapping(pool[Unknowns(b, tools, i) % |pool|], None, [], 0)
  }

  /**
   * What one declaration puts in the map: as known, with the fields of its schema when only those tools are kept
   * (`hybrid`); any other under its MCP name beside the provider's tools, and on a fallback tool without them.
   */
  function SentAs(b: Bundle, hybrid: bool, tools: seq<Tool>, i: nat): Option<Mapping>
    requires i < |tools|
  {
    var known := KnownMapping(b, tools[i].name);
    if known.Some? then Some(if hybrid then known.value.(fields := tools[i].fields) else known.value)
    else if hybrid then None
    else if NamesCCTool(b, tools) then Some(SameName(WireName(tools[i].name)))
    else Some(FallbackMapping(b, tools, i))
  }

  /** The last of the first `n` declarations under a name. */
  function LastSent(b: Bundle, hybrid: bool, tools: seq<Tool>, n: nat, name: string): Option<Mapping>
    requires n <= |tools|
  {
    if n == 0 then None
    else if tools[n - 1].name == name && SentAs(b, hybrid, tools, n - 1).Some? then SentAs(b, hybrid, tools, n - 1)
    else LastSent(b, hybrid, tools, n - 1, name)
  }

  /** The map with `m` of the known names' declarations in it, and `n` of the others'. */
  ghost predicate MapsUpTo(b: Bundle, hybrid: bool, tools: seq<Tool>, m: nat, n: nat, active: seq<Declared>)
    requires m <= |tools| && n <= |tools|
  {
    DistinctTools(active)
    && forall name :: ToolNamed(active, name)
                      == LastSent(b, hybrid, tools, if KnownMapping(b, name).Some? then m else n, name)
  }

  /** A tool map that holds, under each name, what its last declaration puts there. */
  ghost predicate MapsAll(b: Bundle, hybrid: bool, tools: seq<Tool>, r: ToolMap) {
    && r.Carried? && DistinctTools(r.tools) && r.claimed == Claimed(b, tools)
    && (forall name :: ToolNamed(r.tools, name) == LastSent(b, hybrid, tools, |tools|, name))
    && (hybrid || !NamesCCTool(b, tools) ==> r.shaped == [])
  }

  lemma MapsNothing(b: Bundle, hybrid: bool, tools: seq<Tool>)
    ensures MapsUpTo(b, hybrid, tools, 0, 0, [])
  {
  }

  lemma LastSentMore(b: Bundle, hybrid: bool, tools: seq<Tool>, n: nat, name: string)
    requires n < |tools|
    ensures var m := SentAs(b, hybrid, tools, n);
            LastSent(b, hybrid, tools, n + 1, name)
            == if tools[n].name == name && m.Some? then m else LastSent(b, hybrid, tools, n, name)
    ensures LastSent(b, hybrid, tools, 0, name).None?
  {
    hide SentAs;
  }

  lemma KnownIsSent(b: Bundle, hybrid: bool, tools: seq<Tool>, n: nat)
    requires n < |tools| && KnownMapping(b, tools[n].name).Some?
    ensures SentAs(b, hybrid, tools, n).Some?
  {
  }

  lemma KnownMore(b: Bundle, hybrid: bool, tools: seq<Tool>, n: nat, active: seq<Declared>)
    requires n < |tools| && MapsUpTo(b, hybrid, tools, n, 0, active)
    ensures KnownMapping(b, tools[n].name).None? ==> MapsUpTo(b, hybrid, tools, n + 1, 0, active)
    ensures KnownMapping(b, tools[n].name).Some? ==>
              MapsUpTo(b, hybrid, tools, n + 1, 0, SetTool(active, tools[n].name, SentAs(b, hybrid, tools, n).value))
  {
    hide KnownMapping, SentAs, LastSent, SetTool, ToolNamed;
    var after := active;
    if KnownMapping(b, tools[n].name).Some? {
      KnownIsSent(b, hybrid, tools, n);
      after := SetTool(active, tools[n].name, SentAs(b, hybrid, tools, n).value);
      SetToolSets(active, tools[n].name, SentAs(b, hybrid, tools, n).value);
    }
    forall name
      ensures ToolNamed(after, name)
              == LastSent(b, hybrid, tools, if KnownMapping(b, name).Some? then n + 1 else 0, name)
    {
      LastSentMore(b, hybrid, tools, n, name);
    }
  }

  lemma UnknownMore(b: Bundle, hybrid: bool, tools: seq<Tool>, n: nat, active: seq<Declared>)
    requires n < |tools| && MapsUpTo(b, hybrid, tools, |tools|, n, active)
    ensures var m := SentAs(b, hybrid, tools, n);
            if KnownMapping(b, tools[n].name).Some? || m.None? then MapsUpTo(b, hybrid, tools, |tools|, n + 1, active)
            else MapsUpTo(b, hybrid, tools, |tools|, n + 1, SetTool(active, tools[n].name, m.value))
  {
    hide KnownMapping, SentAs, LastSent, SetTool, ToolNamed;
    var m, after := SentAs(b, hybrid, tools, n), active;
    if KnownMapping(b, tools[n].name).None? && m.Some? {
      after := SetTool(active, tools[n].name, m.value);
      SetToolSets(active, tools[n].name, m.value);
    }
    forall name
      ensures ToolNamed(after, name)
              == LastSent(b, hybrid, tools, if KnownMapping(b, name).Some? then |tools| else n + 1, name)
    {
      LastSentMore(b, hybrid, tools, n, name);
    }
  }

  /** The tools of the provider's set, MCP tools and aliased tools, in the order they are declared. */
  method MapKnownTools(b: Bundle, hybrid: bool, tools: seq<Tool>) returns (active: seq<Declared>, claimed: set<string>)
    ensures MapsUpTo(b, hybrid, tools, |tools|, 0, active)
    ensures claimed == Claimed(b, tools)
  {
    hide MapsUpTo, KnownMapping, SetTool, NamesCCTool, FallbackMapping;
    active, claimed := [], {};
    MapsNothing(b, hybrid, tools);
    for n := 0 to |tools|
      invariant MapsUpTo(b, hybrid, tools, n, 0, active)
      invariant claimed == Claimed(b, tools[..n])
    {
      var t := tools[n];
      assert tools[..n + 1] == tools[..n] + [t];
      KnownMore(b, hybrid, tools, n, active);
      var known := KnownMapping(b, t.name);
      if known.Some? {
        active := SetTool(active, t.name, if hybrid then known.value.(fields := t.fields) else known.value);
        claimed := claimed + {known.value.ccTool};
      }
    }
    assert tools[..|tools|] == tools;
  }

  /** Beside the provider's tools: each unknown tool under its MCP name, and those that cannot be carried. */
  method CarryTools(b: Bundle, tools: seq<Tool>, known: seq<Declared>)
    returns (active: seq<Declared>, shaped: seq<Tool>, uncarried: seq<string>)
    requires NamesCCTool(b, tools) && MapsUpTo(b, false, tools, |tools|, 0, known)
    ensures uncarried == Uncarried(b, tools, tools)
    ensures uncarried == [] ==> MapsUpTo(b, false, tools, |tools|, |tools|, active) && Shapes(b, tools, shaped)
  {
    hide MapsUpTo, KnownMapping, SetTool, Carriable, NamesCCTool;
    active, shaped, uncarried := known, [], [];
    for n := 0 to |tools|
      invariant uncarried == Uncarried(b, tools, tools[..n])
      invariant uncarried == [] ==> MapsUpTo(b, false, tools, |tools|, n, active) && Shapes(b, tools[..n], shaped)
    {
      var t := tools[n];
      assert tools[..n + 1] == tools[..n] + [t] && tools[..n + 1][..n] == tools[..n];
      if uncarried == [] { UnknownMore(b, false, tools, n, active); }
      if KnownMapping(b, t.name).None? {
        if Carriable(b, tools, t) {
          active := SetTool(active, t.name, SameName(WireName(t.name)));
          shaped := shaped + [t.(name := WireName(t.name))];
        } else {
          uncarried := uncarried + [t.name];
        }
      }
    }
    assert tools[..|tools|] == tools;
  }

  /** Every unknown tool's own definition, renamed, and nothing else. */
  ghost predicate Shapes(b: Bundle, tools: seq<Tool>, shaped: seq<Tool>) {
    && (forall s <- shaped ::
          exists t :: t in tools && KnownMapping(b, t.name).None? && s == t.(name := WireName(t.name)))
    && (forall t <- tools :: KnownMapping(b, t.name).None? ==> t.(name := WireName(t.name)) in shaped)
  }

  /** Without them: each unknown tool on the next fallback tool, round and round. */
  method DistributeTools(b: Bundle, tools: seq<Tool>, claimed: set<string>, known: seq<Declared>)
      returns (active: seq<Declared>)
    requires !NamesCCTool(b, tools) && claimed == Claimed(b, tools) && MapsUpTo(b, false, tools, |tools|, 0, known)
    ensures MapsUpTo(b, false, tools, |tools|, |tools|, active)
  {
    hide MapsUpTo, KnownMapping, SetTool, NamesCCTool, Pool;
    active := known;
    var unmapped := 0;
    for n := 0 to |tools|
      invariant unmapped == Unknowns(b, tools, n) && MapsUpTo(b, false, tools, |tools|, n, active)
    {
      var t := tools[n];
      UnknownMore(b, false, tools, n, active);
      if KnownMapping(b, t.name).None? {
        unmapped := unmapped + 1;
        var pool := Pool(claimed);
        active := SetTool(active, t.name, Mapping(pool[(unmapped - 1) % |pool|], None, [], 0));
      }
    }
  }

  /**
   * The tool map of a declaration: known tools first. Of the others, hybrid mode keeps none; beside one of the
   * provider's tools each goes under its MCP name, and one that cannot be carried fails the whole request, with every
   * such tool named; without them each goes on a fallback tool.
   */
  method MapTools(b: Bundle, tools: seq<Tool>, hybrid: bool) returns (r: ToolMap)
    ensures if !hybrid && NamesCCTool(b, tools) && Uncarried(b, tools, tools) != []
            then r == Unsupported(Uncarried(b, tools, tools)) else MapsAll(b, hybrid, tools, r)
    ensures !hybrid && NamesCCTool(b, tools) && Uncarried(b, tools, tools) == [] ==> CarriesAll(b, tools, r)
  {
    hide MapsUpTo, KnownMapping, NamesCCTool, CarriesAll;
    var active, claimed := MapKnownTools(b, hybrid, tools);
    var shaped: seq<Tool> := [];
    if hybrid {
      NoneBeside(b, tools, |tools|, active);
    } else if NamesCCTool(b, tools) {
      var uncarried;
      active, shaped, uncarried := CarryTools(b, tools, active);
      if uncarried != [] { return Unsupported(uncarried); }
    } else {
      active := DistributeTools(b, tools, claimed, active);
    }
    r := Carried(active, shaped, claimed);
    UpToIsAll(b, hybrid, tools, active);
    if !hybrid && NamesCCTool(b, tools) { AllAreCarried(b, tools, r); }
  }

  lemma {:induction false} NoneBeside(b: Bundle, tools: seq<Tool>, n: nat, active: seq<Declared>)
    requires n <= |tools| && MapsUpTo(b, true, tools, |tools|, 0, active)
    ensures MapsUpTo(b, true, tools, |tools|, n, active)
  {
    if n > 0 {
      NoneBeside(b, tools, n - 1, active);
      hide KnownMapping, MapsUpTo;
      UnknownMore(b, true, tools, n - 1, active);
    }
  }

  lemma UpToIsAll(b: Bundle, hybrid: bool, tools: seq<Tool>, active: seq<Declared>)
    requires MapsUpTo(b, hybrid, tools, |tools|, |tools|, active)
    ensures DistinctTools(active)
    ensures forall name :: ToolNamed(active, name) == LastSent(b, hybrid, tools, |tools|, name)
  {
    hide KnownMapping, LastSent;
  }

  lemma {:induction false} LastIsCarried(b: Bundle, tools: seq<Tool>, n: nat, name: string)
    requires n <= |tools| && NamesCCTool(b, tools)
    ensures LastSent(b, false, tools, n, name) == if Named(tools[..n], name) then Some(CarriedMapping(b, name))
            else None
  {
    hide KnownMapping, NamesCCTool, Named;
    if n > 0 {
      LastIsCarried(b, tools, n - 1, name);
      NamedOneMore(tools[..n - 1], tools[n - 1]);
      assert tools[..n] == tools[..n - 1] + [tools[n - 1]];
    } else {
      NoneNamed(name);
    }
  }

  lemma NoneNamed(name: string)
    ensures !Named([], name)
  {
  }

  /** Beside the provider's tools every tool is carried, whatever else is declared under its name. */
  lemma AllAreCarried(b: Bundle, tools: seq<Tool>, r: ToolMap)
    requires NamesCCTool(b, tools) && MapsAll(b, false, tools, r) && Shapes(b, tools, r.shaped)
    ensures CarriesAll(b, tools, r)
  {
    hide KnownMapping, NamesCCTool, LastSent, CarriedMapping;
    assert tools[..|tools|] == tools;
    forall t | t in tools ensures ToolNamed(r.tools, t.name) == Some(CarriedMapping(b, t.name)) {
      LastIsCarried(b, tools, |tools|, t.name);
      assert Named(tools, t.name);
    }
    forall d | d in r.tools ensures Named(tools, d.clientName) && d.mapping == CarriedMapping(b, d.clientName) {
      ToolThereIsNamed(r.tools, d);
      LastIsCarried(b, tools, |tools|, d.clientName);
    }
  }

  lemma {:induction false} ToolThereIsNamed(tools: seq<Declared>, d: Declared)
    requires DistinctTools(tools) && d in tools
    ensures ToolNamed(tools, d.clientName) == Some(d.mapping)
  {
    var k :| 0 <= k < |tools| && tools[k] == d;
    if k > 0 {
      assert tools[1..][k - 1] == d && tools[0].clientName != tools[k].clientName;
      assert forall i, j :: 1 <= i < j < |tools| ==> tools[i].clientName != tools[j].clientName;
      ToolThereIsNamed(tools[1..], d);
    }
  }

  // What a fallback tool cannot do: take the way back from a tool that is mapped.

  /** The fallback tools' own names are aliases. */
  predicate FallbacksAliased(b: Bundle) {
    forall f <- CC_FALLBACK_TOOLS :: Lower(f) in b.aliases
  }

  lemma {:induction false} LastIsSome(b: Bundle, hybrid: bool, tools: seq<Tool>, n: nat, name: string)
    requires n <= |tools| && LastSent(b, hybrid, tools, n, name).Some?
    ensures exists i :: 0 <= i < n && tools[i].name == name
                        && SentAs(b, hybrid, tools, i) == LastSent(b, hybrid, tools, n, name)
  {
    hide SentAs;
    if !(tools[n - 1].name == name && SentAs(b, hybrid, tools, n - 1).Some?) {
      LastIsSome(b, hybrid, tools, n - 1, name);
      var i :| 0 <= i < n - 1 && tools[i].name == name
               && SentAs(b, hybrid, tools, i) == LastSent(b, hybrid, tools, n - 1, name);
      assert SentAs(b, hybrid, tools, i) == LastSent(b, hybrid, tools, n, name);
    }
  }

  lemma FallbackIsNoClaim(b: Bundle, tools: seq<Tool>, r: ToolMap, d: Declared)
    requires FallbacksAliased(b) && !NamesCCTool(b, tools) && MapsAll(b, false, tools, r)
    requires d in r.tools && KnownMapping(b, d.clientName).None?
    ensures !Identity(d) && d.mapping.score == 0
  {
    ToolThereIsNamed(r.tools, d);
    LastIsSome(b, false, tools, |tools|, d.clientName);
    hide LastSent, ToolNamed, NamesCCTool, Lower;
    var i :| 0 <= i < |tools| && tools[i].name == d.clientName && SentAs(b, false, tools, i) == Some(d.mapping);
    assert d.mapping == FallbackMapping(b, tools, i);
    assert d.mapping.ccTool in CC_FALLBACK_TOOLS;
  }

  /** Every tool call that comes back under a client's name comes back to a tool mapped for what it is. */
  lemma FallbackNeverAnswers(b: Bundle, tools: seq<Tool>, r: ToolMap, lookup: Lookup)
    requires FallbacksAliased(b) && !NamesCCTool(b, tools) && MapsAll(b, false, tools, r) && IsReverse(r.tools, lookup)
    ensures forall ccTool <- lookup :: KnownMapping(b, lookup[ccTool].clientName).Some?
  {
    assert r.Carried?;
    hide KnownMapping, MapsAll, Identity, NamesCCTool, FallbacksAliased;
    forall ccTool | ccTool in lookup ensures KnownMapping(b, lookup[ccTool].clientName).Some? {
      var k: nat :| Claims(r.tools, ccTool, k) && lookup[ccTool] == Entry(r.tools[k].clientName, r.tools[k].mapping);
      if KnownMapping(b, r.tools[k].clientName).None? { FallbackIsNoClaim(b, tools, r, r.tools[k]); }
    }
  }

  /** A fallback shares its tool with a known one exactly when the declaration uses all six itself. */
  lemma FallbackIsSharedIff(b: Bundle, tools: seq<Tool>, i: nat)
    requires i < |tools|
    ensures FallbackMapping(b, tools, i).ccTool in Claimed(b, tools) <==>
            forall f <- CC_FALLBACK_TOOLS :: f in Claimed(b, tools)
  {
    hide Claimed, Unknowns;
    var claimed := Claimed(b, tools);
    var free := Without(CC_FALLBACK_TOOLS, claimed);
    if free != [] { assert free[0] in free; }
    assert FallbackMapping(b, tools, i).ccTool in Pool(claimed);
  }

  predicate Distinct(names: seq<string>) {
    forall j, k :: 0 <= j < k < |names| ==> names[j] != names[k]
  }

  lemma {:induction false} WithoutIsDistinct(names: seq<string>, claimed: set<string>)
    requires Distinct(names)
    ensures Distinct(Without(names, claimed))
  {
    if names != [] {
      WithoutIsDistinct(names[1..], claimed);
      var more := Without(names[1..], claimed);
      assert forall k :: 0 <= k < |more| ==> more[k] in names[1..];
      assert names[0] !in names[1..];
    }
  }

  /** Two unknown tools share a fallback exactly when whole rounds of the pool lie between them. */
  lemma FallbacksCollideIff(b: Bundle, tools: seq<Tool>, i: nat, j: nat)
    requires i < |tools| && j < |tools|
    ensures var size := |Pool(Claimed(b, tools))|;
            FallbackMapping(b, tools, i).ccTool == FallbackMapping(b, tools, j).ccTool <==>
            Unknowns(b, tools, i) % size == Unknowns(b, tools, j) % size
  {
    hide Claimed, Unknowns;
    FallbacksDiffer();
    WithoutIsDistinct(CC_FALLBACK_TOOLS, Claimed(b, tools));
    var pool := Pool(Claimed(b, tools));
    assert Distinct(pool);
    var x, y := Unknowns(b, tools, i) % |pool|, Unknowns(b, tools, j) % |pool|;
    assert x < y ==> pool[x] != pool[y];
    assert y < x ==> pool[y] != pool[x];
  }

  lemma FallbacksDiffer()
    ensures Distinct(CC_FALLBACK_TOOLS)
  {
  }

  function Where(tools: seq<Tool>, p: Tool -> bool): (r: seq<Tool>)
    ensures forall t :: t in r <==> t in tools && p(t)
  {
    if tools == [] then []
    else Where(tools[..|tools| - 1], p) + if p(tools[|tools| - 1]) then [tools[|tools| - 1]] else []
  }

  /**
   * What goes out: the provider's definitions the declaration names or its aliases claim, and the client's own of
   * a name with none, in name order; then the MCP tools; then the tools under MCP names. No name twice.
   */
  function Advertised(b: Bundle, tools: seq<Tool>, r: ToolMap, sort: seq<Tool> -> seq<Tool>): seq<Tool>
    requires r.Carried?
  {
    var named := (u: Tool) =>
      !IsMcpToolName(u.name) && exists t :: t in tools && t.name != "" && Lower(t.name) == Lower(u.name);
    var available := Where(b.templates, (u: Tool) => named(u) || (!IsMcpToolName(u.name) && u.name in r.claimed));
    var own := Where(tools, (t: Tool) => t.name in b.unadvertisable && (t.advertisable || t.anthropic));
    Deduped(sort((if Where(b.templates, named) == [] then [] else available) + own)
            + Where(tools, (t: Tool) => IsMcpToolName(t.name)) + r.shaped)
  }

  /** A wire name leads back only to the tool carried under it. */
  lemma WireNameIsOwn(b: Bundle, tools: seq<Tool>, r: ToolMap, t: Tool, k: nat)
    requires BundleLawful(b) && CarriesAll(b, tools, r) && Carriable(b, tools, t)
    requires k < |r.tools| && r.tools[k].mapping.ccTool == WireName(t.name)
    ensures r.tools[k] == Declared(t.name, SameName(WireName(t.name))) && !Identity(r.tools[k])
  {
    var d := r.tools[k];
    assert d in r.tools;
    assert IsMcpToolName(WireName(t.name));
    assert KnownMapping(b, d.clientName).None?;
    assert WireName(d.clientName)[|CLIENT_TOOL_MCP_PREFIX|..] == d.clientName;
    assert WireName(t.name)[|CLIENT_TOOL_MCP_PREFIX|..] == t.name;
  }

  lemma {:induction false} ToolNamedIsThere(tools: seq<Declared>, name: string)
    requires ToolNamed(tools, name).Some?
    ensures Declared(name, ToolNamed(tools, name).value) in tools
  {
    if tools[0].clientName != name { ToolNamedIsThere(tools[1..], name); }
  }

  /**
   * Tool names round-trip: of every declaration that is accepted, each tool outside the provider's set goes out
   * under its MCP name with the client's own definition, no advertised name repeats, and a call to that name comes
   * back under exactly the client's name.
   */
  lemma CarriedNamesRoundTrip(b: Bundle, tools: seq<Tool>, r: ToolMap, lookup: Lookup, sort: seq<Tool> -> seq<Tool>,
      t: Tool)
    requires BundleLawful(b) && Uncarried(b, tools, tools) == [] && CarriesAll(b, tools, r)
             && IsReverse(r.tools, lookup)
    requires t in tools && KnownMapping(b, t.name).None?
    requires forall s, u :: u in sort(s) <==> u in s
    ensures DistinctNames(Advertised(b, tools, r, sort)) && Named(Advertised(b, tools, r, sort), WireName(t.name))
    ensures forall a <- Advertised(b, tools, r, sort) :: a.name == WireName(t.name) ==>
              exists u :: u in tools && u.name == t.name && a == u.(name := WireName(t.name))
    ensures WireName(t.name) in lookup && lookup[WireName(t.name)] == Entry(t.name, SameName(WireName(t.name)))
  {
    hide Lower, Identity;
    UncarriedNames(b, tools, tools, t);
    var wire := WireName(t.name);
    ToolNamedIsThere(r.tools, t.name);
    var k :| 0 <= k < |r.tools| && r.tools[k] == Declared(t.name, SameName(wire));
    assert wire in lookup;
    var l: nat :| Claims(r.tools, wire, l) && lookup[wire] == Entry(r.tools[l].clientName, r.tools[l].mapping);
    WireNameIsOwn(b, tools, r, t, l);
    ShapedIsAdvertised(b, tools, r, sort, t);
    forall a | a in Advertised(b, tools, r, sort) && a.name == wire
      ensures exists u :: u in tools && u.name == t.name && a == u.(name := wire)
    {
      ShapedIsRenamed(b, tools, r, a, t.name);
    }
  }

  lemma ShapedIsAdvertised(b: Bundle, tools: seq<Tool>, r: ToolMap, sort: seq<Tool> -> seq<Tool>, t: Tool)
    requires CarriesAll(b, tools, r) && t in tools && KnownMapping(b, t.name).None? && Carriable(b, tools, t)
    requires forall s, u :: u in sort(s) <==> u in s
    ensures DistinctNames(Advertised(b, tools, r, sort)) && Named(Advertised(b, tools, r, sort), WireName(t.name))
    ensures forall a <- Advertised(b, tools, r, sort) :: a.name == WireName(t.name) ==> a in r.shaped
  {
    hide Lower, Where;
    var wire := WireName(t.name);
    var named := (u: Tool) =>
      !IsMcpToolName(u.name) && exists t :: t in tools && t.name != "" && Lower(t.name) == Lower(u.name);
    var available := Where(b.templates, (u: Tool) => named(u) || (!IsMcpToolName(u.name) && u.name in r.claimed));
    var own := Where(tools, (t: Tool) => t.name in b.unadvertisable && (t.advertisable || t.anthropic));
    var natives := (if Where(b.templates, named) == [] then [] else available) + own;
    var mcp := Where(tools, (t: Tool) => IsMcpToolName(t.name));
    var all := sort(natives) + mcp + r.shaped;
    DedupedIsFirst(all);
    var s := t.(name := wire);
    assert s in r.shaped && s in all;
    assert Advertised(b, tools, r, sort) == Deduped(all);
    assert IsMcpToolName(wire);
    forall a | a in Deduped(all) && a.name == wire ensures a in r.shaped {
      assert a in all;
      assert a in sort(natives) ==> a in natives;
    }
  }

  lemma ShapedIsRenamed(b: Bundle, tools: seq<Tool>, r: ToolMap, a: Tool, name: string)
    requires CarriesAll(b, tools, r) && a in r.shaped && a.name == WireName(name)
    ensures exists u :: u in tools && u.name == name && a == u.(name := WireName(name))
  {
    var u :| u in tools && KnownMapping(b, u.name).None? && a == u.(name := WireName(u.name));
    assert WireName(u.name)[|CLIENT_TOOL_MCP_PREFIX|..] == u.name && WireName(name)[|CLIENT_TOOL_MCP_PREFIX|..] == name;
  }

  /**
   * Where each name goes: a tool of the provider's set or an MCP tool under its own name, input untouched; an alias,
   * whatever its case, on the tool it is an alias of. Of names in both, the provider's stand.
   */
  lemma KnownGoesWhere(b: Bundle, hybrid: bool, tools: seq<Tool>, r: ToolMap, t: Tool)
    requires MapsAll(b, hybrid, tools, r) && t in tools
    ensures t.name in b.native || IsMcpToolName(t.name) ==>
              exists m :: ToolNamed(r.tools, t.name) == Some(m) && m.ccTool == t.name && m.back == Some(0)
                          && m.score == 10
    ensures t.name !in b.native && !IsMcpToolName(t.name) && Lower(t.name) in b.aliases ==>
              exists m :: ToolNamed(r.tools, t.name) == Some(m) && m.ccTool == b.aliases[Lower(t.name)].ccTool
                          && m.back == b.aliases[Lower(t.name)].back && m.score == b.aliases[Lower(t.name)].score
    ensures t.name !in b.native && !IsMcpToolName(t.name) && Lower(t.name) !in b.aliases && hybrid ==>
              ToolNamed(r.tools, t.name).None?
  {
    if KnownMapping(b, t.name).Some? {
      LastOfKnown(b, hybrid, tools, |tools|, t);
      assert tools[..|tools|] == tools;
    } else if hybrid {
      NoneOfUnknown(b, tools, |tools|, t.name);
    }
  }

  lemma {:induction false} LastOfKnown(b: Bundle, hybrid: bool, tools: seq<Tool>, n: nat, t: Tool)
    requires n <= |tools| && t in tools[..n] && KnownMapping(b, t.name).Some?
    ensures LastSent(b, hybrid, tools, n, t.name).Some?
    ensures LastSent(b, hybrid, tools, n, t.name).value.(fields := []) == KnownMapping(b, t.name).value.(fields := [])
  {
    hide KnownMapping, NamesCCTool, FallbackMapping;
    if tools[n - 1].name != t.name {
      assert t in tools[..n - 1];
      LastOfKnown(b, hybrid, tools, n - 1, t);
    }
  }

  lemma {:induction false} NoneOfUnknown(b: Bundle, tools: seq<Tool>, n: nat, name: string)
    requires n <= |tools| && KnownMapping(b, name).None?
    ensures LastSent(b, true, tools, n, name).None?
  {
    hide KnownMapping;
    if n > 0 { NoneOfUnknown(b, tools, n - 1, name); }
  }

  // What the names themselves say.

  const UPPER := "ABCDEFGHIJKLMNOPQRSTUVWXYZ"
  const LOWER := "abcdefghijklmnopqrstuvwxyz"

  lemma LowerCharIs(c: char)
    ensures forall i :: 0 <= i < 26 && c == UPPER[i] ==> LowerChar(c) == LOWER[i]
    ensures c !in UPPER ==> LowerChar(c) == c
  {
    if 'A' <= c <= 'Z' { assert UPPER[c as int - 'A' as int] == c; }
  }

  lemma {:induction false} LowerAt(s: string, i: nat)
    requires i < |s|
    ensures Lower(s)[i] == LowerChar(s[i])
  {
    if i > 0 { LowerAt(s[1..], i - 1); }
  }

  lemma McpNamesAre(name: string)
    ensures IsMcpToolName(name) <==> "mcp__" <= name
  {
  }

  /** Two names differ in case alone. */
  predicate SameButCase(a: string, b: string) {
    |a| == |b| && forall i :: 0 <= i < |a| ==> LowerChar(a[i]) == LowerChar(b[i])
  }

  lemma LowerIsSameButCase(a: string, b: string)
    ensures Lower(a) == Lower(b) <==> SameButCase(a, b)
  {
    forall i | 0 <= i < |a| ensures Lower(a)[i] == LowerChar(a[i]) { LowerAt(a, i); }
    forall i | 0 <= i < |b| ensures Lower(b)[i] == LowerChar(b[i]) { LowerAt(b, i); }
  }

  /** The tool bears the name of one the template advertises, whatever the case. */
  predicate NamesTemplate(b: Bundle, t: Tool) {
    t.name != "" && !("mcp__" <= t.name)
    && exists u :: u in b.templates && !("mcp__" <= u.name) && SameButCase(u.name, t.name)
  }

  /** The tool is the provider's own definition of one that the template does not advertise. */
  predicate DefinesUnadvertised(b: Bundle, t: Tool) {
    t.name != "" && !("mcp__" <= t.name) && t.name in b.unadvertisable && t.anthropic
  }

  /** A declaration has its other tools carried exactly when one of its tools is of one of these two kinds. */
  lemma CarriesWhen(b: Bundle, tools: seq<Tool>)
    ensures NamesCCTool(b, tools) <==> exists t :: t in tools && (NamesTemplate(b, t) || DefinesUnadvertised(b, t))
  {
    hide Lower, SameButCase;
    forall t: Tool, u: Tool ensures Lower(u.name) == Lower(t.name) <==> SameButCase(u.name, t.name) {
      LowerIsSameButCase(u.name, t.name);
    }
    forall name: string ensures IsMcpToolName(name) <==> "mcp__" <= name { McpNamesAre(name); }
    hide IsMcpToolName;
    if NamesCCTool(b, tools) {
      var t :| t in tools && t.name != "" && !IsMcpToolName(t.name) &&
        ((exists u :: u in b.templates && !IsMcpToolName(u.name) && Lower(u.name) == Lower(t.name))
         || (t.name in b.unadvertisable && t.anthropic));
      if !(t.name in b.unadvertisable && t.anthropic) {
        var u :| u in b.templates && !IsMcpToolName(u.name) && Lower(u.name) == Lower(t.name);
        assert NamesTemplate(b, t);
      } else {
        assert DefinesUnadvertised(b, t);
      }
    }
    if t :| t in tools && (NamesTemplate(b, t) || DefinesUnadvertised(b, t)) {
      if NamesTemplate(b, t) {
        var u :| u in b.templates && !("mcp__" <= u.name) && SameButCase(u.name, t.name);
        assert Lower(u.name) == Lower(t.name);
      }
      assert NamesCCTool(b, tools);
    }
  }

  /** Nothing goes out under an MCP name but custom tools with a schema, whose names are valid there and not taken. */
  lemma OnlyCustomToolsAreCarried(b: Bundle, tools: seq<Tool>, r: ToolMap, s: Tool)
    requires CarriesAll(b, tools, r) && Uncarried(b, tools, tools) == [] && s in r.shaped
    ensures exists t :: t in tools && s == t.(name := "mcp__client__" + t.name) && t.name != ""
                        && t.custom && t.advertisable && b.validName(s.name) && forall u <- tools :: u.name != s.name
  {
    hide KnownMapping;
    var t :| t in tools && KnownMapping(b, t.name).None? && s == t.(name := WireName(t.name));
    UncarriedNames(b, tools, tools, t);
  }

  /** And a custom tool with a schema, a valid name and none in its way is not refused. */
  lemma CustomToolsAreNotRefused(b: Bundle, tools: seq<Tool>, t: Tool)
    requires t in tools && t.name != "" && t.custom && t.advertisable && b.validName("mcp__client__" + t.name)
    requires forall u <- tools :: u.name != "mcp__client__" + t.name
    ensures Carriable(b, tools, t)
  {
  }

  function UnknownAt(b: Bundle, tools: seq<Tool>, n: nat): set<nat>
    requires n <= |tools|
  {
    set i: nat | i < n && KnownMapping(b, tools[i].name).None?
  }

  lemma {:induction false} UnknownsCount(b: Bundle, tools: seq<Tool>, n: nat)
    requires n <= |tools|
    ensures Unknowns(b, tools, n) == |UnknownAt(b, tools, n)|
  {
    hide KnownMapping;
    if n > 0 {
      UnknownsCount(b, tools, n - 1);
      var some := UnknownAt(b, tools, n - 1);
      assert UnknownAt(b, tools, n) == if KnownMapping(b, tools[n - 1].name).None? then some + {n - 1} else some;
    }
  }

  /** In hybrid mode a known tool carries the fields of its last declaration's schema; otherwise its alias's own. */
  lemma {:induction false} FieldsAreTheSchema(b: Bundle, hybrid: bool, tools: seq<Tool>, n: nat, name: string)
    requires n <= |tools| && KnownMapping(b, name).Some? && LastSent(b, hybrid, tools, n, name).Some?
    ensures hybrid ==>
              exists i :: 0 <= i < n && tools[i].name == name && (forall j :: i < j < n ==> tools[j].name != name)
                          && LastSent(b, hybrid, tools, n, name).value.fields == tools[i].fields
    ensures !hybrid ==> LastSent(b, hybrid, tools, n, name) == KnownMapping(b, name)
  {
    hide KnownMapping, NamesCCTool, FallbackMapping;
    if tools[n - 1].name != name { FieldsAreTheSchema(b, hybrid, tools, n - 1, name); }
  }
}
