/** The tool registry: an insertion-ordered map from tool name to tool, with the
    ordering of a JavaScript `Map` (a re-registered name keeps its first position). */
module Registry {
  import opened Wrappers
  import opened Json

  datatype ToolDefinition = ToolDefinition(name: string, description: string, inputSchema: Json)

  /** A tool: its definition for the model and `impl`, which identifies its `execute`
      function; running a tool is the oracle `run` passed to `Execute`. */
  datatype AgentTool = AgentTool(definition: ToolDefinition, impl: nat)

  datatype ToolSet = ToolSet(name: string, description: string, tools: seq<AgentTool>)

  function NameOf(t: AgentTool): string { t.definition.name }

  predicate Distinct(s: seq<string>) {
    forall i, j :: 0 <= i < j < |s| ==> s[i] != s[j]
  }

  /** The key order of a `Map` after `set(name, ...)`. */
  function InsertName(names: seq<string>, name: string): (r: seq<string>)
    ensures name in names ==> r == names
    ensures name !in names ==> r == names + [name]
  {
    if name in names then names else names + [name]
  }

  /** The key order after registering `ts` one after another. */
  function NamesAfter(names: seq<string>, ts: seq<AgentTool>): seq<string> {
    if ts == [] then names
    else InsertName(NamesAfter(names, ts[..|ts| - 1]), NameOf(ts[|ts| - 1]))
  }

  /** The entries after registering `ts` one after another: the last registration wins. */
  function ToolsAfter(tools: map<string, AgentTool>, ts: seq<AgentTool>): map<string, AgentTool> {
    if ts == [] then tools
    else ToolsAfter(tools, ts[..|ts| - 1])[NameOf(ts[|ts| - 1]) := ts[|ts| - 1]]
  }

  /** All tools of the sets, in set order. */
  function AllTools(sets: seq<ToolSet>): seq<AgentTool> {
    if sets == [] then [] else AllTools(sets[..|sets| - 1]) + sets[|sets| - 1].tools
  }

  /** What `execute` does with the entries `tools`: run the tool registered under the
      name, or fail without running any tool. */
  function Dispatch(tools: map<string, AgentTool>, name: string, input: Json, run: (AgentTool, Json) -> Result<Json>)
    : (r: Result<Json>)
    ensures name !in tools ==> r == Failure("Unknown tool: " + name)
    ensures name in tools ==> r == run(tools[name], input)
  {
    if name in tools then run(tools[name], input) else Failure("Unknown tool: " + name)
  }

  /** The registry invariant: the key order lists each key once, and every entry is
      stored under its own definition name. */
  ghost predicate WellFormed(names: seq<string>, tools: map<string, AgentTool>) {
    && Distinct(names)
    && (forall n :: n in tools <==> n in names)
    && (forall n :: n in tools ==> NameOf(tools[n]) == n)
  }

  lemma InsertPreservesWellFormed(names: seq<string>, tools: map<string, AgentTool>, t: AgentTool)
    requires WellFormed(names, tools)
    ensures WellFormed(InsertName(names, NameOf(t)), tools[NameOf(t) := t])
  {
  }

  lemma {:induction false} AfterPreservesWellFormed(names: seq<string>, tools: map<string, AgentTool>, ts: seq<AgentTool>)
    requires WellFormed(names, tools)
    ensures WellFormed(NamesAfter(names, ts), ToolsAfter(tools, ts))
    decreases |ts|
  {
    if ts != [] {
      AfterPreservesWellFormed(names, tools, ts[..|ts| - 1]);
      InsertPreservesWellFormed(NamesAfter(names, ts[..|ts| - 1]), ToolsAfter(tools, ts[..|ts| - 1]), ts[|ts| - 1]);
    }
  }

  /** Registering in two batches is registering the concatenation. */
  lemma {:induction false} NamesAfterAppend(names: seq<string>, a: seq<AgentTool>, b: seq<AgentTool>)
    ensures NamesAfter(names, a + b) == NamesAfter(NamesAfter(names, a), b)
    ensures ToolsAfter(map[], a + b) == ToolsAfter(ToolsAfter(map[], a), b)
    decreases |b|
  {
    if b == [] {
      assert a + b == a;
    } else {
      assert (a + b)[..|a + b| - 1] == a + b[..|b| - 1];
      NamesAfterAppend(names, a, b[..|b| - 1]);
    }
  }

  lemma {:induction false} ToolsAfterAppend(tools: map<string, AgentTool>, a: seq<AgentTool>, b: seq<AgentTool>)
    ensures ToolsAfter(tools, a + b) == ToolsAfter(ToolsAfter(tools, a), b)
    decreases |b|
  {
    if b == [] {
      assert a + b == a;
    } else {
      assert (a + b)[..|a + b| - 1] == a + b[..|b| - 1];
      ToolsAfterAppend(tools, a, b[..|b| - 1]);
    }
  }

  /** The definition names of `ts`, in order. */
  function Names(ts: seq<AgentTool>): (r: seq<string>)
    ensures |r| == |ts| && forall i :: 0 <= i < |ts| ==> r[i] == NameOf(ts[i])
  {
    seq(|ts|, i requires 0 <= i < |ts| => NameOf(ts[i]))
  }

  /** Registration never moves or drops a name: the old order is a prefix of the new one,
      and the new order holds exactly the old names and the registered ones. */
  lemma {:induction false} NamesAfterExtends(names: seq<string>, ts: seq<AgentTool>)
    ensures names <= NamesAfter(names, ts)
    ensures forall n :: n in NamesAfter(names, ts) <==> n in names || n in Names(ts)
    decreases |ts|
  {
    if ts != [] {
      var init := ts[..|ts| - 1];
      NamesAfterExtends(names, init);
      assert Names(ts) == Names(init) + [NameOf(ts[|ts| - 1])];
    }
  }

  /** Registration touches only the registered names: any other entry is kept as it was. */
  lemma {:induction false} ToolsAfterOthers(tools: map<string, AgentTool>, ts: seq<AgentTool>, n: string)
    requires n !in Names(ts)
    ensures n in ToolsAfter(tools, ts) <==> n in tools
    ensures n in tools ==> ToolsAfter(tools, ts)[n] == tools[n]
    decreases |ts|
  {
    if ts != [] {
      assert Names(ts[..|ts| - 1]) == Names(ts)[..|ts| - 1];
      assert Names(ts)[|ts| - 1] == NameOf(ts[|ts| - 1]);
      ToolsAfterOthers(tools, ts[..|ts| - 1], n);
    }
  }

  /** Re-registering names that are all present leaves the order unchanged. */
  lemma {:induction false} ReregisterKeepsOrder(names: seq<string>, ts: seq<AgentTool>)
    requires forall t :: t in ts ==> NameOf(t) in names
    ensures NamesAfter(names, ts) == names
    decreases |ts|
  {
    if ts != [] {
      ReregisterKeepsOrder(names, ts[..|ts| - 1]);
      assert ts[|ts| - 1] in ts;
    }
  }

  /** The position of the first occurrence of `n` in `ns`. */
  function FirstIndex(ns: seq<string>, n: string): (k: nat)
    requires n in ns
    ensures k < |ns| && ns[k] == n
    ensures forall i :: 0 <= i < k ==> ns[i] != n
  {
    if ns[0] == n then 0 else 1 + FirstIndex(ns[1..], n)
  }

  lemma FirstIndexPrefix(ns: seq<string>, k: nat, n: string)
    requires k <= |ns| && n in ns[..k]
    ensures FirstIndex(ns, n) == FirstIndex(ns[..k], n)
  {
  }

  lemma FirstIndexLast(ns: seq<string>, n: string)
    requires |ns| > 0 && ns[|ns| - 1] == n && n !in ns[..|ns| - 1]
    ensures FirstIndex(ns, n) == |ns| - 1
  {
    assert forall i :: 0 <= i < |ns| - 1 ==> ns[..|ns| - 1][i] == ns[i];
  }

  /** From an empty registry, the names are the distinct tool names in order of first
      occurrence. */
  lemma {:induction false} FirstOccurrenceOrder(ts: seq<AgentTool>)
    ensures var r := NamesAfter([], ts);
      && Distinct(r)
      && (forall n :: n in r <==> n in Names(ts))
      && (forall i, j :: 0 <= i < j < |r| ==> FirstIndex(Names(ts), r[i]) < FirstIndex(Names(ts), r[j]))
  {
    NamesAfterExtends([], ts);
    AfterPreservesWellFormed([], map[], ts);
    NamesAfterOrdered(ts);
  }

  lemma {:induction false} NamesAfterOrdered(ts: seq<AgentTool>)
    ensures forall n :: n in NamesAfter([], ts) ==> n in Names(ts)
    ensures var r := NamesAfter([], ts);
      forall i, j :: 0 <= i < j < |r| ==> FirstIndex(Names(ts), r[i]) < FirstIndex(Names(ts), r[j])
    decreases |ts|
  {
    NamesAfterExtends([], ts);
    if ts != [] {
      var init := ts[..|ts| - 1];
      var last := NameOf(ts[|ts| - 1]);
      var ns := Names(ts);
      assert Names(init) == ns[..|ts| - 1];
      var p := NamesAfter([], init);
      NamesAfterOrdered(init);
      NamesAfterExtends([], init);
      var r := NamesAfter([], ts);
      forall i | 0 <= i < |p|
        ensures FirstIndex(ns, p[i]) == FirstIndex(Names(init), p[i])
      {
        assert p[i] in p;
        FirstIndexPrefix(ns, |ts| - 1, p[i]);
      }
      if last in p {
        assert r == p;
      } else {
        assert r == p + [last];
        FirstIndexLast(ns, last);
        forall i, j | 0 <= i < j < |r|
          ensures FirstIndex(ns, r[i]) < FirstIndex(ns, r[j])
        {
          assert r[i] == p[i];
          if j < |r| - 1 {
            assert r[j] == p[j];
          }
        }
      }
    }
  }

  /** `ToolRegistry`: `names` is the key order of the private `Map`, `tools` its entries. */
  class ToolRegistry {
    var names: seq<string>
    var tools: map<string, AgentTool>

    ghost predicate Valid()
      reads this
    {
      WellFormed(names, tools)
    }

    constructor ()
      ensures Valid() && names == [] && tools == map[]
    {
      names := [];
      tools := map[];
    }

    /** `registerTool`: `tools.set(tool.definition.name, tool)`. */
    method RegisterTool(tool: AgentTool)
      requires Valid()
      modifies this
      ensures Valid()
      ensures names == InsertName(old(names), NameOf(tool))
      ensures tools == old(tools)[NameOf(tool) := tool]
    {
      InsertPreservesWellFormed(names, tools, tool);
      if NameOf(tool) !in names {
        names := names + [NameOf(tool)];
      }
      tools := tools[NameOf(tool) := tool];
    }

    /** `registerToolSet`: register each tool of the set in order. */
    method RegisterToolSet(toolSet: ToolSet)
      requires Valid()
      modifies this
      ensures Valid()
      ensures names == NamesAfter(old(names), toolSet.tools)
      ensures tools == ToolsAfter(old(tools), toolSet.tools)
    {
      var ts := toolSet.tools;
      for k := 0 to |ts|
        invariant Valid()
        invariant names == NamesAfter(old(names), ts[..k])
        invariant tools == ToolsAfter(old(tools), ts[..k])
      {
        assert ts[..k + 1][..k] == ts[..k];
        RegisterTool(ts[k]);
      }
      assert ts[..|ts|] == ts;
    }

    /** `registerToolSets`: register each set in order. */
    method RegisterToolSets(toolSets: seq<ToolSet>)
      requires Valid()
      modifies this
      ensures Valid()
      ensures names == NamesAfter(old(names), AllTools(toolSets))
      ensures tools == ToolsAfter(old(tools), AllTools(toolSets))
    {
      for k := 0 to |toolSets|
        invariant Valid()
        invariant names == NamesAfter(old(names), AllTools(toolSets[..k]))
        invariant tools == ToolsAfter(old(tools), AllTools(toolSets[..k]))
      {
        assert toolSets[..k + 1][..k] == toolSets[..k];
        NamesAfterAppend(old(names), AllTools(toolSets[..k]), toolSets[k].tools);
        ToolsAfterAppend(old(tools), AllTools(toolSets[..k]), toolSets[k].tools);
        RegisterToolSet(toolSets[k]);
      }
      assert toolSets[..|toolSets|] == toolSets;
    }

    /** `getDefinitions`: the definitions in key order; definition `i` is named `names[i]`. */
    method GetDefinitions() returns (defs: seq<ToolDefinition>)
      requires Valid()
      ensures |defs| == |names|
      ensures forall i :: 0 <= i < |names| ==> names[i] in tools && defs[i] == tools[names[i]].definition
      ensures forall i :: 0 <= i < |defs| ==> defs[i].name == names[i]
    {
      defs := seq(|names|, i requires 0 <= i < |names| && names[i] in tools reads this => tools[names[i]].definition);
    }

    /** `execute`: run the registered tool, or fail without running any tool. */
    method Execute(name: string, input: Json, run: (AgentTool, Json) -> Result<Json>) returns (r: Result<Json>)
      ensures name !in tools ==> r == Failure("Unknown tool: " + name)
      ensures name in tools ==> r == run(tools[name], input)
      ensures r == Dispatch(tools, name, input, run)
    {
      if name !in tools {
        return Failure("Unknown tool: " + name);
      }
      r := run(tools[name], input);
    }

    method HasTool(name: string) returns (b: bool)
      requires Valid()
      ensures b <==> name in tools
      ensures b <==> name in names
    {
      b := name in tools;
    }

    /** `getToolNames`: the keys in insertion order, each once. */
    method GetToolNames() returns (ns: seq<string>)
      requires Valid()
      ensures ns == names && Distinct(ns)
      ensures forall n :: n in ns <==> n in tools
    {
      ns := names;
    }

    method Clear()
      modifies this
      ensures Valid() && names == [] && tools == map[]
    {
      names := [];
      tools := map[];
    }
  }

  /** `createToolRegistry`: a fresh registry with every tool of the sets registered. */
  method CreateToolRegistry(toolSets: seq<ToolSet>) returns (registry: ToolRegistry)
    ensures fresh(registry) && registry.Valid()
    ensures registry.names == NamesAfter([], AllTools(toolSets))
    ensures registry.tools == ToolsAfter(map[], AllTools(toolSets))
  {
    registry := new ToolRegistry();
    registry.RegisterToolSets(toolSets);
  }
}
