/** `ToolRegistry` of src/agent/tools/registry.py: the name-keyed dictionary built from the tool
    list, the OpenAI function schema list, and dispatch by name. A registry is a value: nothing
    changes it after construction. A tool's `execute` is a function of its arguments. */
module ToolRegistry {
  import Json
  import Seqs
  import opened Wrappers

  datatype Tool = Tool(name: string, description: string, parameters: Json.Value, run: Json.Value -> Json.Value)

  /** The dictionary's values in insertion order; no two share a name. */
  datatype Registry = Registry(entries: seq<Tool>)

  /** The names of `tools`, in order. */
  function Names(tools: seq<Tool>): (ns: seq<string>)
    ensures |ns| == |tools|
    ensures forall i :: 0 <= i < |tools| ==> ns[i] == tools[i].name
  {
    if tools == [] then [] else Names(tools[..|tools| - 1]) + [tools[|tools| - 1].name]
  }

  /** `d.get(name)` */
  function Lookup(entries: seq<Tool>, name: string): (r: Option<Tool>)
    ensures r.None? <==> name !in Names(entries)
    ensures r.Some? ==> r.value in entries && r.value.name == name
  {
    if entries == [] then None
    else if entries[|entries| - 1].name == name then Some(entries[|entries| - 1])
    else Lookup(entries[..|entries| - 1], name)
  }

  /** `d[tool.name] = tool`: an existing name keeps its position and takes the new tool, a new
      name goes last. */
  function Put(entries: seq<Tool>, t: Tool): (r: seq<Tool>)
    ensures t.name in Names(entries) ==> Names(r) == Names(entries)
    ensures t.name !in Names(entries) ==> Names(r) == Names(entries) + [t.name]
  {
    if entries == [] then [t]
    else
      var init := entries[..|entries| - 1];
      var last := entries[|entries| - 1];
      assert Names(entries) == Names(init) + [last.name];
      if last.name == t.name then init + [t]
      else if t.name !in Names(init) then entries + [t]
      else
        var p := Put(init, t);
        assert Names(p + [last]) == Names(p) + [last.name];
        p + [last]
  }

  /** After `d[t.name] = t`, `t` is found under its name and every other name finds what it
      found before. */
  lemma {:induction false} LookupPut(entries: seq<Tool>, t: Tool, name: string)
    ensures Lookup(Put(entries, t), name) == if name == t.name then Some(t) else Lookup(entries, name)
  {
    if entries != [] {
      var init := entries[..|entries| - 1];
      var last := entries[|entries| - 1];
      if last.name == t.name {
        assert (init + [t])[..|init|] == init;
      } else if t.name !in Names(init) {
        assert (entries + [t])[..|entries|] == entries;
      } else {
        LookupPut(init, t, name);
        var p := Put(init, t);
        assert (p + [last])[..|p|] == p;
      }
    }
  }

  /** `{tool.name: tool for tool in tools}` */
  function Build(tools: seq<Tool>): (r: Registry)
    ensures Seqs.Distinct(Names(r.entries))
  {
    if tools == [] then Registry([])
    else
      var r := Build(tools[..|tools| - 1]);
      var t := tools[|tools| - 1];
      var e := Put(r.entries, t);
      assert Seqs.Distinct(Names(e)) by {
        if t.name !in Names(r.entries) {
          var ns := Names(r.entries) + [t.name];
          forall i, j | 0 <= i < j < |ns| ensures ns[i] != ns[j] {
            if j < |ns| - 1 {
              assert ns[i] == Names(r.entries)[i] && ns[j] == Names(r.entries)[j];
            } else {
              assert ns[i] in Names(r.entries);
            }
          }
        }
      }
      Registry(e)
  }

  /** The last of `tools` with that name: the one the dictionary keeps. */
  function LastNamed(tools: seq<Tool>, name: string): (r: Option<Tool>)
    ensures r.Some? ==> r.value in tools && r.value.name == name
  {
    if tools == [] then None
    else if tools[|tools| - 1].name == name then Some(tools[|tools| - 1])
    else LastNamed(tools[..|tools| - 1], name)
  }

  /** The registry holds each name once, in order of first appearance, and under each name the
      last tool that has it; a name nobody has is not there. */
  lemma {:induction false} BuildFacts(tools: seq<Tool>, name: string)
    ensures Names(Build(tools).entries) == Seqs.Dedup(Names(tools))
    ensures Lookup(Build(tools).entries, name) == LastNamed(tools, name)
  {
    if tools != [] {
      var init := tools[..|tools| - 1];
      var t := tools[|tools| - 1];
      BuildFacts(init, name);
      var r := Build(init);
      assert Names(tools) == Names(init) + [t.name];
      Seqs.DedupSnoc(Names(init), t.name);
      LookupPut(r.entries, t, name);
    }
  }

  /** One element of `openai_tools`. */
  function Schema(t: Tool): Json.Value {
    Json.Dict([("type", Json.Str("function")),
      ("function", Json.Dict([("name", Json.Str(t.name)), ("description", Json.Str(t.description)),
        ("parameters", t.parameters)]))])
  }

  /** `openai_tools` */
  function OpenAITools(entries: seq<Tool>): (r: seq<Json.Value>)
    ensures |r| == |entries|
    ensures forall i :: 0 <= i < |r| ==> r[i] == Schema(entries[i])
  {
    if entries == [] then [] else OpenAITools(entries[..|entries| - 1]) + [Schema(entries[|entries| - 1])]
  }

  /** The function name a schema entry carries. */
  function SchemaName(v: Json.Value): Option<Json.Value> {
    match Json.Field(v, "function")
    case Some(f) => Json.Field(f, "name")
    case None => None
  }

  /** One schema per distinct tool name, in order of first appearance, each carrying the
      description and parameters of the tool kept under that name. */
  lemma OpenAIToolsFacts(tools: seq<Tool>, i: nat)
    ensures |OpenAITools(Build(tools).entries)| == |Seqs.Dedup(Names(tools))|
    ensures i < |Seqs.Dedup(Names(tools))| ==>
      var n := Seqs.Dedup(Names(tools))[i];
      && SchemaName(OpenAITools(Build(tools).entries)[i]) == Some(Json.Str(n))
      && LastNamed(tools, n).Some?
      && OpenAITools(Build(tools).entries)[i] == Schema(LastNamed(tools, n).value)
  {
    var e := Build(tools).entries;
    BuildFacts(tools, "");
    if i < |e| {
      var t := e[i];
      assert Names(e)[i] == t.name;
      BuildFacts(tools, t.name);
      LookupDistinct(e, i);
      SchemaNamed(t);
    }
  }

  lemma SchemaNamed(t: Tool)
    ensures SchemaName(Schema(t)) == Some(Json.Str(t.name))
  {
  }

  /** In entries with distinct names, looking up an entry's name finds that entry. */
  lemma {:induction false} LookupDistinct(entries: seq<Tool>, i: nat)
    requires i < |entries| && Seqs.Distinct(Names(entries))
    ensures Lookup(entries, entries[i].name) == Some(entries[i])
  {
    var last := |entries| - 1;
    if i != last {
      var init := entries[..last];
      assert Names(entries)[i] != Names(entries)[last];
      assert Seqs.Distinct(Names(init)) by {
        forall a, b | 0 <= a < b < |Names(init)| ensures Names(init)[a] != Names(init)[b] {
          assert Names(init)[a] == Names(entries)[a] && Names(init)[b] == Names(entries)[b];
        }
      }
      assert init[i] == entries[i];
      LookupDistinct(init, i);
    }
  }

  /** The answer for a name nobody registered. */
  function UnknownTool(name: string): Json.Value {
    Json.Dict([("ok", Json.Bool(false)), ("error", Json.Str("Unknown tool: " + name))])
  }

  /** `execute` */
  function Execute(reg: Registry, name: string, args: Json.Value): (r: Json.Value)
    ensures name !in Names(reg.entries) ==> r == UnknownTool(name) && Json.IsFailure(r)
    ensures name in Names(reg.entries) ==> exists t :: t in reg.entries && t.name == name && r == t.run(args)
  {
    match Lookup(reg.entries, name)
    case None => UnknownTool(name)
    case Some(t) => t.run(args)
  }

  /** An unknown name is answered with a failure naming it and runs no tool; a known name
      returns the result of the last tool registered under it, unchanged. */
  lemma ExecuteFacts(tools: seq<Tool>, name: string, args: Json.Value)
    ensures LastNamed(tools, name).None? ==>
      Execute(Build(tools), name, args) == UnknownTool(name) && Json.IsFailure(Execute(Build(tools), name, args))
    ensures LastNamed(tools, name).Some? ==> Execute(Build(tools), name, args) == LastNamed(tools, name).value.run(args)
  {
    BuildFacts(tools, name);
  }
}
