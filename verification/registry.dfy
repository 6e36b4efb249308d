/** The tool list the client advertises to the model: each descriptor the
    tool server lists, cut down to three fields, with its schema field
    renamed. */
module Registry {

  import opened Wrappers
  import opened Values

  /** A tool as the tool server lists it. `extra` holds every other key
      of the descriptor (a title, annotations, an output schema, metadata
      and whatever else the server sends), which the client never reads. */
  datatype McpTool = McpTool(name: string, description: Option<string>, inputSchema: Json,
                             extra: seq<(string, Json)>)

  /** A tool as the model service expects it (`input_schema` is the
      field name of that service). */
  datatype ModelTool = ModelTool(name: string, description: Option<string>, input_schema: Json)

  function ToModelTool(t: McpTool): ModelTool
  {
    ModelTool(t.name, t.description, t.inputSchema)
  }

  /** A listed tool with only the three fields the client reads. */
  function Bare(t: McpTool): McpTool
  {
    t.(extra := [])
  }

  /** The inverse renaming; it cannot bring back the dropped keys. */
  function FromModelTool(m: ModelTool): McpTool
  {
    McpTool(m.name, m.description, m.input_schema, [])
  }

  /** `tools.map(...)`: same length, same order, name and description
      copied, the schema moved to `input_schema`; no other key survives. */
  function Project(tools: seq<McpTool>): (r: seq<ModelTool>)
    ensures |r| == |tools|
    ensures forall i :: 0 <= i < |tools| ==>
      && r[i].name == tools[i].name
      && r[i].description == tools[i].description
      && r[i].input_schema == tools[i].inputSchema
  {
    if tools == [] then [] else [ToModelTool(tools[0])] + Project(tools[1..])
  }

  function Unproject(tools: seq<ModelTool>): (r: seq<McpTool>)
    ensures |r| == |tools|
  {
    if tools == [] then [] else [FromModelTool(tools[0])] + Unproject(tools[1..])
  }

  /** Projecting and renaming back gives the listed tools again, each cut
      down to the three fields the client reads. */
  lemma {:induction false} ProjectRoundTrip(tools: seq<McpTool>)
    ensures |Unproject(Project(tools))| == |tools|
    ensures forall i :: 0 <= i < |tools| ==> Unproject(Project(tools))[i] == Bare(tools[i])
  {
    if tools != [] {
      ProjectRoundTrip(tools[1..]);
      assert Project(tools)[1..] == Project(tools[1..]);
      var back := Unproject(Project(tools));
      forall i | 0 < i < |tools|
        ensures back[i] == Bare(tools[i])
      {
        assert back[i] == Unproject(Project(tools[1..]))[i - 1];
      }
    }
  }

  /** Two tool lists project to the same model-facing list exactly when
      they agree on name, description and schema at every place: the keys
      in `extra` are lost. */
  lemma ProjectSameIff(a: seq<McpTool>, b: seq<McpTool>)
    ensures Project(a) == Project(b) <==>
      |a| == |b| && forall i :: 0 <= i < |a| ==> Bare(a[i]) == Bare(b[i])
  {
    if Project(a) == Project(b) {
      forall i | 0 <= i < |a|
        ensures Bare(a[i]) == Bare(b[i])
      {
        assert Project(a)[i] == Project(b)[i];
      }
    }
    if |a| == |b| && forall i :: 0 <= i < |a| ==> Bare(a[i]) == Bare(b[i]) {
      forall i | 0 <= i < |a|
        ensures Project(a)[i] == Project(b)[i]
      {
        assert Bare(a[i]) == Bare(b[i]);
      }
    }
  }

  /** Every model-facing list is the projection of a listed one. */
  lemma {:induction false} ProjectSurjective(tools: seq<ModelTool>)
    ensures Project(Unproject(tools)) == tools
  {
    if tools != [] {
      ProjectSurjective(tools[1..]);
      assert Unproject(tools)[1..] == Unproject(tools[1..]);
    }
  }
}
