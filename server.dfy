/**
 * The tool adapter: the fixed catalogue of four tools and the dispatcher
 * that turns one tool call into exactly one text result, errors included.
 */
module Server {
  import opened PyJson
  import opened SefariaHandler

  /** A catalogue entry: the tool's name, its description and the JSON Schema of its arguments. */
  datatype Tool = Tool(name: string, description: string, inputSchema: Json)

  /** One text item of a tool result (`TextContent(type="text", text=...)`). */
  datatype TextContent = TextContent(text: string)

  /**
   * What the dispatcher takes from outside besides the client's `Env`: the
   * search and calendar lookups, whose bodies are not part of this model and
   * which answer a text or raise an exception with a message, and the text
   * `str(err)` gives an exception the client raised.
   */
  datatype Backend = Backend(
    searchTexts: (Json, Json, Json, Json) -> Result<string, string>,
    dailyLearnings: (Json, Json, Json, Json, Json, Json) -> Result<string, string>,
    message: Fault -> string)

  // ---------------------------------------------------------------------------
  // The catalogue

  function Property(kind: string): Json {
    JObj([("type", JStr(kind))])
  }

  function PropertyWithDefault(kind: string, default: Json): Json {
    JObj([("type", JStr(kind)), ("default", default)])
  }

  function Schema(properties: seq<(string, Json)>, required: seq<string>): (schema: Json)
    ensures schema.JObj? && Lookup(schema.members, "required") == Some(JArr(seq(|required|, k requires 0 <= k < |required| => JStr(required[k]))))
  {
    var listed := seq(|required|, k requires 0 <= k < |required| => JStr(required[k]));
    JObj([("type", JStr("object")), ("properties", JObj(properties)), ("required", JArr(listed))])
  }

  /** The names the schema of `tool` lists as required. */
  function RequiredKeys(tool: Tool): seq<string> {
    if !tool.inputSchema.JObj? then []
    else
      match Lookup(tool.inputSchema.members, "required")
      case Some(JArr(items)) =>
        (match StrItems(items)
         case Ok(keys) => keys
         case Err(_) => [])
      case _ => []
  }

  /** The schema built from `required` lists exactly `required`. */
  lemma SchemaRequiredKeys(name: string, description: string, properties: seq<(string, Json)>, required: seq<string>)
    ensures RequiredKeys(Tool(name, description, Schema(properties, required))) == required
  {
    var listed := seq(|required|, k requires 0 <= k < |required| => JStr(required[k]));
    var keys := StrItems(listed).value;
    assert |keys| == |required|;
    assert forall k :: 0 <= k < |required| ==> listed[k] == JStr(keys[k]);
  }

  /** The names of the catalogue's tools, in catalogue order. */
  const ToolNames: seq<string> := ["get_text", "get_commentaries", "search_texts", "get_daily_learnings"]

  function GetTextTool(): (tool: Tool)
    ensures tool.name == ToolNames[0] && RequiredKeys(tool) == ["reference"]
  {
    var properties := [("reference", Property("string"))];
    SchemaRequiredKeys("get_text", "get a jewish text from the jewish library", properties, ["reference"]);
    Tool("get_text", "get a jewish text from the jewish library", Schema(properties, ["reference"]))
  }

  function GetCommentariesTool(): (tool: Tool)
    ensures tool.name == ToolNames[1] && RequiredKeys(tool) == ["reference"]
  {
    var properties := [("reference", Property("string"))];
    var description := "get a list of references of commentaries for a jewish text";
    SchemaRequiredKeys("get_commentaries", description, properties, ["reference"]);
    Tool("get_commentaries", description, Schema(properties, ["reference"]))
  }

  function SearchTextsTool(): (tool: Tool)
    ensures tool.name == ToolNames[2] && RequiredKeys(tool) == ["query"]
  {
    var properties := [("query", Property("string")),
                 ("slop", PropertyWithDefault("integer", JInt(2))),
                 ("filters", PropertyWithDefault("list", JStr("[]"))),
                 ("size", PropertyWithDefault("integer", JInt(10)))];
    var description := "search for jewish texts in the Sefaria library";
    SchemaRequiredKeys("search_texts", description, properties, ["query"]);
    Tool("search_texts", description, Schema(properties, ["query"]))
  }

  /** The optional arguments of `get_daily_learnings`. */
  function DailyLearningsProperties(): seq<(string, Json)> {
    [("diaspora", PropertyWithDefault("boolean", JBool(true))),
                 ("custom", Property("string")),
                 ("year", Property("integer")),
                 ("month", Property("integer")),
                 ("day", Property("integer")),
                 ("timezone", Property("string"))]
  }

  function DailyLearningsTool(): (tool: Tool)
    ensures tool.name == ToolNames[3] && RequiredKeys(tool) == []
  {
    var properties := DailyLearningsProperties();
    var description := "get the daily or weekly learning schedule from Sefaria's calendar";
    SchemaRequiredKeys("get_daily_learnings", description, properties, []);
    Tool("get_daily_learnings", description, Schema(properties, []))
  }

  /** `handle_list_tools()`: the four tools, in this order, with their argument schemas. */
  function ListTools(): (tools: seq<Tool>)
    ensures |tools| == |ToolNames| == 4
    ensures tools[0].name == ToolNames[0] && tools[1].name == ToolNames[1]
    ensures tools[2].name == ToolNames[2] && tools[3].name == ToolNames[3]
    ensures RequiredKeys(tools[0]) == ["reference"]
    ensures RequiredKeys(tools[1]) == ["reference"]
    ensures RequiredKeys(tools[2]) == ["query"]
    ensures RequiredKeys(tools[3]) == []
  {
    [GetTextTool(), GetCommentariesTool(), SearchTextsTool(), DailyLearningsTool()]
  }

  // ---------------------------------------------------------------------------
  // Dispatch

  /** The argument map, None read as the empty map. */
  function Args(arguments: Option<seq<(string, Json)>>): seq<(string, Json)> {
    match arguments
    case None => []
    case Some(args) => args
  }

  /** `arguments.get(key)` */
  function Arg(args: seq<(string, Json)>, key: string): Json {
    ArgOr(args, key, JNull)
  }

  /** `arguments.get(key, default)` */
  function ArgOr(args: seq<(string, Json)>, key: string, default: Json): Json {
    match Lookup(args, key)
    case Some(v) => v
    case None => default
  }

  /** `if not x: x = default` */
  function OrDefault(x: Json, default: Json): Json {
    if Truthy(x) then x else default
  }

  /** The one-item result of a branch: its text, or "Error: " and the message of what it raised. */
  function Reply(r: Result<string, string>): seq<TextContent> {
    match r
    case Ok(text) => [TextContent(text)]
    case Err(message) => [TextContent("Error: " + message)]
  }

  function Described<T>(r: Result<T, Fault>, message: Fault -> string): Result<T, string> {
    match r
    case Ok(v) => Ok(v)
    case Err(f) => Err(message(f))
  }

  /** The text of the `get_commentaries` tool: the references, one per line. */
  function JoinedCommentaries(env: Env, reference: Json): Result<string, Fault> {
    var refs :- CommentariesOf(Response(env, RelatedUrl(env, reference)));
    Join("\n", refs)
  }

  /** The `get_text` branch: the text of the reference, or an error text. */
  function CallGetText(env: Env, backend: Backend, args: seq<(string, Json)>): (out: seq<TextContent>)
    ensures |out| == 1
    ensures !Truthy(Arg(args, "reference")) ==> out == [TextContent("Error: Missing reference parameter")]
  {
    var reference := Arg(args, "reference");
    if !Truthy(reference) then
      assert "Error: " + "Missing reference parameter" == "Error: Missing reference parameter";
      Reply(Err("Missing reference parameter"))
    else Reply(Described(GetText(env, reference), backend.message))
  }

  /** The `get_commentaries` branch: the commentary references one per line, or an error text. */
  function CallGetCommentaries(env: Env, backend: Backend, args: seq<(string, Json)>): (out: seq<TextContent>)
    ensures |out| == 1
    ensures !Truthy(Arg(args, "reference")) ==> out == [TextContent("Error: Missing  parameter")]
  {
    var reference := Arg(args, "reference");
    if !Truthy(reference) then
      assert "Error: " + "Missing  parameter" == "Error: Missing  parameter";
      Reply(Err("Missing  parameter"))
    else Reply(Described(JoinedCommentaries(env, reference), backend.message))
  }

  /** The `search_texts` branch: falsy options take their defaults before the search is called. */
  function CallSearchTexts(backend: Backend, args: seq<(string, Json)>): (out: seq<TextContent>)
    ensures |out| == 1
    ensures !Truthy(Arg(args, "query")) ==> out == [TextContent("Error: Missing query parameter")]
  {
    var query := Arg(args, "query");
    if !Truthy(query) then
      assert "Error: " + "Missing query parameter" == "Error: Missing query parameter";
      Reply(Err("Missing query parameter"))
    else
      var slop := OrDefault(Arg(args, "slop"), JInt(2));
      var filters := OrDefault(Arg(args, "filters"), JNull);
      var size := OrDefault(Arg(args, "size"), JInt(10));
      Reply(backend.searchTexts(query, slop, filters, size))
  }

  /** The `get_daily_learnings` branch: every option is passed on as given, `diaspora` defaulting to true when absent. */
  function CallDailyLearnings(backend: Backend, args: seq<(string, Json)>): (out: seq<TextContent>)
    ensures |out| == 1
  {
    Reply(backend.dailyLearnings(ArgOr(args, "diaspora", JBool(true)), Arg(args, "custom"),
                                 Arg(args, "year"), Arg(args, "month"), Arg(args, "day"),
                                 Arg(args, "timezone")))
  }

  /**
   * `handle_call_tool(name, arguments)`: exactly one text item for every call;
   * a missing required argument or an unknown name is answered with an error
   * text, and so is every exception raised inside a branch.
   */
  function HandleCallTool(env: Env, backend: Backend, name: string, arguments: Option<seq<(string, Json)>>): (out: seq<TextContent>)
    ensures |out| == 1
    ensures name !in ToolNames ==> out == [TextContent("Error: " + ("Unknown tool: " + name))]
    ensures name == "get_text" && !Truthy(Arg(Args(arguments), "reference")) ==>
              out == [TextContent("Error: Missing reference parameter")]
    ensures name == "get_commentaries" && !Truthy(Arg(Args(arguments), "reference")) ==>
              out == [TextContent("Error: Missing  parameter")]
    ensures name == "search_texts" && !Truthy(Arg(Args(arguments), "query")) ==>
              out == [TextContent("Error: Missing query parameter")]
  {
    var args := Args(arguments);
    if name == "get_text" then CallGetText(env, backend, args)
    else if name == "get_commentaries" then CallGetCommentaries(env, backend, args)
    else if name == "search_texts" then CallSearchTexts(backend, args)
    else if name == "get_daily_learnings" then CallDailyLearnings(backend, args)
    else
      assert name !in ToolNames;
      Reply(Err("Unknown tool: " + name))
  }

  // ---------------------------------------------------------------------------
  // Properties of the dispatcher

  /** A call without an argument map is the call with the empty map. */
  lemma NoArgumentsIsEmptyMap(env: Env, backend: Backend, name: string)
    ensures HandleCallTool(env, backend, name, None) == HandleCallTool(env, backend, name, Some([]))
  {
  }

  /** The required arguments of the catalogue, tool by tool. */
  lemma CatalogueRequired(k: nat, key: string)
    requires k < |ListTools()| && key in RequiredKeys(ListTools()[k])
    ensures ListTools()[k].name == ToolNames[k]
    ensures (k == 0 && key == "reference") || (k == 1 && key == "reference") || (k == 2 && key == "query")
  {
  }

  /**
   * Every argument the catalogue lists as required is checked before any
   * lookup: without it the call answers an "Error: Missing ..." text that
   * neither the network nor the backend can change.
   */
  lemma RequiredArgumentsChecked(env1: Env, backend1: Backend, env2: Env, backend2: Backend,
                                 k: nat, key: string, arguments: Option<seq<(string, Json)>>)
    requires k < |ListTools()| && key in RequiredKeys(ListTools()[k])
    requires !Truthy(Arg(Args(arguments), key))
    ensures var out := HandleCallTool(env1, backend1, ListTools()[k].name, arguments);
            && out == HandleCallTool(env2, backend2, ListTools()[k].name, arguments)
            && IsPrefix("Error: Missing ", out[0].text)
  {
    CatalogueRequired(k, key);
    var text := MissingAnswer(env1, backend1, k, arguments);
    var text2 := MissingAnswer(env2, backend2, k, arguments);
    MissingPrefix(text);
  }

  /** The text each tool with a required argument answers when it is missing. */
  lemma MissingAnswer(env: Env, backend: Backend, k: nat, arguments: Option<seq<(string, Json)>>) returns (text: string)
    requires k < 3 && !Truthy(Arg(Args(arguments), if k == 2 then "query" else "reference"))
    ensures HandleCallTool(env, backend, ToolNames[k], arguments) == [TextContent("Error: Missing " + text)]
    ensures text == if k == 0 then "reference parameter" else if k == 1 then " parameter" else "query parameter"
  {
    if k == 0 {
      text := "reference parameter";
      assert "Error: Missing reference parameter" == "Error: Missing " + text;
    } else if k == 1 {
      text := " parameter";
      assert "Error: Missing  parameter" == "Error: Missing " + text;
    } else {
      text := "query parameter";
      assert "Error: Missing query parameter" == "Error: Missing " + text;
    }
  }

  lemma MissingPrefix(rest: string)
    ensures IsPrefix("Error: Missing ", "Error: Missing " + rest)
  {
    assert ("Error: Missing " + rest)[..|"Error: Missing "|] == "Error: Missing ";
  }

  /** A name outside the catalogue is answered as unknown. */
  lemma UnknownOutsideCatalogue(env: Env, backend: Backend, name: string, arguments: Option<seq<(string, Json)>>)
    ensures (forall k :: 0 <= k < |ListTools()| ==> ListTools()[k].name != name) ==>
              HandleCallTool(env, backend, name, arguments) == [TextContent("Error: Unknown tool: " + name)]
  {
    if forall k :: 0 <= k < |ListTools()| ==> ListTools()[k].name != name {
      assert name !in ToolNames by {
        forall k | 0 <= k < |ToolNames| ensures ToolNames[k] != name {
          assert ListTools()[k].name != name;
        }
      }
      UnknownName(env, backend, name, arguments);
    }
  }

  lemma UnknownName(env: Env, backend: Backend, name: string, arguments: Option<seq<(string, Json)>>)
    requires name !in ToolNames
    ensures HandleCallTool(env, backend, name, arguments) == [TextContent("Error: Unknown tool: " + name)]
  {
    assert "Error: " + ("Unknown tool: " + name) == "Error: Unknown tool: " + name;
  }

  /** Each name of the catalogue is dispatched to the branch of its tool. */
  lemma CatalogueNamesDispatched(env: Env, backend: Backend, k: nat, arguments: Option<seq<(string, Json)>>)
    requires k < |ListTools()|
    ensures var out := HandleCallTool(env, backend, ListTools()[k].name, arguments);
            var args := Args(arguments);
            && (k == 0 ==> out == CallGetText(env, backend, args))
            && (k == 1 ==> out == CallGetCommentaries(env, backend, args))
            && (k == 2 ==> out == CallSearchTexts(backend, args))
            && (k == 3 ==> out == CallDailyLearnings(backend, args))
  {
    assert ListTools()[k].name == ToolNames[k];
  }

  /**
   * What a search_texts call with a truthy query hands to the search: each
   * truthy option as given, each falsy one replaced by its default (slop 2,
   * filters None, size 10).
   */
  lemma SearchReceives(env: Env, backend: Backend, args: seq<(string, Json)>)
    requires Truthy(Arg(args, "query"))
    ensures HandleCallTool(env, backend, "search_texts", Some(args)) ==
            Reply(backend.searchTexts(Arg(args, "query"),
                                      if Truthy(Arg(args, "slop")) then Arg(args, "slop") else JInt(2),
                                      if Truthy(Arg(args, "filters")) then Arg(args, "filters") else JNull,
                                      if Truthy(Arg(args, "size")) then Arg(args, "size") else JInt(10)))
  {
  }

  /** A query-only search_texts call searches with slop 2, no filters and size 10. */
  lemma {:induction false} SearchQueryOnly(env: Env, backend: Backend, query: Json)
    requires Truthy(query)
    ensures HandleCallTool(env, backend, "search_texts", Some([("query", query)])) ==
            Reply(backend.searchTexts(query, JInt(2), JNull, JInt(10)))
  {
    var args := [("query", query)];
    assert args[..0] == [];
    assert args == [] + [("query", query)];
    LookupAppended([], "query", query, "query");
    LookupAppended([], "query", query, "slop");
    LookupAppended([], "query", query, "filters");
    LookupAppended([], "query", query, "size");
    SearchReceives(env, backend, args);
  }

  /**
   * search_texts replaces a falsy option by its default: an explicit 0 for
   * `slop` or `size` makes the same call as the default, and an absent option
   * the same call as the default given explicitly.
   */
  lemma {:induction false} SearchFalsyOptionsTakeDefaults(env: Env, backend: Backend, args: seq<(string, Json)>)
    ensures forall v :: !Truthy(v) ==>
              HandleCallTool(env, backend, "search_texts", Some(args + [("slop", v)])) ==
              HandleCallTool(env, backend, "search_texts", Some(args + [("slop", JInt(2))]))
    ensures forall v :: !Truthy(v) ==>
              HandleCallTool(env, backend, "search_texts", Some(args + [("size", v)])) ==
              HandleCallTool(env, backend, "search_texts", Some(args + [("size", JInt(10))]))
    ensures forall v :: !Truthy(v) ==>
              HandleCallTool(env, backend, "search_texts", Some(args + [("filters", v)])) ==
              HandleCallTool(env, backend, "search_texts", Some(args + [("filters", JNull)]))
    ensures !HasKey(args, "slop") ==>
              HandleCallTool(env, backend, "search_texts", Some(args)) ==
              HandleCallTool(env, backend, "search_texts", Some(args + [("slop", JInt(2))]))
    ensures !HasKey(args, "size") ==>
              HandleCallTool(env, backend, "search_texts", Some(args)) ==
              HandleCallTool(env, backend, "search_texts", Some(args + [("size", JInt(10))]))
  {
    forall v | !Truthy(v)
      ensures HandleCallTool(env, backend, "search_texts", Some(args + [("slop", v)])) ==
              HandleCallTool(env, backend, "search_texts", Some(args + [("slop", JInt(2))]))
    {
      SearchOptionDefault(env, backend, args, "slop", v, JInt(2));
    }
    forall v | !Truthy(v)
      ensures HandleCallTool(env, backend, "search_texts", Some(args + [("size", v)])) ==
              HandleCallTool(env, backend, "search_texts", Some(args + [("size", JInt(10))]))
    {
      SearchOptionDefault(env, backend, args, "size", v, JInt(10));
    }
    forall v | !Truthy(v)
      ensures HandleCallTool(env, backend, "search_texts", Some(args + [("filters", v)])) ==
              HandleCallTool(env, backend, "search_texts", Some(args + [("filters", JNull)]))
    {
      SearchOptionDefault(env, backend, args, "filters", v, JNull);
    }
    if !HasKey(args, "slop") {
      SearchOptionDefault(env, backend, args, "slop", JNull, JInt(2));
      SearchOptionAbsent(env, backend, args, "slop");
    }
    if !HasKey(args, "size") {
      SearchOptionDefault(env, backend, args, "size", JNull, JInt(10));
      SearchOptionAbsent(env, backend, args, "size");
    }
  }

  /** Giving a search option a falsy value makes the same call as giving it its default. */
  lemma SearchOptionDefault(env: Env, backend: Backend, args: seq<(string, Json)>, key: string, v: Json, default: Json)
    requires (key == "slop" && default == JInt(2)) || (key == "size" && default == JInt(10)) || (key == "filters" && default == JNull)
    requires !Truthy(v)
    ensures HandleCallTool(env, backend, "search_texts", Some(args + [(key, v)])) ==
            HandleCallTool(env, backend, "search_texts", Some(args + [(key, default)]))
  {
    LookupAppended(args, key, v, "query");
    LookupAppended(args, key, v, "slop");
    LookupAppended(args, key, v, "filters");
    LookupAppended(args, key, v, "size");
    LookupAppended(args, key, default, "query");
    LookupAppended(args, key, default, "slop");
    LookupAppended(args, key, default, "filters");
    LookupAppended(args, key, default, "size");
  }

  /** An absent search option makes the same call as the option given as None. */
  lemma SearchOptionAbsent(env: Env, backend: Backend, args: seq<(string, Json)>, key: string)
    requires key == "slop" || key == "size" || key == "filters"
    requires !HasKey(args, key)
    ensures HandleCallTool(env, backend, "search_texts", Some(args)) ==
            HandleCallTool(env, backend, "search_texts", Some(args + [(key, JNull)]))
  {
    LookupAppended(args, key, JNull, "query");
    LookupAppended(args, key, JNull, "slop");
    LookupAppended(args, key, JNull, "filters");
    LookupAppended(args, key, JNull, "size");
  }

  /**
   * get_daily_learnings never rejects its arguments: `diaspora` is true only
   * when the key is absent, and any value given for it, false or null
   * included, reaches the calendar lookup unchanged with the other options.
   */
  lemma {:induction false} DailyLearningsDiasporaDefault(env: Env, backend: Backend, args: seq<(string, Json)>, diaspora: Json)
    ensures !HasKey(args, "diaspora") ==>
              HandleCallTool(env, backend, "get_daily_learnings", Some(args)) ==
              HandleCallTool(env, backend, "get_daily_learnings", Some(args + [("diaspora", JBool(true))]))
    ensures HandleCallTool(env, backend, "get_daily_learnings", Some(args + [("diaspora", diaspora)])) ==
            Reply(backend.dailyLearnings(diaspora, Arg(args, "custom"), Arg(args, "year"), Arg(args, "month"),
                                         Arg(args, "day"), Arg(args, "timezone")))
  {
    forall key: string, v: Json, k: string {
      LookupAppended(args, k, v, key);
    }
  }

  /**
   * The get_commentaries text holds the commentary references one per line:
   * when there is at least one and none holds a line break, splitting the
   * text at line breaks gives the references back, one line per commentary link.
   * With none, the text is empty (CommentariesNoneIsEmptyText).
   */
  lemma {:induction false} CommentariesOnePerLine(env: Env, backend: Backend, arguments: Option<seq<(string, Json)>>, links: seq<Json>)
    requires var reference := Arg(Args(arguments), "reference");
             && Truthy(reference)
             && CommentariesOf(Response(env, RelatedUrl(env, reference))) == CommentaryRefs(links)
    requires forall k :: 0 <= k < |links| ==> links[k].JObj?
    requires forall k :: 0 <= k < |links| ==> IsCommentary(links[k]) ==> SourceHeRef(links[k]).JStr? && '\n' !in SourceHeRef(links[k]).s
    requires CountCommentaries(links) >= 1
    ensures var lines := Split(HandleCallTool(env, backend, "get_commentaries", arguments)[0].text, '\n');
            && |lines| == CountCommentaries(links)
            && forall k :: 0 <= k < |lines| ==> JStr(lines[k]) == CommentaryRefs(links).value[k]
  {
    var refs := CommentaryRefs(links).value;
    CommentaryRefsAreSourceRefs(links);
    var ss := StrItems(refs).value;
    SplitJoinRoundTrip(ss, '\n');
  }

  /**
   * With no commentary links (no data, no "links" key, or only links that are
   * not commentaries) the get_commentaries text is empty: joining nothing
   * gives "", and not an error.
   */
  lemma CommentariesNoneIsEmptyText(env: Env, backend: Backend, arguments: Option<seq<(string, Json)>>)
    requires var reference := Arg(Args(arguments), "reference");
             && Truthy(reference)
             && CommentariesOf(Response(env, RelatedUrl(env, reference))) == Ok([])
    ensures HandleCallTool(env, backend, "get_commentaries", arguments) == [TextContent("")]
  {
    assert StrItems([]) == Ok([]);
  }

  /**
   * Inside a branch, what the lookup answers becomes the one text item: its
   * text, or "Error: " followed by the message of the exception it raised.
   */
  lemma BranchOutcomesBecomeText(env: Env, backend: Backend, name: string, arguments: Option<seq<(string, Json)>>)
    ensures var args := Args(arguments);
            name == "get_text" && Truthy(Arg(args, "reference")) ==>
              HandleCallTool(env, backend, name, arguments) ==
                match GetText(env, Arg(args, "reference"))
                case Ok(text) => [TextContent(text)]
                case Err(f) => [TextContent("Error: " + backend.message(f))]
    ensures var args := Args(arguments);
            name == "get_commentaries" && Truthy(Arg(args, "reference")) ==>
              HandleCallTool(env, backend, name, arguments) ==
                match JoinedCommentaries(env, Arg(args, "reference"))
                case Ok(text) => [TextContent(text)]
                case Err(f) => [TextContent("Error: " + backend.message(f))]
  {
  }
}
