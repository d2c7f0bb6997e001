/** The tool catalogue and the tool handlers of tools.ts: the three JSON
    schemas the model is shown, the `think` handler, the result rendering of
    `web_search` and the error wrapping of `read_file`.  The network and the
    file system are parameters. */
module Tools {
  import opened Wrappers
  import opened Text

  // ---------------------------------------------------------------------------
  // Schemas
  // ---------------------------------------------------------------------------

  /** One entry of a schema's `parameters.properties`. */
  datatype Param = Param(name: string, kind: string, description: string)

  /** `{ type: "function", function: { name, description, parameters } }`, with
      `parameters` (always of type "object") given by its properties and its
      `required` list. */
  datatype ToolSchema = ToolSchema(
    name: string,
    description: string,
    properties: seq<Param>,
    required: seq<string>)

  const ThinkSchema := ToolSchema(
    "think",
    "Use this tool to plan your research strategy, reflect on findings, and decide next steps. This is your internal scratchpad.\n\n"
    + "Use it:\n"
    + "- BEFORE searching: plan which angles to cover, estimate depth needed\n"
    + "- BETWEEN searches: assess what you found, identify gaps, decide whether to go deeper or pivot\n"
    + "- BEFORE answering: verify you have enough coverage and your sources are solid\n\n"
    + "This tool has no side effects \U{2014} it just helps you reason strategically.",
    [Param("thought", "string", "Your strategic reasoning \U{2014} what you know, what's missing, what to do next")],
    ["thought"])

  const WebSearchSchema := ToolSchema(
    "web_search",
    "Search the web for current information. Use this when you need up-to-date facts, news, or data.",
    [Param("query", "string", "The search query \U{2014} be specific and targeted")],
    ["query"])

  const ReadFileSchema := ToolSchema(
    "read_file",
    "Read the contents of a local file.",
    [Param("path", "string", "The file path to read")],
    ["path"])

  /** `toolSchemas`, in declaration order. */
  const ToolSchemas: seq<ToolSchema> := [ThinkSchema, WebSearchSchema, ReadFileSchema]

  function Names(schemas: seq<ToolSchema>): (names: seq<string>)
    ensures |names| == |schemas|
    ensures forall i :: 0 <= i < |schemas| ==> names[i] == schemas[i].name
  {
    seq(|schemas|, i requires 0 <= i < |schemas| => schemas[i].name)
  }

  /** Every schema takes exactly one parameter, a required string. */
  ghost predicate OneRequiredString(t: ToolSchema)
  {
    |t.properties| == 1 && t.properties[0].kind == "string" && t.required == [t.properties[0].name]
  }

  /** The catalogue lists think, web_search and read_file in that order, with
      the single required string parameters thought, query and path. */
  lemma ToolSchemasShape()
    ensures Names(ToolSchemas) == ["think", "web_search", "read_file"]
    ensures forall i :: 0 <= i < |ToolSchemas| ==> OneRequiredString(ToolSchemas[i])
    ensures ToolSchemas[0].properties[0].name == "thought"
    ensures ToolSchemas[1].properties[0].name == "query"
    ensures ToolSchemas[2].properties[0].name == "path"
  {
  }

  // ---------------------------------------------------------------------------
  // Handlers
  // ---------------------------------------------------------------------------

  /** A value `JSON.parse` can produce. Only the truth and the kind of a
      number are looked at, so its value is kept as a real. */
  datatype Json =
    | JNull
    | JBool(b: bool)
    | JNumber(n: real)
    | JString(s: string)
    | JArray(items: seq<Json>)
    | JObject(fields: map<string, Json>)

  /** The decoded arguments of a tool call: whatever the arguments text parses to. */
  type Args = Json

  /** JavaScript truthiness of a parsed value. */
  predicate Truthy(v: Json)
  {
    match v
    case JNull => false
    case JBool(b) => b
    case JNumber(n) => n != 0.0
    case JString(s) => s != ""
    case _ => true
  }

  /** Values with a `slice` method: strings and arrays. */
  predicate Sliceable(v: Json)
  {
    v.JString? || v.JArray?
  }

  /** Whether a template literal can turn `v` into text. A parsed object
      with its own `toString` key cannot: that value is never callable, and
      `valueOf` gives back the object, so the conversion throws. An array
      is printed by `join`, which prints every element (`null` as "");
      every other value prints. */
  predicate Printable(v: Json)
  {
    match v
    case JObject(fields) => "toString" !in fields
    case JArray(items) => forall x | x in items :: Printable(x)
    case _ => true
  }

  /** `v.slice(0, n)` can be called and its result printed: `v` is a
      string, or an array whose first `n` elements print. */
  predicate SliceShows(v: Json, n: nat)
  {
    match v
    case JString(_) => true
    case JArray(items) => Printable(JArray(items[..if |items| < n then |items| else n]))
    case _ => false
  }

  /** The text of the TypeError thrown by reading a property of `null`, by
      calling `slice` on a value without it, or by printing a value that
      does not print. */
  const TypeErrorText := "TypeError"

  /** `({ key = "" }) => ...` applied to `args`: destructuring `null` throws;
      an object gives its own field; a missing field, and any property of a
      string, number, boolean or array, is `undefined` and defaults to "".
      (No prototype of a parsed value defines `thought`, `query` or `path`.) */
  function Arg(args: Args, key: string): Result<Json, string>
  {
    match args
    case JNull => Err(TypeErrorText)
    case JObject(fields) => Ok(if key in fields then fields[key] else JString(""))
    case _ => Ok(JString(""))
  }

  const ThinkReply := "Strategy noted. Continue with your plan."

  /** The `think` handler: it logs `thought.slice(0, 80)` and answers with
      the fixed reply; the destructuring, the `slice` call and printing the
      slice may throw. */
  function Think(args: Args): Result<string, string>
  {
    match Arg(args, "thought")
    case Err(e) => Err(e)
    case Ok(thought) => if SliceShows(thought, 80) then Ok(ThinkReply) else Err(TypeErrorText)
  }

  /** The arguments `think` accepts: anything but `null` whose `thought`,
      when present, is a string or an array whose first 80 elements print. */
  predicate ThoughtReadable(args: Args)
  {
    args != JNull && (args.JObject? && "thought" in args.fields ==> SliceShows(args.fields["thought"], 80))
  }

  /** Destructuring `key` from `args` and printing it succeeds: `args` is not
      `null`, and the field, when present, prints. */
  predicate ArgPrints(args: Args, key: string)
  {
    args != JNull && (args.JObject? && key in args.fields ==> Printable(args.fields[key]))
  }

  /** Every prefix of an array that prints also prints, so a slice that is
      not printable cuts off an element that does not print. */
  lemma PrintablePrefix(items: seq<Json>, n: nat)
    requires Printable(JArray(items)) && n <= |items|
    ensures Printable(JArray(items[..n]))
  {
    forall x | x in items[..n] ensures Printable(x) {
      var k :| 0 <= k < n && items[..n][k] == x;
      assert items[k] == x;
    }
  }

  /** A slice that prints keeps printing when cut shorter: what the console
      line of `chat` shows of a thought (100 elements) covers what the
      handler prints (80). */
  lemma SliceShowsShorter(v: Json, m: nat, n: nat)
    requires m <= n && SliceShows(v, n)
    ensures SliceShows(v, m)
  {
    if v.JArray? {
      var k := if |v.items| < n then |v.items| else n;
      var j := if |v.items| < m then |v.items| else m;
      PrintablePrefix(v.items[..k], j);
      assert v.items[..k][..j] == v.items[..j];
    }
  }

  /** One entry of the search service's `results`. */
  datatype SearchResult = SearchResult(title: string, url: string, content: string)

  /** The decoded body of a successful search: an optional `answer` and the
      `results`. */
  datatype SearchData = SearchData(answer: Option<string>, results: seq<SearchResult>)

  /** What the POST to the search service produces: a network failure (the
      `fetch` promise rejects), a non-ok status with its body text, or an ok
      response with its decoded body. */
  datatype SearchResponse =
    | SearchUnreachable(message: string)
    | SearchRejected(status: nat, body: string)
    | SearchFound(data: SearchData)

  /** The search service, as a function of the api key and the `query`
      value, which is sent as given. */
  type SearchService = (string, Json) -> SearchResponse

  const MissingKeyReply := "Error: TAVILY_API_KEY not set in .env"

  /** `process.env.TAVILY_API_KEY` is truthy. */
  predicate HasKey(apiKey: Option<string>)
  {
    apiKey.Some? && apiKey.value != ""
  }

  const SnippetLength := 300

  function Snippet(content: string): string
  {
    Abbreviate(content, SnippetLength)
  }

  /** A snippet is the content when it has at most 300 characters, otherwise
      its first 300 characters followed by "...", so never over 303. */
  lemma SnippetShape(content: string)
    ensures |Snippet(content)| <= 303
    ensures |content| <= 300 ==> Snippet(content) == content
    ensures |content| > 300 ==> Snippet(content) == content[..300] + "..."
  {
  }

  function SummaryPart(answer: Option<string>): string
  {
    if answer.Some? && answer.value != "" then "Summary: " + answer.value + "\n\n" else ""
  }

  function ResultBlock(r: SearchResult): string
  {
    ("Title: " + r.title + "\n") + ("URL: " + r.url + "\n") + (Snippet(r.content) + "\n\n")
  }

  /** The blocks of `rs`, concatenated in order. */
  function ResultBlocks(rs: seq<SearchResult>): string
  {
    if rs == [] then "" else ResultBlocks(rs[..|rs| - 1]) + ResultBlock(rs[|rs| - 1])
  }

  /** The text `web_search` returns for a successful response. */
  function RenderSearch(data: SearchData): string
  {
    SummaryPart(data.answer) + ResultBlocks(data.results)
  }

  /** The whole `web_search` handler; `Err` is a rejected promise. */
  function WebSearchReply(args: Args, apiKey: Option<string>, service: SearchService): Result<string, string>
  {
    match Arg(args, "query")
    case Err(e) => Err(e)
    case Ok(query) =>
      if !Printable(query) then Err(TypeErrorText)
      else if !HasKey(apiKey) then Ok(MissingKeyReply)
      else match service(apiKey.value, query)
        case SearchUnreachable(message) => Err(message)
        case SearchRejected(status, body) => Ok("Search error (" + NatToString(status) + "): " + body)
        case SearchFound(data) => Ok(RenderSearch(data))
  }

  /** `web_search`, building its output with `+=` in a loop over the results. */
  method WebSearch(args: Args, apiKey: Option<string>, service: SearchService) returns (r: Result<string, string>)
    ensures r == WebSearchReply(args, apiKey, service)
  {
    var query := Arg(args, "query");
    if query.Err? {
      return Err(query.error);
    }
    if !Printable(query.value) {
      return Err(TypeErrorText);
    }
    if !HasKey(apiKey) {
      return Ok(MissingKeyReply);
    }
    var response := service(apiKey.value, query.value);
    match response {
      case SearchUnreachable(message) =>
        return Err(message);
      case SearchRejected(status, body) =>
        return Ok("Search error (" + NatToString(status) + "): " + body);
      case SearchFound(data) =>
        var output := "";
        if data.answer.Some? && data.answer.value != "" {
          output := output + "Summary: " + data.answer.value + "\n\n";
        }
        for i := 0 to |data.results|
          invariant output == SummaryPart(data.answer) + ResultBlocks(data.results[..i])
        {
          var result := data.results[i];
          var snippet := if |result.content| > 300 then result.content[..300] + "..." else result.content;
          ghost var before := output;
          output := output + ("Title: " + result.title + "\n");
          output := output + ("URL: " + result.url + "\n");
          output := output + (snippet + "\n\n");
          AppendAssoc(before, "Title: " + result.title + "\n", "URL: " + result.url + "\n");
          AppendAssoc(before, ("Title: " + result.title + "\n") + ("URL: " + result.url + "\n"), snippet + "\n\n");
          assert snippet == Snippet(result.content);
          assert output == before + ResultBlock(result);
          BlocksStep(data.results, i);
          AppendAssoc(SummaryPart(data.answer), ResultBlocks(data.results[..i]), ResultBlock(result));
        }
        assert data.results[..|data.results|] == data.results;
        return Ok(output);
    }
  }

  lemma AppendAssoc(a: string, b: string, c: string)
    ensures (a + b) + c == a + (b + c)
  {
  }

  lemma BlocksStep(rs: seq<SearchResult>, i: nat)
    requires i < |rs|
    ensures ResultBlocks(rs[..i + 1]) == ResultBlocks(rs[..i]) + ResultBlock(rs[i])
  {
    assert rs[..i + 1][..i] == rs[..i];
  }

  /** Only `null` arguments or a `query` that does not print make the
      handler throw before the key check; without a key it answers with the
      fixed error and never consults the service. */
  lemma WebSearchNeedsKey(args: Args, apiKey: Option<string>, service: SearchService, other: SearchService)
    requires !HasKey(apiKey)
    ensures WebSearchReply(args, apiKey, service) == WebSearchReply(args, apiKey, other)
    ensures ArgPrints(args, "query") ==> WebSearchReply(args, apiKey, service) == Ok(MissingKeyReply)
    ensures !ArgPrints(args, "query") ==> WebSearchReply(args, apiKey, service) == Err(TypeErrorText)
  {
  }

  lemma {:induction false} ResultBlocksAppend(a: seq<SearchResult>, b: seq<SearchResult>)
    ensures ResultBlocks(a + b) == ResultBlocks(a) + ResultBlocks(b)
    decreases |b|
  {
    if b == [] {
      assert a + b == a;
    } else {
      var b' := b[..|b| - 1];
      var last := ResultBlock(b[|b| - 1]);
      assert (a + b)[..|a + b| - 1] == a + b';
      assert (a + b)[|a + b| - 1] == b[|b| - 1];
      assert ResultBlocks(a + b) == ResultBlocks(a + b') + last;
      ResultBlocksAppend(a, b');
      AppendAssoc(ResultBlocks(a), ResultBlocks(b'), last);
    }
  }

  /** One block per result, in result order: the rendering of `rs` is the
      rendering of the results before `k`, then the block of `rs[k]`, then
      the rendering of the results after it. */
  lemma ResultBlocksInOrder(rs: seq<SearchResult>, k: nat)
    requires k < |rs|
    ensures ResultBlocks(rs) == ResultBlocks(rs[..k]) + ResultBlock(rs[k]) + ResultBlocks(rs[k + 1..])
  {
    var front := rs[..k + 1];
    assert rs == front + rs[k + 1..];
    ResultBlocksAppend(front, rs[k + 1..]);
    BlocksStep(rs, k);
  }

  lemma {:induction false} ResultBlocksStart(rs: seq<SearchResult>)
    ensures rs == [] <==> ResultBlocks(rs) == ""
    ensures rs != [] ==> "Title: " <= ResultBlocks(rs)
    decreases |rs|
  {
    if rs != [] {
      ResultBlocksInOrder(rs, 0);
      assert rs[..0] == [];
      ResultBlocksStart(rs[..0]);
    }
  }

  /** The output starts with "Summary: " exactly when the response carries a
      non-empty answer (a result block starts with "Title: "). */
  lemma SummaryIff(data: SearchData)
    ensures "Summary: " <= RenderSearch(data) <==> data.answer.Some? && data.answer.value != ""
    ensures data.answer.Some? && data.answer.value != "" ==>
              RenderSearch(data) == "Summary: " + data.answer.value + "\n\n" + ResultBlocks(data.results)
  {
    ResultBlocksStart(data.results);
    if !(data.answer.Some? && data.answer.value != "") && data.results != [] {
      var out := RenderSearch(data);
      assert out[..7] == "Title: ";
      assert out[0] == 'T';
    }
  }

  // ---------------------------------------------------------------------------
  // read_file and the registry
  // ---------------------------------------------------------------------------

  /** The file system read of `Bun.file(path).text()`: the text of the file
      or the error it raised. */
  type FileReader = Json -> Result<string, string>

  /** `read_file`: a read error becomes text; destructuring `null` arguments
      and printing a `path` that does not print, both before the `try`,
      throw. */
  function ReadFileReply(args: Args, read: FileReader): Result<string, string>
  {
    match Arg(args, "path")
    case Err(e) => Err(e)
    case Ok(path) =>
      if !Printable(path) then Err(TypeErrorText)
      else match read(path)
      case Ok(text) => Ok(text)
      case Err(error) => Ok("Error reading file: " + error)
  }

  /** A tool handler: the decoded arguments to the result text, or `Err` when
      the handler's promise rejects. */
  type Handler = Args -> Result<string, string>

  /** `toolHandlers`. */
  function Registry(apiKey: Option<string>, service: SearchService, read: FileReader): map<string, Handler>
  {
    map[
      "think" := Think,
      "web_search" := (a: Args) => WebSearchReply(a, apiKey, service),
      "read_file" := (a: Args) => ReadFileReply(a, read)]
  }

  /** Every schema the model is shown has a handler, and every handler has a
      schema. */
  lemma RegistryMatchesSchemas(apiKey: Option<string>, service: SearchService, read: FileReader)
    ensures Registry(apiKey, service, read).Keys == set i | 0 <= i < |ToolSchemas| :: ToolSchemas[i].name
  {
    var names := set i | 0 <= i < |ToolSchemas| :: ToolSchemas[i].name;
    assert ToolSchemas[0].name in names && ToolSchemas[1].name in names && ToolSchemas[2].name in names;
  }

  /** An object with its own `toString` key, as `JSON.parse` gives for
      `{"toString":0}`. */
  const ToStringObject := JObject(map["toString" := JNumber(0.0)])

  /** `{"thought":[{"toString":0}]}` makes `think` throw when it prints the
      slice, `{"query":{"toString":0}}` makes `web_search` throw before the
      key check, and `{"path":{"toString":0}}` makes `read_file` throw
      before its `try`. */
  lemma NonPrintingArgsThrow(apiKey: Option<string>, service: SearchService, read: FileReader)
    ensures Think(JObject(map["thought" := JArray([ToStringObject])])) == Err(TypeErrorText)
    ensures WebSearchReply(JObject(map["query" := ToStringObject]), apiKey, service) == Err(TypeErrorText)
    ensures ReadFileReply(JObject(map["path" := ToStringObject]), read) == Err(TypeErrorText)
  {
    assert !Printable(JArray([ToStringObject])) by {
      assert ToStringObject in [ToStringObject];
    }
    assert [ToStringObject][..1] == [ToStringObject];
  }
}
