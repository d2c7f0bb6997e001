/** The agent profiles of agents.ts: the tool subsets filtered out of the
    catalogue, the table of the four agents, and the assembly of a system
    prompt from a base prompt, the saved memory and the Bun reference. */
module Agents {
  import opened Wrappers
  import opened Text
  import opened Tools

  datatype AgentKey = Research | Code | Reasoning | General

  /** The keys of the providers table (providers.ts). */
  datatype ProviderKey = DeepSeek | Mistral | Groq | OpenAI | Ollama

  /** An agent profile.  `provider` is `None` where the table names a
      provider the providers table does not define. */
  datatype Agent = Agent(
    name: string,
    provider: Option<ProviderKey>,
    systemPrompt: string,
    tools: seq<ToolSchema>,
    description: string)

  // ---------------------------------------------------------------------------
  // Tool subsets
  // ---------------------------------------------------------------------------

  /** `schemas.filter(t => allow.includes(t.function.name))`. */
  function Filter(schemas: seq<ToolSchema>, allow: seq<string>): seq<ToolSchema>
    decreases |schemas|
  {
    if schemas == [] then []
    else (if schemas[0].name in allow then [schemas[0]] else []) + Filter(schemas[1..], allow)
  }

  /** `a` is `b` with some elements dropped, the rest kept in order. */
  predicate Subsequence<T(==)>(a: seq<T>, b: seq<T>)
    decreases |b|
  {
    a == [] || (b != [] && ((a[0] == b[0] && Subsequence(a[1..], b[1..])) || Subsequence(a, b[1..])))
  }

  /** A filtered subset keeps the catalogue's order and holds exactly the
      schemas whose names are allowed. */
  lemma {:induction false} FilterKeepsOrder(schemas: seq<ToolSchema>, allow: seq<string>)
    ensures Subsequence(Filter(schemas, allow), schemas)
    ensures forall t :: t in Filter(schemas, allow) <==> t in schemas && t.name in allow
    ensures (forall i :: 0 <= i < |schemas| ==> schemas[i].name in allow) ==> Filter(schemas, allow) == schemas
    decreases |schemas|
  {
    if schemas != [] {
      FilterKeepsOrder(schemas[1..], allow);
      var rest := Filter(schemas[1..], allow);
      if schemas[0].name in allow {
        assert Filter(schemas, allow) == [schemas[0]] + rest;
        assert ([schemas[0]] + rest)[1..] == rest;
      } else {
        assert Filter(schemas, allow) == rest;
      }
      assert schemas == [schemas[0]] + schemas[1..];
    }
  }

  const FileToolNames := ["read_file", "write_file", "append_file", "list_files", "calculator"]
  const ResearchToolNames := ["think", "web_search", "fetch_url", "save_research", "get_research", "search_history", "calculator"]
  const MinimalToolNames := ["think", "calculator"]

  function AllTools(): seq<ToolSchema> { ToolSchemas }
  function FileTools(): seq<ToolSchema> { Filter(ToolSchemas, FileToolNames) }
  function ResearchTools(): seq<ToolSchema> { Filter(ToolSchemas, ResearchToolNames) }
  function MinimalTools(): seq<ToolSchema> { Filter(ToolSchemas, MinimalToolNames) }

  /** Over the three schemas of the catalogue the allow-lists leave read_file
      for files, think and web_search for research, and think alone. */
  lemma ToolSubsets()
    ensures FileTools() == [ReadFileSchema]
    ensures ResearchTools() == [ThinkSchema, WebSearchSchema]
    ensures MinimalTools() == [ThinkSchema]
    ensures AllTools() == [ThinkSchema, WebSearchSchema, ReadFileSchema]
  {
    var tail1 := ToolSchemas[1..];
    var tail2 := tail1[1..];
    assert tail1 == [WebSearchSchema, ReadFileSchema];
    assert tail2 == [ReadFileSchema];
    assert tail2[1..] == [];
    assert ThinkSchema.name == "think" && WebSearchSchema.name == "web_search" && ReadFileSchema.name == "read_file";
    assert "think" !in FileToolNames && "web_search" !in FileToolNames && "read_file" in FileToolNames;
    assert "think" in ResearchToolNames && "web_search" in ResearchToolNames && "read_file" !in ResearchToolNames;
    assert "think" in MinimalToolNames && "web_search" !in MinimalToolNames && "read_file" !in MinimalToolNames;
    assert Filter(tail2, FileToolNames) == [ReadFileSchema];
    assert Filter(tail2, ResearchToolNames) == [];
    assert Filter(tail2, MinimalToolNames) == [];
    assert Filter(tail1, FileToolNames) == [ReadFileSchema];
    assert Filter(tail1, ResearchToolNames) == [WebSearchSchema];
    assert Filter(tail1, MinimalToolNames) == [];
  }

  // ---------------------------------------------------------------------------
  // Prompts
  // ---------------------------------------------------------------------------

  // The base prompts are kept to their opening line: nothing in the program
  // inspects their text.
  const ResearchPrompt := "You are a Research Specialist AI agent with dynamic strategy selection."
  const CodePrompt := "You are a Code Specialist AI agent focused on building websites, applications, and working with local files."
  const ReasoningPrompt := "You are an Analysis and Reasoning specialist AI agent."
  const GeneralPrompt := "You are a helpful AI assistant with access to various tools."

  /** `basePrompts[agentKey]`. */
  function BasePrompt(key: AgentKey): string
  {
    match key
    case Research => ResearchPrompt
    case Code => CodePrompt
    case Reasoning => ReasoningPrompt
    case General => GeneralPrompt
  }

  const MemoryHeader := "\n## Your Memory (from previous sessions)\n"
  const BunRefHeader := "\n## Bun API Reference (verified local docs)\nThe following APIs are CONFIRMED to exist in this project's Bun runtime. When suggesting code improvements, use ONLY these APIs.\n"

  function MemorySection(memory: string): string
  {
    if Trim(memory) != "" then MemoryHeader + Trim(memory) + "\n" else ""
  }

  function BunRefSection(bunRef: string): string
  {
    if Trim(bunRef) != "" then BunRefHeader + Trim(bunRef) + "\n" else ""
  }

  /** `getAgentSystemPrompt`. */
  function GetAgentSystemPrompt(key: AgentKey, memory: string, bunRef: string): string
  {
    BasePrompt(key) + MemorySection(memory) + BunRefSection(bunRef)
  }

  /** The memory section is empty exactly when the memory is all white space;
      otherwise it is its header, the trimmed memory (which neither starts nor
      ends with white space) and a newline. */
  lemma MemorySectionShape(memory: string)
    ensures MemorySection(memory) == "" <==> AllSpace(memory)
    ensures !AllSpace(memory) ==>
              MemorySection(memory) == MemoryHeader + Trim(memory) + "\n"
              && !IsSpace(Trim(memory)[0]) && !IsSpace(Trim(memory)[|Trim(memory)| - 1])
  {
    TrimEmptyIff(memory);
    TrimShape(memory);
  }

  /** The same for the Bun-reference section. */
  lemma BunRefSectionShape(bunRef: string)
    ensures BunRefSection(bunRef) == "" <==> AllSpace(bunRef)
    ensures !AllSpace(bunRef) ==>
              BunRefSection(bunRef) == BunRefHeader + Trim(bunRef) + "\n"
              && !IsSpace(Trim(bunRef)[0]) && !IsSpace(Trim(bunRef)[|Trim(bunRef)| - 1])
  {
    TrimEmptyIff(bunRef);
    TrimShape(bunRef);
  }

  // ---------------------------------------------------------------------------
  // The agents table
  // ---------------------------------------------------------------------------

  /** `agents[key]`. */
  function AgentFor(key: AgentKey): Agent
  {
    match key
    case Research => Agent("Research Agent", Some(DeepSeek), ResearchPrompt, ResearchTools(), "Research and information gathering")
    case Code => Agent("Code Agent", None, CodePrompt, FileTools(), "Building websites and coding")
    case Reasoning => Agent("Reasoning Agent", Some(DeepSeek), ReasoningPrompt, MinimalTools(), "Analysis and deep thinking")
    case General => Agent("General Agent", Some(DeepSeek), GeneralPrompt, AllTools(), "General purpose assistant")
  }

  /** The assembled prompt starts with the table's prompt for the same key,
      memory comes before the Bun reference, and with blank memory and a
      blank reference it is the table's prompt itself. */
  lemma SystemPromptLayout(key: AgentKey, memory: string, bunRef: string)
    ensures AgentFor(key).systemPrompt <= GetAgentSystemPrompt(key, memory, bunRef)
    ensures GetAgentSystemPrompt(key, memory, bunRef)
              == AgentFor(key).systemPrompt + MemorySection(memory) + BunRefSection(bunRef)
    ensures AllSpace(memory) && AllSpace(bunRef) ==>
              GetAgentSystemPrompt(key, memory, bunRef) == AgentFor(key).systemPrompt
  {
    assert AgentFor(key).systemPrompt == BasePrompt(key);
    var sections := MemorySection(memory) + BunRefSection(bunRef);
    AppendAssoc(BasePrompt(key), MemorySection(memory), BunRefSection(bunRef));
    if AllSpace(memory) && AllSpace(bunRef) {
      TrimEmptyIff(memory);
      TrimEmptyIff(bunRef);
      assert sections == [];
    }
  }

  /** Research gets the research subset, code the file subset, reasoning the
      minimal subset and general the whole catalogue; every agent's tools
      appear in the catalogue's order. */
  lemma AgentTools(key: AgentKey)
    ensures key == Research ==> AgentFor(key).tools == [ThinkSchema, WebSearchSchema]
    ensures key == Code ==> AgentFor(key).tools == [ReadFileSchema]
    ensures key == Reasoning ==> AgentFor(key).tools == [ThinkSchema]
    ensures key == General ==> AgentFor(key).tools == ToolSchemas
    ensures Subsequence(AgentFor(key).tools, ToolSchemas)
  {
    ToolSubsets();
    match key
    case Research => FilterKeepsOrder(ToolSchemas, ResearchToolNames);
    case Code => FilterKeepsOrder(ToolSchemas, FileToolNames);
    case Reasoning => FilterKeepsOrder(ToolSchemas, MinimalToolNames);
    case General => SubsequenceRefl(ToolSchemas);
  }

  lemma {:induction false} SubsequenceRefl<T>(s: seq<T>)
    ensures Subsequence(s, s)
    decreases |s|
  {
    if s != [] {
      SubsequenceRefl(s[1..]);
    }
  }
}
