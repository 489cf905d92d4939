/**
 * The deterministic layer of the agent (app/agent.py): tool-name normalisation when
 * tools are registered, and the hint text handed to the agent for each routed action.
 */
module Agent {
  import opened Wrappers
  import opened Text
  import opened Router

  // ---------------------------------------------------------------- tool registration

  /** A tool object of the agent framework; `_as_tool` rewrites its name in place. */
  class BaseTool {
    var name: string
    var description: string

    constructor (name: string, description: string)
      ensures this.name == name && this.description == description
    {
      this.name := name;
      this.description := description;
    }
  }

  /** What `_as_tool` can be given: a tool object, a plain callable, or anything else. */
  datatype ToolSource =
    | Tool(tool: BaseTool)
    | Callable(fnName: Option<string>, doc: Option<string>)  // `__name__` and `__doc__`, when present
    | Other

  const DefaultToolName := "custom_tool"
  const DefaultDescription := "Outil sans description."

  /** `obj.name.lower().replace(" ", "_").replace(".", "").replace("-", "_")` */
  function NormalizeToolName(name: string): (r: string)
    ensures |r| <= |name|
    ensures forall i :: 0 <= i < |r| ==> r[i] != ' ' && r[i] != '.' && r[i] != '-'
    ensures forall i :: 0 <= i < |r| ==> !IsUpperCase(r[i])
  {
    var lowered := LowerStr(name);
    var spaced := ReplaceChars(lowered, {' '}, '_');
    var undotted := RemoveChars(spaced, {'.'});
    assert forall i :: 0 <= i < |undotted| ==> undotted[i] in spaced;
    ReplaceChars(undotted, {'-'}, '_')
  }

  /** Lower-casing changes nothing in a text without capitals. */
  lemma LowerStrNoCapitals(s: string)
    requires forall i :: 0 <= i < |s| ==> !IsUpperCase(s[i])
    ensures LowerStr(s) == s
  {
  }

  /** A name already in normal form is left as it is, and only such names are. */
  lemma NormalizeToolNameFixed(name: string)
    ensures NormalizeToolName(name) == name
        <==> forall i :: 0 <= i < |name| ==>
               !IsUpperCase(name[i]) && name[i] != ' ' && name[i] != '.' && name[i] != '-'
  {
    if forall i :: 0 <= i < |name| ==>
         !IsUpperCase(name[i]) && name[i] != ' ' && name[i] != '.' && name[i] != '-'
    {
      LowerStrNoCapitals(name);
      assert ReplaceChars(name, {' '}, '_') == name;
      assert ReplaceChars(name, {'-'}, '_') == name;
    }
  }

  /** Normalising a tool name twice is the same as normalising it once. */
  lemma NormalizeToolNameIdempotent(name: string)
    ensures NormalizeToolName(NormalizeToolName(name)) == NormalizeToolName(name)
  {
    NormalizeToolNameFixed(NormalizeToolName(name));
  }

  /** The characters `[A-Za-z0-9_]` that `re.sub(r"[^a-zA-Z0-9_]+", "_", raw)` keeps. */
  predicate IsIdentChar(c: char) {
    ('a' <= c <= 'z') || ('A' <= c <= 'Z') || ('0' <= c <= '9') || c == '_'
  }

  /** The characters `[a-z0-9_]` of a normalised callable name. */
  predicate IsSnakeChar(c: char) {
    ('a' <= c <= 'z') || ('0' <= c <= '9') || c == '_'
  }

  /** Length of the leading run of characters outside `[A-Za-z0-9_]`. */
  function NonIdentRun(s: string): (n: nat)
    ensures n <= |s|
    ensures forall i :: 0 <= i < n ==> !IsIdentChar(s[i])
    ensures n == |s| || IsIdentChar(s[n])
  {
    if s == [] || IsIdentChar(s[0]) then 0 else 1 + NonIdentRun(s[1..])
  }

  /** `re.sub(r"[^a-zA-Z0-9_]+", "_", raw)`: every maximal run of other characters becomes one `_`. */
  function ReplaceNonIdentRuns(s: string): (r: string)
    ensures |r| <= |s|
    ensures forall i :: 0 <= i < |r| ==> IsIdentChar(r[i])
    decreases |s|
  {
    if s == [] then []
    else if IsIdentChar(s[0]) then [s[0]] + ReplaceNonIdentRuns(s[1..])
    else "_" + ReplaceNonIdentRuns(s[NonIdentRun(s)..])
  }

  /** A name made only of `[A-Za-z0-9_]` is left as it is, and only such names are. */
  lemma {:induction false} ReplaceNonIdentRunsFixed(s: string)
    ensures ReplaceNonIdentRuns(s) == s <==> forall i :: 0 <= i < |s| ==> IsIdentChar(s[i])
    decreases |s|
  {
    if s != [] {
      ReplaceNonIdentRunsFixed(s[1..]);
      if IsIdentChar(s[0]) {
        assert ReplaceNonIdentRuns(s) == [s[0]] + ReplaceNonIdentRuns(s[1..]);
        if forall i :: 0 <= i < |s[1..]| ==> IsIdentChar(s[1..][i]) {
          assert ReplaceNonIdentRuns(s) == [s[0]] + s[1..];
          assert [s[0]] + s[1..] == s;
        }
        if ReplaceNonIdentRuns(s) == s {
          assert ReplaceNonIdentRuns(s[1..]) == s[1..];
        }
      }
    }
  }

  /** `re.sub(r"[^a-zA-Z0-9_]+", "_", raw).lower()`: the name given to a wrapped callable. */
  function SafeName(raw: string): (r: string)
    ensures |r| <= |raw|
    ensures forall i :: 0 <= i < |r| ==> IsSnakeChar(r[i])
  {
    LowerStr(ReplaceNonIdentRuns(raw))
  }

  /** Lower-casing a text of `[A-Za-z0-9_]` lower-cases only its ASCII capitals. */
  lemma LowerIdentChars(s: string)
    requires forall i :: 0 <= i < |s| ==> IsIdentChar(s[i])
    ensures LowerStr(s) == s <==> forall i :: 0 <= i < |s| ==> IsSnakeChar(s[i])
  {
    if LowerStr(s) == s {
      forall i | 0 <= i < |s| ensures IsSnakeChar(s[i]) {
        assert Lower(s[i]) == s[i];
      }
    }
  }

  /** A callable's name is kept exactly when it is already made of `[a-z0-9_]`. */
  lemma SafeNameFixed(raw: string)
    ensures SafeName(raw) == raw <==> forall i :: 0 <= i < |raw| ==> IsSnakeChar(raw[i])
  {
    var t := ReplaceNonIdentRuns(raw);
    if forall i :: 0 <= i < |raw| ==> IsSnakeChar(raw[i]) {
      ReplaceNonIdentRunsFixed(raw);
      LowerIdentChars(raw);
    }
  }

  /** Naming a callable twice is the same as naming it once. */
  lemma SafeNameIdempotent(raw: string)
    ensures SafeName(SafeName(raw)) == SafeName(raw)
  {
    SafeNameFixed(SafeName(raw));
  }

  /** `obj.__doc__ or "Outil sans description."`: a missing or empty docstring gets the default. */
  function DescriptionOf(doc: Option<string>): (r: string)
    ensures r != []
    ensures doc.Some? && doc.value != [] ==> r == doc.value
  {
    if doc.Some? && doc.value != [] then doc.value else DefaultDescription
  }

  /**
   * `_as_tool`: a tool object gets its name normalised in place and is returned itself;
   * a callable is wrapped in a new tool named after it; anything else is returned unchanged.
   */
  method AsTool(src: ToolSource) returns (r: ToolSource)
    modifies if src.Tool? then {src.tool} else {}
    ensures src.Tool? ==> r == src && src.tool.name == NormalizeToolName(old(src.tool.name))
    ensures src.Tool? ==> src.tool.description == old(src.tool.description)
    ensures src.Callable? ==> r.Tool? && fresh(r.tool)
    ensures src.Callable? ==> r.tool.name == SafeName(src.fnName.GetOr(DefaultToolName))
    ensures src.Callable? ==> r.tool.description == DescriptionOf(src.doc)
    ensures src.Other? ==> r == src
  {
    match src
    case Tool(t) =>
      t.name := NormalizeToolName(t.name);
      r := src;
    case Callable(fnName, doc) =>
      var t := new BaseTool(SafeName(fnName.GetOr(DefaultToolName)), DescriptionOf(doc));
      r := Tool(t);
    case Other =>
      r := src;
  }

  /** The names of the six tools the agent registers. */
  const ToolNames: seq<string> := [
    "search_financial_documents", "search_web_tavily", "stock_data_api",
    "calculatrice_financiere", "draft_email", "send_email_smtp"]

  /** The six registered tool names are already normal: registration keeps them as they are. */
  lemma ToolNamesUnchanged()
    ensures forall i :: 0 <= i < |ToolNames| ==>
              NormalizeToolName(ToolNames[i]) == ToolNames[i] && SafeName(ToolNames[i]) == ToolNames[i]
  {
    forall i | 0 <= i < |ToolNames|
      ensures NormalizeToolName(ToolNames[i]) == ToolNames[i] && SafeName(ToolNames[i]) == ToolNames[i]
    {
      SnakeNameFixed(ToolNames[i]);
    }
  }

  /** A name made only of `[a-z0-9_]` is kept by both normalisations. */
  lemma SnakeNameFixed(n: string)
    requires forall j :: 0 <= j < |n| ==> IsSnakeChar(n[j])
    ensures NormalizeToolName(n) == n && SafeName(n) == n
  {
    NormalizeToolNameFixed(n);
    SafeNameFixed(n);
  }

  // ---------------------------------------------------------------- hints

  /** `action_to_tool` in `handle_query`. */
  function ToolFor(action: Action): (tool: Option<string>)
    ensures tool.Some? ==> tool.value != [] && !IsSpace(tool.value[|tool.value| - 1])
  {
    match action
    case Calc => Some("calculatrice_financiere")
    case Stock => Some("stock_data_api")
    case Web => Some("search_web_tavily")
    case RAG => Some("search_financial_documents")
    case Email => Some("draft_email")
    case _ => None
  }

  /** The tool hint's words, and the prefix they form with the separating space. */
  const HintHead := "UTILISE d'abord l'outil:"
  const HintPrefix := HintHead + " "
  const SmalltalkHint :=
    "C'est du smalltalk. Réponds SANS outil, mais en utilisant OBLIGATOIREMENT le format 'Final Answer:'."
  const EmailHint :=
    "Si to/subject/body manquent → Action: draft_email. Sinon et si l'utilisateur confirme → Action: send_email_smtp."

  /** What the agent is invoked with: the user's text and the hint. */
  datatype Payload = Payload(input: string, hint: string)

  /** `f"UTILISE d'abord l'outil: {tool}".strip()` */
  function ToolHint(tool: string): string {
    Strip(HintPrefix + tool)
  }

  /** A tool name that does not end in whitespace survives the strip. */
  lemma ToolHintKeepsName(tool: string)
    requires tool != [] && !IsSpace(tool[|tool| - 1])
    ensures ToolHint(tool) == HintPrefix + tool
  {
    var s := HintPrefix + tool;
    assert s[0] == 'U' && s[|s| - 1] == tool[|tool| - 1];
    StripUnchanged(s);
  }

  /** Without a tool name the strip removes the prefix's trailing space. */
  lemma ToolHintEmpty()
    ensures ToolHint("") == HintHead
  {
    assert HintPrefix + "" == HintPrefix;
    StripAt(HintPrefix, 0, |HintHead|);
    assert HintPrefix[..|HintHead|] == HintHead;
  }

  /** The hint chosen by `handle_query` for an action, looking tools up in `table`. */
  function HintFrom(action: Action, table: Action -> Option<string>): string {
    if action == Smalltalk then SmalltalkHint
    else if action == Email then EmailHint
    else ToolHint(table(action).GetOr(""))
  }

  /** The hint of `handle_query` for a routed action. */
  function RouteHint(action: Action): (h: string)
    ensures action == Smalltalk ==> h == SmalltalkHint
    ensures action == Email ==> h == EmailHint
    ensures action != Email && ToolFor(action).Some? ==> h == HintPrefix + ToolFor(action).value
    ensures action != Smalltalk && ToolFor(action).None? ==> h == HintHead
  {
    if action != Email && ToolFor(action).Some? then
      ToolHintKeepsName(ToolFor(action).value);
      HintFrom(action, ToolFor)
    else
      ToolHintEmpty();
      HintFrom(action, ToolFor)
  }

  /** `action_to_tool` without its `"email"` entry. */
  function ToolForWithoutEmail(action: Action): Option<string> {
    if action == Email then None else ToolFor(action)
  }

  /** The `"email"` entry of `action_to_tool` is never consulted: the table without it gives the same hints. */
  lemma EmailEntryUnused(action: Action)
    ensures RouteHint(action) == HintFrom(action, ToolForWithoutEmail)
  {
  }

  /** `handle_query_force`: the forced tool name after the prefix, with no stripping. */
  function ForcedHint(toolName: string): (h: string)
    ensures StartsWith(h, HintPrefix) && h[|HintPrefix|..] == toolName
  {
    HintPrefix + toolName
  }

  /** Forcing the tool the router would pick for a tool action gives the router's own hint. */
  lemma ForcedMatchesRouted(action: Action)
    requires action != Email && ToolFor(action).Some?
    ensures ForcedHint(ToolFor(action).value) == RouteHint(action)
  {
  }

  /** Forcing an empty tool name keeps the trailing space that the routed hint of an unmapped action strips. */
  lemma ForcedEmptyKeepsSpace(action: Action)
    requires action != Smalltalk && ToolFor(action).None?
    ensures ForcedHint("") == RouteHint(action) + " "
  {
    assert HintPrefix + "" == HintHead + " ";
  }

  /** `handle_query`: route the input, then invoke the agent with the input and the route's hint. */
  function HandleQuery(model: string -> Route, userInput: string): (p: Payload)
    ensures p.input == userInput
    ensures FastpathRoute(userInput).Some? ==> p.hint == RouteHint(FastpathRoute(userInput).value)
  {
    Payload(userInput, RouteHint(RouteQuery(model, userInput).action))
  }

  /** A greeting gets the no-tool hint whatever the router's model would say. */
  lemma GreetingGetsSmalltalkHint(model: string -> Route, userInput: string)
    requires StartsWithGreeting(LowerStr(userInput))
    ensures HandleQuery(model, userInput).hint == SmalltalkHint
  {
    GreetingIsSmalltalk(userInput);
  }

  /** `handle_query_force`: the router is bypassed. */
  function HandleQueryForce(userInput: string, toolName: string): (p: Payload)
    ensures p.input == userInput && p.hint == ForcedHint(toolName)
  {
    Payload(userInput, ForcedHint(toolName))
  }
}
