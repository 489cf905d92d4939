# financial-ai-agent: the deterministic text layer, in Dafny

The financial assistant hands its reasoning to a ReAct agent, a language model and a vector
store. Around them sits a layer of plain text handling that the repository writes itself, and
this project models that layer and proves what it promises:

- **Intent router** (`router.dfy`, app/router.py). An ordered list of regular-expression rules is
  tried on the lower-cased input and the first hit decides the action. Otherwise the language
  model routes, and it is a parameter here.
  - The rules are written out in a small regular-expression language with a relational matcher,
    `Regex.Match`. `re.search` is "some span matches".
  - The greeting rule is proved equal to a direct reading of it.
  - The `close TICKER` branch of the market-data rule is proved dead.
- **Agent** (`agent.dfy`, app/agent.py):
  - the two tool-name normalisations of `_as_tool`, with `BaseTool` as a class whose `name` is
    rewritten in place;
  - the hint chosen by `handle_query` for each action, and the one chosen by `handle_query_force`.
- **Session store** (`memory.dfy`, app/memory.py): `_STORE` as a class holding a map from
  session id to history objects, with `get_session_history` as a get-or-insert method.
- **Calculator and market-data tools** (`calculator.dfy`, `stock.dfy`): sanitising,
  tokenising, and dispatch on the command word. Every error the code catches becomes a text reply.
  - `float()`, the number formatting, `_safe_pe` and `yf.download` are parameters.
- **E-mail tools** (`email.dfy`, app/tools/email_tools.py):
  - `_sanitize`;
  - the `to:/subject:/body:` parser, a loop over lines whose state is three fields, a
    body-section flag and a buffer;
  - the draft builder;
  - `_smtp_conf`;
  - the send tool up to the choice of transport.
  - `validate_email`, `int()` and the environment are parameters.
- **Document search** (`rag.dfy`, app/tools/rag_finance_docs.py): `_format_docs`, and the tool's
  try/except around the retrieval-and-generation chain. The retriever and the chain are
  parameters.
- **Chat front end** (`chainlit.dfy`, app/ui/chainlit_app.py):
  - the `!tool:` prefix parser;
  - the greeting short-cut and the choice between forced and routed turns in `on_message`;
  - the 1200-character cut of observations.
- **Configuration** (`config.dfy`, app/config.py): the module's constants as a function of an
  environment map, the exit when there is no OpenAI key, and `validate_config`.

Shared modules:

- `Text` models the Python string operations the code relies on: `strip`, `lstrip`, `rstrip`
  with a character set, `split()`, `split(sep, 1)`, `splitlines`, `join`, `startswith`, `re.sub`
  over a character class, and `lower` and `upper` on ASCII and Latin-1 letters only.
- `Regex` holds the pattern language.
- `Wrappers` holds `Option`.

## Model

| member | source | states |
|---|---|---|
| Router.FirstMatch | app/router.py:32-35 | `None` exactly when no rule's pattern occurs in the text. Otherwise the action of a rule whose pattern occurs, with no earlier rule's pattern occurring. |
| Router.FastpathRoute | app/router.py:30-35 | The rules run on the lower-cased input. The result is `None` exactly when no pattern occurs in it. A result is always one of smalltalk, RAG, web, stock, calc, email. |
| Router.PatternActions | app/router.py:20-28 | Every rule's action lies in {smalltalk, RAG, web, stock, calc, email}. |
| Router.RouteQuery | app/router.py:40-54 | A fast-path hit gives that action with the original, un-lowered input. Otherwise the model's answer. |
| Router.FastpathBypassesModel | app/router.py:41-43 | On a fast-path hit the route does not depend on the model. Its query is the original input and its action is a fast-path action. |
| Router.FastpathIgnoresCase | app/router.py:31 | The fast path gives the same answer for an input and its lower-cased form. |
| Router.GreetingExact | app/router.py:21 | `^\s*(bonjour\|salut\|hello)\b` occurs exactly when the text, after its leading whitespace, starts with one of the three words and no word character follows. |
| Router.GreetingSound | app/router.py:21 | A match of the greeting pattern means a greeting word at the start after whitespace, ending at a word boundary. |
| Router.GreetingComplete | app/router.py:21 | Such a text always matches the greeting pattern. |
| Router.GreetingIsSmalltalk | app/router.py:21-34 | An input whose lower-cased form opens with a greeting word is routed to smalltalk, whatever follows. |
| Router.CreatorIdentityIsSmalltalk | app/router.py:22-34 | An input matching the creator-identity rule is routed to smalltalk, even when a later rule would also match. |
| Router.CloseTickerNeedsCapital | app/router.py:25 | A span matched by `close\s+[A-Z]{1,6}\b` holds an upper-case ASCII letter. |
| Router.CloseTickerIsDead | app/router.py:25-33 | On lower-cased input the market-data rule matches the same spans with or without its `close TICKER` branch, so that branch never decides anything. |
| Router.ModelOnlyActions | app/router.py:40-54 | A route whose action is outside the fast-path actions came from the model: no rule's pattern occurs in the input. |
| Agent.NormalizeToolName | app/agent.py:38 | The normalised tool name has no capital, space, `.` or `-`, and is no longer than the original. |
| Agent.NormalizeToolNameFixed | app/agent.py:38 | A name is left unchanged exactly when it has no capital, space, `.` or `-`. |
| Agent.NormalizeToolNameIdempotent | app/agent.py:38 | Normalising twice equals normalising once. |
| Agent.ReplaceNonIdentRuns | app/agent.py:47 | After replacing runs of characters outside `[A-Za-z0-9_]` with `_`, only `[A-Za-z0-9_]` remains, and the text is no longer. |
| Agent.ReplaceNonIdentRunsFixed | app/agent.py:47 | The replacement leaves a name unchanged exactly when it is made of `[A-Za-z0-9_]`. |
| Agent.SafeName | app/agent.py:47 | A callable's tool name contains only `[a-z0-9_]` and is no longer than the raw name. |
| Agent.SafeNameFixed | app/agent.py:47 | A raw name is kept exactly when it is already made of `[a-z0-9_]`. |
| Agent.SafeNameIdempotent | app/agent.py:47 | Naming a callable twice equals naming it once. |
| Agent.DescriptionOf | app/agent.py:51 | A missing or empty docstring becomes "Outil sans description.". Otherwise the docstring is kept. |
| Agent.AsTool | app/agent.py:29-53 | A tool object is returned itself, with its name normalised in place and its description kept. A callable becomes a fresh tool with the safe name (`custom_tool` when it has none) and the description. Anything else is returned unchanged. |
| Agent.ToolNamesUnchanged | app/agent.py:107-114 | The six registered tool names pass through both normalisations unchanged. |
| Agent.ToolFor | app/agent.py:156-162 | Every tool name in `action_to_tool` is non-empty and does not end in whitespace. |
| Agent.ToolHintKeepsName | app/agent.py:170 | For such a name, the stripped hint is the hint prefix followed by the name. |
| Agent.ToolHintEmpty | app/agent.py:170 | Without a tool name, the strip leaves exactly "UTILISE d'abord l'outil:". |
| Agent.RouteHint | app/agent.py:163-170 | Smalltalk gets the no-tool hint and email the draft/send hint. A mapped action gets the prefix and its tool. Every other action gets the bare "UTILISE d'abord l'outil:". |
| Agent.EmailEntryUnused | app/agent.py:161-168 | Removing the `"email"` entry of `action_to_tool` changes no hint. |
| Agent.ForcedHint | app/agent.py:177 | The forced hint is the prefix followed by the tool name, unstripped. |
| Agent.ForcedMatchesRouted | app/agent.py:170-177 | Forcing the tool the router maps an action to gives the routed hint for that action. |
| Agent.ForcedEmptyKeepsSpace | app/agent.py:170-177 | Forcing an empty tool name keeps the trailing space that the routed hint of an unmapped action strips. |
| Agent.HandleQuery | app/agent.py:154-172 | The agent receives the user's input unchanged. On a fast-path hit, the hint is the one for that action. |
| Agent.GreetingGetsSmalltalkHint | app/agent.py:154-165 | A greeting gets the smalltalk hint whatever the router's model would say. |
| Agent.HandleQueryForce | app/agent.py:175-178 | The router is bypassed: the input is unchanged and the hint is the forced hint. |
| Memory.SessionStore.GetSessionHistory | app/memory.py:10-14 | The result is the history stored under the id. An unseen id gets a fresh, empty history inserted under it. Otherwise the store is unchanged. Keys only grow, other entries and their messages stay as they were, and distinct ids keep distinct histories. |
| Memory.GetTwice | app/memory.py:10-14 | Two calls with the same id return the same object. |
| Memory.AppendToSession | app/memory.py:8-14 | Appending to one session's history leaves every other session's messages unchanged. |
| Calculator.Sanitize | app/tools/calculatrice_financiere.py:12 | The sanitised command has no quotes, only characters of the query, no leading whitespace and no final `.`, `:` or `;`. |
| Calculator.Tokens | app/tools/calculatrice_financiere.py:13-14 | Tokens are non-empty and hold no whitespace. There are none exactly when the sanitised command is blank. |
| Calculator.TokensUnquoted | app/tools/calculatrice_financiere.py:12-13 | No token holds a quote character. |
| Calculator.CalcFin | app/tools/calculatrice_financiere.py:11-30 | Each outcome holds exactly when its guard does: empty command; unknown word (only `cag`/`cagr`, any case); wrong arity; a number that does not parse; a number ≤ 0; otherwise the CAGR on the three parsed values. |
| Calculator.CagrInputsPositive | app/tools/calculatrice_financiere.py:23-25 | A growth rate is only computed from strictly positive inputs. |
| Calculator.RenderOnlyForCagr | app/tools/calculatrice_financiere.py:22-26 | Outside the CAGR case the answer does not depend on the number formatting. |
| Calculator.TokensOfJoin | app/tools/calculatrice_financiere.py:12-13 | Clean tokens joined by single spaces are tokenised back exactly. |
| Calculator.WellFormedCommand | app/tools/calculatrice_financiere.py:3-26 | A documented command such as `cagr 1000 1300 3` is a CAGR request on exactly those three numbers. |
| Calculator.CagrFromTokens | app/tools/calculatrice_financiere.py:17-26 | Four tokens led by the command word, with three positive numbers, give the CAGR on them. |
| Stock.SanitizeCmdClean | app/tools/stock_data_api.py:16-19 | The sanitised command has no quotes, no whitespace but single plain spaces, no leading space and no final `.`, `:` or `;`. |
| Stock.SanitizeCmdFixed | app/tools/stock_data_api.py:16-19 | A text with no quotes, single plain spaces, no space at either end and no final `.`, `:` or `;` is left unchanged by sanitising. |
| Stock.Tokenize | app/tools/stock_data_api.py:65 | Tokens are non-empty and hold no whitespace. |
| Stock.TokensHaveNoComma | app/tools/stock_data_api.py:65 | Commas separate tokens just as whitespace does: no token holds one. |
| Stock.JoinPlain | app/tools/stock_data_api.py:64-65 | Clean words (non-empty, no whitespace, comma or quote) joined by single spaces give plain, single-spaced text with no quote or comma and no space at either end. |
| Stock.PartsOfJoin | app/tools/stock_data_api.py:64-65 | Clean words joined by single spaces, the last not ending in `.`, `:` or `;`, are exactly the command's tokens. |
| Stock.LastCloseSpec | app/tools/stock_data_api.py:58 | The last close is `None` exactly when every price is NaN. Otherwise it is the last price that is not NaN. |
| Stock.CmdPe | app/tools/stock_data_api.py:39-46 | Fewer than two tokens give the usage text. Otherwise the ticker is upper-cased, and the reply is "unavailable" exactly when the provider has no P/E, else the provider's P/E. |
| Stock.CmdClose | app/tools/stock_data_api.py:48-61 | Fewer than two tokens give the usage text. Otherwise the ticker is upper-cased and period and interval default to `1mo` and `1d`. Which reply the provider's answer gives: an exception becomes the error text with its message; an empty table gives "no data"; a table with a non-NaN close gives that last close; a non-empty, all-NaN table gives the `IndexError` text. |
| Stock.CloseIgnoresExtraTokens | app/tools/stock_data_api.py:52-53 | Tokens after the fourth never reach the provider. |
| Stock.RunCommand | app/tools/stock_data_api.py:66-73 | Empty command; `pe` and `close` in any case go to their commands; any other word gives the unknown-command reply naming the lower-cased word. |
| Stock.TickerUpperCase | app/tools/stock_data_api.py:42-51 | Every reply naming a ticker names it without lower-case letters. |
| Email.SanitizeClean | app/tools/email_tools.py:15-19 | The sanitised text has no whitespace at its ends, only single plain spaces inside, hence no line break, and no typographic quote. |
| Email.SanitizeFixes | app/tools/email_tools.py:15-19 | Text already in that form is left unchanged, so sanitising is idempotent. |
| Email.KeyedHasColon | app/tools/email_tools.py:36-43 | A recognised line always holds a colon, so `split(":", 1)[1]` exists. |
| Email.NonBlank | app/tools/email_tools.py:30 | The kept lines are non-empty and no more than the input lines. |
| Email.ParseKeyvals | app/tools/email_tools.py:21-52 | The loop over the trimmed, non-blank lines, followed by the body continuation, computes the parser's specification. |
| Email.ScanKeepsLast | app/tools/email_tools.py:34-44 | Each field holds the value of the last line introducing it. The parser is in a body section exactly when the last recognised line was `body:`/`corps:`. |
| Email.ParseKeepsLast | app/tools/email_tools.py:29-52 | `to` and `subject` are the last values given. The body is the last one given unless a body section is still open at the end. |
| Email.BufferNeverReset | app/tools/email_tools.py:31-47 | The body buffer is never reset: the buffer after some lines is a prefix of the buffer after more lines. |
| Email.UnprefixedOnlyBuffered | app/tools/email_tools.py:45-47 | An unprefixed line changes nothing outside a body section. Inside one it is only appended to the buffer. |
| Email.OneLineOneField | app/tools/email_tools.py:30-44 | A text without line breaks sets at most one field. |
| Email.SanitizedSetsOneField | app/tools/email_tools.py:15-44 | Whatever the query, parsing its sanitised form sets at most one field. |
| Email.DraftLines | app/tools/email_tools.py:84-102 | The draft has a `to:` line exactly when a recipient is given. `subject:` and `body:` follow with "Demande d'information" and the fixed body as defaults. |
| Email.DraftEmail | app/tools/email_tools.py:73-102 | The draft is those lines joined by newlines, for the fields parsed from the sanitised query. |
| Email.BuildDraft | app/tools/email_tools.py:84-102 | The header list built step by step equals the draft lines. |
| Email.DraftWithRecipientIsDefault | app/tools/email_tools.py:81-100 | A draft that names a recipient always has the default subject and the default body. |
| Email.SmtpConf | app/tools/email_tools.py:61-70 | The port must parse. The configuration is complete exactly when host, user, password and sender are non-empty and the port is not 0. The sender defaults to the user. TLS is on exactly when the lower-cased `SMTP_TLS` is one of 1/true/yes/on. |
| Email.SmtpDefaults | app/tools/email_tools.py:63-67 | With `SMTP_PORT` and `SMTP_TLS` unset, the port is 587 and TLS is on. |
| Email.TransportFor | app/tools/email_tools.py:142-154 | Implicit SSL exactly when TLS is on and the port is 465. Otherwise plain SMTP, upgraded with STARTTLS exactly when TLS is on. |
| Email.SendFields | app/tools/email_tools.py:123-156 | The missing-field reply comes exactly when a field is missing or empty. Then come the address check, then the configuration. A sent message carries the normalised address, the configured sender, the subject, the body and the chosen transport. |
| Email.MissingBeforeValidation | app/tools/email_tools.py:125-134 | A missing field is reported whatever the validator, environment and port parser. |
| Email.SendAlwaysMissing | app/tools/email_tools.py:123-131 | As written, sending always ends in the missing-field reply. |
| Email.CorrectedParsesAllFields | app/tools/email_tools.py:15-52 | With line-by-line sanitising, the documented `to:`/`subject:`/`body:` request parses into all three fields. |
| Email.CorrectedSendGetsPastFormat | app/tools/email_tools.py:123-134 | The same well-formed request is refused as written and gets past the format check once corrected. |
| Rag.Contents | app/tools/rag_finance_docs.py:40 | The passages' texts, in retrieval order. |
| Rag.FormatDocs | app/tools/rag_finance_docs.py:34-40 | No passages give `""`. One passage gives its text unchanged. |
| Rag.FormatDocsLayout | app/tools/rag_finance_docs.py:40 | Each passage's text sits at its offset. The separator follows every passage but the last. The block ends where the last passage ends. |
| Rag.FormatDocsAppend | app/tools/rag_finance_docs.py:40 | One more passage adds the separator and its text at the end, so order is kept. |
| Rag.SearchFinancialDocuments | app/tools/rag_finance_docs.py:71-77 | The chain's answer is returned unchanged on success, with the retriever asked for 4 passages. If the retriever or the generation raises, the fixed error text is returned. Any other answer is the generated one. |
| Chainlit.FirstWord | app/ui/chainlit_app.py:37-40 | `split(" ", 1)` gives a first part without a space, and the parts rejoin to the text. Without a space it gives `(after, "")`. |
| Chainlit.ToolName | app/ui/chainlit_app.py:36-41 | The tool name has no space and no whitespace at its ends. |
| Chainlit.QueryOf | app/ui/chainlit_app.py:38-41 | The query is `" "` or a non-empty text without whitespace at its ends. It is never empty. |
| Chainlit.ParseForceTool | app/ui/chainlit_app.py:29-42 | No tool exactly when the trimmed, lower-cased message does not start with `!tool:`, and then the message comes back untrimmed. Otherwise the name and query come from the trimmed rest. |
| Chainlit.ForceRoundTrip | app/ui/chainlit_app.py:34-41 | `!tool:` in any case, a name without whitespace, a space and a trimmed query parse back into that name and query. |
| Chainlit.ForceWithoutQuery | app/ui/chainlit_app.py:36-41 | A forced name with nothing after it gets the one-space query. |
| Chainlit.OnMessage | app/ui/chainlit_app.py:67-81 | The greeting reply comes exactly when the trimmed, lower-cased text is bonjour, salut or hello. Otherwise a non-empty forced tool wins, and else the trimmed text is routed. |
| Chainlit.PaddedGreeting | app/ui/chainlit_app.py:67-72 | A greeting word in any case, with whitespace around it, gets the greeting reply. |
| Chainlit.EmptyForceIsRouted | app/ui/chainlit_app.py:75-81 | A bare `!tool:` forces nothing and the message is routed. |
| Chainlit.TruncateObservation | app/ui/chainlit_app.py:97 | Observations up to 1200 characters are shown whole. Longer ones show their first 1200 characters and `…`. |
| Chainlit.TruncateStable | app/ui/chainlit_app.py:97 | What is shown never exceeds 1201 characters, and cutting it again changes nothing. |
| Config.Lookup | app/config.py:75 | `os.getenv(key)` is the value exactly when the variable is set. |
| Config.Getenv | app/config.py:43 | A variable that is set wins, even when empty. Otherwise the default. |
| Config.Or | app/config.py:30 | Python `or`: the first value when it is non-empty, else the second. |
| Config.OpenAiKey | app/config.py:30 | The key is `OPENAI_API_KEY` when it is non-empty, else `openai_key`. It is present exactly when one of the two is non-empty. |
| Config.LoadConfig | app/config.py:30-75 | Loading exits with the fixed message exactly when there is no OpenAI key. Otherwise each constant is its variable or its default: gpt-4o-mini, Diallo Mamadou Cherif, data, vectorstore (from `PERSIST_PATH`), faiss (from `VECTORSTORE_BACKEND`), and the optional Tavily key. |
| Config.EmptyKeyFallsBack | app/config.py:30-38 | An empty `OPENAI_API_KEY` counts as absent and `openai_key` is used. |
| Config.LoadDefaults | app/config.py:43-75 | With only the OpenAI key set, every other constant takes its default and there is no Tavily key. |
| Config.MissingKeys | app/config.py:80-82 | The missing keys are listed in the order `OPENAI_API_KEY`, `TAVILY_API_KEY`, each exactly when its value is absent or empty. |
| Config.ValidateConfig | app/config.py:79-84 | Returns normally exactly when both keys are present. Otherwise it exits with the missing keys joined by ", ". |
| Config.LoadedMissesOnlyTavily | app/config.py:30-84 | Once the module has loaded, `validate_config` can only ever report the Tavily key. |

## Left out

- Router.FastpathRoute: Python's `str.lower()` is modelled exactly on ASCII and Latin-1. Other letters are kept as they are.
- Router.GreetingExact: `\b` treats characters above U+00FF as non-word characters. Python treats Unicode letters beyond that as word characters.
- Router.RouteQuery: the language-model fallback is a parameter returning a route. Its prompt, its JSON schema and pydantic's checking are not modelled.
- Agent.AsTool: the failure paths are not modelled. These are the `try` around importing `BaseTool` and the `try`/`except: pass` around the name assignment, which is taken to succeed.
- Agent.HandleQuery: the agent invocation with memory (`_invoke_with_memory`, `with_memory`) is left out. The model stops at the payload `{input, hint}`, because what the agent does with it is library behaviour.
- Memory.SessionStore.GetSessionHistory: the chat history is modelled as a class holding the list of message texts. `RunnableWithMessageHistory`, which decides when messages are appended, is not modelled.
- Calculator.CalcFin: `float()` is the parameter `parseFloat`. The growth-rate arithmetic `(v1/v0)**(1/n) - 1` and its `:.4%`/`:g` formatting are the parameter `render`, because floating-point numerics are out of scope. NaN and infinity are not modelled. An `OverflowError` raised by `**` (for example on `cagr 1 1e300 0.5`) escapes the tool, because only `ValueError` is caught; the model has no such outcome.
- Stock.CmdPe: `_safe_pe` is the parameter `safePe` and `yf.download` the parameter `download`. The `:.2f` formatting is the parameter of `Stock.Message`.
- Stock.CmdPe and Stock.CmdClose: `upper()` on the ticker is modelled only on ASCII and the Latin-1 letters U+00E0–U+00FE. Python also maps `ß` to "SS", `ÿ` to U+0178, `µ` to U+039C and letters above U+00FF, which the model keeps as they are.
- Email.SmtpConf: `int()` on the port is the parameter `parseInt`.
- Email.SendFields: `validate_email` is the parameter `validate`, whose invalid case stands for the raised `ValueError`. The SMTP session itself (login, `send_message`, network errors) is not modelled; the model stops at the message and the chosen transport.
- Rag.SearchFinancialDocuments: the retriever and the prompt/model/parser chain are the parameters `retrieve` and `generate`. The prompt text and the vector store are not modelled.
- Chainlit.OnMessage: the async handlers, message sending, the global agent/router state, uuid session ids and the loop building the scratchpad log are left out. They are UI plumbing; only the cut of each observation is modelled.
- Config.LoadConfig: `load_dotenv` and reading the real process environment are left out. The environment is a map given as input.
- The ReAct loop settings (iterations, parsing errors, early stopping) and the system prompt are configuration of library code, not logic of this repository.
- Indexing and retrieval (rag/ingest.py, rag/retriever.py) and the web-search tool (app/tools/recherche_web_tavily.py) are I/O and foreign libraries, and are not part of this model.

## Findings

| source | as written | input that shows it | evidently intended | confidence | as-written member | corrected member |
|---|---|---|---|---|---|---|
| app/tools/email_tools.py:15-19 | `_sanitize` turns every whitespace run, newlines included, into one space before `_parse_keyvals` splits the text into lines. The parser sees one line and sets at most one field, so `_send_email_smtp_fn` always answers "Format manquant". | `"to: a@b.fr\nsubject: Objet\nbody: Bonjour"` becomes one line. `to` is `"a@b.fr subject: Objet body: Bonjour"`, and subject and body are missing. | Sanitise each line on its own, keeping the line breaks the parser needs. The documented three-line request then parses into all three fields. | not executed | Email.SendAlwaysMissing | Email.CorrectedSendGetsPastFormat |
