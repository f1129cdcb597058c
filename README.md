# Flight assistant agent: a Dafny model

The flight assistant answers a customer's questions with a ReAct-style agent. On each turn it
asks a language model for the next step. The step is either an action, naming a tool and a
JSON action input, or a finish carrying the answer. For an action the assistant:

- looks the tool up by name in a class-level list shared by every assistant;
- strips comments from the action input;
- parses the input as JSON and calls the tool;
- appends the action and the rendered observation to the scratchpad the model sees next.

The model covers that machinery in `flightAssistant.py`:

- `wrappers.dfy`: `Option` and `Result`.
- `json_comments.dfy`: `remove_json_comments`, the `re.sub` of
  `/\*.*?\*/|//.*?$` under MULTILINE, as a left-to-right scanner. At each position the
  block alternative is tried first, then the line alternative. `.` never matches a newline, so:
  - a block comment must close on the line it opens on;
  - a line comment stops before the newline.
- `tools.dfy`: the tool list and its defaults; `find_tool_by_name`, as a spec function plus a
  loop method proved against it; the `", "`-joined `tool_names` and its inverse split; the
  `_get_customer_feature` decision; the query filters of `get_scheduled_flights` and
  `get_flight_detail`.
- `flight_assistant.dfy`:
  - the shared tool list as the class `ToolRegistry`, whose `Valid()` says the three decorated
    tools lead it: the source only ever appends to the list;
  - `TheFlightAssistant`, whose constructor appends the `search_qa` retriever tool and fixes
    the prompt;
  - `invoke` as a `while` loop proved against the function `Run`, with lemmas about `Run`.

These parts come from outside and are parameters of the model:

- the model call with its prompt and output parser (`Pipeline`);
- `json.loads` (`Env.loads`, `None` when it raises);
- the call `tool_to_use.func(**args)` as a whole (`Env.call`, a `Failure` when it raises): the `**` unpacking and argument binding are part of it, so a TypeError for a JSON value that is not an object, or for keys that do not match the tool's parameters, is a `ToolFailed` outcome just as an exception from the tool body is;
- `str` (`Env.str`).

Every exception that ends `invoke` is a `Failed` outcome naming its cause. The outcome
carries the scratchpad as it stood when the exception was raised.

## Model

| member | source | states |
|---|---|---|
| FlightAssistant.ToolRegistry.constructor | flightAssistant.py:130 | the shared list starts as the three decorated tools, `get_customer_feature`, `get_scheduled_flights` and `get_flight_detail`, in source order, and `Valid()` (the defaults lead the list) holds |
| Tools.FindTool | flightAssistant.py:114-118 | the lookup succeeds exactly when some tool has the name; the tool it returns is the first one with that exact name; otherwise it fails with `Tool wtih name <name> not found` (the source's spelling) |
| Tools.FindToolByName | flightAssistant.py:114-118 | the scan with early return gives exactly the result of `FindTool`, the first exact-name match or the not-found error |
| Tools.FirstNamedUnique | flightAssistant.py:115-117 | if index i holds the first tool with a name, the lookup returns the tool at i |
| Tools.FindToolShadowed | flightAssistant.py:114-118 | appending tools to a list never changes what an already present name resolves to |
| Tools.SearchQaResolvesToEarliest | flightAssistant.py:130-138 | after the three default tools and one `search_qa`, `search_qa` resolves to that first retriever tool, whatever is appended later |
| Tools.Join | flightAssistant.py:170 | `", ".join`: a single part is joined to itself; its other properties are stated by `JoinSnoc` and `SplitJoin` |
| Tools.ToolNames | flightAssistant.py:170 | a definition without a contract: the names of the tools, in list order, joined by `, `; stated by `SplitJoin`, `ToolNamesGrow` and `DefaultToolNames` |
| Tools.SearchQa | flightAssistant.py:132-136 | a definition without a contract: the retriever tool named `search_qa` built from one retriever; `SearchQaResolvesToEarliest` and `ToolNamesGrow` are about it |
| Tools.JoinAppend | flightAssistant.py:170 | joining two non-empty lists of names is joining each and putting one `, ` between them |
| Tools.ToolNamesPrefix | flightAssistant.py:170 | appending tools to a list keeps the joined names of the tools already there as a prefix |
| Tools.JoinSnoc | flightAssistant.py:170 | joining one more name after others appends the separator `, ` and that name |
| Tools.SplitJoin | flightAssistant.py:170 | when no name contains a comma, splitting `tool_names` at `, ` gives back the names in list order |
| Tools.CustomerFeatureValue | flightAssistant.py:74-77 | exactly one row gives that row's `value`, or a KeyError failure when the row has none; any other row count gives `Not found` |
| Tools.ScheduledFlightsFilter | flightAssistant.py:92 | the filter's keys are the conditions' keys plus `customerId`; every condition is kept, so a `customerId` condition overrides the argument; otherwise `customerId` is the argument |
| Tools.FlightDetailFilter | flightAssistant.py:108 | the detail filter has the single key `_id`, bound to the ticket id |
| JsonComments.RemoveJsonComments | flightAssistant.py:120-124 | the sanitized text is never longer than the input |
| JsonComments.RemovedIsSubsequence | flightAssistant.py:122-123 | the sanitizer only deletes: the output is a subsequence of the input |
| JsonComments.NoSlashUnchanged | flightAssistant.py:122-123 | text without a `/` comes back unchanged |
| JsonComments.NoSlashPrefix | flightAssistant.py:122-123 | a slash-free prefix is kept as is, and sanitizing continues behind it |
| JsonComments.NewlineSplits | flightAssistant.py:122-123 | no match crosses a newline: text around a newline is sanitized line by line, and the newline is kept |
| JsonComments.LineCommentRemoved | flightAssistant.py:122-123 | `//` removes the rest of its line, but the newline and every later line survive and are sanitized in turn |
| JsonComments.BlockCommentRemoved | flightAssistant.py:122-123 | a `/*` whose first `*/` is on the same line is removed through that first closer, and scanning resumes right after it |
| JsonComments.BlockCommentLeft | flightAssistant.py:122-123 | a `/*` whose line (or the text) ends before any `*/` is kept, both characters of it |
| JsonComments.NoCloserKept | flightAssistant.py:122-123 | sanitizing never creates a closer on a first line that had none |
| JsonComments.RemovedIsClean | flightAssistant.py:122-123 | no match of the pattern starts anywhere in the sanitized text |
| JsonComments.CleanUnchanged | flightAssistant.py:122-123 | text in which no match starts comes back unchanged |
| JsonComments.DirtyShrinks | flightAssistant.py:122-123 | text in which a match starts always loses characters |
| JsonComments.UnchangedIffClean | flightAssistant.py:122-123 | the sanitizer leaves a text unchanged if and only if no match starts anywhere in it |
| JsonComments.Idempotent | flightAssistant.py:120-124 | sanitizing twice gives the same text as sanitizing once |
| JsonComments.BlockCommentBetween | flightAssistant.py:122-123 | a one-line block comment between slash-free texts is cut out, and nothing else changes |
| JsonComments.LineCommentAfter | flightAssistant.py:122-123 | after slash-free text, `//` starts a comment that removes the rest of the line |
| JsonComments.CommentBetweenArguments | flightAssistant.py:122-123 | a block comment between two JSON members is removed: the result is `{"customer_id": "x" , "feature": "name"}` |
| JsonComments.UrlLosesItsTail | flightAssistant.py:122-123 | `{"url": "http://a.b"}` loses everything from the `//` on, since a `//` inside a JSON string also starts a comment |
| FlightAssistant.Run | flightAssistant.py:195-217 | a definition without a contract: the loop as a function of the scratchpad and a bound on agent calls; its properties are stated by `RunExtends`, `RunFollowsAgent`, `RunFinished`, `RunFailed`, `RunOutOfFuel`, `RunReplay`, `InvokeFinishesIff` and `RunFuelMonotone` |
| FlightAssistant.RunExtends | flightAssistant.py:197-212 | the scratchpad is append-only: each run keeps the entries it started with as a prefix, and adds at most one entry per agent call |
| FlightAssistant.RunFollowsAgent | flightAssistant.py:199-212 | each appended entry is one completed action: the k-th call got the question and exactly the first k entries and answered with that entry's action, and running that action gave that entry's observation |
| FlightAssistant.RunFinished | flightAssistant.py:198-217 | the loop returns only when the last agent call finished, and it returns that finish's `output` value |
| FlightAssistant.RunFailed | flightAssistant.py:198-217 | an exception from the agent, the lookup, the JSON parse, the tool call or the missing `output` key is raised by the iteration that started from the returned scratchpad; no entry is appended for that step |
| FlightAssistant.RunOutOfFuel | flightAssistant.py:198 | a run that hits the bound spent every iteration on one completed action |
| FlightAssistant.RunReplay | flightAssistant.py:198-212 | after a trace of the entries that the agent and tools produce, the loop continues from the end of that trace |
| FlightAssistant.InvokeFinishesIff | flightAssistant.py:195-217 | an invocation returns a given output with a given scratchpad if and only if: the agent and tools produce that scratchpad from empty; the next call finishes with that `output`; and the bound covers those calls |
| FlightAssistant.UnknownToolFails | flightAssistant.py:205-207 | an action naming a tool not in the list raises the lookup's ValueError, before the input is parsed and with the scratchpad unchanged |
| FlightAssistant.RunFuelMonotone | flightAssistant.py:198 | a run that ends within some bound ends the same way with any larger bound |
| FlightAssistant.InvalidInputFails | flightAssistant.py:207-210 | when the tool is found but `json.loads` rejects the sanitized input, the invocation raises that parse error before any tool is called, with the scratchpad unchanged |
| FlightAssistant.ToolCallFails | flightAssistant.py:207-210 | when the first tool with the action's name raises on the parsed input, the invocation raises that error with the scratchpad unchanged |
| FlightAssistant.ActionObserved | flightAssistant.py:207-212 | when the first tool with the action's name returns a value on the parsed, sanitized input, the loop appends the action with `str` of that value and continues with one agent call fewer |
| FlightAssistant.Observe | flightAssistant.py:206-212 | a definition without a contract: the lookup, the sanitizing, the parse, the call and the rendering of one action; its outcomes are stated by `UnknownToolFails`, `InvalidInputFails`, `ToolCallFails` and `ActionObserved` |
| FlightAssistant.Act | flightAssistant.py:206-210 | the imperative action step (calling `FindToolByName` and the sanitizer) gives what `Observe` gives; the four lemmas above state what that is |
| FlightAssistant.TheFlightAssistant.Invoke | flightAssistant.py:195-217 | the loop's result is `Run` from the empty scratchpad, over the shared tool list as it stands at the call |
| FlightAssistant.TheFlightAssistant.constructor | flightAssistant.py:131-174 | the shared list gains exactly one `search_qa` tool at its end, with every earlier entry kept in order; the prompt holds the list and its joined names as they are now, the customer id, and the looked-up name and language; it keeps `Valid()`, so the prompt's tool names begin with the defaults' joined names |
| FlightAssistant.ToolNamesGrow | flightAssistant.py:168-170 | each construction adds `, search_qa` to the end of the tool names in the prompt |
| FlightAssistant.DefaultToolNames | flightAssistant.py:170 | the default list's names joined in list order are `get_customer_feature, get_scheduled_flights, get_flight_detail`; the constructor of `TheFlightAssistant` proves every prompt's tool names begin with them, and `TwoAssistantsShareTools` uses it for the second prompt |
| FlightAssistant.TwoConstructionsNames | flightAssistant.py:168-170 | after two constructions the names list `search_qa` twice, behind the defaults |
| FlightAssistant.TwoAssistantsShareTools | flightAssistant.py:130-138 | in one process a second assistant's prompt lists `get_customer_feature, get_scheduled_flights, get_flight_detail, search_qa, search_qa`, and looking up `search_qa` through it finds the first assistant's retriever |

## Left out

- `astra_rest` (lines 34-50): HTTP requests, environment variables and status-code handling are I/O. `CustomerFeatureValue` takes the response's `data` rows as input. It does not model an error-status body or a response without `data`.
- The AstraDB client (lines 25-31) and its `find`/`find_one` calls (lines 94-96, 109-110): these are foreign calls. The model builds their filters and leaves the queries and projections out.
- The LangChain pieces are not shown: `PromptTemplate`, `render_text_description`, `ChatOpenAI`, `format_log_to_str`, `ReActSingleInputOutputParser` and `create_retriever_tool`. The prompt, model and parser together are the opaque `Pipeline`. A retriever tool is identified by its retriever alone.
- `json.loads`, the tool call (unpacking included) and `str` are oracles in `Env`. A tool call is a deterministic function of the tool and its parsed arguments.
- The model call is deterministic too: `Pipeline` is a function of the prompt, the question and the scratchpad. Within one invocation nothing is lost by this, because each agent call of a run sees a scratchpad of a different length, so no two calls of one run have the same arguments.
- The prompt template text (lines 140-166), `load_dotenv`, every `print`, the callbacks and `memory` are configuration and logging.
- AstraTools.py is not part of this model. It is a static descriptor list with no behaviour.
- FlightAssistant.TheFlightAssistant.Invoke: the source loops with no bound. The model takes a `fuel` bound and has an extra `OutOfFuel` outcome, so its properties are partial correctness.
- FlightAssistant.TheFlightAssistant.constructor: it requires both customer-feature lookups to succeed and builds the prompt, model and agent without failure. So it does not model a construction aborted by any exception raised after the append at line 138: a KeyError from either lookup, or an exception from `PromptTemplate`, `render_text_description` or `ChatOpenAI`. Each of these leaves the shared list grown by a `search_qa` tool with no assistant built.
- Tools.CustomerFeatureValue: feature values are strings; other JSON values are not modelled.
- The `agent_step = ""` initial value and the `isinstance` tests become the `AgentStep` datatype, which is either an action or a finish.
