# game-agent: a verified model of the agent glue and the command loop

`game-agent` is a desktop assistant: the user types a request, a LangGraph agent lets a
vision model take screenshots of the running game, and the model's answer is shown and
optionally spoken aloud. Most of the work is done by third-party libraries. This model
covers the logic the repository owns:

- **The screenshot-to-message bridge** (`GameAgent._process_screenshot`, module `Bridge`).
  After the tool node runs, the bridge walks the conversation from the newest message
  back. It looks for the first message whose name contains `screenshot` and whose
  payload has a `base64` key. It turns that image into one new two-part human message.
  The method `ProcessScreenshot` is the loop itself. It is proved equal to the function
  `Bridge`, and the properties are lemmas about `Bridge` and the generic scan `Scan`.
- **The agent graph** (`_call_model`, `_should_continue`, `_build_graph`, `run`;
  module `Graph`). This covers the system-prompt prepend, the routing predicate, the
  four nodes and their edges, the `operator.add` reducer and the initial state. The
  model and the tool node are parameters (`Env`). A run of the graph is a function
  (`Run`) that steps node by node.
- **The interactive loop of `main`** (module `Cli`). This covers the startup checks on
  `OPENROUTER_API_KEY` and `ENABLE_TTS`, a pure line classifier, a pure one-turn
  function `Step`, and the whole-session specification `Session` over the classified lines. The class `Console`
  holds the loop's state: speech on or off, running or stopped, the number of agent
  calls, and a log of recorded actions. Its method `Handle` implements one turn, and
  the method `Loop` runs the `while` loop. Calling the agent, showing the reply and
  speaking it appear only as recorded actions.
- Supporting modules: `Messages` (the message datatype), `Text` (Python's `strip`,
  `lower` and `in` on strings) and `Wrappers` (`Option`, `Result`).

The payload of a message stands for what the bridge gets from its content. It is one
of three things: a dictionary (string keys to string values), a JSON decode error, or
a value that is not a dictionary. `json.loads` is the parameter `decode`.

The bridge's check applies to every message in the list, not only to tool messages,
because the code tests `hasattr(msg, "name")`. A human or model message whose name
contains `screenshot` would also be considered. The model follows the code here.

## Model

| member | source | states |
|---|---|---|
| `Bridge.ImageMessage` | src/game_agent/agent.py:165-178 | the emitted message is a human message without a name or tool calls, with exactly two parts in order: the fixed prompt text, then an image URL that is the `data:image/png;base64,` prefix followed by the image |
| `Bridge.Judge` | src/game_agent/agent.py:148-185 | one loop pass takes an image exactly when the message qualifies (screenshot name, dictionary payload with `base64`), and that image is the payload's `base64` value; it raises `NameIsNone` exactly when the name is `None`, and `PayloadNotDict` exactly when a screenshot-named message's payload is not a dictionary; a decode error or a missing key steps past |
| `Bridge.Scan` | src/game_agent/agent.py:139-185 | the scan's outcome is "stepped past everything" or the verdict of one of the messages |
| `Bridge.ScanSkipsAll` | src/game_agent/agent.py:139-188 | the scan finds nothing exactly when every message is stepped past |
| `Bridge.ScanNewest` | src/game_agent/agent.py:139-181 | the newest message that is not stepped past decides the outcome |
| `Bridge.ScanWitness` | src/game_agent/agent.py:139-181 | when the scan stops, it stops at some message, and every newer message was stepped past |
| `Bridge.ScanIgnoresSkipped` | src/game_agent/agent.py:160-185 | removing a message that is stepped past does not change the outcome |
| `Bridge.Bridge` | src/game_agent/agent.py:135-188 | at most one new message is returned |
| `Bridge.ProcessScreenshot` | src/game_agent/agent.py:135-188 | the loop over the reversed list, with its early `break` and the two escaping exceptions, computes exactly `Bridge`; the input list is only read |
| `Bridge.BridgePicksNewest` | src/game_agent/agent.py:139-181 | an emitted image comes from a qualifying message, and every newer message has a name and does not qualify, so the newest qualifying message wins |
| `Bridge.BridgeEmitsNewest` | src/game_agent/agent.py:139-181 | conversely, a qualifying message behind which every newer message is stepped past is the one whose image is emitted |
| `Bridge.BridgeEmpty` | src/game_agent/agent.py:136-188 | nothing is added exactly when every message is stepped past |
| `Bridge.BridgeSkipsFailedScreenshot` | src/game_agent/agent.py:160-185 | a newer screenshot message whose payload fails to decode or lacks `base64` does not stop the search: removing it leaves the result unchanged |
| `Bridge.BridgeRaises` | src/game_agent/agent.py:148-157 | an escaping exception comes from the newest message that is not stepped past |
| `Bridge.BridgeCorrected` | src/game_agent/agent.py:135-188 | the corrected bridge, which never raises, returns at most one message |
| `Bridge.BridgeCorrectedNewest` | src/game_agent/agent.py:139-188 | the corrected bridge adds nothing exactly when no message qualifies; otherwise it adds the image of the newest qualifying message |
| `Bridge.BridgeCorrectedAgrees` | src/game_agent/agent.py:135-188 | the correction changes the outcome only on inputs where the original raises |
| `Bridge.FailedScreenshotRaises` | src/game_agent/agent.py:148 | a failed screenshot tool result in a conversation that starts with the user's unnamed message makes the original raise; the corrected bridge adds nothing |
| `Bridge.BridgeNeverEmpty` | src/game_agent/agent.py:139-185 | as written, a conversation whose first message has no name never gets nothing from the bridge: it gets an image or an exception |
| `Bridge.ListPayloadRaises` | src/game_agent/agent.py:157 | a screenshot-named message whose JSON payload is a list makes the original raise; the corrected bridge adds nothing |
| `Graph.ModelInput` | src/game_agent/agent.py:83-103 | the model always sees a system message; the conversation is passed on whole and in order; exactly one prompt is put in front exactly when the list has one message or no system message |
| `Graph.RoutingEdges` | src/game_agent/agent.py:54-70 | by `ShouldContinue` (the rule of `_should_continue`, lines 117-124) and `Successor`, after the agent node the graph goes to the tools exactly when the newest message is a model reply with tool calls, and ends otherwise; tools lead to the screenshot node and that node leads back to the agent; only the agent node leads to `END` |
| `Graph.Step` | src/game_agent/agent.py:44-72 | each node only appends to the message list and never changes `screenshot_data`; the agent node appends exactly one reply and routes on it; tools go to the screenshot node, which appends at most one message and returns to the agent |
| `Graph.StepAppends` | src/game_agent/agent.py:44-103 | what `Step` appends: the agent node, exactly the model's reply to `ModelInput` of the conversation (the prompt-prepended list of `_call_model`); the tool node, the tool output; the screenshot node, the (corrected) bridge's result |
| `Graph.RunAppendsOnly` | src/game_agent/agent.py:17 | a whole run only appends to the conversation and keeps `screenshot_data` |
| `Graph.InvokeKeepsRequest` | src/game_agent/agent.py:199-204 | the result of `run` (`Invoke`) is never empty, starts with the user's message, and keeps `screenshot_data` at `None` |
| `Graph.StepConsistent` | src/game_agent/agent.py:57-70 | one step keeps the invariant: the tools node is reached only right after a model reply with tool calls, and `END` only right after one without |
| `Graph.RunConsistent` | src/game_agent/agent.py:57-70 | a whole run keeps that invariant |
| `Graph.RunNeverStoresPrompt` | src/game_agent/agent.py:86-106 | the system prompt is never stored in the state, so with a model that answers with AI messages and tools that produce tool messages, every model call gets the prompt put in front again |
| `Graph.InvokeEndsWithAnswer` | src/game_agent/agent.py:117-124 | when `run` (`Invoke`) ends at `END`, its last message is the model's answer with no tool calls |
| `Text.StripSlice` | src/game_agent/__init__.py:50 | `strip()` cuts out one contiguous slice, removes only white space around it, and leaves no white space at either end |
| `Text.StripIdempotent` | src/game_agent/__init__.py:50 | stripping twice is stripping once |
| `Cli.Classify` | src/game_agent/__init__.py:50-70 | a line sent to the agent is the stripped line, and it is non-empty |
| `Cli.ClassifyCommands` | src/game_agent/__init__.py:50-67 | a line is skipped exactly when it is empty after stripping; it quits exactly when the stripped line is non-empty and lowers to `quit`, `exit` or `q`; it switches speech on or off exactly when the stripped line lowers to `tts on` or `tts off` |
| `Cli.ClassifyIgnoresCase` | src/game_agent/__init__.py:55-64 | two lines that agree after stripping and lowering get the same command; a line sent to the agent is none of the command words |
| `Cli.ClassifyQuitExample` | src/game_agent/__init__.py:50-57 | `" QUIT\t"` quits |
| `Cli.ClassifySendExample` | src/game_agent/__init__.py:50-70 | a request keeps its letter case and loses its surrounding white space |
| `Cli.Startup` | src/game_agent/__init__.py:19-32 | a missing or empty API key gives exit status 1; otherwise the loop starts running, with speech on exactly when `ENABLE_TTS` (default `"true"`) lowers to `"true"` |
| `Cli.StartupTts` | src/game_agent/__init__.py:26 | speech is on by default and with `TRUE`, and off with `1` or ` true` |
| `Cli.RespondShowsLast` | src/game_agent/__init__.py:74-86 | in `Respond`, nothing happens on an exception or an empty message list; otherwise exactly the last message's content is shown, followed by speaking that content's text exactly when speech is on and the content is a string; the agent is not called again |
| `Cli.StepEffects` | src/game_agent/__init__.py:50-86 | in one turn (`Step`), a request calls the agent exactly once and first, with the request; every other command records nothing; an empty line changes nothing; quit stops the loop; `tts on`/`tts off` set only the speech flag; a reply is spoken only while speech is on |
| `Cli.SessionRequests` | src/game_agent/__init__.py:48-70 | over a whole session (`Session`), the agent is called once for each line before the first quit that is neither empty nor a command, with that line stripped and in original case, in input order, and never otherwise |
| `Cli.StepRequests` | src/game_agent/__init__.py:55-72 | one turn calls the agent with the request when the line is one, and otherwise not at all; a quit stops the loop |
| `Cli.RespondNoRequests` | src/game_agent/__init__.py:74-86 | showing and speaking the reply never calls the agent |
| `Cli.SessionStopsAtQuit` | src/game_agent/__init__.py:55-57 | lines after a quit have no effect, and the loop ends stopped |
| `Cli.SessionTts` | src/game_agent/__init__.py:60-84 | speech ends as the last speech command before the quit left it; with speech off at startup and no `tts on`, nothing is ever spoken |
| `Cli.SessionAdvance` | src/game_agent/__init__.py:48-95 | one turn of the loop followed by the rest of the input does what the input from that turn on does |
| `Cli.Console.constructor` | src/game_agent/__init__.py:32 | the loop starts running, with the startup speech setting, no calls and an empty log |
| `Cli.Console.Handle` | src/game_agent/__init__.py:49-87 | one turn updates the speech flag, the running flag, the call count and the log exactly as `Step` says for the classified line |
| `Cli.Loop` | src/game_agent/__init__.py:48-95 | the `while` loop over the input lines records exactly what `Session` specifies for the commands the lines classify as |
| `Cli.RunCli` | src/game_agent/__init__.py:13-95 | exit status 1 with nothing done exactly when the API key is missing or empty; otherwise status 0, and the record is the session from the startup state |

## Left out

- The language model, the tool node and the graph engine (`ChatOpenAI`, `bind_tools`, `ToolNode`, `StateGraph.compile` and `invoke`) are parameters of `Graph.Env`. Only the wiring that the repository writes is modelled.
- `Graph.Run`: a fuel bound stands in for the engine's recursion limit. The `GraphRecursionError` raised when the limit is reached is not modelled.
- `Graph.Step` uses the corrected bridge (see Findings). The exceptions of the original bridge propagate out of `run`, and the loop catches them. The loop models this as the `Raised` outcome.
- `json.loads` is the parameter `decode`. JSON parsing itself is not modelled.
- `Bridge.ProcessScreenshot`: payload values are strings. A non-string `base64` value is not modelled. For a number, boolean or `null`, `len(...)` in the debug print (line 162) raises `TypeError`, which escapes the bridge. For a list or object, the bridge emits an image message whose URL ends in the value's Python text. Both screenshot tools always return a string (`src/game_agent/tools.py` lines 51-55 and 96-100).
- `Text.Lower` maps only ASCII `A`-`Z`. For the fixed comparisons the code makes (`quit`, `exit`, `q`, `tts on`, `tts off`, `true`, `screenshot`), this gives the same verdicts as Python's Unicode `lower()`. The only non-ASCII characters that lower into ASCII are the Kelvin sign (to `k`) and the dotted capital I (to `i` plus a combining dot), so neither can produce one of these words.
- The debug and status prints, the traceback printing and the banner are not modelled. They do not affect behaviour.
- `Cli.Session` reads input as a finite sequence of lines and stops when the lines run out. In the source, `input()` at end of input raises `EOFError`. The loop catches it with `except Exception` and asks again, forever. Ctrl-C (`KeyboardInterrupt`) is not modelled.
- `Cli.Console.Handle`: `tts on` builds a new `TextToSpeech` object, modelled as setting the flag. That constructor's possible failure (creating the audio directory) is not modelled, and neither is a failure of the one built at startup. `tts.speak` errors are caught, so a `Speak` action records an attempt to speak.
- The `k`-th agent call of a session answers `reply(k)`. The model does not say how the agent produces its answer across calls.
- `src/game_agent/tools.py` (screen capture, PNG and base64 encoding, timestamped files) is not part of this model. Its only role here is producing the `{path, base64, message}` payload that the bridge reads.
- `src/game_agent/tts.py`, `src/game_agent/stt.py`, `arun`, `test_agent.py`, `list_voices.py` and `debug_tool.py` are not part of this model. They are network and audio I/O, an async twin of `run`, and manual scripts.
- `load_dotenv` and `input()` are I/O. The environment variables and input lines are parameters.

## Findings

| source | as written | input that shows it | evidently intended | confidence | as-written member | corrected member |
|---|---|---|---|---|---|---|
| src/game_agent/agent.py:148 | `msg.name.lower()` runs outside the `try` on every message the scan reaches. Human and model messages have `name = None`, so the scan raises `AttributeError` when it reaches a message without a name before any qualifying message. Every conversation starts with the user's unnamed message, so as written the bridge never adds nothing: it emits an image or raises. | a human message "analyze this game screen" (no name), a model reply with one tool call (no name), then a `take_screenshot` tool message whose content is an error text (as the tool node writes when capture fails) | a malformed or missing screenshot payload adds no image, and the conversation goes on text-only | high (not executed) | `Bridge.FailedScreenshotRaises` | `Bridge.BridgeCorrected` |
| src/game_agent/agent.py:157 | `result.keys()` on a decoded payload that is not a dictionary raises `AttributeError`, which `except (json.JSONDecodeError, KeyError)` does not catch | a `take_screenshot` message whose content is `[]` | a malformed payload is skipped like one that fails to decode | low: neither screenshot tool returns a non-dictionary (not executed) | `Bridge.ListPayloadRaises` | `Bridge.BridgeCorrected` |

In both rows, `Bridge.Bridge` and `Bridge.ProcessScreenshot` model the code as written.
`Bridge.BridgeNeverEmpty` states the first row for every conversation that starts with an
unnamed message.
`Bridge.BridgeCorrectedNewest` proves the intended property of `Bridge.BridgeCorrected`.
`Bridge.BridgeCorrectedAgrees` proves that the correction changes only inputs on which
the original raises.
