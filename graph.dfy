/** The agent graph of `GameAgent`: the system-prompt prepend of `_call_model`, the
    routing predicate `_should_continue`, the four nodes and their edges wired by
    `_build_graph`, the state reducer (`operator.add` on `messages`) and the initial
    state built by `run`. The model and the tool node are parameters (`Env`). */
module Graph {
  import opened Wrappers
  import opened Messages
  import Bridge

  /** The system prompt `_call_model` puts in front of the conversation. */
  const SystemPromptText: string :=
    "You are a game analysis assistant. You help users understand and analyze game screens.\n\n"
    + "Your capabilities:\n"
    + "- Take screenshots of the game screen using the take_screenshot tool\n"
    + "- Analyze game screens using vision to identify UI elements, characters, stats, objectives, etc.\n"
    + "- Provide strategic insights and advice based on what you see\n"
    + "- Read and interpret in-game text, menus, and HUD elements\n\n"
    + "When a user asks you to analyze something:\n"
    + "1. First, take a screenshot using the take_screenshot tool\n"
    + "2. Then analyze the screenshot content that will be automatically added to the context\n"
    + "3. Provide detailed insights based on what you observe\n\n"
    + "Be helpful, detailed, and game-focused in your responses."

  const SystemPrompt: Message := Message(System, None, Text(SystemPromptText), 0)

  predicate HasSystem(msgs: seq<Message>)
  {
    exists k :: 0 <= k < |msgs| && msgs[k].kind == System
  }

  /** The list `_call_model` hands to the model: the conversation with the system prompt
      in front when it has exactly one message or no system message. The model always
      sees a system message, the conversation itself is passed on whole and in order,
      and at most the one prompt is added. */
  function ModelInput(msgs: seq<Message>): (r: seq<Message>)
    ensures HasSystem(r)
    ensures |msgs| <= |r| <= |msgs| + 1 && r[|r| - |msgs|..] == msgs
    ensures |r| == |msgs| + 1 <==> (|msgs| == 1 || !HasSystem(msgs))
    ensures |r| == |msgs| + 1 ==> r[0] == SystemPrompt
  {
    if |msgs| == 1 || !HasSystem(msgs) then
      var r := [SystemPrompt] + msgs;
      assert r[0].kind == System;
      r
    else msgs
  }

  /** The labels `_should_continue` returns. */
  datatype Route = Continue | End

  /** `_should_continue`: continue exactly when the last message is a model reply (only
      `AIMessage` has a `tool_calls` attribute) whose tool-call list is not empty. */
  function ShouldContinue(msgs: seq<Message>): (r: Route)
    requires |msgs| > 0
  {
    var last := msgs[|msgs| - 1];
    if last.kind == AI && last.toolCalls > 0 then Continue else End
  }

  /** The nodes of the graph; `Finish` is langgraph's `END`. */
  datatype Node = Agent | Tools | ProcessScreenshot | Finish

  /** The entry point set by `_build_graph`. */
  const Entry: Node := Agent

  /** The edges of `_build_graph`: from `agent` by the route, `tools` to
      `process_screenshot`, `process_screenshot` back to `agent`. Only the edge out of
      `agent` is conditional; the route is ignored everywhere else. */
  function Successor(n: Node, route: Route): Node
  {
    match n
    case Agent => if route == Continue then Tools else Finish
    case Tools => ProcessScreenshot
    case ProcessScreenshot => Agent
    case Finish => Finish
  }

  /** The wiring of `_build_graph` together with `_should_continue`: after the agent
      node the graph goes to the tools exactly when the newest message is a model reply
      with tool calls and ends otherwise; the tools always lead to the screenshot node and
      that node always back to the agent; nothing but the agent node reaches `END`. */
  lemma RoutingEdges(msgs: seq<Message>, route: Route)
    requires |msgs| > 0
    ensures Successor(Agent, ShouldContinue(msgs)) == Tools <==>
      msgs[|msgs| - 1].kind == AI && msgs[|msgs| - 1].toolCalls > 0
    ensures Successor(Agent, ShouldContinue(msgs)) != Tools ==> Successor(Agent, ShouldContinue(msgs)) == Finish
    ensures Successor(Tools, route) == ProcessScreenshot && Successor(ProcessScreenshot, route) == Agent
    ensures forall n :: n != Agent && n != Finish ==> Successor(n, route) != Finish
  {
  }

  /** `AgentState`: the message list and the never-updated `screenshot_data`. */
  datatype AgentState = AgentState(messages: seq<Message>, screenshotData: Option<map<string, string>>)

  /** The reducer of `AgentState.messages` (`operator.add`): a node's new messages are
      appended to the existing list. */
  function Merge(s: AgentState, update: seq<Message>): (r: AgentState)
  {
    s.(messages := s.messages + update)
  }

  /** The initial state of `run`. */
  function InitialState(userInput: string): AgentState
  {
    AgentState([HumanText(userInput)], None)
  }

  /** What the graph calls out to: the model bound to the tools (the model's reply to a
      message list), the tool node (the tool messages it produces for a conversation) and
      `json.loads`. */
  datatype Env = Env(
    llm: seq<Message> -> Message,
    tools: seq<Message> -> seq<Message>,
    decode: string -> Payload)

  /** The node about to run and the state it runs on. */
  datatype Config = Config(node: Node, state: AgentState)

  /** One node of the graph runs, its update is merged, and the edge is followed. The
      screenshot node uses the corrected bridge, which never raises. */
  function Step(c: Config, env: Env): (d: Config)
    ensures c.state.messages <= d.state.messages
    ensures d.state.screenshotData == c.state.screenshotData
    ensures c.node == Agent ==>
      |d.state.messages| == |c.state.messages| + 1
      && d.node == (if ShouldContinue(d.state.messages) == Continue then Tools else Finish)
    ensures c.node == Tools ==> d.node == ProcessScreenshot
    ensures c.node == ProcessScreenshot ==> d.node == Agent && |d.state.messages| <= |c.state.messages| + 1
    ensures c.node == Finish ==> d == c
  {
    match c.node
    case Agent =>
      var st := Merge(c.state, [env.llm(ModelInput(c.state.messages))]);
      Config(Successor(Agent, ShouldContinue(st.messages)), st)
    case Tools =>
      // fixed edge: the route passed here is ignored
      Config(Successor(Tools, End), Merge(c.state, env.tools(c.state.messages)))
    case ProcessScreenshot =>
      // fixed edge: the route passed here is ignored
      Config(Successor(ProcessScreenshot, End),
             Merge(c.state, Bridge.BridgeCorrected(c.state.messages, env.decode)))
    case Finish => c
  }

  /** What each node appends: the agent node the model's reply to the conversation with
      the system prompt put in front, the tool node the tool output, and the screenshot
      node the corrected bridge's result. */
  lemma StepAppends(c: Config, env: Env)
    ensures c.node == Agent ==>
      Step(c, env).state.messages == c.state.messages + [env.llm(ModelInput(c.state.messages))]
    ensures c.node == Tools ==>
      Step(c, env).state.messages == c.state.messages + env.tools(c.state.messages)
    ensures c.node == ProcessScreenshot ==>
      Step(c, env).state.messages == c.state.messages + Bridge.BridgeCorrected(c.state.messages, env.decode)
  {
  }

  /** Up to `fuel` steps, stopping at `Finish`. */
  function Run(c: Config, env: Env, fuel: nat): Config
    decreases fuel
  {
    if fuel == 0 || c.node == Finish then c else Run(Step(c, env), env, fuel - 1)
  }

  /** `GameAgent.run` with the corrected screenshot node: the graph run from its entry
      point on the initial state. */
  function Invoke(userInput: string, env: Env, fuel: nat): AgentState
  {
    Run(Config(Entry, InitialState(userInput)), env, fuel).state
  }

  /** A run only appends to the conversation and never touches `screenshot_data`. */
  lemma {:induction false} RunAppendsOnly(c: Config, env: Env, fuel: nat)
    ensures c.state.messages <= Run(c, env, fuel).state.messages
    ensures Run(c, env, fuel).state.screenshotData == c.state.screenshotData
    decreases fuel
  {
    if fuel > 0 && c.node != Finish {
      RunAppendsOnly(Step(c, env), env, fuel - 1);
    }
  }

  /** The result of `run` starts with the user's message, is never empty, and keeps
      `screenshot_data` at `None`. */
  lemma InvokeKeepsRequest(userInput: string, env: Env, fuel: nat)
    ensures |Invoke(userInput, env, fuel).messages| >= 1
    ensures Invoke(userInput, env, fuel).messages[0] == HumanText(userInput)
    ensures Invoke(userInput, env, fuel).screenshotData == None
  {
    RunAppendsOnly(Config(Entry, InitialState(userInput)), env, fuel);
  }

  /** A model that answers with `AIMessage`s and a tool node that produces `ToolMessage`s. */
  ghost predicate WellBehaved(env: Env)
  {
    && (forall x :: env.llm(x).kind == AI)
    && (forall x, k :: 0 <= k < |env.tools(x)| ==> env.tools(x)[k].kind == Tool)
  }

  /** What holds at each node: the graph reaches `tools` only right after a model reply
      with tool calls, and `END` only right after a model reply without. */
  predicate Consistent(c: Config)
  {
    var msgs := c.state.messages;
    && (c.node == Tools ==> |msgs| > 0 && msgs[|msgs| - 1].kind == AI && msgs[|msgs| - 1].toolCalls > 0)
    && (c.node == Finish ==> |msgs| > 0 && msgs[|msgs| - 1].kind == AI && msgs[|msgs| - 1].toolCalls == 0)
  }

  /** One step keeps a configuration consistent. */
  lemma StepConsistent(c: Config, env: Env)
    requires WellBehaved(env) && Consistent(c)
    ensures Consistent(Step(c, env))
  {
    if c.node == Agent {
      var reply := env.llm(ModelInput(c.state.messages));
      var msgs := c.state.messages + [reply];
      assert Step(c, env).state.messages == msgs;
      assert msgs[|msgs| - 1] == reply && reply.kind == AI;
    }
  }

  /** With a well-behaved model, every run from a consistent configuration stays
      consistent: when the graph ends, the last message is the model's answer. */
  lemma {:induction false} RunConsistent(c: Config, env: Env, fuel: nat)
    requires WellBehaved(env) && Consistent(c)
    ensures Consistent(Run(c, env, fuel))
    decreases fuel
  {
    if fuel > 0 && c.node != Finish {
      StepConsistent(c, env);
      RunConsistent(Step(c, env), env, fuel - 1);
    }
  }

  /** The system prompt is never stored in the state: with a well-behaved model and tool
      node, a conversation without a system message stays without one, so every model
      call gets the prompt put in front afresh. */
  lemma {:induction false} RunNeverStoresPrompt(c: Config, env: Env, fuel: nat)
    requires WellBehaved(env) && !HasSystem(c.state.messages)
    ensures !HasSystem(Run(c, env, fuel).state.messages)
    ensures |Run(c, env, fuel).state.messages| > 0 ==>
      ModelInput(Run(c, env, fuel).state.messages)[0] == SystemPrompt
    decreases fuel
  {
    if fuel > 0 && c.node != Finish {
      var d := Step(c, env);
      var added := d.state.messages[|c.state.messages|..];
      assert d.state.messages == c.state.messages + added;
      forall k | 0 <= k < |added| ensures added[k].kind != System {
        match c.node
        case Agent =>
        case Tools =>
          assert added == env.tools(c.state.messages);
        case ProcessScreenshot =>
          assert added == Bridge.BridgeCorrected(c.state.messages, env.decode);
      }
      RunNeverStoresPrompt(d, env, fuel - 1);
    }
  }

  /** When `run` ends at `END` with a well-behaved model, its last message is the model's
      final answer: a reply with no tool calls. */
  lemma InvokeEndsWithAnswer(userInput: string, env: Env, fuel: nat)
    requires WellBehaved(env)
    requires Run(Config(Entry, InitialState(userInput)), env, fuel).node == Finish
    ensures var msgs := Invoke(userInput, env, fuel).messages;
      |msgs| > 0 && msgs[|msgs| - 1].kind == AI && msgs[|msgs| - 1].toolCalls == 0
  {
    RunConsistent(Config(Entry, InitialState(userInput)), env, fuel);
  }
}
