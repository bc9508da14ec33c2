/** The interactive loop of `main`: startup checks on the environment, classification of
    each input line, the text-to-speech switch, quitting, and when a reply is spoken. The
    agent call and speech output appear only as recorded actions. */
module Cli {
  import opened Wrappers
  import opened Text
  import opened Messages

  /** The words that end the loop, compared after lowering. */
  const QuitWords: set<string> := {"quit", "exit", "q"}

  /** What the loop does with one input line. */
  datatype Command = Skip | Quit | TtsOn | TtsOff | Send(request: string)

  /** The classification of a line read by `input()`: it is stripped, an empty line is
      skipped, the quit words are checked first, then the two speech commands, all
      ignoring case; anything else goes to the agent unchanged apart from the strip. */
  function Classify(line: string): (c: Command)
    ensures c.Send? ==> c.request == Strip(line) && c.request != []
  {
    var input := Strip(line);
    if input == [] then Skip
    else if Lower(input) in QuitWords then Quit
    else if Lower(input) == "tts on" then TtsOn
    else if Lower(input) == "tts off" then TtsOff
    else Send(input)
  }

  /** Which lines are which command: an empty line after stripping is skipped, a quit
      word in any case quits, and `tts on`/`tts off` in any case switch speech. */
  lemma ClassifyCommands(line: string)
    ensures Classify(line) == Skip <==> Strip(line) == []
    ensures Classify(line) == Quit <==> Strip(line) != [] && Lower(Strip(line)) in QuitWords
    ensures Classify(line) == TtsOn <==> Lower(Strip(line)) == "tts on"
    ensures Classify(line) == TtsOff <==> Lower(Strip(line)) == "tts off"
  {
    assert |Lower(Strip(line))| == |Strip(line)|;
  }

  /** Commands are recognised regardless of letter case and surrounding white space:
      two lines that agree after stripping and lowering are the same command, and a line
      sent to the agent differs from every command word. */
  lemma ClassifyIgnoresCase(a: string, b: string)
    requires Lower(Strip(a)) == Lower(Strip(b))
    ensures Classify(a).Send? <==> Classify(b).Send?
    ensures !Classify(a).Send? ==> Classify(a) == Classify(b)
    ensures Classify(a).Send? ==> Lower(Classify(a).request) !in QuitWords + {"tts on", "tts off"}
  {
    assert |Strip(a)| == |Lower(Strip(a))| == |Lower(Strip(b))| == |Strip(b)|;
  }

  /** A quit word in capitals, surrounded by white space, ends the loop. */
  lemma ClassifyQuitExample()
    ensures Classify(" QUIT\t") == Quit
  {
    assert TrimStart(" QUIT\t") == "QUIT\t";
    assert TrimEnd("QUIT\t") == "QUIT";
    assert Lower("QUIT") == "quit";
  }

  /** A request keeps its letter case and loses its surrounding white space. */
  lemma ClassifySendExample()
    ensures Classify(" Analyze this HUD ") == Send("Analyze this HUD")
  {
    assert TrimStart(" Analyze this HUD ") == "Analyze this HUD ";
    assert TrimEnd("Analyze this HUD ") == "Analyze this HUD";
    assert Lower("Analyze this HUD")[0] == 'a';
  }

  /** A recorded effect of the loop: a call of `agent.run`, the reply shown, the reply
      handed to `tts.speak`. */
  datatype Action = CallAgent(request: string) | Show(content: Content) | Speak(text: string)

  /** What `agent.run` gave back: the final state's messages, or an exception (caught by
      the loop, printed, and the loop goes on). */
  datatype Outcome = Replied(messages: seq<Message>) | Raised

  /** The loop's own state: whether a speech engine is set (`tts` is not `None`) and
      whether the loop still runs. */
  datatype CliState = CliState(ttsEnabled: bool, running: bool)

  /** The startup checks of `main`: without a non-empty API key the program exits with
      status 1 before any agent exists; otherwise speech starts enabled exactly when
      `ENABLE_TTS` (default `"true"`) lowers to `"true"`. */
  function Startup(apiKey: Option<string>, enableTts: Option<string>): (r: Result<CliState, int>)
    ensures r.Err? <==> apiKey.None? || apiKey.value == []
    ensures r.Err? ==> r.error == 1
    ensures r.Ok? ==> r.value.running && (r.value.ttsEnabled <==> Lower(enableTts.GetOr("true")) == "true")
  {
    if apiKey.None? || apiKey.value == [] then Err(1)
    else Ok(CliState(Lower(enableTts.GetOr("true")) == "true", true))
  }

  /** Speech is on by default, accepts `TRUE` in any case, and nothing else turns it on. */
  lemma StartupTts(key: string)
    requires key != []
    ensures Startup(Some(key), None) == Ok(CliState(true, true))
    ensures Startup(Some(key), Some("TRUE")) == Ok(CliState(true, true))
    ensures Startup(Some(key), Some("1")) == Ok(CliState(false, true))
    ensures Startup(Some(key), Some(" true")) == Ok(CliState(false, true))
  {
    assert Lower("true") == "true";
    assert Lower("TRUE") == "true";
    assert Lower(" true") != "true" by { assert Lower(" true")[0] == ' '; }
  }

  /** What the loop does with the agent's result: nothing on an exception or an empty
      message list; otherwise it shows the last message's content, and also speaks it
      when speech is on and that content is a string. */
  function Respond(ttsEnabled: bool, outcome: Outcome): (acts: seq<Action>)
  {
    match outcome
    case Raised => []
    case Replied(messages) =>
      if messages == [] then []
      else
        var content := messages[|messages| - 1].content;
        [Show(content)] + if ttsEnabled && content.Text? then [Speak(content.text)] else []
  }

  /** The response shows the last message when there is one, and then speaks exactly that
      message's text exactly when speech is on and the content is a string. */
  lemma RespondShowsLast(ttsEnabled: bool, outcome: Outcome)
    ensures |Respond(ttsEnabled, outcome)| <= 2
    ensures Respond(ttsEnabled, outcome) == [] <==> outcome.Raised? || outcome.messages == []
    ensures Respond(ttsEnabled, outcome) != [] ==>
      Respond(ttsEnabled, outcome)[0] == Show(outcome.messages[|outcome.messages| - 1].content)
    ensures (exists k :: 0 <= k < |Respond(ttsEnabled, outcome)| && Respond(ttsEnabled, outcome)[k].Speak?)
      <==> (ttsEnabled && outcome.Replied? && outcome.messages != []
            && outcome.messages[|outcome.messages| - 1].content.Text?)
    ensures forall k :: 0 <= k < |Respond(ttsEnabled, outcome)| ==> !Respond(ttsEnabled, outcome)[k].CallAgent?
    ensures Respond(ttsEnabled, outcome) != [] ==>
      var content := outcome.messages[|outcome.messages| - 1].content;
      Respond(ttsEnabled, outcome) == [Show(content)] + if ttsEnabled && content.Text? then [Speak(content.text)] else []
  {
    var acts := Respond(ttsEnabled, outcome);
    if acts != [] && ttsEnabled && outcome.messages[|outcome.messages| - 1].content.Text? {
      assert acts[1].Speak?;
    }
  }

  /** One turn of the loop on a classified line, given what the agent would answer. */
  function Step(s: CliState, command: Command, outcome: Outcome): (CliState, seq<Action>)
  {
    match command
    case Skip => (s, [])
    case Quit => (s.(running := false), [])
    case TtsOn => (s.(ttsEnabled := true), [])
    case TtsOff => (s.(ttsEnabled := false), [])
    case Send(request) => (s, [CallAgent(request)] + Respond(s.ttsEnabled, outcome))
  }

  /** Only a request calls the agent, exactly once and first, with the request; the
      other commands change at most their own flag and record nothing; a reply is spoken
      only while speech is on. */
  lemma StepEffects(s: CliState, command: Command, outcome: Outcome)
    ensures var (t, acts) := Step(s, command, outcome);
      && (command.Send? ==>
            t == s && acts[0] == CallAgent(command.request)
            && forall k :: 1 <= k < |acts| ==> !acts[k].CallAgent?)
      && (!command.Send? ==> acts == [])
      && (command.Skip? ==> t == s)
      && (command.Quit? ==> t == CliState(s.ttsEnabled, false))
      && (command.TtsOn? ==> t == CliState(true, s.running))
      && (command.TtsOff? ==> t == CliState(false, s.running))
      && ((exists k :: 0 <= k < |acts| && acts[k].Speak?) ==> s.ttsEnabled)
  {
    RespondShowsLast(s.ttsEnabled, outcome);
    var (t, acts) := Step(s, command, outcome);
    if command.Send? {
      assert acts == [CallAgent(command.request)] + Respond(s.ttsEnabled, outcome);
      forall k | 1 <= k < |acts| ensures !acts[k].CallAgent? {
        assert acts[k] == Respond(s.ttsEnabled, outcome)[k - 1];
      }
    }
  }

  /** How many agent calls a command makes. */
  function CallsOf(command: Command): nat
  {
    if command.Send? then 1 else 0
  }

  /** What each input line asks for, in input order. */
  function Commands(lines: seq<string>): (cmds: seq<Command>)
    ensures |cmds| == |lines|
    ensures forall i :: 0 <= i < |lines| ==> cmds[i] == Classify(lines[i])
  {
    seq(|lines|, i requires 0 <= i < |lines| => Classify(lines[i]))
  }

  /** The loop over the commands of the input lines from state `s`, the agent having been
      called `calls` times before; the `k`-th agent call answers `reply(k)`. It stops when
      the lines run out or after a quit. */
  function Session(s: CliState, cmds: seq<Command>, reply: nat -> Outcome, calls: nat): (CliState, seq<Action>)
    decreases |cmds|
  {
    if cmds == [] || !s.running then (s, [])
    else
      var (t, acts) := Step(s, cmds[0], reply(calls));
      var (u, rest) := Session(t, cmds[1..], reply, calls + CallsOf(cmds[0]));
      (u, acts + rest)
  }

  /** The requests of the agent calls among some actions, in order. */
  function Requests(acts: seq<Action>): seq<string>
  {
    if acts == [] then []
    else (if acts[0].CallAgent? then [acts[0].request] else []) + Requests(acts[1..])
  }

  lemma {:induction false} RequestsAppend(a: seq<Action>, b: seq<Action>)
    ensures Requests(a + b) == Requests(a) + Requests(b)
  {
    if a == [] {
      assert a + b == b;
    } else {
      assert (a + b)[0] == a[0];
      assert (a + b)[1..] == a[1..] + b;
      RequestsAppend(a[1..], b);
    }
  }

  /** The requests of the lines up to the first quit that are neither empty nor a command. */
  function RequestsBeforeQuit(cmds: seq<Command>): seq<string>
    decreases |cmds|
  {
    if cmds == [] then []
    else match cmds[0]
      case Quit => []
      case Send(request) => [request] + RequestsBeforeQuit(cmds[1..])
      case _ => RequestsBeforeQuit(cmds[1..])
  }

  /** The agent is called once for each line before the first quit that is neither empty
      nor a command, with that line stripped and in its original case, in input order,
      and never otherwise. */
  lemma {:induction false} SessionRequests(s: CliState, cmds: seq<Command>, reply: nat -> Outcome, calls: nat)
    requires s.running
    ensures Requests(Session(s, cmds, reply, calls).1) == RequestsBeforeQuit(cmds)
    decreases |cmds|
  {
    if cmds != [] {
      var step := Step(s, cmds[0], reply(calls));
      var t := step.0;
      var rest := Session(t, cmds[1..], reply, calls + CallsOf(cmds[0])).1;
      assert Session(s, cmds, reply, calls).1 == step.1 + rest;
      RequestsAppend(step.1, rest);
      StepRequests(s, cmds[0], reply(calls));
      if cmds[0].Quit? {
        assert rest == [];
      } else {
        SessionRequests(t, cmds[1..], reply, calls + CallsOf(cmds[0]));
      }
    }
  }

  /** One command calls the agent with its request if it is one, and otherwise not at all. */
  lemma StepRequests(s: CliState, command: Command, outcome: Outcome)
    ensures Requests(Step(s, command, outcome).1) == if command.Send? then [command.request] else []
    ensures command.Quit? ==> !Step(s, command, outcome).0.running
  {
    if command.Send? {
      RequestsAppend([CallAgent(command.request)], Respond(s.ttsEnabled, outcome));
      RespondNoRequests(s.ttsEnabled, outcome);
    }
  }

  lemma RespondNoRequests(ttsEnabled: bool, outcome: Outcome)
    ensures Requests(Respond(ttsEnabled, outcome)) == []
  {
    var acts := Respond(ttsEnabled, outcome);
    if |acts| > 0 {
      assert acts[0].Show?;
      if |acts| == 2 {
        assert acts[1].Speak? && acts[1..][1..] == [];
        assert Requests(acts[1..]) == [];
      } else {
        assert acts[1..] == [];
      }
    }
  }

  /** Nothing after a quit has any effect: the loop ends there. */
  lemma {:induction false} SessionStopsAtQuit(s: CliState, cmds: seq<Command>, reply: nat -> Outcome, calls: nat, k: int)
    requires 0 <= k < |cmds| && cmds[k].Quit?
    ensures Session(s, cmds, reply, calls) == Session(s, cmds[..k + 1], reply, calls)
    ensures !Session(s, cmds, reply, calls).0.running
    decreases |cmds|
  {
    if s.running {
      var t := Step(s, cmds[0], reply(calls)).0;
      var prefix := cmds[..k + 1];
      assert prefix[0] == cmds[0];
      if k > 0 {
        assert prefix[1..] == cmds[1..][..k];
        SessionStopsAtQuit(t, cmds[1..], reply, calls + CallsOf(cmds[0]), k - 1);
      } else {
        assert !t.running;
      }
    }
  }

  /** The speech setting after the lines up to the first quit: the last speech command's,
      or `initial` when there is none. */
  function TtsAfter(initial: bool, cmds: seq<Command>): bool
    decreases |cmds|
  {
    if cmds == [] then initial
    else match cmds[0]
      case Quit => initial
      case TtsOn => TtsAfter(true, cmds[1..])
      case TtsOff => TtsAfter(false, cmds[1..])
      case _ => TtsAfter(initial, cmds[1..])
  }

  /** Speech ends as the last speech command before the quit left it, and a reply is
      spoken only if speech was on at startup or switched on by some line. */
  lemma {:induction false} SessionTts(s: CliState, cmds: seq<Command>, reply: nat -> Outcome, calls: nat)
    requires s.running
    ensures Session(s, cmds, reply, calls).0.ttsEnabled == TtsAfter(s.ttsEnabled, cmds)
    ensures !s.ttsEnabled && (forall k :: 0 <= k < |cmds| ==> !cmds[k].TtsOn?) ==>
      forall k :: 0 <= k < |Session(s, cmds, reply, calls).1| ==> !Session(s, cmds, reply, calls).1[k].Speak?
    decreases |cmds|
  {
    if cmds != [] {
      var (t, acts) := Step(s, cmds[0], reply(calls));
      var (u, rest) := Session(t, cmds[1..], reply, calls + CallsOf(cmds[0]));
      assert Session(s, cmds, reply, calls) == (u, acts + rest);
      StepEffects(s, cmds[0], reply(calls));
      if t.running {
        SessionTts(t, cmds[1..], reply, calls + CallsOf(cmds[0]));
        assert forall k :: 1 <= k < |cmds| ==> cmds[1..][k - 1] == cmds[k];
      }
    }
  }

  /** One turn of `Session` on a running state, at position `i` of the input: the actions
      recorded so far, followed by what the rest of the input does from the new state, are
      what the input from position `i` does from the old one. */
  lemma SessionAdvance(s: CliState, t: CliState, cmds: seq<Command>, i: int, reply: nat -> Outcome,
                       calls: nat, calls': nat, log: seq<Action>, log': seq<Action>)
    requires 0 <= i < |cmds| && s.running
    requires t == Step(s, cmds[i], reply(calls)).0
    requires log' == log + Step(s, cmds[i], reply(calls)).1
    requires calls' == calls + CallsOf(cmds[i])
    ensures log' + Session(t, cmds[i + 1..], reply, calls').1 == log + Session(s, cmds[i..], reply, calls).1
  {
    assert cmds[i..][0] == cmds[i] && cmds[i..][1..] == cmds[i + 1..];
  }

  /** The loop state and the record of what it did, updated one line at a time. */
  class Console {
    var ttsEnabled: bool
    var running: bool
    var calls: nat
    var log: seq<Action>

    function State(): CliState
      reads this
    {
      CliState(ttsEnabled, running)
    }

    constructor (ttsEnabled: bool)
      ensures State() == CliState(ttsEnabled, true) && calls == 0 && log == []
    {
      this.ttsEnabled := ttsEnabled;
      running := true;
      calls := 0;
      log := [];
    }

    /** One turn of the `while True` loop on a line that `input()` returned. */
    method Handle(line: string, reply: nat -> Outcome)
      requires running
      modifies this
      ensures State() == Step(old(State()), Classify(line), reply(old(calls))).0
      ensures log == old(log) + Step(old(State()), Classify(line), reply(old(calls))).1
      ensures calls == old(calls) + CallsOf(Classify(line))
    {
      var input := Strip(line);
      if input == [] {
        assert Classify(line) == Skip;
        return;
      }
      if Lower(input) in QuitWords {
        assert Classify(line) == Quit;
        running := false;
        return;
      }
      if Lower(input) == "tts on" {
        assert Classify(line) == TtsOn;
        ttsEnabled := true;
        return;
      } else if Lower(input) == "tts off" {
        assert Classify(line) == TtsOff;
        ttsEnabled := false;
        return;
      }
      assert Classify(line) == Send(input);
      log := log + [CallAgent(input)];
      var result := reply(calls);
      calls := calls + 1;
      if result.Replied? && |result.messages| > 0 {
        var responseText := result.messages[|result.messages| - 1].content;
        log := log + [Show(responseText)];
        if ttsEnabled && responseText.Text? {
          log := log + [Speak(responseText.text)];
        }
      }
    }
  }

  /** The `while True` loop of `main`, from the state set up at startup, over the input
      lines until a quit or the end of the input; returns what it did. */
  method Loop(start: CliState, lines: seq<string>, reply: nat -> Outcome) returns (log: seq<Action>)
    requires start.running
    ensures log == Session(start, Commands(lines), reply, 0).1
  {
    ghost var cmds := Commands(lines);
    var console := new Console(start.ttsEnabled);
    var i := 0;
    assert cmds[i..] == cmds && console.State() == start;
    while i < |lines| && console.running
      invariant 0 <= i <= |lines|
      invariant console.log + Session(console.State(), cmds[i..], reply, console.calls).1
        == Session(start, cmds, reply, 0).1
    {
      ghost var before, calls, log := console.State(), console.calls, console.log;
      console.Handle(lines[i], reply);
      SessionAdvance(before, console.State(), cmds, i, reply, calls, console.calls, log, console.log);
      i := i + 1;
    }
    assert Session(console.State(), cmds[i..], reply, console.calls).1 == [];
    return console.log;
  }

  /** `main`: the startup checks, then the loop. Exits with status 1 and does nothing
      else without an API key; otherwise returns status 0 with what the loop did. */
  method RunCli(apiKey: Option<string>, enableTts: Option<string>, lines: seq<string>, reply: nat -> Outcome)
    returns (exitCode: int, log: seq<Action>)
    ensures exitCode == 1 <==> apiKey.None? || apiKey.value == []
    ensures exitCode == 1 ==> log == []
    ensures exitCode != 1 ==>
      exitCode == 0 && Startup(apiKey, enableTts).Ok?
      && log == Session(Startup(apiKey, enableTts).value, Commands(lines), reply, 0).1
  {
    var start := Startup(apiKey, enableTts);
    if start.Err? {
      return start.error, [];
    }
    log := Loop(start.value, lines, reply);
    return 0, log;
  }
}
