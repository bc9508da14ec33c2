/** The screenshot-to-message bridge, `GameAgent._process_screenshot`: after the tool
    node has run, find the newest screenshot tool result that carries a base64 image and
    hand that image to the model as a new two-part human message. */
module Bridge {
  import opened Wrappers
  import opened Text
  import opened Messages

  /** The text part of the image message. */
  const ScreenshotPrompt: string := "Here is the screenshot. Please analyze it:"

  /** The data-URL prefix put in front of the base64 image. */
  const DataUrlPrefix: string := "data:image/png;base64,"

  /** The message `_process_screenshot` emits for a base64 image: a human message with a
      text part and an image-URL part, in that order, the URL being the data-URL prefix
      followed by the image itself. */
  function ImageMessage(image: string): (m: Message)
    ensures m.kind == Human && m.name == None && m.toolCalls == 0
    ensures m.content.Parts? && |m.content.parts| == 2
    ensures m.content.parts[0] == TextPart(ScreenshotPrompt)
    ensures m.content.parts[1].ImageUrlPart?
    ensures DataUrlPrefix <= m.content.parts[1].url
    ensures m.content.parts[1].url[|DataUrlPrefix|..] == image
  {
    Message(Human, None, Parts([TextPart(ScreenshotPrompt), ImageUrlPart(DataUrlPrefix + image)]), 0)
  }

  /** The exceptions that escape `_process_screenshot`: `None.lower()` on a message
      without a name (outside the `try`), and `.keys()` on a payload that is not a
      dictionary (an `AttributeError`, which the `except` clause does not list). */
  datatype BridgeError = NameIsNone | PayloadNotDict

  /** What one pass of the scanning loop does with a message: step past it, take its
      image and stop, or raise. */
  datatype Verdict = Skip | Hit(image: string) | Crash(error: BridgeError)

  /** `"screenshot" in name.lower()`. */
  predicate IsScreenshotName(name: string)
  {
    Contains(Lower(name), "screenshot")
  }

  /** A message whose image the bridge takes: its name mentions a screenshot and its
      payload is a dictionary with a `base64` key. */
  predicate Qualifies(m: Message, decode: string -> Payload)
  {
    && m.name.Some?
    && IsScreenshotName(m.name.value)
    && PayloadOf(m, decode).Object?
    && "base64" in PayloadOf(m, decode).fields
  }

  /** The base64 image of a qualifying message. */
  function ImageOf(m: Message, decode: string -> Payload): string
    requires Qualifies(m, decode)
  {
    PayloadOf(m, decode).fields["base64"]
  }

  /** The loop body of `_process_screenshot`, as written, applied to one message. */
  function Judge(m: Message, decode: string -> Payload): (v: Verdict)
    ensures v.Hit? <==> Qualifies(m, decode)
    ensures v.Hit? ==> v.image == ImageOf(m, decode)
    ensures v == Crash(NameIsNone) <==> m.name.None?
    ensures v == Crash(PayloadNotDict) <==>
      m.name.Some? && IsScreenshotName(m.name.value) && PayloadOf(m, decode).NotObject?
  {
    match m.name
    case None => Crash(NameIsNone)
    case Some(name) =>
      if !IsScreenshotName(name) then Skip
      else
        match PayloadOf(m, decode)
        case DecodeError => Skip          // caught by `except json.JSONDecodeError`
        case NotObject => Crash(PayloadNotDict)
        case Object(fields) => if "base64" in fields then Hit(fields["base64"]) else Skip
  }

  /** `Judge` with the decoder fixed, as a function value for `Scan`. */
  function Judged(decode: string -> Payload): Message -> Verdict
  {
    m => Judge(m, decode)
  }

  /** The loop of `_process_screenshot` corrected so that it never raises: a message
      without a name, or with a payload that is not a dictionary, is stepped past. */
  function JudgeCorrected(m: Message, decode: string -> Payload): (v: Verdict)
    ensures !v.Crash?
    ensures v.Hit? <==> Qualifies(m, decode)
  {
    if Qualifies(m, decode) then Hit(ImageOf(m, decode)) else Skip
  }

  /** The scan over `reversed(messages)`: the verdict of the newest message that the loop
      does not step past, or `Skip` when it steps past them all. */
  function Scan(msgs: seq<Message>, judge: Message -> Verdict): (v: Verdict)
    ensures v.Skip? || exists k :: 0 <= k < |msgs| && v == judge(msgs[k])
  {
    if msgs == [] then Skip
    else if judge(msgs[|msgs| - 1]).Skip? then Scan(msgs[..|msgs| - 1], judge)
    else judge(msgs[|msgs| - 1])
  }

  /** The scan steps past everything exactly when every message is stepped past. */
  lemma {:induction false} ScanSkipsAll(msgs: seq<Message>, judge: Message -> Verdict)
    ensures Scan(msgs, judge).Skip? <==> forall k :: 0 <= k < |msgs| ==> judge(msgs[k]).Skip?
  {
    if msgs != [] {
      var init := msgs[..|msgs| - 1];
      ScanSkipsAll(init, judge);
      assert forall k :: 0 <= k < |init| ==> init[k] == msgs[k];
    }
  }

  /** The newest message not stepped past decides the scan. */
  lemma {:induction false} ScanNewest(msgs: seq<Message>, judge: Message -> Verdict, k: int)
    requires 0 <= k < |msgs| && !judge(msgs[k]).Skip?
    requires forall j :: k < j < |msgs| ==> judge(msgs[j]).Skip?
    ensures Scan(msgs, judge) == judge(msgs[k])
  {
    if k < |msgs| - 1 {
      var init := msgs[..|msgs| - 1];
      assert init[k] == msgs[k];
      assert forall j :: k < j < |init| ==> init[j] == msgs[j];
      ScanNewest(init, judge, k);
    }
  }

  /** When the scan stops, it stops at some message, and every newer one was stepped past. */
  lemma {:induction false} ScanWitness(msgs: seq<Message>, judge: Message -> Verdict)
    requires !Scan(msgs, judge).Skip?
    ensures exists k :: (0 <= k < |msgs| && Scan(msgs, judge) == judge(msgs[k])
      && forall j :: k < j < |msgs| ==> judge(msgs[j]).Skip?)
  {
    var last := |msgs| - 1;
    if judge(msgs[last]).Skip? {
      var init := msgs[..last];
      assert Scan(msgs, judge) == Scan(init, judge);
      ScanWitness(init, judge);
      var k :| 0 <= k < |init| && Scan(init, judge) == judge(init[k])
        && forall j :: k < j < |init| ==> judge(init[j]).Skip?;
      assert init[k] == msgs[k];
      assert forall j :: k < j < |msgs| ==> judge(msgs[j]).Skip? by {
        forall j | k < j < |msgs|
          ensures judge(msgs[j]).Skip?
        {
          if j < last {
            assert init[j] == msgs[j];
          }
        }
      }
    } else {
      assert Scan(msgs, judge) == judge(msgs[last]);
    }
  }

  /** A message that the scan steps past can be removed without changing the outcome. */
  lemma {:induction false} ScanIgnoresSkipped(msgs: seq<Message>, judge: Message -> Verdict, i: int)
    requires 0 <= i < |msgs| && judge(msgs[i]).Skip?
    ensures Scan(msgs, judge) == Scan(msgs[..i] + msgs[i + 1..], judge)
  {
    var rest := msgs[..i] + msgs[i + 1..];
    var last := |msgs| - 1;
    if i == last {
      assert rest == msgs[..last];
    } else {
      assert rest[..|rest| - 1] == msgs[..last][..i] + msgs[..last][i + 1..];
      assert rest[|rest| - 1] == msgs[last];
      ScanIgnoresSkipped(msgs[..last], judge, i);
    }
  }

  /** The result of `_process_screenshot` as written: the new messages it returns, or the
      exception that escapes it. */
  function Bridge(msgs: seq<Message>, decode: string -> Payload): (r: Result<seq<Message>, BridgeError>)
    ensures r.Ok? ==> |r.value| <= 1
  {
    match Scan(msgs, Judged(decode))
    case Skip => Ok([])
    case Hit(image) => Ok([ImageMessage(image)])
    case Crash(e) => Err(e)
  }

  /** `_process_screenshot`, as written: walk the messages from the newest, stop at the
      first screenshot message whose payload has a `base64` key, and return at most that
      one image message; the input list is only read. */
  method ProcessScreenshot(messages: seq<Message>, decode: string -> Payload)
    returns (r: Result<seq<Message>, BridgeError>)
    ensures r == Bridge(messages, decode)
  {
    var newMessages: seq<Message> := [];
    var i := |messages|;
    assert messages[..i] == messages;
    while i > 0
      invariant 0 <= i <= |messages|
      invariant newMessages == []
      invariant Scan(messages, Judged(decode)) == Scan(messages[..i], Judged(decode))
    {
      var msg := messages[i - 1];
      ghost var verdict := Judge(msg, decode);
      assert Scan(messages[..i], Judged(decode)) ==
        if verdict.Skip? then Scan(messages[..i - 1], Judged(decode)) else verdict
      by {
        assert messages[..i][..i - 1] == messages[..i - 1];
        assert messages[..i][i - 1] == msg;
        assert Judged(decode)(msg) == verdict;
      }
      if msg.name.None? {
        assert verdict == Crash(NameIsNone);
        return Err(NameIsNone);
      }
      if IsScreenshotName(msg.name.value) {
        var result := PayloadOf(msg, decode);
        if result.NotObject? {
          assert verdict == Crash(PayloadNotDict);
          return Err(PayloadNotDict);
        }
        if result.Object? && "base64" in result.fields {
          newMessages := newMessages + [ImageMessage(result.fields["base64"])];
          assert Scan(messages, Judged(decode)) == Hit(result.fields["base64"]);
          break;
        }
      }
      assert verdict.Skip?;
      i := i - 1;
    }
    assert newMessages == [] ==> Scan(messages, Judged(decode)) == Skip;
    assert newMessages != [] ==>
      Scan(messages, Judged(decode)).Hit?
      && newMessages == [ImageMessage(Scan(messages, Judged(decode)).image)];
    return Ok(newMessages);
  }

  /** The image chosen is that of the newest qualifying message, and every newer message
      has a name and is stepped past. */
  lemma BridgePicksNewest(msgs: seq<Message>, decode: string -> Payload, m: Message)
    requires Bridge(msgs, decode) == Ok([m])
    ensures exists k :: (0 <= k < |msgs| && Qualifies(msgs[k], decode)
      && m == ImageMessage(ImageOf(msgs[k], decode))
      && forall j :: k < j < |msgs| ==> msgs[j].name.Some? && !Qualifies(msgs[j], decode))
  {
    ScanWitness(msgs, Judged(decode));
  }

  /** Conversely, a qualifying message behind which every newer message is stepped past
      is the one whose image is emitted. */
  lemma BridgeEmitsNewest(msgs: seq<Message>, decode: string -> Payload, k: int)
    requires 0 <= k < |msgs| && Qualifies(msgs[k], decode)
    requires forall j :: k < j < |msgs| ==> Judge(msgs[j], decode).Skip?
    ensures Bridge(msgs, decode) == Ok([ImageMessage(ImageOf(msgs[k], decode))])
  {
    ScanNewest(msgs, Judged(decode), k);
  }

  /** The bridge adds nothing exactly when every message is stepped past: each has a name,
      and none with a screenshot name carries a dictionary with a `base64` key or a
      payload that is not a dictionary. */
  lemma BridgeEmpty(msgs: seq<Message>, decode: string -> Payload)
    ensures Bridge(msgs, decode) == Ok([]) <==> forall k :: 0 <= k < |msgs| ==> Judge(msgs[k], decode).Skip?
  {
    ScanSkipsAll(msgs, Judged(decode));
  }

  /** As written, the bridge never adds nothing to a conversation that starts with an
      unnamed message (the user's request always does): it emits an image or raises. */
  lemma BridgeNeverEmpty(msgs: seq<Message>, decode: string -> Payload)
    requires |msgs| > 0 && msgs[0].name.None?
    ensures Bridge(msgs, decode) != Ok([])
  {
    BridgeEmpty(msgs, decode);
    assert !Judge(msgs[0], decode).Skip?;
  }

  /** A newer screenshot message whose payload fails to decode or lacks `base64` does not
      stop the search: removing it leaves the result unchanged. */
  lemma BridgeSkipsFailedScreenshot(msgs: seq<Message>, decode: string -> Payload, i: int)
    requires 0 <= i < |msgs| && msgs[i].name.Some? && IsScreenshotName(msgs[i].name.value)
    requires PayloadOf(msgs[i], decode).DecodeError?
      || (PayloadOf(msgs[i], decode).Object? && "base64" !in PayloadOf(msgs[i], decode).fields)
    ensures Bridge(msgs, decode) == Bridge(msgs[..i] + msgs[i + 1..], decode)
  {
    ScanIgnoresSkipped(msgs, Judged(decode), i);
  }

  /** The exception raised comes from the newest message the loop does not step past. */
  lemma BridgeRaises(msgs: seq<Message>, decode: string -> Payload, e: BridgeError)
    requires Bridge(msgs, decode) == Err(e)
    ensures exists k :: (0 <= k < |msgs| && Judge(msgs[k], decode) == Crash(e)
      && forall j :: k < j < |msgs| ==> Judge(msgs[j], decode).Skip?)
  {
    ScanWitness(msgs, Judged(decode));
  }

  /** The corrected bridge: the image of the newest qualifying message, if any. */
  function BridgeCorrected(msgs: seq<Message>, decode: string -> Payload): (r: seq<Message>)
    ensures |r| <= 1
  {
    match Scan(msgs, m => JudgeCorrected(m, decode))
    case Hit(image) => [ImageMessage(image)]
    case _ => []
  }

  /** The corrected bridge adds nothing exactly when no message qualifies, and otherwise
      adds the image of the newest qualifying message. */
  lemma BridgeCorrectedNewest(msgs: seq<Message>, decode: string -> Payload)
    ensures BridgeCorrected(msgs, decode) == [] <==> forall k :: 0 <= k < |msgs| ==> !Qualifies(msgs[k], decode)
    ensures BridgeCorrected(msgs, decode) != [] ==>
      exists k :: (0 <= k < |msgs| && Qualifies(msgs[k], decode)
        && BridgeCorrected(msgs, decode) == [ImageMessage(ImageOf(msgs[k], decode))]
        && forall j :: k < j < |msgs| ==> !Qualifies(msgs[j], decode))
  {
    var judge := m => JudgeCorrected(m, decode);
    ScanSkipsAll(msgs, judge);
    if !Scan(msgs, judge).Skip? {
      ScanWitness(msgs, judge);
    }
  }

  /** The correction changes only the inputs on which the original raises. */
  lemma {:induction false} BridgeCorrectedAgrees(msgs: seq<Message>, decode: string -> Payload)
    requires Bridge(msgs, decode).Ok?
    ensures BridgeCorrected(msgs, decode) == Bridge(msgs, decode).value
  {
    if msgs != [] {
      var init := msgs[..|msgs| - 1];
      var m := msgs[|msgs| - 1];
      if Judge(m, decode).Skip? {
        BridgeCorrectedAgrees(init, decode);
      }
    }
  }

  /** A screenshot tool that failed (its content is an error text, not JSON) in a
      conversation that starts, as every run does, with the user's unnamed message: the
      loop steps past the tool result and then calls `lower()` on `None`. The corrected
      bridge adds nothing instead. */
  lemma FailedScreenshotRaises()
    ensures var msgs := [
        HumanText("analyze this game screen"),
        Message(AI, None, Text(""), 1),
        Message(Tool, Some("take_screenshot"), Text("Error: screen capture failed"), 0)];
      var decode := (s: string) => DecodeError;
      Bridge(msgs, decode) == Err(NameIsNone) && BridgeCorrected(msgs, decode) == []
  {
  }

  /** A message named after a screenshot whose JSON payload is a list: `.keys()` raises
      `AttributeError`, which the `except` clause does not catch. */
  lemma ListPayloadRaises()
    ensures var msgs := [Message(Tool, Some("take_screenshot"), Text("[]"), 0)];
      var decode := (s: string) => NotObject;
      Bridge(msgs, decode) == Err(PayloadNotDict) && BridgeCorrected(msgs, decode) == []
  {
    var name := "take_screenshot";
    assert Lower(name) == name;
    ContainsAt(name, "screenshot", 5);
  }
}
