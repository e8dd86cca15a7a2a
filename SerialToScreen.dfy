/** Event ingestion and dispatch: each serial line becomes at most one integer
    code on a FIFO queue, and `Update` drains the queue through the closed
    dispatch table of `HandleIncomingCode`. */
module Serial {
  import opened DotNet
  import opened Screen

  /** `FilterDigits`: the digits of the line in order, or the line itself when it has none. */
  method FilterDigits(s: string) returns (r: string)
    ensures DigitsOf(s) != [] ==> r == DigitsOf(s)
    ensures DigitsOf(s) == [] ==> r == s
  {
    var sb := [];
    var i := 0;
    while i < |s|
      invariant 0 <= i <= |s|
      invariant sb == DigitsOf(s[..i])
    {
      assert s[..i + 1] == s[..i] + [s[i]];
      DigitsOfAppend(s[..i], [s[i]]);
      if IsDigit(s[i]) {
        sb := sb + [s[i]];
      }
      i := i + 1;
    }
    assert s[..i] == s;
    r := if |sb| > 0 then sb else s;
  }

  /** What `FilterDigits` returns, as a function. */
  function Filtered(s: string): (r: string)
    ensures DigitsOf(r) == DigitsOf(s)
    ensures DigitsOf(s) != [] ==> r != [] && AllDigits(r)
  {
    if DigitsOf(s) != [] then DigitsOf(s) else s
  }

  lemma {:induction false} WhiteSpaceHasNoDigits(s: string)
    requires AllWhiteSpace(s)
    ensures DigitsOf(s) == []
  {
    if s != [] {
      WhiteSpaceHasNoDigits(s[1..]);
    }
  }

  /** The code the read loop enqueues for one received line, if any: a blank line
      is skipped, and otherwise the filtered line must parse as an `int`. A line
      yields a code exactly when it holds a digit and its digits, read as one
      decimal number, fit in 32 bits; the code is never negative, since a sign is
      filtered out with every other non-digit. */
  function ParseLine(line: string): (r: Option<int>)
    ensures r.Some? <==> DigitsOf(line) != [] && DecimalValue(DigitsOf(line)) <= Int32Max
    ensures r.Some? ==> r.value == DecimalValue(DigitsOf(line)) && 0 <= r.value
  {
    if AllWhiteSpace(line) then
      WhiteSpaceHasNoDigits(line);
      None
    else
      if DigitsOf(line) != [] then TryParseDigits(DigitsOf(line)); TryParseInt32(Filtered(line))
      else TryParseInt32(Filtered(line))
  }

  /** A line whose digits number one to nine always yields a code. */
  lemma ShortLineYieldsCode(line: string)
    ensures DigitsOf(line) != [] && |DigitsOf(line)| <= 9 ==> ParseLine(line) == Some(DecimalValue(DigitsOf(line)))
  {
    if DigitsOf(line) != [] && |DigitsOf(line)| <= 9 {
      NineDigitsFit(DigitsOf(line));
    }
  }

  /** The panel each code of the table shows. */
  function Target(code: int): (r: Option<Panel>)
    ensures r.Some? <==> 0 <= code <= 15
    ensures r == Some(Failure) <==> FailureSentence(code).Some?
  {
    if code == 0 then Some(Idle)
    else if code == 1 || code == 10 then Some(NFCRead)
    else if code == 2 then Some(HoldHand)
    else if code == 6 then Some(MeasureReady)
    else if code == 7 then Some(Measuring)
    else if code == 9 then Some(Success)
    else if code == 12 then Some(NFCWrite)
    else if code == 15 then Some(Done)
    else if FailureSentence(code).Some? then Some(Failure)
    else None
  }

  /** The diagnostic sentence each failure code writes into `failureVoice`. */
  function FailureSentence(code: int): (r: Option<string>)
    ensures r.Some? <==> code == 3 || code == 4 || code == 5 || code == 8 || code == 11 || code == 13 || code == 14
  {
    match code
    case 3 => Some("このタグは使えません。")
    case 4 => Some("タグの読み出しに失敗しました。")
    case 5 => Some("同じタグが続けて読み込まれました。")
    case 8 => Some("計測がタイムアウトしました。")
    case 11 => Some("タグが見つかりませんでした。")
    case 13 => Some("書き込みを中断しました。")
    case 14 => Some("データが一致しません。")
    case _ => None
  }

  /** The requests `SpeakNow(text)` makes in state `s`. */
  function Immediate(s: ScreenState, text: Option<string>): seq<Request> {
    if IsITTS(s.backend) && !IsNullOrWhiteSpace(text) then [Request(text.value, 0.0)] else []
  }

  /** The requests the auto-speech of `Show` makes for `text` in state `s`. */
  function Delayed(s: ScreenState, text: Option<string>): seq<Request> {
    if s.autoSpeak && IsITTS(s.backend) && !IsNullOrWhiteSpace(text) then [Request(text.value, s.speakDelaySec)] else []
  }

  /** The speech each code asks for, grouped by kind of code: code 0 and the
      failure codes speak a fixed text at once; 7, 9 and 15 speak their panel's
      prompt after the delay; 2 and 6 speak it at once; 1, 10 and 12 speak it
      twice, delayed and at once. */
  function CodeRequests(s: ScreenState, code: int): seq<Request> {
    if code == 0 then Immediate(s, s.prompts.backToIdle)
    else if FailureSentence(code).Some? then Immediate(s, FailureSentence(code))
    else if code == 7 || code == 9 || code == 15 then Delayed(s, VoiceFor(s.prompts, Target(code).value))
    else if code == 2 || code == 6 then Immediate(s, VoiceFor(s.prompts, Target(code).value))
    else if code == 1 || code == 10 || code == 12 then
      Delayed(s, VoiceFor(s.prompts, Target(code).value)) + Immediate(s, VoiceFor(s.prompts, Target(code).value))
    else []
  }

  /** Rewrite `failureVoice` with the code's sentence, show Failure silently, then speak that prompt. */
  function FailEffect(s: ScreenState, sentence: string): ScreenState {
    var s1 := s.(prompts := s.prompts.(failure := Some(sentence)));
    var s2 := ShowEffect(s1, Failure, false, None);
    SpeakNowEffect(s2, s2.prompts.failure)
  }

  /** The effect of `HandleIncomingCode(code)` on a present screen manager. */
  function DispatchEffect(s: ScreenState, code: int): (r: ScreenState)
    ensures r.panels.Keys == s.panels.Keys
    ensures r.autoSpeak == s.autoSpeak && r.backend == s.backend && r.voiceSource == s.voiceSource
    ensures r.speakDelaySec == s.speakDelaySec
    ensures s.requests <= r.requests
  {
    match code
    case 0 =>
      var s1 := ShowEffect(s, Idle, false, None);
      SpeakNowEffect(s1, s1.prompts.backToIdle)
    case 1 =>
      var s1 := ShowEffect(s, NFCRead, true, None);
      SpeakNowEffect(s1, s1.prompts.nfcRead)
    case 2 =>
      var s1 := ShowEffect(s, HoldHand, false, None);
      SpeakNowEffect(s1, s1.prompts.holdHand)
    case 3 => FailEffect(s, FailureSentence(3).value)
    case 4 => FailEffect(s, FailureSentence(4).value)
    case 5 => FailEffect(s, FailureSentence(5).value)
    case 6 =>
      var s1 := ShowEffect(s, MeasureReady, false, None);
      SpeakNowEffect(s1, s1.prompts.measureReady)
    case 7 => ShowEffect(s, Measuring, true, None)
    case 8 => FailEffect(s, FailureSentence(8).value)
    case 9 => ShowEffect(s, Success, true, None)
    case 10 =>
      var s1 := ShowEffect(s, NFCRead, true, None);
      SpeakNowEffect(s1, s1.prompts.nfcRead)
    case 11 => FailEffect(s, FailureSentence(11).value)
    case 12 =>
      var s1 := ShowEffect(s, NFCWrite, true, None);
      SpeakNowEffect(s1, s1.prompts.nfcWrite)
    case 13 => FailEffect(s, FailureSentence(13).value)
    case 14 => FailEffect(s, FailureSentence(14).value)
    case 15 => ShowEffect(s, Done, true, None)
    case _ => s
  }

  /** What a dispatch that shows `p` and speaks `reqs` leaves behind. */
  predicate Dispatched(s: ScreenState, r: ScreenState, p: Panel, prompts: Prompts, reqs: seq<Request>) {
    && r.panels.Keys == s.panels.Keys && OnlyActive(r.panels, p)
    && r.prompts == prompts
    && r.autoSpeak == s.autoSpeak && r.backend == s.backend && r.voiceSource == s.voiceSource
    && r.speakDelaySec == s.speakDelaySec
    && r.requests == s.requests + reqs
    && (r.backendSource == s.backendSource || r.backendSource == s.voiceSource)
    && (reqs != [] ==> r.backendSource == Routed(s))
  }

  /** `Show(p, playVoice)` followed by `SpeakNow(text)`, where `text` is read after `Show`. */
  lemma ShowThenSpeak(s: ScreenState, p: Panel, playVoice: bool, text: Option<string>)
    ensures Dispatched(s, SpeakNowEffect(ShowEffect(s, p, playVoice, None), text), p, s.prompts,
                       (if playVoice then Delayed(s, VoiceFor(s.prompts, p)) else []) + Immediate(s, text))
  {
    var s1 := ShowEffect(s, p, playVoice, None);
    assert s1.backend == s.backend && s1.voiceSource == s.voiceSource && Routed(s1) == Routed(s);
  }

  lemma FailSpec(s: ScreenState, sentence: string)
    ensures Dispatched(s, FailEffect(s, sentence), Failure, s.prompts.(failure := Some(sentence)),
                       Immediate(s, Some(sentence)))
  {
    var s1 := s.(prompts := s.prompts.(failure := Some(sentence)));
    ShowThenSpeak(s1, Failure, false, Some(sentence));
  }

  /** Every code of the table shows its target panel, rewrites `failureVoice` only
      for a failure code, and makes exactly the requests `CodeRequests` lists;
      any other code changes nothing. */
  lemma DispatchEffectSpec(s: ScreenState, code: int)
    ensures Target(code).None? ==> DispatchEffect(s, code) == s
    ensures Target(code).Some? ==>
              Dispatched(s, DispatchEffect(s, code), Target(code).value,
                         if FailureSentence(code).Some? then s.prompts.(failure := FailureSentence(code)) else s.prompts,
                         CodeRequests(s, code))
  {
    if FailureSentence(code).Some? {
      FailSpec(s, FailureSentence(code).value);
    } else if code == 0 {
      ShowThenSpeak(s, Idle, false, s.prompts.backToIdle);
    } else if code == 1 || code == 10 {
      ShowThenSpeak(s, NFCRead, true, s.prompts.nfcRead);
    } else if code == 2 {
      ShowThenSpeak(s, HoldHand, false, s.prompts.holdHand);
    } else if code == 6 {
      ShowThenSpeak(s, MeasureReady, false, s.prompts.measureReady);
    } else if code == 12 {
      ShowThenSpeak(s, NFCWrite, true, s.prompts.nfcWrite);
    } else if code == 7 || code == 9 || code == 15 {
      ShowThenSpeak(s, Target(code).value, true, None);
    }
  }

  /** Dispatching a sequence of codes front to back. */
  function DrainEffect(s: ScreenState, codes: seq<int>): (r: ScreenState)
    ensures r.panels.Keys == s.panels.Keys
    ensures r.autoSpeak == s.autoSpeak && r.backend == s.backend && r.voiceSource == s.voiceSource
    ensures s.requests <= r.requests
    decreases |codes|
  {
    if codes == [] then s else DrainEffect(DispatchEffect(s, codes[0]), codes[1..])
  }

  /** Draining `a + b` is draining `a`, then `b`. */
  lemma {:induction false} DrainAppend(s: ScreenState, a: seq<int>, b: seq<int>)
    ensures DrainEffect(s, a + b) == DrainEffect(DrainEffect(s, a), b)
    decreases |a|
  {
    if a == [] {
      assert a + b == b;
    } else {
      assert (a + b)[0] == a[0] && (a + b)[1..] == a[1..] + b;
      DrainAppend(DispatchEffect(s, a[0]), a[1..], b);
    }
  }

  /** Codes 7, 9 and 15 enqueued in that order end on the Done panel. */
  lemma MeasureThenWriteEndsDone(s: ScreenState)
    ensures DrainEffect(s, [7, 9, 15]).panels.Keys == s.panels.Keys
    ensures OnlyActive(DrainEffect(s, [7, 9, 15]).panels, Done)
  {
    var s1 := DispatchEffect(s, 7);
    var s2 := DispatchEffect(s1, 9);
    DispatchEffectSpec(s, 7);
    DispatchEffectSpec(s1, 9);
    DispatchEffectSpec(s2, 15);
    assert [7, 9, 15][1..] == [9, 15] && [9, 15][1..] == [15] && [15][1..] == [];
  }

  /** Code 0 shows Idle from any state and, with a backend, speaks `backToIdleVoice`
      at once, never the Idle panel's own prompt. */
  lemma ReturnToIdle(s: ScreenState)
    requires IsITTS(s.backend) && !IsNullOrWhiteSpace(s.prompts.backToIdle)
    ensures OnlyActive(DispatchEffect(s, 0).panels, Idle)
    ensures DispatchEffect(s, 0).requests == s.requests + [Request(s.prompts.backToIdle.value, 0.0)]
  {
    DispatchEffectSpec(s, 0);
  }

  /** What a failure code says depends on the code alone: the previous
      `failureVoice` makes no difference to the outcome. */
  lemma FailureIgnoresPreviousPrompt(s: ScreenState, previous: Option<string>, code: int)
    requires FailureSentence(code).Some?
    ensures DispatchEffect(s.(prompts := s.prompts.(failure := previous)), code) == DispatchEffect(s, code)
  {
    var sentence := FailureSentence(code).value;
    assert s.(prompts := s.prompts.(failure := previous)).(prompts := s.prompts.(failure := Some(sentence)))
        == s.(prompts := s.prompts.(failure := Some(sentence)));
  }

  /** Two failure codes in a row each speak their own sentence: the first
      sentence does not leak into the second. */
  lemma FailureSentencesDoNotLeak(s: ScreenState, first: int, second: int)
    requires FailureSentence(first).Some? && FailureSentence(second).Some?
    requires IsITTS(s.backend)
    ensures DrainEffect(s, [first, second]).requests
         == s.requests + [Request(FailureSentence(first).value, 0.0), Request(FailureSentence(second).value, 0.0)]
  {
    DrainTwo(s, first, second);
    FailureSpeaksAtOnce(s, first);
    FailureSpeaksAtOnce(DispatchEffect(s, first), second);
  }

  lemma DrainTwo(s: ScreenState, a: int, b: int)
    ensures DrainEffect(s, [a, b]) == DispatchEffect(DispatchEffect(s, a), b)
  {
    assert [a, b][1..] == [b] && [b][1..] == [];
    var s1 := DispatchEffect(s, a);
    assert DrainEffect(s, [a, b]) == DrainEffect(s1, [b]);
    assert DrainEffect(s1, [b]) == DrainEffect(DispatchEffect(s1, b), []);
  }

  /** A failure code with a backend makes one immediate request for its sentence. */
  lemma FailureSpeaksAtOnce(s: ScreenState, code: int)
    requires FailureSentence(code).Some? && IsITTS(s.backend)
    ensures DispatchEffect(s, code).backend == s.backend
    ensures DispatchEffect(s, code).requests == s.requests + [Request(FailureSentence(code).value, 0.0)]
  {
    FailureSentenceNotBlank(code);
    DispatchEffectSpec(s, code);
  }

  lemma FailureSentenceNotBlank(code: int)
    requires FailureSentence(code).Some?
    ensures !IsNullOrWhiteSpace(FailureSentence(code))
  {
    assert !IsWhiteSpace(FailureSentence(code).value[0]);
  }

  lemma {:induction false} DigitFreeHasNoDigits(s: string)
    requires forall i :: 0 <= i < |s| ==> !IsDigit(s[i])
    ensures DigitsOf(s) == []
  {
    if s != [] {
      DigitFreeHasNoDigits(s[1..]);
    }
  }

  /** The line shape the read loop expects from the board: a label, a space, the code and CR LF. */
  lemma LabelledLineExample()
    ensures ParseLine("code: 7\r\n") == Some(7)
  {
    var line := "code: 7\r\n";
    var head, digit, tail := "code: ", "7", "\r\n";
    assert line == head + (digit + tail);
    DigitFreeHasNoDigits(head);
    DigitFreeHasNoDigits(tail);
    DigitsOfAppend(digit, tail);
    DigitsOfAppend(head, digit + tail);
    assert DigitsOf(line) == "7";
    assert DecimalValue("7") == 7 by {
      assert "7"[..0] == [];
    }
  }

  class SerialToScreen {
    var screenManager: ScreenManager?
    /** The concurrent queue between the read thread and `Update`, front first. */
    var queue: seq<int>

    constructor (manager: ScreenManager?)
      ensures screenManager == manager && queue == []
    {
      screenManager := manager;
      queue := [];
    }

    /** One successful `ReadLine` of the read loop: parse the line and enqueue its code, if any. */
    method ReceiveLine(line: string)
      modifies this`queue
      ensures queue == old(queue) + (if ParseLine(line).Some? then [ParseLine(line).value] else [])
    {
      if AllWhiteSpace(line) {
        return;
      }
      var filtered := FilterDigits(line);
      var code := TryParseInt32(filtered);
      if code.Some? {
        queue := queue + [code.value];
      }
    }

    method HandleIncomingCode(code: int)
      modifies screenManager
      ensures screenManager != null ==> screenManager.State() == DispatchEffect(old(screenManager.State()), code)
    {
      if screenManager == null {
        return;
      }
      var sm := screenManager;
      match code
      case 0 =>
        sm.Show(Idle, false, None);
        sm.SpeakNow(sm.backToIdleVoice);
      case 1 =>
        sm.Show(NFCRead, true, None);
        sm.SpeakNow(sm.nfcReadVoice);
      case 2 =>
        sm.Show(HoldHand, false, None);
        sm.SpeakNow(sm.holdHandVoice);
      case 3 =>
        sm.failureVoice := Some("このタグは使えません。");
        sm.Show(Failure, false, None);
        sm.SpeakNow(sm.failureVoice);
      case 4 =>
        sm.failureVoice := Some("タグの読み出しに失敗しました。");
        sm.Show(Failure, false, None);
        sm.SpeakNow(sm.failureVoice);
      case 5 =>
        sm.failureVoice := Some("同じタグが続けて読み込まれました。");
        sm.Show(Failure, false, None);
        sm.SpeakNow(sm.failureVoice);
      case 6 =>
        sm.Show(MeasureReady, false, None);
        sm.SpeakNow(sm.measureReadyVoice);
      case 7 =>
        sm.Show(Measuring, true, None);
      case 8 =>
        sm.failureVoice := Some("計測がタイムアウトしました。");
        sm.Show(Failure, false, None);
        sm.SpeakNow(sm.failureVoice);
      case 9 =>
        sm.Show(Success, true, None);
      case 10 =>
        sm.Show(NFCRead, true, None);
        sm.SpeakNow(sm.nfcReadVoice);
      case 11 =>
        sm.failureVoice := Some("タグが見つかりませんでした。");
        sm.Show(Failure, false, None);
        sm.SpeakNow(sm.failureVoice);
      case 12 =>
        sm.Show(NFCWrite, true, None);
        sm.SpeakNow(sm.nfcWriteVoice);
      case 13 =>
        sm.failureVoice := Some("書き込みを中断しました。");
        sm.Show(Failure, false, None);
        sm.SpeakNow(sm.failureVoice);
      case 14 =>
        sm.failureVoice := Some("データが一致しません。");
        sm.Show(Failure, false, None);
        sm.SpeakNow(sm.failureVoice);
      case 15 =>
        sm.Show(Done, true, None);
      case _ =>
    }

    /** The queue-draining part of `Update`: dequeue and dispatch until the queue is empty. */
    method Update()
      modifies this`queue, screenManager
      ensures queue == []
      ensures screenManager != null ==> screenManager.State() == DrainEffect(old(screenManager.State()), old(queue))
    {
      ghost var drained: seq<int> := [];
      while queue != []
        invariant old(queue) == drained + queue
        invariant screenManager != null ==> screenManager.State() == DrainEffect(old(screenManager.State()), drained)
        decreases |queue|
      {
        var code := queue[0];
        queue := queue[1..];
        HandleIncomingCode(code);
        if screenManager != null {
          DrainAppend(old(screenManager.State()), drained, [code]);
        }
        drained := drained + [code];
      }
      assert drained == old(queue);
    }
  }
}
