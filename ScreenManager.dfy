/** The display-state manager: nine panels, of which `Show` activates the chosen
    one (when its GameObject is assigned) and deactivates every other, a table of spoken prompts that callers may rewrite, and two ways of
    asking the speech backend to talk — delayed auto-speech on `Show` and
    immediate `SpeakNow`. */
module Screen {
  import opened DotNet

  /** `ScreenManager.Panel`. */
  datatype Panel = Idle | HoldHand | MeasureReady | Measuring | Success | Failure | NFCRead | NFCWrite | Done

  /** The underlying value of each enum member. */
  function PanelValue(p: Panel): (v: int)
    ensures v in {1, 2, 3, 4, 5, 7, 60, 61, 100}
  {
    match p
    case Idle => 1
    case HoldHand => 2
    case MeasureReady => 100
    case Measuring => 3
    case Success => 4
    case Failure => 5
    case NFCRead => 60
    case NFCWrite => 61
    case Done => 7
  }

  /** The member with a given underlying value, if any: the values are pairwise distinct. */
  function PanelOfValue(v: int): (r: Option<Panel>)
    ensures r.Some? ==> PanelValue(r.value) == v
    ensures forall p :: PanelValue(p) == v ==> r == Some(p)
  {
    if v == 1 then Some(Idle)
    else if v == 2 then Some(HoldHand)
    else if v == 100 then Some(MeasureReady)
    else if v == 3 then Some(Measuring)
    else if v == 4 then Some(Success)
    else if v == 5 then Some(Failure)
    else if v == 60 then Some(NFCRead)
    else if v == 61 then Some(NFCWrite)
    else if v == 7 then Some(Done)
    else None
  }

  /** No two members share a value. */
  lemma PanelValueInjective(p: Panel, q: Panel)
    ensures PanelValue(p) == PanelValue(q) <==> p == q
  {
    var r := PanelOfValue(PanelValue(p));
    assert r == Some(p) && (PanelValue(q) == PanelValue(p) ==> r == Some(q));
  }

  /** The keys of `_map` in the order `Awake` inserts them, which is the order `Show` visits them. */
  const MapOrder: seq<Panel> := [Idle, HoldHand, MeasureReady, Measuring, Success, Failure, NFCRead, NFCWrite, Done]

  /** Where each member sits in `MapOrder`. */
  function MapIndex(p: Panel): (i: nat)
    ensures i < |MapOrder| && MapOrder[i] == p
  {
    match p
    case Idle => 0
    case HoldHand => 1
    case MeasureReady => 2
    case Measuring => 3
    case Success => 4
    case Failure => 5
    case NFCRead => 6
    case NFCWrite => 7
    case Done => 8
  }

  /** `_map` has exactly one entry per member. */
  lemma MapOrderListsEachPanelOnce()
    ensures forall p :: p in MapOrder
    ensures forall i, j :: 0 <= i < j < |MapOrder| ==> MapOrder[i] != MapOrder[j]
  {
    forall p: Panel
      ensures p in MapOrder
    {
      assert MapOrder[MapIndex(p)] == p;
    }
  }

  /** The panel flags after activating `p`: the same assigned panels, only `p` active. */
  function Activated(m: map<Panel, bool>, p: Panel): (r: map<Panel, bool>)
    ensures r.Keys == m.Keys && OnlyActive(r, p)
  {
    map q | q in m :: q == p
  }

  /** The activation loop of `Show`: visiting `_map` in order, each assigned
      panel is set active exactly when it is `p`. */
  method ActivateOnly(m: map<Panel, bool>, p: Panel) returns (r: map<Panel, bool>)
    ensures r.Keys == m.Keys && OnlyActive(r, p)
    ensures r == Activated(m, p)
  {
    r := m;
    var i := 0;
    while i < |MapOrder|
      invariant 0 <= i <= |MapOrder|
      invariant r.Keys == m.Keys
      invariant forall q :: q in r ==> r[q] == if q in MapOrder[..i] then q == p else m[q]
    {
      var key := MapOrder[i];
      if key in r {
        r := r[key := key == p];
      }
      assert MapOrder[..i + 1] == MapOrder[..i] + [key];
      i := i + 1;
    }
    MapOrderListsEachPanelOnce();
    assert MapOrder[..i] == MapOrder;
  }

  /** What the `ttsBackend` field holds. Only a `LocalTTS` component implements
      `ITTS`; a `TTSAzure` component does not, so `ttsBackend as ITTS` is null for it. */
  datatype Backend = Unassigned | LocalTTSComponent | TTSAzureComponent | OtherComponent

  /** `TTS != null`. */
  predicate IsITTS(b: Backend)
    ensures b.TTSAzureComponent? || b.Unassigned? ==> !IsITTS(b)
    ensures b.LocalTTSComponent? ==> IsITTS(b)
  {
    b.LocalTTSComponent?
  }

  /** Identity of an `AudioSource` object. */
  type SourceId = nat

  /** One call `TTS.Speak(text, delay)`. */
  datatype Request = Request(text: string, delay: real)

  /** The ten prompt fields; each may be null. */
  datatype Prompts = Prompts(
    idle: Option<string>,
    backToIdle: Option<string>,
    holdHand: Option<string>,
    measureReady: Option<string>,
    measuring: Option<string>,
    success: Option<string>,
    failure: Option<string>,
    nfcRead: Option<string>,
    nfcWrite: Option<string>,
    done: Option<string>)

  const DefaultPrompts: Prompts := Prompts(
    Some("待機中です。タグをかざしてね。"),
    Some("待機画面に戻ります。"),
    Some("タグを検出しました。センサーに手をかざしてね。"),
    Some("計測の準備をします。"),
    Some("計測を開始します。"),
    Some("計測成功！"),
    Some("エラーが発生しました。もう一度お願いします。"),
    Some("タグを読み込みます。"),
    Some("タグに書き込みます。"),
    Some("完了しました。"))

  /** The nine panel prompts, in the order of `_map`. */
  function PanelPrompts(prompts: Prompts): seq<Option<string>> {
    [prompts.idle, prompts.holdHand, prompts.measureReady, prompts.measuring, prompts.success,
     prompts.failure, prompts.nfcRead, prompts.nfcWrite, prompts.done]
  }

  /** `GetVoiceFor`: the prompt field of each panel. */
  function VoiceFor(prompts: Prompts, p: Panel): (r: Option<string>)
    ensures r == PanelPrompts(prompts)[MapIndex(p)]
  {
    match p
    case Idle => prompts.idle
    case HoldHand => prompts.holdHand
    case MeasureReady => prompts.measureReady
    case Measuring => prompts.measuring
    case Success => prompts.success
    case Failure => prompts.failure
    case NFCRead => prompts.nfcRead
    case NFCWrite => prompts.nfcWrite
    case Done => prompts.done
  }

  /** Rewriting `failureVoice` changes the prompt of the Failure panel and of no other. */
  lemma VoiceForFailureRewrite(prompts: Prompts, t: Option<string>, p: Panel)
    ensures VoiceFor(prompts.(failure := t), p) == if p == Failure then t else VoiceFor(prompts, p)
  {
  }

  /** `backToIdleVoice` is the prompt of no panel. */
  lemma VoiceForIgnoresBackToIdle(prompts: Prompts, t: Option<string>, p: Panel)
    ensures VoiceFor(prompts.(backToIdle := t), p) == VoiceFor(prompts, p)
  {
  }

  /** The abstract state of a `ScreenManager`: the active flag of every panel whose
      GameObject is assigned (`panels`), the prompts, the voice settings, the
      backend's `audioSource` as last set through `ITTS`, and every speech request made. */
  datatype ScreenState = ScreenState(
    panels: map<Panel, bool>,
    prompts: Prompts,
    autoSpeak: bool,
    backend: Backend,
    voiceSource: Option<SourceId>,
    backendSource: Option<SourceId>,
    speakDelaySec: real,
    requests: seq<Request>)

  /** Exactly the assigned panel `p` is active (none when `p`'s GameObject is unassigned). */
  predicate OnlyActive(panels: map<Panel, bool>, p: Panel) {
    forall q :: q in panels ==> (panels[q] <==> q == p)
  }

  /** The backend that `ITTS` routing sends to after voice routing. */
  function Routed(s: ScreenState): (r: Option<SourceId>)
    ensures s.voiceSource.Some? ==> r == s.voiceSource
    ensures s.voiceSource.None? ==> r == s.backendSource
  {
    if s.voiceSource.Some? then s.voiceSource else s.backendSource
  }

  /** The effect of `Show(p, playVoice, overrideText)`. */
  function ShowEffect(s: ScreenState, p: Panel, playVoice: bool, overrideText: Option<string>): (r: ScreenState)
    ensures r.panels.Keys == s.panels.Keys && OnlyActive(r.panels, p)
    ensures r.(panels := s.panels, backendSource := s.backendSource, requests := s.requests) == s
    ensures !playVoice ==> r == s.(panels := r.panels)
    ensures
      var text := if overrideText.Some? then overrideText else VoiceFor(s.prompts, p);
      var speaks := playVoice && s.autoSpeak && IsITTS(s.backend) && !IsNullOrWhiteSpace(text);
      r.requests == s.requests + (if speaks then [Request(text.value, s.speakDelaySec)] else [])
    ensures r.backendSource == if playVoice && s.autoSpeak && IsITTS(s.backend) then Routed(s) else s.backendSource
  {
    var shown := s.(panels := Activated(s.panels, p));
    if !playVoice || !(s.autoSpeak && IsITTS(s.backend)) then shown
    else
      var routed := shown.(backendSource := Routed(s));
      var text := if overrideText.Some? then overrideText else VoiceFor(s.prompts, p);
      if IsNullOrWhiteSpace(text) then routed
      else routed.(requests := s.requests + [Request(text.value, s.speakDelaySec)])
  }

  /** The effect of `SpeakNow(text)`: with an `ITTS` backend, one request with no
      delay, whatever `autoSpeak` says; without one, only a log line. */
  function SpeakNowEffect(s: ScreenState, text: Option<string>): (r: ScreenState)
    ensures IsNullOrWhiteSpace(text) || !IsITTS(s.backend) ==> r == s
    ensures !IsNullOrWhiteSpace(text) && IsITTS(s.backend) ==>
              r == s.(backendSource := Routed(s), requests := s.requests + [Request(text.value, 0.0)])
  {
    if IsNullOrWhiteSpace(text) then s
    else if IsITTS(s.backend) then s.(backendSource := Routed(s), requests := s.requests + [Request(text.value, 0.0)])
    else s
  }

  /** Before any speech request reaches the backend, its audio source has been
      set to `voiceSource` whenever that is assigned. */
  lemma SpeechUsesVoiceSource(s: ScreenState, p: Panel, playVoice: bool, overrideText: Option<string>, text: Option<string>)
    requires s.voiceSource.Some?
    ensures ShowEffect(s, p, playVoice, overrideText).requests != s.requests ==>
              ShowEffect(s, p, playVoice, overrideText).backendSource == s.voiceSource
    ensures SpeakNowEffect(s, text).requests != s.requests ==> SpeakNowEffect(s, text).backendSource == s.voiceSource
  {
  }

  /** A `TTSAzure` component in `ttsBackend` is not an `ITTS`: neither entry point makes a request. */
  lemma AzureBackendIsSilent(s: ScreenState, p: Panel, playVoice: bool, overrideText: Option<string>, text: Option<string>)
    requires s.backend.TTSAzureComponent?
    ensures ShowEffect(s, p, playVoice, overrideText).requests == s.requests
    ensures SpeakNowEffect(s, text) == s
  {
  }

  class ScreenManager {
    /** The active flag of each panel GameObject that is assigned in the scene. */
    var panels: map<Panel, bool>
    var voiceSource: Option<SourceId>
    var autoSpeak: bool
    var ttsBackend: Backend
    var speakDelaySec: real
    /** The `audioSource` property of the backend, as written through `ITTS`. */
    var backendSource: Option<SourceId>

    var idleVoice: Option<string>
    var backToIdleVoice: Option<string>
    var holdHandVoice: Option<string>
    var measureReadyVoice: Option<string>
    var measuringVoice: Option<string>
    var successVoice: Option<string>
    var failureVoice: Option<string>
    var nfcReadVoice: Option<string>
    var nfcWriteVoice: Option<string>
    var doneVoice: Option<string>

    /** Every `TTS.Speak` call made so far, in order. */
    ghost var requests: seq<Request>

    function PromptTable(): Prompts
      reads this
    {
      Prompts(idleVoice, backToIdleVoice, holdHandVoice, measureReadyVoice, measuringVoice,
              successVoice, failureVoice, nfcReadVoice, nfcWriteVoice, doneVoice)
    }

    ghost function State(): ScreenState
      reads this
    {
      ScreenState(panels, PromptTable(), autoSpeak, ttsBackend, voiceSource, backendSource, speakDelaySec, requests)
    }

    /** The component with its inspector defaults after `Awake`: `scene` gives the
        active flag of every assigned panel GameObject. */
    constructor (scene: map<Panel, bool>, backend: Backend, voice: Option<SourceId>, backendAudio: Option<SourceId>)
      ensures State() == ScreenState(scene, DefaultPrompts, true, backend, voice, backendAudio, 1.0, [])
    {
      panels := scene;
      voiceSource := voice;
      autoSpeak := true;
      ttsBackend := backend;
      speakDelaySec := 1.0;
      backendSource := backendAudio;
      idleVoice := DefaultPrompts.idle;
      backToIdleVoice := DefaultPrompts.backToIdle;
      holdHandVoice := DefaultPrompts.holdHand;
      measureReadyVoice := DefaultPrompts.measureReady;
      measuringVoice := DefaultPrompts.measuring;
      successVoice := DefaultPrompts.success;
      failureVoice := DefaultPrompts.failure;
      nfcReadVoice := DefaultPrompts.nfcRead;
      nfcWriteVoice := DefaultPrompts.nfcWrite;
      doneVoice := DefaultPrompts.done;
      requests := [];
    }

    function GetVoiceFor(p: Panel): (r: Option<string>)
      reads this
      ensures r == PanelPrompts(PromptTable())[MapIndex(p)]
    {
      VoiceFor(PromptTable(), p)
    }

    method Show(p: Panel, playVoice: bool, overrideText: Option<string>)
      modifies this
      ensures State() == ShowEffect(old(State()), p, playVoice, overrideText)
    {
      ghost var s := State();
      panels := ActivateOnly(panels, p);
      assert State() == s.(panels := Activated(s.panels, p));

      if !playVoice {
        return;
      }
      if autoSpeak && IsITTS(ttsBackend) {
        if voiceSource.Some? {
          backendSource := voiceSource;
        }
        var text := if overrideText.Some? then overrideText else GetVoiceFor(p);
        if !IsNullOrWhiteSpace(text) {
          requests := requests + [Request(text.value, speakDelaySec)];
        }
      }
    }

    method SpeakNow(text: Option<string>)
      modifies this
      ensures State() == SpeakNowEffect(old(State()), text)
    {
      if IsNullOrWhiteSpace(text) {
        return;
      }
      if IsITTS(ttsBackend) {
        if voiceSource.Some? {
          backendSource := voiceSource;
        }
        requests := requests + [Request(text.value, 0.0)];
      }
    }
  }
}
