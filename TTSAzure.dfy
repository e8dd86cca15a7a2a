/** The network-backed speech component: a content-addressed cache of MP3
    files keyed by text, voice and output format, filled on a miss by one
    synthesis request, and a playback step after an optional delay. */
module Azure {
  import opened DotNet
  import opened Hashing
  import opened Audio

  const OutputFormat: string := "audio-16khz-128kbitrate-mono-mp3"

  /** `Hash(params parts)`: the rendered MD5 of the parts joined with '|'. */
  function Hash(md5: Md5, utf8: Utf8, parts: seq<Option<string>>): (r: string)
    ensures |r| == 32 && AllLowerHex(r)
  {
    DigestHex(md5, utf8, Join("|", parts))
  }

  /** `EscapeXml`: three successive replacements, '&' first. */
  function EscapeXml(s: string): (r: string)
    ensures '<' !in r && '>' !in r
  {
    ReplaceChar(ReplaceChar(ReplaceChar(s, '&', "&amp;"), '<', "&lt;"), '>', "&gt;")
  }

  /** The entity for one character. */
  function EscapeChar(c: char): string {
    if c == '&' then "&amp;" else if c == '<' then "&lt;" else if c == '>' then "&gt;" else [c]
  }

  /** Escaping in a single pass, character by character. */
  function EscapeEach(s: string): string {
    if s == [] then [] else EscapeChar(s[0]) + EscapeEach(s[1..])
  }

  lemma ReplaceCharAbsent(s: string, c: char, rep: string)
    requires c !in s
    ensures ReplaceChar(s, c, rep) == s
  {
    if s != [] {
      assert c !in s[1..];
      ReplaceCharAbsent(s[1..], c, rep);
    }
  }

  lemma ReplaceCharSingle(d: char, c: char, rep: string)
    ensures ReplaceChar([d], c, rep) == if d == c then rep else [d]
  {
    assert [d][1..] == [];
  }

  lemma EscapeXmlChar(c: char)
    ensures EscapeXml([c]) == EscapeChar(c)
  {
    ReplaceCharSingle(c, '&', "&amp;");
    var a := ReplaceChar([c], '&', "&amp;");
    var b := ReplaceChar(a, '<', "&lt;");
    if c == '&' {
      ReplaceCharAbsent(a, '<', "&lt;");
      ReplaceCharAbsent(b, '>', "&gt;");
    } else {
      ReplaceCharSingle(c, '<', "&lt;");
      if c == '<' {
        ReplaceCharAbsent(b, '>', "&gt;");
      } else {
        ReplaceCharSingle(c, '>', "&gt;");
      }
    }
  }

  /** Replacing '&' first means no entity is escaped twice: the three passes
      equal one pass that escapes each character on its own. */
  lemma {:induction false} EscapeXmlIsEscapeEach(s: string)
    ensures EscapeXml(s) == EscapeEach(s)
  {
    if s != [] {
      assert s == [s[0]] + s[1..];
      var x := [s[0]];
      var y := s[1..];
      ReplaceCharAppend(x, y, '&', "&amp;");
      var x1 := ReplaceChar(x, '&', "&amp;");
      var y1 := ReplaceChar(y, '&', "&amp;");
      ReplaceCharAppend(x1, y1, '<', "&lt;");
      var x2 := ReplaceChar(x1, '<', "&lt;");
      var y2 := ReplaceChar(y1, '<', "&lt;");
      ReplaceCharAppend(x2, y2, '>', "&gt;");
      assert EscapeXml(s) == EscapeXml(x) + EscapeXml(y);
      EscapeXmlChar(s[0]);
      EscapeXmlIsEscapeEach(y);
    }
  }

  /** Decoding of the three entities; any other character stands for itself. */
  function UnescapeXml(s: string): string {
    if |s| >= 5 && s[..5] == "&amp;" then "&" + UnescapeXml(s[5..])
    else if |s| >= 4 && s[..4] == "&lt;" then "<" + UnescapeXml(s[4..])
    else if |s| >= 4 && s[..4] == "&gt;" then ">" + UnescapeXml(s[4..])
    else if s == [] then []
    else [s[0]] + UnescapeXml(s[1..])
  }

  lemma UnescapeAmp(rest: string)
    ensures UnescapeXml("&amp;" + rest) == "&" + UnescapeXml(rest)
  {
    var e := "&amp;" + rest;
    assert e[..5] == "&amp;" && e[5..] == rest;
  }

  lemma UnescapeLt(rest: string)
    ensures UnescapeXml("&lt;" + rest) == "<" + UnescapeXml(rest)
  {
    var e := "&lt;" + rest;
    assert !(|e| >= 5 && e[..5] == "&amp;") by {
      if |e| >= 5 {
        assert e[..5][1] == 'l';
      }
    }
    assert e[..4] == "&lt;" && e[4..] == rest;
  }

  lemma UnescapeGt(rest: string)
    ensures UnescapeXml("&gt;" + rest) == ">" + UnescapeXml(rest)
  {
    var e := "&gt;" + rest;
    assert !(|e| >= 5 && e[..5] == "&amp;") by {
      if |e| >= 5 {
        assert e[..5][1] == 'g';
      }
    }
    assert !(e[..4] == "&lt;") by {
      assert e[..4][1] == 'g';
    }
    assert e[..4] == "&gt;" && e[4..] == rest;
  }

  lemma UnescapePlain(c: char, rest: string)
    requires c != '&'
    ensures UnescapeXml([c] + rest) == [c] + UnescapeXml(rest)
  {
    var e := [c] + rest;
    assert !(|e| >= 5 && e[..5] == "&amp;") by {
      if |e| >= 5 {
        assert e[..5][0] == c;
      }
    }
    assert !(|e| >= 4 && (e[..4] == "&lt;" || e[..4] == "&gt;")) by {
      if |e| >= 4 {
        assert e[..4][0] == c;
      }
    }
    assert e[0] == c && e[1..] == rest;
  }

  /** Decoding reads one escaped character back and goes on with the rest. */
  lemma UnescapeEscapeChar(c: char, rest: string)
    ensures UnescapeXml(EscapeChar(c) + rest) == [c] + UnescapeXml(rest)
  {
    if c == '&' {
      UnescapeAmp(rest);
    } else if c == '<' {
      UnescapeLt(rest);
    } else if c == '>' {
      UnescapeGt(rest);
    } else {
      UnescapePlain(c, rest);
    }
  }

  lemma {:induction false} UnescapeEscapeEach(s: string)
    ensures UnescapeXml(EscapeEach(s)) == s
  {
    if s != [] {
      UnescapeEscapeChar(s[0], EscapeEach(s[1..]));
      UnescapeEscapeEach(s[1..]);
      assert s == [s[0]] + s[1..];
    }
  }

  /** The escaped text decodes back to the original. */
  lemma UnescapeEscapeXml(s: string)
    ensures UnescapeXml(EscapeXml(s)) == s
  {
    EscapeXmlIsEscapeEach(s);
    UnescapeEscapeEach(s);
  }

  /** The settings a `TTSAzure` component speaks with. */
  datatype Config = Config(md5: Md5, utf8: Utf8, cacheDir: string, subscriptionKey: Option<string>, voice: Option<string>)

  /** The cache file name: the content key of text, voice and format, then ".mp3". */
  function CacheName(c: Config, text: string): (r: string)
    ensures |r| == 36 && AllLowerHex(r[..32]) && r[32..] == ".mp3"
  {
    Hash(c.md5, c.utf8, [Some(text), c.voice, Some(OutputFormat)]) + ".mp3"
  }

  /** `filePath`: the cache file name under the cache directory. */
  function CachePath(c: Config, text: string): (r: string)
    ensures |r| >= 36 && r[|r| - 36..] == CacheName(c, text)
  {
    Combine(c.cacheDir, CacheName(c, text))
  }

  /** The string that is hashed for a text. */
  function KeyString(c: Config, text: string): string {
    text + "|" + OrEmpty(c.voice) + "|" + OutputFormat
  }

  /** Two texts share a cache file exactly when their keys have the same MD5
      digest; the key joins text, voice (null as empty) and format with '|'. */
  lemma CachePathDigest(c: Config, a: string, b: string)
    ensures CachePath(c, a) == CachePath(c, b) <==> c.md5(c.utf8(KeyString(c, a))) == c.md5(c.utf8(KeyString(c, b)))
  {
    var na, nb := CacheName(c, a), CacheName(c, b);
    JoinThree("|", Some(a), c.voice, Some(OutputFormat));
    JoinThree("|", Some(b), c.voice, Some(OutputFormat));
    var ha := Hex(c.md5(c.utf8(KeyString(c, a))));
    var hb := Hex(c.md5(c.utf8(KeyString(c, b))));
    assert na == ha + ".mp3" && nb == hb + ".mp3";
    if CachePath(c, a) == CachePath(c, b) {
      assert na[0] != '/' && nb[0] != '/' by {
        assert IsLowerHex(na[..32][0]) && IsLowerHex(nb[..32][0]);
      }
      CombineInjective(c.cacheDir, na, nb);
      assert ha == na[..32] && hb == nb[..32];
      HexInjective(c.md5(c.utf8(KeyString(c, a))), c.md5(c.utf8(KeyString(c, b))));
    }
  }

  datatype HttpResult = HttpSuccess(data: seq<byte>) | HttpFailure

  /** How `File.WriteAllBytes` ends. It creates (or truncates) the file before
      writing, so an exception thrown part-way leaves a file holding the bytes
      written so far (`WriteFailed(Some(n))`); one thrown before the file is
      created leaves none (`WriteFailed(None)`). */
  datatype WriteOutcome = Written | WriteFailed(left: Option<nat>)

  /** The first `n` bytes of `data`, or all of it. */
  function Prefix(data: seq<byte>, n: nat): (r: seq<byte>)
    ensures |r| <= |data| && r == data[..|r|]
    ensures n < |data| ==> |r| == n
  {
    if n < |data| then data[..n] else data
  }

  /** What the cache directory holds at `path` after a write of `data` ends with `w`. */
  function AfterWrite(files: map<string, seq<byte>>, path: string, data: seq<byte>, w: WriteOutcome): (r: map<string, seq<byte>>)
    ensures w.Written? ==> r == files[path := data]
    ensures w.WriteFailed? && w.left.Some? ==> r == files[path := Prefix(data, w.left.value)]
    ensures w.WriteFailed? && w.left.None? ==> r == files
  {
    match w
    case Written => files[path := data]
    case WriteFailed(None) => files
    case WriteFailed(Some(n)) => files[path := Prefix(data, n)]
  }

  /** One run of the coroutine: the steps it took and the cache directory afterwards. */
  datatype Run = Run(steps: seq<Step>, files: map<string, seq<byte>>)

  /** `CoSpeak` as a decision procedure over the cache directory `files`, given
      how the synthesis request, the file write and the clip load turn out. */
  function CoSpeakPlan(c: Config, text: Option<string>, files: map<string, seq<byte>>, http: HttpResult,
                       write: WriteOutcome, hasSource: bool, loadOk: bool, delay: real): (r: Run)
    ensures IsNullOrWhiteSpace(text) ==> r == Run([], files)
    ensures forall k :: k in files ==> k in r.files && r.files[k] == files[k]
    ensures !IsNullOrWhiteSpace(text) ==>
              var path := CachePath(c, text.value);
              var requested := path !in files && !IsNullOrEmpty(c.subscriptionKey);
              var fetched := requested && http.HttpSuccess?;
              var stored := fetched && write.Written?;
              var available := path in files || stored;
              && r.files == (if fetched then AfterWrite(files, path, http.data, write) else files)
              && r.steps == (if requested then [Synthesise(c.voice, EscapeXml(text.value))] else [])
                          + (if stored then [Persist(path)] else [])
                          + (if available then PlaybackSteps(Clip(path, r.files[path]), hasSource, loadOk, delay) else [])
              && (PlayClip in r.steps <==> available && hasSource && loadOk)
  {
    if IsNullOrWhiteSpace(text) then Run([], files)
    else
      var path := CachePath(c, text.value);
      if path in files then
        Run(PlaybackSteps(Clip(path, files[path]), hasSource, loadOk, delay), files)
      else if IsNullOrEmpty(c.subscriptionKey) then Run([], files)
      else
        var request := [Synthesise(c.voice, EscapeXml(text.value))];
        if http.HttpFailure? then Run(request, files)
        else
          match write
          case WriteFailed(_) => Run(request, AfterWrite(files, path, http.data, write))
          case Written =>
            Run(request + [Persist(path)] + PlaybackSteps(Clip(path, http.data), hasSource, loadOk, delay),
                files[path := http.data])
  }

  /** Once a run finds a text's file, or receives a response and writes it in
      full or in part, a later run for that text makes no request and writes nothing. */
  lemma CachedTextIsNotFetchedAgain(c: Config, text: Option<string>, files: map<string, seq<byte>>,
                                    http: HttpResult, write: WriteOutcome, hasSource: bool, loadOk: bool, delay: real,
                                    http2: HttpResult, write2: WriteOutcome, hasSource2: bool, loadOk2: bool, delay2: real)
    requires !IsNullOrWhiteSpace(text)
    requires || CachePath(c, text.value) in files
             || (!IsNullOrEmpty(c.subscriptionKey) && http.HttpSuccess? && (write.Written? || write.left.Some?))
    ensures var r1 := CoSpeakPlan(c, text, files, http, write, hasSource, loadOk, delay);
            var r2 := CoSpeakPlan(c, text, r1.files, http2, write2, hasSource2, loadOk2, delay2);
            && r2.files == r1.files
            && forall i :: 0 <= i < |r2.steps| ==> !r2.steps[i].Synthesise? && !r2.steps[i].Persist?
  {
    var r1 := CoSpeakPlan(c, text, files, http, write, hasSource, loadOk, delay);
    var r2 := CoSpeakPlan(c, text, r1.files, http2, write2, hasSource2, loadOk2, delay2);
    var path := CachePath(c, text.value);
    assert r2.steps == PlaybackSteps(Clip(path, r1.files[path]), hasSource2, loadOk2, delay2);
  }

  /** A write that fails part-way plays nothing, but its truncated file stays in
      the cache: the next run for the same text plays those bytes without a request. */
  lemma TruncatedFileIsServed(c: Config, text: Option<string>, files: map<string, seq<byte>>,
                              data: seq<byte>, n: nat, loadOk: bool, delay: real,
                              http2: HttpResult, write2: WriteOutcome, delay2: real)
    requires !IsNullOrWhiteSpace(text) && CachePath(c, text.value) !in files
    requires !IsNullOrEmpty(c.subscriptionKey)
    ensures var r1 := CoSpeakPlan(c, text, files, HttpSuccess(data), WriteFailed(Some(n)), true, loadOk, delay);
            var r2 := CoSpeakPlan(c, text, r1.files, http2, write2, true, true, delay2);
            && PlayClip !in r1.steps
            && r2.files == r1.files
            && r2.steps[1] == Assign(Clip(CachePath(c, text.value), Prefix(data, n)))
            && PlayClip in r2.steps
  {
    var r1 := CoSpeakPlan(c, text, files, HttpSuccess(data), WriteFailed(Some(n)), true, loadOk, delay);
    CachedTextIsNotFetchedAgain(c, text, files, HttpSuccess(data), WriteFailed(Some(n)), true, loadOk, delay,
                                http2, write2, true, true, delay2);
  }

  class TTSAzure {
    const md5: Md5
    const utf8: Utf8
    /** `CacheDir`: "tts_cache" under the persistent data path. */
    const cacheDir: string
    /** The persistent data directory. */
    const store: FileStore

    var region: string
    var subscriptionKey: Option<string>
    var voice: Option<string>
    var audioSource: AudioSource?
    var cacheAudio: bool
    var defaultDelaySec: real

    function Cfg(): Config
      reads this
    {
      Config(md5, utf8, cacheDir, subscriptionKey, voice)
    }

    /** The component with its inspector defaults. */
    constructor (md5: Md5, utf8: Utf8, cacheDir: string, store: FileStore)
      ensures this.md5 == md5 && this.utf8 == utf8 && this.cacheDir == cacheDir && this.store == store
      ensures region == "japaneast" && subscriptionKey == Some("") && voice == Some("ja-JP-NanamiNeural")
      ensures audioSource == null && cacheAudio && defaultDelaySec == 1.0
    {
      this.md5 := md5;
      this.utf8 := utf8;
      this.cacheDir := cacheDir;
      this.store := store;
      region := "japaneast";
      subscriptionKey := Some("");
      voice := Some("ja-JP-NanamiNeural");
      audioSource := null;
      cacheAudio := true;
      defaultDelaySec := 1.0;
    }

    /** `Speak`: a negative delay becomes `defaultDelaySec`; the coroutine then runs to its end. */
    method Speak(text: Option<string>, delaySec: real, http: HttpResult, write: WriteOutcome, loadOk: bool)
      returns (steps: seq<Step>)
      modifies store, audioSource
      ensures var r := CoSpeakPlan(Cfg(), text, old(store.files), http, write, audioSource != null, loadOk,
                                   EffectiveDelay(delaySec, defaultDelaySec));
              steps == r.steps && store.files == r.files
      ensures audioSource != null && PlayClip in steps ==>
                text.Some? && audioSource.clip == Some(Clip(CachePath(Cfg(), text.value), store.files[CachePath(Cfg(), text.value)]))
                && audioSource.played == old(audioSource.played) + [audioSource.clip]
      ensures audioSource != null && PlayClip !in steps ==> unchanged(audioSource)
    {
      var delay := if delaySec < 0.0 then defaultDelaySec else delaySec;
      steps := CoSpeak(text, delay, http, write, loadOk);
    }

    /** `CoSpeak`: the cache lookup (and, on a miss, the request and the write), then playback. */
    method CoSpeak(text: Option<string>, delaySec: real, http: HttpResult, write: WriteOutcome, loadOk: bool)
      returns (steps: seq<Step>)
      modifies store, audioSource
      ensures var r := CoSpeakPlan(Cfg(), text, old(store.files), http, write, audioSource != null, loadOk, delaySec);
              steps == r.steps && store.files == r.files
      ensures audioSource != null && PlayClip in steps ==>
                text.Some? && audioSource.clip == Some(Clip(CachePath(Cfg(), text.value), store.files[CachePath(Cfg(), text.value)]))
                && audioSource.played == old(audioSource.played) + [audioSource.clip]
      ensures audioSource != null && PlayClip !in steps ==> unchanged(audioSource)
    {
      steps := [];
      if IsNullOrWhiteSpace(text) {
        return;
      }
      var filePath := Combine(cacheDir, Hash(md5, utf8, [text, voice, Some(OutputFormat)]) + ".mp3");
      assert filePath == CachePath(Cfg(), text.value);
      var fetched;
      steps, fetched := Fetch(text.value, filePath, http, write);
      if !fetched {
        return;
      }
      var playback := Playback(filePath, delaySec, loadOk);
      steps := steps + playback;
    }

    /** The cache half of `CoSpeak`: on a miss with a key, one request, and the
        file written when the request succeeds; only a complete write goes on to playback. */
    method Fetch(text: string, path: string, http: HttpResult, write: WriteOutcome)
      returns (steps: seq<Step>, available: bool)
      requires path == CachePath(Cfg(), text)
      modifies store
      ensures var requested := path !in old(store.files) && !IsNullOrEmpty(subscriptionKey);
              var fetched := requested && http.HttpSuccess?;
              var stored := fetched && write.Written?;
              && store.files == (if fetched then AfterWrite(old(store.files), path, http.data, write) else old(store.files))
              && steps == (if requested then [Synthesise(voice, EscapeXml(text))] else [])
                          + (if stored then [Persist(path)] else [])
              && available == (path in old(store.files) || stored)
      ensures available ==> path in store.files
    {
      steps := [];
      if path in store.files {
        return [], true;
      }
      if IsNullOrEmpty(subscriptionKey) {
        return [], false;
      }
      steps := [Synthesise(voice, EscapeXml(text))];
      if http.HttpFailure? {
        return steps, false;
      }
      store.files := AfterWrite(store.files, path, http.data, write);
      if write.WriteFailed? {
        return steps, false;
      }
      steps := steps + [Persist(path)];
      available := true;
    }

    /** The playback half of `CoSpeak`, once the file is in the cache. */
    method Playback(path: string, delaySec: real, loadOk: bool) returns (steps: seq<Step>)
      requires path in store.files
      modifies audioSource
      ensures steps == PlaybackSteps(Clip(path, store.files[path]), audioSource != null, loadOk, delaySec)
      ensures audioSource != null && loadOk ==>
                audioSource.clip == Some(Clip(path, store.files[path]))
                && audioSource.played == old(audioSource.played) + [audioSource.clip]
      ensures audioSource != null && !loadOk ==> unchanged(audioSource)
    {
      if audioSource == null {
        return [];
      }
      steps := [Load(path)];
      if !loadOk {
        return;
      }
      var clip := Clip(path, store.files[path]);
      audioSource.clip := Some(clip);
      steps := steps + [Assign(clip)];
      if delaySec > 0.0 {
        steps := steps + [Wait(delaySec)];
      }
      audioSource.Play();
      steps := steps + [PlayClip];
    }
  }
}
