/** The offline speech component: WAV files baked ahead of time under the
    streaming assets, named by the MD5 of the text alone, and only read. */
module Local {
  import opened DotNet
  import opened Hashing
  import opened Audio

  /** `Hash(s)`: the rendered MD5 of the text's UTF-8 bytes; no separator, voice or format. */
  function Hash(md5: Md5, utf8: Utf8, s: string): (r: string)
    ensures |r| == 32 && AllLowerHex(r)
  {
    DigestHex(md5, utf8, s)
  }

  /** The settings a `LocalTTS` component reads with. */
  datatype Config = Config(md5: Md5, utf8: Utf8, cacheDir: string)

  function CacheName(c: Config, text: string): (r: string)
    ensures |r| == 36 && AllLowerHex(r[..32]) && r[32..] == ".wav"
  {
    Hash(c.md5, c.utf8, text) + ".wav"
  }

  /** `filePath`: the cache file name under the cache directory. */
  function CachePath(c: Config, text: string): (r: string)
    ensures |r| >= 36 && r[|r| - 36..] == CacheName(c, text)
  {
    Combine(c.cacheDir, CacheName(c, text))
  }

  /** The key depends on the text only: texts whose UTF-8 bytes have the same
      digest share a file, and texts sharing a file have the same digest. */
  lemma CachePathDigest(c: Config, a: string, b: string)
    ensures CachePath(c, a) == CachePath(c, b) <==> c.md5(c.utf8(a)) == c.md5(c.utf8(b))
  {
    var na, nb := CacheName(c, a), CacheName(c, b);
    if CachePath(c, a) == CachePath(c, b) {
      assert na[0] != '/' && nb[0] != '/' by {
        assert IsLowerHex(na[..32][0]) && IsLowerHex(nb[..32][0]);
      }
      CombineInjective(c.cacheDir, na, nb);
      assert Hex(c.md5(c.utf8(a))) == na[..32] && Hex(c.md5(c.utf8(b))) == nb[..32];
      HexInjective(c.md5(c.utf8(a)), c.md5(c.utf8(b)));
    }
  }

  /** `CoSpeak` as a decision procedure over the read-only asset directory `files`. */
  function CoSpeakPlan(c: Config, text: Option<string>, files: map<string, seq<byte>>,
                       hasSource: bool, loadOk: bool, delay: real): (r: seq<Step>)
    ensures IsNullOrWhiteSpace(text) ==> r == []
    ensures !IsNullOrWhiteSpace(text) && CachePath(c, text.value) !in files ==> r == []
    ensures !hasSource ==> r == []
    ensures forall i :: 0 <= i < |r| ==> !r[i].Synthesise? && !r[i].Persist?
    ensures r != [] ==> text.Some? && CachePath(c, text.value) in files && r[0] == Load(CachePath(c, text.value))
    ensures PlayClip in r <==>
              !IsNullOrWhiteSpace(text) && CachePath(c, text.value) in files && hasSource && loadOk
    ensures PlayClip in r ==>
              r[1] == Assign(Clip(CachePath(c, text.value), files[CachePath(c, text.value)]))
              && r[|r| - 1] == PlayClip && PlayClip !in r[..|r| - 1]
              && (Wait(delay) in r <==> delay > 0.0)
  {
    if IsNullOrWhiteSpace(text) then []
    else
      var path := CachePath(c, text.value);
      if path !in files then []
      else PlaybackSteps(Clip(path, files[path]), hasSource, loadOk, delay)
  }

  class LocalTTS {
    const md5: Md5
    const utf8: Utf8
    /** `CacheDir`: "tts" under the streaming assets path. */
    const cacheDir: string
    /** The streaming assets directory. */
    const store: FileStore

    var audioSource: AudioSource?
    var cacheAudio: bool
    var defaultDelaySec: real

    function Cfg(): Config
      reads this
    {
      Config(md5, utf8, cacheDir)
    }

    /** The component with its inspector defaults. */
    constructor (md5: Md5, utf8: Utf8, cacheDir: string, store: FileStore)
      ensures this.md5 == md5 && this.utf8 == utf8 && this.cacheDir == cacheDir && this.store == store
      ensures audioSource == null && cacheAudio && defaultDelaySec == 1.0
    {
      this.md5 := md5;
      this.utf8 := utf8;
      this.cacheDir := cacheDir;
      this.store := store;
      audioSource := null;
      cacheAudio := true;
      defaultDelaySec := 1.0;
    }

    /** `Speak`: a negative delay becomes `defaultDelaySec`; the coroutine then runs to its end. */
    method Speak(text: Option<string>, delaySec: real, loadOk: bool) returns (steps: seq<Step>)
      modifies audioSource
      ensures steps == CoSpeakPlan(Cfg(), text, store.files, audioSource != null, loadOk,
                                   EffectiveDelay(delaySec, defaultDelaySec))
      ensures audioSource != null && PlayClip in steps ==>
                text.Some? && audioSource.clip == Some(Clip(CachePath(Cfg(), text.value), store.files[CachePath(Cfg(), text.value)]))
                && audioSource.played == old(audioSource.played) + [audioSource.clip]
      ensures audioSource != null && PlayClip !in steps ==> unchanged(audioSource)
    {
      steps := CoSpeak(text, if delaySec < 0.0 then defaultDelaySec else delaySec, loadOk);
    }

    /** `CoSpeak`: guard-and-exit checks on the text, the file and the audio
        source, then load, assign, optionally wait, and play. */
    method CoSpeak(text: Option<string>, delaySec: real, loadOk: bool) returns (steps: seq<Step>)
      modifies audioSource
      ensures steps == CoSpeakPlan(Cfg(), text, store.files, audioSource != null, loadOk, delaySec)
      ensures audioSource != null && PlayClip in steps ==>
                text.Some? && audioSource.clip == Some(Clip(CachePath(Cfg(), text.value), store.files[CachePath(Cfg(), text.value)]))
                && audioSource.played == old(audioSource.played) + [audioSource.clip]
      ensures audioSource != null && PlayClip !in steps ==> unchanged(audioSource)
    {
      if IsNullOrWhiteSpace(text) {
        return [];
      }
      var filePath := Combine(cacheDir, Hash(md5, utf8, text.value) + ".wav");
      if filePath !in store.files {
        return [];
      }
      if audioSource == null {
        return [];
      }
      steps := [Load(filePath)];
      if !loadOk {
        return;
      }
      var clip := Clip(filePath, store.files[filePath]);
      audioSource.clip := Some(clip);
      steps := steps + [Assign(clip)];
      if delaySec > 0.0 {
        steps := steps + [Wait(delaySec)];
      }
      audioSource.Play();
      steps := steps + [PlayClip];
    }
  }
}
