/** What the two speech components act on: a file store, an audio source, and
    the trace of externally visible steps one `CoSpeak` coroutine takes. */
module Audio {
  import opened DotNet

  /** A clip decoded from a cache file. */
  datatype Clip = Clip(path: string, data: seq<byte>)

  /** A Unity `AudioSource`: the clip it holds, and (as a log) the clip each `Play` started. */
  class AudioSource {
    var clip: Option<Clip>
    ghost var played: seq<Option<Clip>>

    constructor ()
      ensures clip == None && played == []
    {
      clip := None;
      played := [];
    }

    method Play()
      modifies this
      ensures clip == old(clip) && played == old(played) + [clip]
    {
      played := played + [clip];
    }
  }

  /** The files of one directory tree, by full path. */
  class FileStore {
    var files: map<string, seq<byte>>

    constructor (initial: map<string, seq<byte>>)
      ensures files == initial
    {
      files := initial;
    }
  }

  /** One externally visible step of a speech coroutine. */
  datatype Step =
    | Synthesise(voice: Option<string>, markup: string)  // the synthesis request, with the escaped text
    | Persist(path: string)                               // `File.WriteAllBytes` succeeded
    | Load(path: string)                                  // the clip load request
    | Assign(clip: Clip)                                  // `audioSource.clip = clip`
    | Wait(seconds: real)                                 // `WaitForSeconds`
    | PlayClip                                            // `audioSource.Play()`

  /** The tail both components share once the audio file is in place: without an
      audio source nothing happens; otherwise the clip is loaded and, if that
      succeeds, assigned, waited for only when the delay is positive, and played. */
  function PlaybackSteps(clip: Clip, hasSource: bool, loadOk: bool, delay: real): (r: seq<Step>)
    ensures !hasSource ==> r == []
    ensures hasSource ==> |r| > 0 && r[0] == Load(clip.path)
    ensures (PlayClip in r) == (hasSource && loadOk)
    ensures PlayClip in r ==> r[1] == Assign(clip) && r[|r| - 1] == PlayClip && PlayClip !in r[..|r| - 1]
    ensures PlayClip in r ==> (Wait(delay) in r <==> delay > 0.0)
    ensures forall i :: 0 <= i < |r| && r[i].Wait? ==> r[i] == Wait(delay) && i == 2
    ensures forall i :: 0 <= i < |r| ==> !r[i].Synthesise? && !r[i].Persist?
    ensures hasSource && !loadOk ==> r == [Load(clip.path)]
    ensures PlayClip in r ==> |r| == if delay > 0.0 then 4 else 3
  {
    if !hasSource then []
    else if !loadOk then [Load(clip.path)]
    else if delay > 0.0 then [Load(clip.path), Assign(clip), Wait(delay), PlayClip]
    else [Load(clip.path), Assign(clip), PlayClip]
  }

  /** What `Speak` passes to its coroutine: a negative delay means the default. */
  function EffectiveDelay(delay: real, defaultDelay: real): (r: real)
    ensures delay >= 0.0 ==> r == delay
    ensures delay < 0.0 ==> r == defaultDelay
    ensures defaultDelay >= 0.0 ==> r >= 0.0
  {
    if delay < 0.0 then defaultDelay else delay
  }
}
