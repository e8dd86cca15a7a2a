# Kiosk display and speech core, in Dafny

This project models the live logic of a Unity exhibition kiosk. An NFC reader and a
finger sensor sit behind a serial board, and the board sends one integer code (0–15) per line.
The kiosk turns each code into a screen change and spoken prompts. The model has four parts:

- **Serial ingestion and dispatch** (`SerialToScreen.dfy`, module `Serial`).
  - `FilterDigits` keeps the digit characters of a line, or the whole line when it has none.
  - The read loop skips blank lines, parses the filtered line with `int.TryParse` and
    enqueues the code.
  - `Update` drains the queue front to back into `HandleIncomingCode`, a fixed table
    from codes to a panel change plus immediate or delayed speech.
  - The queue is a `seq<int>` field. The screen's effect is described by pure functions
    on a `ScreenState` value (`DispatchEffect`, `DrainEffect`).
- **The screen manager** (`ScreenManager.dfy`, module `Screen`).
  - Nine panels, each `Panel` member with its enum value.
  - `_map` is modelled as a `map<Panel, bool>`: its domain is the panels whose GameObject is
    assigned, and its values say which are active.
  - Ten mutable prompt strings, the `autoSpeak` flag and the speech backend.
  - A ghost log of the `(text, delay)` requests handed to the backend.
  - `Show` activates the chosen panel when its GameObject is assigned and deactivates every
    other assigned panel; it may also request delayed speech. `SpeakNow` requests speech at once.
  - The backend is seen through `ttsBackend as ITTS`. A `LocalTTS` component declares
    `ITTS`; a `TTSAzure` component does not, so a `TTSAzure` backend counts as "no backend".
    The model follows the code here (`Screen.IsITTS`).
- **The network speech cache** (`TTSAzure.dfy`, module `Azure`).
  - Each MP3 file is named by the MD5 of `text|voice|format`.
  - On a miss with a key, the file is filled by one synthesis request and written.
  - `File.WriteAllBytes` creates the file before writing, so a write that fails part-way
    leaves a truncated file. That file is then a cache hit for every later run of the text.
  - Playback then loads the clip, assigns it, waits only for a positive delay and plays.
  - `EscapeXml` escapes the text put into the SSML.
- **The offline speech cache** (`LocalTTS.dfy`, module `Local`).
  - Baked WAV files are named by the MD5 of the text alone. The store is only read.

The shared modules:

- `DotNet.dfy` holds the library behaviour the core relies on:
  - `char.IsDigit`, `char.IsWhiteSpace`, `string.IsNullOrWhiteSpace` and `IsNullOrEmpty`;
  - `int.TryParse` with the default integer style;
  - `string.Join`, `Path.Combine` and single-character `Replace`.
- `Hashing.dfy` holds the `ToString("x2")` rendering of a digest. MD5 and the UTF-8
  encoder are function-typed parameters with no interpretation, and a digest is 16 bytes.
- `Audio.dfy` holds the audio source, the file store, and the trace of steps a speech
  coroutine takes.

Each speech coroutine is modelled as one sequential run. How the HTTP request, the file
write and the clip load turn out are parameters. The run returns its trace:
`Synthesise`, `Persist`, `Load`, `Assign`, `Wait`, `PlayClip`.

## Model

| member | source | states |
|---|---|---|
| DotNet.IsWhiteSpace | Assets/Scripts/SerialToScreen.cs:83 | `char.IsWhiteSpace` holds for space, tab, CR and LF, and never for a digit |
| DotNet.IsDigit | Assets/Scripts/SerialToScreen.cs:104 | `char.IsDigit` restricted to ASCII: a character is a digit exactly when it is one of "0123456789" |
| DotNet.IsNullOrWhiteSpace | Assets/Scripts/TTSAzure.cs:54 | Null or empty text counts as blank; a blank string holds no digit |
| DotNet.IsNullOrEmpty | Assets/Scripts/TTSAzure.cs:62 | A key that is not null-or-empty is present and has at least one character |
| DotNet.DigitsOf | Assets/Scripts/SerialToScreen.cs:104 | The digit characters of a string are all digits and no more than the string; an all-digit string is kept whole |
| DotNet.DigitsOfAppend | Assets/Scripts/SerialToScreen.cs:104 | Filtering digits distributes over concatenation, so it keeps the characters' order |
| DotNet.DigitInDigitsOf | Assets/Scripts/SerialToScreen.cs:104-105 | A string with a digit anywhere has a non-empty filtered form |
| DotNet.TryParseInt32 | Assets/Scripts/SerialToScreen.cs:87 | `int.TryParse` succeeds only with a value in the 32-bit range and only on a string holding a digit |
| DotNet.TryParseDigits | Assets/Scripts/SerialToScreen.cs:87 | A non-empty all-digit string parses exactly when its decimal value fits in 32 bits, and then to that value |
| DotNet.NineDigitsFit | Assets/Scripts/SerialToScreen.cs:87 | A string of at most nine digits has a value that fits in a 32-bit `int` (10^9 - 1 <= Int32.MaxValue) |
| DotNet.Join | Assets/Scripts/TTSAzure.cs:136 | A single part joins to itself, with null as empty; n parts hold at least n-1 separators' worth of characters |
| DotNet.JoinThree | Assets/Scripts/TTSAzure.cs:136 | Three parts join as first, separator, second, separator, third, with null as empty |
| DotNet.Combine | Assets/Scripts/TTSAzure.cs:57 | A relative file name ends the combined path |
| DotNet.CombineInjective | Assets/Scripts/TTSAzure.cs:57 | In one directory, two relative names of equal length give the same path only if they are equal |
| DotNet.ReplaceChar | Assets/Scripts/TTSAzure.cs:144 | After replacing a character by text that lacks it, the character is gone; no new character appears beyond those of the replacement |
| DotNet.ReplaceCharAppend | Assets/Scripts/TTSAzure.cs:144 | Replacement distributes over concatenation |
| Hashing.HexDigit | Assets/Scripts/TTSAzure.cs:139 | Each nibble renders as one lowercase hex digit that reads back as the nibble |
| Hashing.HexByte | Assets/Scripts/TTSAzure.cs:139 | `b.ToString("x2")` is two lowercase hex digits, high nibble first, that read back as `b` |
| Hashing.Hex | Assets/Scripts/TTSAzure.cs:138-140 | The rendering has exactly two lowercase hex characters per byte |
| Hashing.Unhex | Assets/Scripts/TTSAzure.cs:138-140 | Reading a rendering back gives one byte per two characters |
| Hashing.UnhexHex | Assets/Scripts/TTSAzure.cs:138-140 | The rendering loses nothing: reading it back gives the bytes |
| Hashing.HexInjective | Assets/Scripts/TTSAzure.cs:138-140 | Distinct digests render as distinct names |
| Hashing.DigestHex | Assets/Scripts/LocalTTS.cs:55-63 | A rendered MD5 digest is 32 lowercase hex characters |
| Audio.AudioSource.Play | Assets/Scripts/TTSAzure.cs:128 | Playing keeps the assigned clip and logs one start of it |
| Audio.PlaybackSteps | Assets/Scripts/TTSAzure.cs:106-128 | Without an audio source nothing happens; otherwise the clip is loaded first, and a failed load ends the run there. It is played exactly when the load succeeds: assigned second, waited for only when the delay is positive, and played once, last, in three or four steps |
| Audio.EffectiveDelay | Assets/Scripts/TTSAzure.cs:48 | A negative delay becomes the default, a non-negative one passes through unchanged, and a non-negative default gives a non-negative result |
| Screen.PanelValue | Assets/Scripts/ScreenManager.cs:38-52 | Each member's value is one of 1, 2, 3, 4, 5, 7, 60, 61, 100 |
| Screen.PanelValueInjective | Assets/Scripts/ScreenManager.cs:38-52 | Two members have the same value exactly when they are the same member |
| Screen.PanelOfValue | Assets/Scripts/ScreenManager.cs:38-52 | Each enum value belongs to at most one panel, so the nine values are pairwise distinct |
| Screen.MapIndex | Assets/Scripts/ScreenManager.cs:58-69 | Every panel has an entry in the map's insertion order |
| Screen.MapOrderListsEachPanelOnce | Assets/Scripts/ScreenManager.cs:58-69 | The map has exactly one entry per panel |
| Screen.Activated | Assets/Scripts/ScreenManager.cs:77-80 | The activation pass keeps the assigned panels; the chosen panel is active if it is assigned, and every other assigned panel is inactive |
| Screen.ActivateOnly | Assets/Scripts/ScreenManager.cs:77-80 | The loop over the map computes that activation: the same assigned panels, with no active panel but the chosen one |
| Screen.VoiceFor | Assets/Scripts/ScreenManager.cs:96-111 | The prompt of a panel is the prompt field at that panel's position in `_map`, so the switch and the map agree |
| Screen.IsITTS | Assets/Scripts/ScreenManager.cs:25 | `ttsBackend as ITTS` is non-null for a `LocalTTS` component and null for a `TTSAzure` component or an empty field |
| Screen.AzureBackendIsSilent | Assets/Scripts/ScreenManager.cs:25 | With a `TTSAzure` component as backend, neither `Show` nor `SpeakNow` makes a request, and `SpeakNow` changes nothing |
| Screen.Routed | Assets/Scripts/ScreenManager.cs:86 | The backend's audio source after routing is `voiceSource` when that is assigned, and is left as it was otherwise |
| Screen.SpeechUsesVoiceSource | Assets/Scripts/ScreenManager.cs:114-127 | Whenever `Show` or `SpeakNow` makes a request and `voiceSource` is assigned, the backend's audio source is `voiceSource` |
| Screen.VoiceForFailureRewrite | Assets/Scripts/ScreenManager.cs:96-111 | Overwriting the failure prompt changes the Failure panel's prompt and no other |
| Screen.VoiceForIgnoresBackToIdle | Assets/Scripts/ScreenManager.cs:96-111 | The back-to-idle prompt is no panel's prompt |
| Screen.ShowEffect | Assets/Scripts/ScreenManager.cs:75-94 | The chosen panel is active when assigned and every other assigned panel is inactive, whatever `playVoice` is. The prompts, flags and backend are unchanged. With `playVoice` false nothing else changes. One request with delay `speakDelaySec` is added exactly when `playVoice`, `autoSpeak` and an ITTS backend hold and the override, or else the panel's prompt, is not blank. The backend's audio source is routed only in that speech branch |
| Screen.SpeakNowEffect | Assets/Scripts/ScreenManager.cs:114-127 | Blank text or no ITTS backend changes nothing. Otherwise the audio source is routed and one request with delay 0 is added, whatever `autoSpeak` is |
| Screen.ScreenManager.constructor | Assets/Scripts/ScreenManager.cs:20-36 | Starts with the default Japanese prompts, `autoSpeak` on, a delay of one second and no requests |
| Screen.ScreenManager.GetVoiceFor | Assets/Scripts/ScreenManager.cs:96-111 | Total over the nine panels: returns the current prompt field at that panel's position in `_map` order |
| Screen.ScreenManager.Show | Assets/Scripts/ScreenManager.cs:75-94 | The new state is `ShowEffect` of the old one |
| Screen.ScreenManager.SpeakNow | Assets/Scripts/ScreenManager.cs:114-127 | The new state is `SpeakNowEffect` of the old one |
| Serial.FilterDigits | Assets/Scripts/SerialToScreen.cs:100-106 | A line with a digit yields exactly its digits in order; a line without one is returned unchanged |
| Serial.WhiteSpaceHasNoDigits | Assets/Scripts/SerialToScreen.cs:83 | A blank line holds no digit |
| Serial.Filtered | Assets/Scripts/SerialToScreen.cs:105 | The filtered line has the same digits as the line, and is a non-empty all-digit string whenever the line holds a digit |
| Serial.ParseLine | Assets/Scripts/SerialToScreen.cs:83-90 | A line yields a code exactly when it holds a digit and its digits' decimal value fits in 32 bits. The code is that value, never negative. Blank lines yield nothing |
| Serial.ShortLineYieldsCode | Assets/Scripts/SerialToScreen.cs:83-90 | A line with one to nine digits always yields a code: the decimal value of its digits |
| Serial.LabelledLineExample | Assets/Scripts/SerialToScreen.cs:102 | The line `code: 7` followed by CR LF yields code 7 |
| Serial.FailureSentence | Assets/Scripts/SerialToScreen.cs:166-252 | Exactly codes 3, 4, 5, 8, 11, 13 and 14 have a failure sentence |
| Serial.Target | Assets/Scripts/SerialToScreen.cs:143-263 | Every code from 0 to 15, and no other, has a panel; Failure is the panel of exactly the codes with a failure sentence |
| Serial.DispatchEffect | Assets/Scripts/SerialToScreen.cs:143-263 | Dispatching keeps the assigned panels, `autoSpeak`, the backend, `voiceSource` and the delay, and only appends requests |
| Serial.ShowThenSpeak | Assets/Scripts/SerialToScreen.cs:146-162 | A `Show` then `SpeakNow` pair activates the panel, keeps the prompts, and adds the delayed request (if any) before the immediate one |
| Serial.FailSpec | Assets/Scripts/SerialToScreen.cs:166-171 | A failure code overwrites the failure prompt, shows Failure silently and requests that sentence immediately |
| Serial.DispatchEffectSpec | Assets/Scripts/SerialToScreen.cs:139-264 | An unknown code changes nothing. Each known code activates its panel (when assigned) and leaves no other panel active. The prompts change only for the seven failure codes. The requests added are those of the code's category: delayed only for 7, 9, 15; immediate only for 0, 2, 6 and the failure codes; delayed then immediate for 1, 10, 12 |
| Serial.DrainEffect | Assets/Scripts/SerialToScreen.cs:111-114 | Draining any queue keeps the assigned panels, `autoSpeak`, the backend and `voiceSource`, and only appends requests |
| Serial.DrainAppend | Assets/Scripts/SerialToScreen.cs:111-114 | Draining a queue is draining its front and then its back: codes are dispatched in enqueue order |
| Serial.DrainTwo | Assets/Scripts/SerialToScreen.cs:111-114 | Draining two codes dispatches the first and then the second |
| Serial.MeasureThenWriteEndsDone | Assets/Scripts/SerialToScreen.cs:196-258 | After codes 7, 9, 15 the Done panel is the only active one |
| Serial.ReturnToIdle | Assets/Scripts/SerialToScreen.cs:146-149 | With an ITTS backend and a non-blank back-to-idle prompt, code 0 leaves only Idle active and adds exactly one immediate request for that prompt |
| Serial.FailureIgnoresPreviousPrompt | Assets/Scripts/SerialToScreen.cs:166-252 | A failure code's outcome does not depend on the failure prompt held before it |
| Serial.FailureSpeaksAtOnce | Assets/Scripts/SerialToScreen.cs:166-252 | With an ITTS backend, a failure code adds exactly one request, its own sentence with delay 0 |
| Serial.FailureSentenceNotBlank | Assets/Scripts/SerialToScreen.cs:168-249 | Every failure sentence is non-blank, so it is always spoken |
| Serial.FailureSentencesDoNotLeak | Assets/Scripts/SerialToScreen.cs:166-252 | Two failure codes in a row speak their own two sentences, in order |
| Serial.SerialToScreen.ReceiveLine | Assets/Scripts/SerialToScreen.cs:82-90 | The queue gains the line's code at its back when the line yields one, and is unchanged otherwise |
| Serial.SerialToScreen.HandleIncomingCode | Assets/Scripts/SerialToScreen.cs:139-264 | With no screen manager nothing happens; otherwise the manager's new state is `DispatchEffect` of the old one |
| Serial.SerialToScreen.Update | Assets/Scripts/SerialToScreen.cs:108-114 | The queue ends empty, and the manager's state is the old one with every queued code dispatched front to back |
| Azure.Hash | Assets/Scripts/TTSAzure.cs:133-141 | The key is 32 lowercase hex characters |
| Azure.EscapeXml | Assets/Scripts/TTSAzure.cs:143-144 | The escaped text holds no '<' and no '>' |
| Azure.EscapeXmlChar | Assets/Scripts/TTSAzure.cs:143-144 | The three replacements turn each single character into its own entity or itself |
| Azure.EscapeXmlIsEscapeEach | Assets/Scripts/TTSAzure.cs:143-144 | Because '&' is replaced first, the three passes equal one pass that escapes each character on its own, and no entity is escaped twice |
| Azure.UnescapeEscapeEach | Assets/Scripts/TTSAzure.cs:143-144 | Decoding the entities undoes the one-pass escape |
| Azure.UnescapeEscapeXml | Assets/Scripts/TTSAzure.cs:143-144 | Decoding the escaped text restores the input |
| Azure.CacheName | Assets/Scripts/TTSAzure.cs:57 | The cache file name is a 32-character lowercase hex key followed by ".mp3" |
| Azure.CachePath | Assets/Scripts/TTSAzure.cs:57 | `filePath` ends with the `.mp3` cache name |
| Azure.CachePathDigest | Assets/Scripts/TTSAzure.cs:57 | Two texts share a cache file exactly when `text|voice|format` has the same MD5 digest for both |
| Azure.Prefix | Assets/Scripts/TTSAzure.cs:95 | The bytes a failed write leaves are a prefix of the response, of the written length when shorter |
| Azure.AfterWrite | Assets/Scripts/TTSAzure.cs:93-101 | A complete write stores the response; a write that fails after creating the file stores a prefix of it; one that fails before leaves the store as it was |
| Azure.CoSpeakPlan | Assets/Scripts/TTSAzure.cs:52-130 | Blank text does nothing. Existing files never change. A request is made only on a miss with a non-empty key. After a successful request the store is what the write leaves. Only a complete write is followed by playback, as is a hit. The clip plays exactly when the file was there or completely written, the source is assigned and the load succeeds |
| Azure.CachedTextIsNotFetchedAgain | Assets/Scripts/TTSAzure.cs:60 | Once a run finds the text's file, or gets a response and writes it in full or in part, a later run for that text makes no request and writes nothing |
| Azure.TruncatedFileIsServed | Assets/Scripts/TTSAzure.cs:93-101 | A write that fails part-way plays nothing, and the next run for the text plays the truncated bytes without a request |
| Azure.TTSAzure.constructor | Assets/Scripts/TTSAzure.cs:14-29 | Starts with region japaneast, an empty key, the Nanami voice, no audio source and a one-second default delay |
| Azure.TTSAzure.Speak | Assets/Scripts/TTSAzure.cs:46-50 | A negative delay is replaced by `defaultDelaySec`; the run and the store are those of the plan with that delay |
| Azure.TTSAzure.CoSpeak | Assets/Scripts/TTSAzure.cs:52-130 | The trace and the new store are those of `CoSpeakPlan`. When the clip plays, the audio source holds the cached file and has started it once. Otherwise the audio source is untouched |
| Azure.TTSAzure.Fetch | Assets/Scripts/TTSAzure.cs:57-103 | A hit changes nothing. A miss requests synthesis only with a key. After a successful request the store is what the write leaves. Playback may follow only after a hit or a complete write, and then the file is in the store |
| Azure.TTSAzure.Playback | Assets/Scripts/TTSAzure.cs:105-129 | The steps are the shared playback tail for the stored file. The source is assigned and played only when the load succeeds |
| Local.Hash | Assets/Scripts/LocalTTS.cs:55-63 | The key is 32 lowercase hex characters |
| Local.CacheName | Assets/Scripts/LocalTTS.cs:28 | The file name is a 32-character lowercase hex key followed by ".wav" |
| Local.CachePath | Assets/Scripts/LocalTTS.cs:28 | `filePath` ends with the `.wav` cache name |
| Local.CachePathDigest | Assets/Scripts/LocalTTS.cs:28 | Two texts share a file exactly when their UTF-8 bytes have the same MD5 digest: the key ignores voice and format |
| Local.CoSpeakPlan | Assets/Scripts/LocalTTS.cs:24-53 | Blank text, a missing file or a missing audio source give no step. Nothing is ever synthesised or written. A run starts by loading the file for the text. The clip plays exactly when the text is not blank, the file exists, the source is assigned and the load succeeds. It is then assigned before any wait, waited for only when the delay is positive, and played once, last |
| Local.LocalTTS.constructor | Assets/Scripts/LocalTTS.cs:12-15 | Starts with no audio source and a one-second default delay |
| Local.LocalTTS.Speak | Assets/Scripts/LocalTTS.cs:19-22 | A negative delay is replaced by `defaultDelaySec`; the run is the plan with that delay |
| Local.LocalTTS.CoSpeak | Assets/Scripts/LocalTTS.cs:24-53 | The trace is `CoSpeakPlan` over the store, which is not modified. When the clip plays, the source holds that file and started it once. Otherwise the source is untouched |

## Left out

- The serial port is not modelled: opening it, auto-discovery, the read thread, the `_running` flag and shutdown. It is I/O and threading. Each successful `ReadLine` is one `ReceiveLine` call.
- Serial.SerialToScreen.Update: other threads do not enqueue during the drain. In the source the read thread may add codes while `TryDequeue` runs, and those are dispatched in the same drain.
- The keyboard simulator and the editor debug hotkeys are left out. They are input polling that only forwards codes to dispatch.
- `Debug.Log` and every other logging call are left out. They have no effect on the modelled state.
- The `ITTS` interface is not a Dafny type. The backend is a tag (`Screen.Backend`), and a backend's `Speak` appears as a logged request.
- The speech coroutines run on their own, outside the screen model. Coroutines started for the same `AudioSource` interleave in the source, and that is concurrency.
- MD5 and UTF-8 encoding are uninterpreted. Only the digest length is assumed.
- The HTTP request is not modelled in detail: the endpoint built from `region`, the headers, the SSML template around the escaped text, and `new Uri(...)`. A request is one `Synthesise` step and its outcome is a parameter.
- Audio decoding and `WaitForSeconds` are not modelled. A clip is its path and bytes; a wait is a `Wait` step. What `AudioSource.Play` outputs is not modelled; each call is logged in `played`.
- `CacheDir` directory creation is left out.
- Delays are `real` values; only their sign tests and the default substitution are modelled, not floating point.
- `cacheAudio` is a field in both components and is never read by the source; it has no effect here either.
- Screen.ScreenManager.Show: two panels sharing one GameObject are not modelled. Each assigned panel is treated as its own object, and unassigned (null) panels are absent from the map.
- Serial.ParseLine: only '0'..'9' count as digits. `char.IsDigit` also accepts other Unicode decimal digits, which the model treats as non-digits.
- DotNet.TryParseInt32: only ASCII '-' and '+' are signs. The culture's sign symbols are not modelled. Trailing NUL characters after the number are not accepted, though .NET accepts them. The filtered lines the core parses never hold one.
- DotNet.Combine: '/' is the only directory separator.
- The commented-out earlier versions of each file, `BubbleBackground`, and the editor baking window are not part of this model.
