/** The local Parakeet engine: decoding a WAV file into samples, and the
    load / transcribe / clean-up lifecycle around an ASR backend whose
    download, initialisation and inference are supplied from outside. */
module Parakeet {
  import opened Results
  import opened Bytes

  const WAV_HEADER_SIZE: nat := 44
  const INT16_MAX: int := 32767

  /** The errors `transcribe` and `loadModel` throw: the two `ASRError`
      cases the service throws itself, which FluidAudio may throw as well,
      and any other FluidAudio error, passed through with its description. */
  datatype EngineError =
    | NotInitialized
    | InvalidAudioData
    | BackendFailure(reason: string)

  /** `Int16(littleEndian:)` of a low and a high byte: two's complement. */
  function Int16Of(lo: Byte, hi: Byte): (v: int)
    ensures -32768 <= v <= INT16_MAX
    ensures v >= 0 <==> hi < 128
  {
    var u := ReadLE16([lo, hi]);
    if u >= 0x8000 then u - UINT16_LIMIT else u
  }

  /** The two bytes `Int16(littleEndian:)` reads as `v`. */
  function Int16Bytes(v: int): (b: seq<Byte>)
    requires -32768 <= v <= INT16_MAX
    ensures |b| == 2
  {
    LE16(if v < 0 then v + UINT16_LIMIT else v)
  }

  lemma Int16RoundTrip(v: int)
    requires -32768 <= v <= INT16_MAX
    ensures Int16Of(Int16Bytes(v)[0], Int16Bytes(v)[1]) == v
  {
    var b := Int16Bytes(v);
    assert [b[0], b[1]] == b;
    LE16RoundTrip(if v < 0 then v + UINT16_LIMIT else v);
  }

  /** `max(-1, min(short / 32767, 1))`, in exact arithmetic. */
  function Sample(lo: Byte, hi: Byte): (x: real)
    ensures -1.0 <= x <= 1.0
    ensures Int16Of(lo, hi) == -32768 ==> x == -1.0
    ensures Int16Of(lo, hi) != -32768 ==> x * INT16_MAX as real == Int16Of(lo, hi) as real
    ensures x == 0.0 <==> lo == 0 && hi == 0
  {
    var ratio := Int16Of(lo, hi) as real / INT16_MAX as real;
    var upper := if ratio < 1.0 then ratio else 1.0;
    if -1.0 > upper then -1.0 else upper
  }

  /** The samples of a payload, two bytes each: `stride(from: 44, to: count, by: 2)`
      shifted to start at the payload. */
  function DecodePcm16(payload: seq<Byte>): (r: seq<real>)
    requires |payload| % 2 == 0
    ensures |r| == |payload| / 2
    ensures forall i :: 0 <= i < |r| ==> r[i] == Sample(payload[2 * i], payload[2 * i + 1])
  {
    seq(|payload| / 2, i requires 0 <= i < |payload| / 2 => Sample(payload[2 * i], payload[2 * i + 1]))
  }

  /** `readAudioSamples(from:)`. `contents` is the file as `Data(contentsOf:)`
      read it, `None` when the read threw. A payload of odd length makes the
      last two-byte slice run past the end of the buffer, which traps, so the
      caller must not pass one. */
  function ReadAudioSamples(contents: Option<seq<Byte>>): (r: Result<seq<real>, EngineError>)
    requires contents.Some? && |contents.value| > WAV_HEADER_SIZE ==> (|contents.value| - WAV_HEADER_SIZE) % 2 == 0
    ensures r.Failure? <==> contents.None? || |contents.value| <= WAV_HEADER_SIZE
    ensures r.Failure? ==> r.error == InvalidAudioData
    ensures r.Success? ==>
              && |r.value| == (|contents.value| - WAV_HEADER_SIZE) / 2
              && forall i :: 0 <= i < |r.value| ==>
                   r.value[i] == Sample(contents.value[WAV_HEADER_SIZE + 2 * i], contents.value[WAV_HEADER_SIZE + 2 * i + 1])
  {
    match contents
    case None => Failure(InvalidAudioData)
    case Some(data) =>
      if |data| <= WAV_HEADER_SIZE then Failure(InvalidAudioData)
      else Success(DecodePcm16(data[WAV_HEADER_SIZE..]))
  }

  // ---------------------------------------------------------------------
  // Lifecycle

  /** Models as returned by `AsrModels.downloadAndLoad`, known only by identity. */
  type AsrModels = nat

  /** An `AsrManager`; `initialized` is set once `initialize(models:)` succeeded. */
  datatype AsrManager = AsrManager(initialized: bool)

  /** The FluidAudio calls the service makes. `downloadAndLoad` receives the
      custom models directory, `None` for the default one. The library's
      errors reach the caller unchanged, and they may be any `ASRError`,
      `notInitialized` and `invalidAudioData` included. */
  datatype Backend = Backend(
    downloadAndLoad: Option<string> -> Result<AsrModels, EngineError>,
    initialize: AsrModels -> Outcome<EngineError>,
    transcribe: seq<real> -> Result<string, EngineError>)

  datatype Engine = Engine(asrManager: Option<AsrManager>, isModelLoaded: bool, customModelsDirectory: Option<string>)

  /** `init(customModelsDirectory:)`. */
  function NewEngine(customModelsDirectory: Option<string>): (e: Engine)
    ensures e.asrManager.None? && !e.isModelLoaded
    ensures e.customModelsDirectory == customModelsDirectory
  {
    Engine(None, false, customModelsDirectory)
  }

  /** What every sequence of calls keeps: a loaded engine has a manager. */
  predicate Valid(e: Engine) {
    e.isModelLoaded ==> e.asrManager.Some?
  }

  /** The error loading stops with, if any: the one `downloadAndLoad`
      throws, or else the one `initialize(models:)` throws. */
  function LoadError(backend: Backend, directory: Option<string>): Option<EngineError> {
    match backend.downloadAndLoad(directory)
    case Failure(err) => Some(err)
    case Success(models) =>
      match backend.initialize(models)
      case Fail(err) => Some(err)
      case Pass => None
  }

  /** Whether the backend succeeds in loading, given the directory. */
  predicate LoadSucceeds(backend: Backend, directory: Option<string>) {
    LoadError(backend, directory).None?
  }

  /** `loadModel()`. Returns the new state and whether it threw. */
  function LoadModel(e: Engine, backend: Backend): (r: (Engine, Outcome<EngineError>))
    ensures r.0.customModelsDirectory == e.customModelsDirectory
    ensures e.isModelLoaded ==> r == (e, Pass)
    ensures !e.isModelLoaded ==> (r.1.Pass? <==> LoadSucceeds(backend, e.customModelsDirectory))
    ensures r.1.Pass? ==> r.0.isModelLoaded
    ensures !e.isModelLoaded && r.1.Pass? ==> r.0.asrManager == Some(AsrManager(true))
    ensures r.1.Fail? ==> !r.0.isModelLoaded && r.0.asrManager.None?
    ensures r.1.Fail? ==> Some(r.1.error) == LoadError(backend, e.customModelsDirectory)
  {
    if e.isModelLoaded then (e, Pass)
    else
      var created := e.(asrManager := Some(AsrManager(false)));
      match backend.downloadAndLoad(e.customModelsDirectory)
      case Failure(err) => (created.(isModelLoaded := false, asrManager := None), Fail(err))
      case Success(models) =>
        match backend.initialize(models)
        case Fail(err) => (created.(isModelLoaded := false, asrManager := None), Fail(err))
        case Pass => (created.(asrManager := Some(AsrManager(true)), isModelLoaded := true), Pass)
  }

  /** The `Task` that `transcribe` schedules after a successful inference:
      the manager resets its decoder state and the model counts as unloaded. */
  function Cleanup(e: Engine): (r: Engine)
    ensures !r.isModelLoaded
    ensures r.asrManager.Some? <==> e.asrManager.Some?
    ensures r.customModelsDirectory == e.customModelsDirectory
  {
    e.(isModelLoaded := false)
  }

  /** The state after `transcribe` returns, its result, and whether it
      scheduled the clean-up. */
  datatype TranscribeOutcome = TranscribeOutcome(engine: Engine, result: Result<string, EngineError>, cleanupScheduled: bool)

  /** How `transcribe` begins: `loadModel()` when there is no manager or no
      loaded model, nothing otherwise. */
  function Prepare(e: Engine, backend: Backend): (Engine, Outcome<EngineError>) {
    if e.asrManager.None? || !e.isModelLoaded then LoadModel(e, backend) else (e, Pass)
  }

  /** `transcribe`'s own `guard let asrManager` throws `notInitialized`:
      loading did not throw, yet there is no manager. */
  predicate GuardFires(e: Engine, backend: Backend) {
    Prepare(e, backend).1.Pass? && Prepare(e, backend).0.asrManager.None?
  }

  /** Loading did not throw and there is a manager to run inference with. */
  predicate Ready(e: Engine, backend: Backend) {
    Prepare(e, backend).1.Pass? && Prepare(e, backend).0.asrManager.Some?
  }

  /** Whether `transcribe` gets as far as reading the file: only then can an
      odd-length payload make `readAudioSamples` trap. */
  predicate ReadsSafely(e: Engine, backend: Backend, audio: Option<seq<Byte>>) {
    Ready(e, backend) && audio.Some? && |audio.value| > WAV_HEADER_SIZE ==> (|audio.value| - WAV_HEADER_SIZE) % 2 == 0
  }

  /** `transcribe(audioURL:model:)` with `audio` the file contents. The
      samples are passed to inference exactly as decoded. */
  function Transcribe(e: Engine, backend: Backend, audio: Option<seq<Byte>>): (r: TranscribeOutcome)
    requires ReadsSafely(e, backend, audio)
    ensures r.cleanupScheduled <==> r.result.Success?
    ensures r.engine.customModelsDirectory == e.customModelsDirectory
    ensures r.engine == Prepare(e, backend).0
    ensures Prepare(e, backend).1.Fail? ==> r.result == Failure(Prepare(e, backend).1.error)
    ensures GuardFires(e, backend) ==> r.result == Failure(NotInitialized)
    ensures Ready(e, backend) && ReadAudioSamples(audio).Failure? ==> r.result == Failure(InvalidAudioData)
    ensures Ready(e, backend) && ReadAudioSamples(audio).Success? ==>
              r.result == backend.transcribe(ReadAudioSamples(audio).value)
    ensures r.result.Success? ==>
              && Ready(e, backend)
              && ReadAudioSamples(audio).Success?
              && backend.transcribe(ReadAudioSamples(audio).value) == Success(r.result.value)
    ensures r.result == Failure(InvalidAudioData) ==>
              || Prepare(e, backend).1 == Fail(InvalidAudioData)
              || (&& Ready(e, backend)
                  && (|| ReadAudioSamples(audio).Failure?
                      || backend.transcribe(ReadAudioSamples(audio).value) == Failure(InvalidAudioData)))
    ensures !e.isModelLoaded && !LoadSucceeds(backend, e.customModelsDirectory) ==>
              && r.result == Failure(LoadError(backend, e.customModelsDirectory).value)
              && r.engine.asrManager.None? && !r.engine.isModelLoaded
  {
    var (loaded, outcome) := Prepare(e, backend);
    if outcome.Fail? then TranscribeOutcome(loaded, Failure(outcome.error), false)
    else if loaded.asrManager.None? then TranscribeOutcome(loaded, Failure(NotInitialized), false)
    else
      match ReadAudioSamples(audio)
      case Failure(err) => TranscribeOutcome(loaded, Failure(err), false)
      case Success(samples) =>
        match backend.transcribe(samples)
        case Failure(err) => TranscribeOutcome(loaded, Failure(err), false)
        case Success(text) => TranscribeOutcome(loaded, Success(text), true)
  }

  /** When loading fails, `transcribe` throws before it reads the file, so any
      file is accepted, an odd-length one included, and the load's error is
      the result. */
  lemma FailedLoadNeverReadsFile(e: Engine, backend: Backend, audio: Option<seq<Byte>>)
    requires !e.isModelLoaded && !LoadSucceeds(backend, e.customModelsDirectory)
    ensures ReadsSafely(e, backend, audio)
    ensures Transcribe(e, backend, audio).result == Failure(LoadError(backend, e.customModelsDirectory).value)
  {
  }

  /** The state once a scheduled clean-up has run. */
  function Settle(r: TranscribeOutcome): (e: Engine)
    ensures r.cleanupScheduled ==> !e.isModelLoaded
    ensures !r.cleanupScheduled ==> e == r.engine
  {
    if r.cleanupScheduled then Cleanup(r.engine) else r.engine
  }

  lemma LoadModelKeepsValid(e: Engine, backend: Backend)
    requires Valid(e)
    ensures Valid(LoadModel(e, backend).0)
  {
  }

  /** From a valid state `transcribe`'s own guard never throws, so a
      `notInitialized` can only come from the library; and the state after
      it and its clean-up is valid again. */
  lemma TranscribeKeepsValid(e: Engine, backend: Backend, audio: Option<seq<Byte>>)
    requires Valid(e)
    requires ReadsSafely(e, backend, audio)
    ensures !GuardFires(e, backend)
    ensures Transcribe(e, backend, audio).result == Failure(NotInitialized) ==>
              || Prepare(e, backend).1 == Fail(NotInitialized)
              || (&& Ready(e, backend)
                  && ReadAudioSamples(audio).Success?
                  && backend.transcribe(ReadAudioSamples(audio).value) == Failure(NotInitialized))
    ensures Valid(Settle(Transcribe(e, backend, audio)))
  {
  }

  /** A loaded engine without a manager is the one state in which the guard
      throws: nothing is loaded again and the manager stays missing. */
  lemma GuardFiresIff(e: Engine, backend: Backend)
    ensures GuardFires(e, backend) <==> e.isModelLoaded && e.asrManager.None?
  {
  }

  /** From a valid state, `transcribe` succeeds exactly when the model is
      loaded or loads, the file decodes, and inference succeeds. */
  lemma TranscribeSucceedsIff(e: Engine, backend: Backend, audio: Option<seq<Byte>>)
    requires Valid(e)
    requires ReadsSafely(e, backend, audio)
    ensures Transcribe(e, backend, audio).result.Success? <==>
              && (e.isModelLoaded || LoadSucceeds(backend, e.customModelsDirectory))
              && ReadAudioSamples(audio).Success?
              && backend.transcribe(ReadAudioSamples(audio).value).Success?
  {
  }

  /** One call made on the service. */
  datatype Call =
    | Load
    | TranscribeFile(audio: Option<seq<Byte>>)

  /** A call together with the answers FluidAudio gives while it runs; the
      library may answer differently from one call to the next (a download
      that fails and then succeeds on retry, say). */
  datatype Event = Event(backend: Backend, call: Call)

  /** Whether the call runs without trapping in state `e`. */
  predicate Safe(e: Engine, ev: Event) {
    ev.call.TranscribeFile? ==> ReadsSafely(e, ev.backend, ev.call.audio)
  }

  /** One call, followed by the clean-up it scheduled, if any. */
  function Step(e: Engine, ev: Event): (r: Engine)
    requires Safe(e, ev)
    ensures r.customModelsDirectory == e.customModelsDirectory
  {
    match ev.call
    case Load => LoadModel(e, ev.backend).0
    case TranscribeFile(audio) => Settle(Transcribe(e, ev.backend, audio))
  }

  lemma StepKeepsValid(e: Engine, ev: Event)
    requires Valid(e) && Safe(e, ev)
    ensures Valid(Step(e, ev))
  {
    match ev.call
    case Load => LoadModelKeepsValid(e, ev.backend);
    case TranscribeFile(audio) => TranscribeKeepsValid(e, ev.backend, audio);
  }

  /** Whether no call of the history traps, each in the state the calls
      before it left. */
  predicate RunsSafely(e: Engine, events: seq<Event>)
    decreases |events|
  {
    events != [] ==> Safe(e, events[0]) && RunsSafely(Step(e, events[0]), events[1..])
  }

  /** Runs the calls one after another, letting each scheduled clean-up
      finish before the next call. */
  function Run(e: Engine, events: seq<Event>): (r: Engine)
    requires RunsSafely(e, events)
    ensures r.customModelsDirectory == e.customModelsDirectory
    decreases |events|
  {
    if events == [] then e
    else Run(Step(e, events[0]), events[1..])
  }

  /** Files with an even payload never trap, so a history of them is safe
      whatever the engine state and whatever FluidAudio answers. */
  lemma {:induction false} EvenPayloadsRunSafely(e: Engine, events: seq<Event>)
    requires forall i :: 0 <= i < |events| ==> events[i].call.TranscribeFile? && events[i].call.audio.Some? ==>
               |events[i].call.audio.value| <= WAV_HEADER_SIZE || (|events[i].call.audio.value| - WAV_HEADER_SIZE) % 2 == 0
    ensures RunsSafely(e, events)
    decreases |events|
  {
    if events != [] {
      EvenPayloadsRunSafely(Step(e, events[0]), events[1..]);
    }
  }

  /** Whatever calls come and however FluidAudio answers each, a valid
      engine stays valid. */
  lemma {:induction false} RunKeepsValid(e: Engine, events: seq<Event>)
    requires Valid(e)
    requires RunsSafely(e, events)
    ensures Valid(Run(e, events))
    decreases |events|
  {
    if events != [] {
      StepKeepsValid(e, events[0]);
      RunKeepsValid(Step(e, events[0]), events[1..]);
    }
  }

  /** Whatever calls come first and however FluidAudio answers them, a
      service created by `init` never reaches the state in which
      `transcribe`'s own guard throws `notInitialized`. */
  lemma NewEngineGuardNeverFires(directory: Option<string>, events: seq<Event>, backend: Backend)
    requires RunsSafely(NewEngine(directory), events)
    ensures !GuardFires(Run(NewEngine(directory), events), backend)
  {
    RunKeepsValid(NewEngine(directory), events);
    GuardFiresIff(Run(NewEngine(directory), events), backend);
  }

  /** A failed download followed by a successful retry: the retry loads the
      model, and the transcription after it reaches inference. */
  lemma RetryAfterFailedDownload(directory: Option<string>, failing: Backend, working: Backend, audio: seq<Byte>)
    requires failing.downloadAndLoad(directory).Failure?
    requires working.downloadAndLoad(directory).Success?
    requires working.initialize(working.downloadAndLoad(directory).value) == Pass
    requires |audio| > WAV_HEADER_SIZE && (|audio| - WAV_HEADER_SIZE) % 2 == 0
    ensures var e := Step(NewEngine(directory), Event(failing, Load));
      && e == NewEngine(directory)
      && LoadModel(e, working).0.isModelLoaded
      && Transcribe(e, working, Some(audio)).result == working.transcribe(ReadAudioSamples(Some(audio)).value)
  {
  }
}
