/** The stateless front end: one turn that writes a new, uniquely named transcript under
    `outputs/text` (and a new audio file under `outputs/audio`), never overwriting a file,
    and never releasing the models it loads. */
module AppEN {
  import opened Outcomes
  import opened Timestamps
  import opened FileStore
  import opened Clocks
  import opened Leases
  import opened Stages

  /** What one turn returns: reply text, avatar path and audio path. */
  datatype Answer = Answer(text: string, avatarPath: Option<string>, audioPath: Option<Path>)

  /** `'outputs/audio'` and `'outputs/text'`. */
  const AudioDir: Path := Sub(Sub(Cwd, "outputs"), "audio")
  const TextDir: Path := Sub(Sub(Cwd, "outputs"), "text")

  /** The path a collision loop probes for a clock reading: `dir/<stem><ts><ext>`. */
  function Candidate(dir: Path, stem: string, ext: string, dt: DateTime): Path
    requires Valid(dt)
  {
    Sub(dir, StampedName(stem, dt, ext))
  }

  /** `os.path.exists(p)` on a snapshot. */
  predicate Present(st: Store, p: Path)
  {
    p in st.dirs || p in st.files
  }

  /** Reading `k` is the first from reading `t` on whose candidate is free. */
  ghost predicate FirstFree(st: Store, reading: nat -> DateTime, t: nat, k: nat, dir: Path, stem: string, ext: string)
    requires ValidReadings(reading)
  {
    && t <= k && !Present(st, Candidate(dir, stem, ext, reading(k)))
    && forall i | t <= i < k :: Present(st, Candidate(dir, stem, ext, reading(i)))
  }

  /** The loop's result is determined: there is only one first free reading. */
  lemma FirstFreeUnique(st: Store, reading: nat -> DateTime, t: nat, k1: nat, k2: nat,
                        dir: Path, stem: string, ext: string)
    requires ValidReadings(reading)
    requires FirstFree(st, reading, t, k1, dir, stem, ext) && FirstFree(st, reading, t, k2, dir, stem, ext)
    ensures k1 == k2
  {
  }

  /** Different readings probe different paths. */
  lemma CandidateInjective(dir: Path, stem: string, ext: string, a: DateTime, b: DateTime)
    requires Valid(a) && Valid(b) && a != b
    ensures Candidate(dir, stem, ext, a) != Candidate(dir, stem, ext, b)
  {
    StampedNameInjective(stem, a, b, ext);
  }

  /** The distinct times the clock shows from reading `t` up to (not including) `b`. */
  ghost function Shown(reading: nat -> DateTime, t: nat, b: nat): set<DateTime>
  {
    set i | t <= i < b :: reading(i)
  }

  /** The paths a collision loop probes for a set of date-times. */
  ghost function Probes(s: set<DateTime>, dir: Path, stem: string, ext: string): set<Path>
    requires forall dt | dt in s :: Valid(dt)
  {
    set dt | dt in s :: Candidate(dir, stem, ext, dt)
  }

  /** Different date-times probe different paths, so there are as many probes as times. */
  lemma {:induction false} ProbesSize(s: set<DateTime>, dir: Path, stem: string, ext: string)
    requires forall dt | dt in s :: Valid(dt)
    ensures |Probes(s, dir, stem, ext)| == |s|
    decreases |s|
  {
    if s == {} {
      assert Probes(s, dir, stem, ext) == {};
    } else {
      var x :| x in s;
      var r := s - {x};
      ProbesSize(r, dir, stem, ext);
      forall dt | dt in r
        ensures Candidate(dir, stem, ext, dt) != Candidate(dir, stem, ext, x)
      {
        CandidateInjective(dir, stem, ext, dt, x);
      }
      assert Probes(s, dir, stem, ext) == Probes(r, dir, stem, ext) + {Candidate(dir, stem, ext, x)};
    }
  }

  /** A set larger than another has an element outside it. */
  lemma Outside<T>(a: set<T>, b: set<T>) returns (x: T)
    requires |a| > |b|
    ensures x in a && x !in b
  {
    assert |a - b| == |a| - |a * b|;
    assert |b - a| == |b| - |b * a|;
    assert a * b == b * a;
    x :| x in a - b;
  }

  /** The counting argument behind the collision loops: when the clock shows more distinct
      times between readings `t` and `b` than the store has entries, one of them names a
      free path. The clock may stand still or step back in between. */
  lemma EventuallyFree(st: Store, dir: Path, stem: string, ext: string, reading: nat -> DateTime, t: nat, b: nat)
    returns (k: nat)
    requires ValidReadings(reading)
    requires |Shown(reading, t, b)| > |st.dirs + st.files.Keys|
    ensures t <= k < b && !Present(st, Candidate(dir, stem, ext, reading(k)))
  {
    var taken := st.dirs + st.files.Keys;
    var shown := Shown(reading, t, b);
    forall dt | dt in shown
      ensures Valid(dt)
    {
      var i :| t <= i < b && reading(i) == dt;
    }
    var probes := Probes(shown, dir, stem, ext);
    ProbesSize(shown, dir, stem, ext);
    var p := Outside(probes, taken);
    var dt :| dt in shown && p == Candidate(dir, stem, ext, dt);
    k :| t <= k < b && reading(k) == dt;
  }

  /** Lines 40-47 (and 53-60): read the clock and name `dir/<stem><ts><ext>`, again while
      something of that name exists. The name kept is that of the first free reading. The
      loop ends because some reading from here on, `bound`, names a free path. */
  method FreshName(fs: FileSystem, clock: Clock, dir: Path, stem: string, ext: string, ghost bound: nat)
    returns (name: string)
    requires clock.Valid()
    requires bound >= clock.ticks && !Present(fs.State(), Candidate(dir, stem, ext, clock.reading(bound)))
    modifies clock`ticks
    ensures clock.ticks > old(clock.ticks)
    ensures Sub(dir, name) == Candidate(dir, stem, ext, clock.reading(clock.ticks - 1))
    ensures FirstFree(fs.State(), clock.reading, old(clock.ticks), clock.ticks - 1, dir, stem, ext)
  {
    var now := clock.Now();
    name := StampedName(stem, now, ext);
    while fs.Exists(Sub(dir, name))
      invariant old(clock.ticks) < clock.ticks <= bound + 1
      invariant name == StampedName(stem, clock.reading(clock.ticks - 1), ext)
      invariant forall i | old(clock.ticks) <= i < clock.ticks - 1 ::
        Present(fs.State(), Candidate(dir, stem, ext, clock.reading(i)))
      decreases bound + 1 - clock.ticks
    {
      now := clock.Now();
      name := StampedName(stem, now, ext);
    }
  }

  /** Scanning up from reading `t` towards a free reading `b` meets a first free one. */
  lemma {:induction false} FirstFreeBelow(st: Store, reading: nat -> DateTime, t: nat, b: nat,
                                          dir: Path, stem: string, ext: string)
    returns (k: nat)
    requires ValidReadings(reading)
    requires t <= b && !Present(st, Candidate(dir, stem, ext, reading(b)))
    ensures k <= b && FirstFree(st, reading, t, k, dir, stem, ext)
    decreases b - t
  {
    if Present(st, Candidate(dir, stem, ext, reading(t))) {
      k := FirstFreeBelow(st, reading, t + 1, b, dir, stem, ext);
    } else {
      k := t;
    }
  }

  /** Some reading from `t` on names a free path: the collision loop started at `t` ends. */
  ghost predicate Ends(st: Store, reading: nat -> DateTime, t: nat, dir: Path, stem: string, ext: string)
    requires ValidReadings(reading)
  {
    exists k :: t <= k && !Present(st, Candidate(dir, stem, ext, reading(k)))
  }

  /** A loop that ends has a first free reading. */
  lemma SomeFirstFree(st: Store, reading: nat -> DateTime, t: nat, dir: Path, stem: string, ext: string)
    requires ValidReadings(reading) && Ends(st, reading, t, dir, stem, ext)
    ensures exists k :: FirstFree(st, reading, t, k, dir, stem, ext)
  {
    var b :| t <= b && !Present(st, Candidate(dir, stem, ext, reading(b)));
    var k := FirstFreeBelow(st, reading, t, b, dir, stem, ext);
  }

  /** The reading whose name a collision loop started at reading `t` keeps, or `None` when
      every reading from `t` on names an existing path and the loop runs forever. */
  ghost function FreeReading(st: Store, reading: nat -> DateTime, t: nat, dir: Path, stem: string, ext: string)
    : (k: Option<nat>)
    requires ValidReadings(reading)
    ensures k.Some? ==> FirstFree(st, reading, t, k.value, dir, stem, ext)
    ensures k.None? ==> forall i | t <= i :: Present(st, Candidate(dir, stem, ext, reading(i)))
  {
    if Ends(st, reading, t, dir, stem, ext) then
      SomeFirstFree(st, reading, t, dir, stem, ext);
      var k :| FirstFree(st, reading, t, k, dir, stem, ext);
      Some(k)
    else None
  }

  /** A clock that shows more distinct times between readings `t` and `b` than the store has
      entries ends the loop started at `t` before reading `b`. */
  lemma LoopEnds(st: Store, reading: nat -> DateTime, t: nat, b: nat, dir: Path, stem: string, ext: string)
    requires ValidReadings(reading)
    requires |Shown(reading, t, b)| > |st.dirs + st.files.Keys|
    ensures FreeReading(st, reading, t, dir, stem, ext).Some?
    ensures FreeReading(st, reading, t, dir, stem, ext).value < b
  {
    var k := EventuallyFree(st, dir, stem, ext, reading, t, b);
    assert Ends(st, reading, t, dir, stem, ext);
    var f := FreeReading(st, reading, t, dir, stem, ext);
    assert f.value <= k;
  }

  /** `load_model`: tokenizer and causal model, both left where they load. Taken as one
      step: when either part fails nothing stays loaded. */
  method LoadModel(gpu: Accelerator, be: Backend, name: string) returns (r: Result<(Handle, Handle), Error>)
    requires gpu.Valid()
    modifies gpu`loaded, gpu`live
    ensures gpu.Valid()
    ensures var path := LlmPath(name);
      if be.loadFails(Tokenizer, path) || be.loadFails(CausalLm, path) then
        && r == Failure(LoadError(path))
        && gpu.loaded == old(gpu.loaded) && gpu.live == old(gpu.live)
      else
        && r.Success?
        && r.value.0 == Handle(|old(gpu.loaded)|, Tokenizer, path, Unplaced)
        && r.value.1 == Handle(|old(gpu.loaded)| + 1, CausalLm, path, Unplaced)
        && gpu.loaded == old(gpu.loaded) + [r.value.0, r.value.1]
        && gpu.live == old(gpu.live) + {r.value.0, r.value.1}
  {
    var path := LlmPath(name);
    if be.loadFails(Tokenizer, path) || be.loadFails(CausalLm, path) {
      return Failure(LoadError(path));
    }
    var tokenizer := gpu.Load(Tokenizer, path, Unplaced, false);
    var model := gpu.Load(CausalLm, path, Unplaced, false);
    return Success((tokenizer.value, model.value));
  }

  /** The Whisper model line 25 loads, if it loads: placed wherever the library puts it. */
  function Heard(be: Backend, inputAudio: Option<string>, mark: nat): seq<Handle>
  {
    if Truthy(inputAudio) && !be.loadFails(Transcription, WhisperSize)
    then [Handle(mark, Transcription, WhisperSize, Unplaced)] else []
  }

  /** Line 25: `transcribe_audio(input_audio) if input_audio else input_text`, where
      `transcribe_audio` loads the medium Whisper model without choosing a device. */
  method Listen(gpu: Accelerator, be: Backend, inputText: string, inputAudio: Option<string>)
    returns (r: Result<string, Error>)
    requires gpu.Valid()
    modifies gpu`loaded, gpu`live
    ensures gpu.Valid()
    ensures r == PromptOf(be, inputText, inputAudio)
    ensures gpu.loaded == old(gpu.loaded) + Heard(be, inputAudio, |old(gpu.loaded)|)
    ensures gpu.live == old(gpu.live) + Held(Heard(be, inputAudio, |old(gpu.loaded)|))
  {
    if !Truthy(inputAudio) {
      return Success(inputText);
    }
    var model := gpu.Load(Transcription, WhisperSize, Unplaced, be.loadFails(Transcription, WhisperSize));
    if model.None? {
      return Failure(LoadError(WhisperSize));
    }
    r := be.transcribe(inputAudio.value);
  }

  /** The speech model lines 36-37 load, if it loads, on the resolved device. */
  function Voiced(gpu: Accelerator, be: Backend, mark: nat): seq<Handle>
  {
    if be.loadFails(SpeechSynthesis, TtsModel) then []
    else [Handle(mark, SpeechSynthesis, TtsModel, gpu.Resolve())]
  }

  // ---------------------------------------------------------------------------
  // What each stage does to the file system and the clock.

  /** The speech stage: a path it wrote or an error, the store and the clock after it; or
      a collision loop that never finds a free name. */
  datatype Saved = Saved(result: Result<Path, Error>, store: Store, ticks: nat) | AudioLoopHangs

  /** The transcript stage: an error or none, the store and the clock after it; or a
      collision loop that never finds a free name. */
  datatype Recorded = Recorded(error: Option<Error>, store: Store, ticks: nat) | HistoryLoopHangs

  /** What a turn returns or raises, the store it leaves and the clock reads it made; or a
      turn that never returns because a collision loop runs forever. */
  datatype Outcome = Outcome(result: Result<Answer, Error>, store: Store, ticks: nat) | Hangs

  /** Lines 35-49 from the clock reading `t` on: the speech model must load and synthesize,
      then the first free `outputs/audio/output_<ts>.wav` is written with the waveform. */
  ghost function SpeechOf(be: Backend, st: Store, reading: nat -> DateTime, t: nat,
                          text: string, speakerWav: string, language: string): Saved
    requires ValidReadings(reading)
  {
    if be.loadFails(SpeechSynthesis, TtsModel) then Saved(Failure(LoadError(TtsModel)), st, t)
    else match be.synthesize(text, VoicePath(speakerWav), language)
      case Failure(e) => Saved(Failure(e), st, t)
      case Success(wave) =>
        match FreeReading(st, reading, t, AudioDir, "output_", ".wav")
        case None => AudioLoopHangs
        case Some(k) =>
          var name := StampedName("output_", reading(k), ".wav");
          match OpenError(st.dirs, st.files, AudioDir, name)
          case Some(e) => Saved(Failure(Io(e)), st, k + 1)
          case None =>
            Saved(Success(Sub(AudioDir, name)),
                  Store(st.dirs, st.files[Sub(AudioDir, name) := be.wavBytes(wave, SampleRate)]), k + 1)
  }

  /** Lines 51-64 from the clock reading `t` on: `outputs/text` is made if missing, then the
      turn's record is written to the first free `chat_history_<ts>.txt` in it. */
  ghost function HistoryOf(st: Store, reading: nat -> DateTime, t: nat, prompt: string, text: string): Recorded
    requires ValidReadings(reading)
  {
    match MakeDirsError(st.dirs, st.files, TextDir, true)
    case Some(e) => Recorded(Some(Io(e)), st, t)
    case None =>
      var made := Store(st.dirs + Ancestors(TextDir), st.files);
      match FreeReading(made, reading, t, TextDir, "chat_history_", ".txt")
      case None => HistoryLoopHangs
      case Some(k) =>
        var name := StampedName("chat_history_", reading(k), ".txt");
        match OpenError(made.dirs, made.files, TextDir, name)
        case Some(e) => Recorded(Some(Io(e)), made, k + 1)
        case None => Recorded(None, Store(made.dirs, made.files[Sub(TextDir, name) := TurnRecord(prompt, text)]), k + 1)
  }

  /** The transcript a turn that reaches line 51 in store `st` at reading `t` writes, if its
      collision loop ends. */
  ghost function TranscriptPath(st: Store, reading: nat -> DateTime, t: nat): Option<Path>
    requires ValidReadings(reading)
  {
    var made := Store(st.dirs + Ancestors(TextDir), st.files);
    match FreeReading(made, reading, t, TextDir, "chat_history_", ".txt")
    case None => None
    case Some(k) => Some(Candidate(TextDir, "chat_history_", ".txt", reading(k)))
  }

  /** Lines 51-66 once the audio (if any) is saved. */
  ghost function Finish(st: Store, reading: nat -> DateTime, t: nat, prompt: string, text: string,
                        avatarName: Option<string>, audio: Option<Path>): Outcome
    requires ValidReadings(reading)
  {
    match HistoryOf(st, reading, t, prompt, text)
    case HistoryLoopHangs => Hangs
    case Recorded(e, store, ticks) =>
      if e.Some? then Outcome(Failure(e.value), store, ticks)
      else Outcome(Success(Answer(text, AvatarPath(avatarName), audio)), store, ticks)
  }

  /** Lines 32-66: everything after the reply. */
  ghost function PersistOf(be: Backend, st: Store, reading: nat -> DateTime, t: nat, prompt: string, text: string,
                           avatarName: Option<string>, enableTts: bool, speakerWav: string, language: string): Outcome
    requires ValidReadings(reading)
  {
    if enableTts then
      match SpeechOf(be, st, reading, t, text, speakerWav, language)
      case AudioLoopHangs => Hangs
      case Saved(result, store, ticks) =>
        if result.Failure? then Outcome(Failure(result.error), store, ticks)
        else Finish(store, reading, ticks, prompt, text, avatarName, Some(result.value))
    else Finish(st, reading, t, prompt, text, avatarName, None)
  }

  /** Lines 26-66: the turn once it has its prompt. */
  ghost function AnswerOf(be: Backend, st: Store, reading: nat -> DateTime, t: nat, prompt: string,
                          llmModelName: string, avatarName: Option<string>, enableTts: bool,
                          speakerWav: string, language: string): Outcome
    requires ValidReadings(reading)
  {
    var path := LlmPath(llmModelName);
    if be.loadFails(Tokenizer, path) || be.loadFails(CausalLm, path) then Outcome(Failure(LoadError(path)), st, t)
    else match Reply(be, path, prompt)
      case Failure(e) => Outcome(Failure(e), st, t)
      case Success(text) => PersistOf(be, st, reading, t, prompt, text, avatarName, enableTts, speakerWav, language)
  }

  /** Lines 24-66: one turn from store `st` and clock reading `t`. */
  ghost function TurnOf(be: Backend, st: Store, reading: nat -> DateTime, t: nat,
                        inputText: string, inputAudio: Option<string>, llmModelName: string,
                        avatarName: Option<string>, enableTts: bool, speakerWav: string, language: string): Outcome
    requires ValidReadings(reading)
  {
    match PromptOf(be, inputText, inputAudio)
    case Failure(e) => Outcome(Failure(e), st, t)
    case Success(prompt) => AnswerOf(be, st, reading, t, prompt, llmModelName, avatarName, enableTts, speakerWav, language)
  }

  /** The speech model line 37 loads once the prompt is known, numbered from `mark`: only
      when the language model loaded and replied. */
  function Spoken(gpu: Accelerator, be: Backend, prompt: string, llmModelName: string, enableTts: bool, mark: nat)
    : seq<Handle>
  {
    if Paired(be, llmModelName, mark) != [] && enableTts && Reply(be, LlmPath(llmModelName), prompt).Success?
    then Voiced(gpu, be, mark + 2) else []
  }

  // ---------------------------------------------------------------------------
  // The stages as code.

  /** Lines 35-49: load the speech model, synthesize, pick the first free audio name and
      `sf.write` the waveform there. */
  method SaveSpeech(fs: FileSystem, clock: Clock, gpu: Accelerator, be: Backend, text: string,
                    speakerWav: string, language: string)
    returns (r: Result<Path, Error>)
    requires fs.Valid() && clock.Valid() && gpu.Valid()
    requires !SpeechOf(be, fs.State(), clock.reading, clock.ticks, text, speakerWav, language).AudioLoopHangs?
    modifies fs`files, clock`ticks, gpu`loaded, gpu`live
    ensures fs.Valid() && gpu.Valid()
    ensures gpu.loaded == old(gpu.loaded) + Voiced(gpu, be, |old(gpu.loaded)|)
    ensures gpu.live == old(gpu.live) + Held(Voiced(gpu, be, |old(gpu.loaded)|))
    ensures Saved(r, fs.State(), clock.ticks)
            == SpeechOf(be, old(fs.State()), clock.reading, old(clock.ticks), text, speakerWav, language)
  {
    var tts := gpu.Load(SpeechSynthesis, TtsModel, gpu.Resolve(), be.loadFails(SpeechSynthesis, TtsModel));
    if tts.None? {
      return Failure(LoadError(TtsModel));
    }
    var wav := be.synthesize(text, VoicePath(speakerWav), language);
    if wav.Failure? {
      return Failure(wav.error);
    }
    ghost var st, t := fs.State(), clock.ticks;
    ghost var k := FreeReading(st, clock.reading, t, AudioDir, "output_", ".wav");
    assert k.Some?;
    var name := FreshName(fs, clock, AudioDir, "output_", ".wav", k.value);
    FirstFreeUnique(st, clock.reading, t, clock.ticks - 1, k.value, AudioDir, "output_", ".wav");
    var written := fs.Write(AudioDir, name, be.wavBytes(wav.value, SampleRate));
    if written.Some? {
      return Failure(Io(written.value));
    }
    r := Success(Sub(AudioDir, name));
  }

  /** Lines 51-64: `os.makedirs("outputs/text", exist_ok=True)`, the first free transcript
      name, and the turn's record written to that new file. */
  method SaveHistory(fs: FileSystem, clock: Clock, prompt: string, text: string) returns (e: Option<Error>)
    requires fs.Valid() && clock.Valid()
    requires !HistoryOf(fs.State(), clock.reading, clock.ticks, prompt, text).HistoryLoopHangs?
    modifies fs, clock`ticks
    ensures fs.Valid()
    ensures Recorded(e, fs.State(), clock.ticks) == HistoryOf(old(fs.State()), clock.reading, old(clock.ticks), prompt, text)
  {
    var made := fs.MakeDirs(TextDir, true);
    if made.Some? {
      return Lift(made);
    }
    ghost var st, t := fs.State(), clock.ticks;
    ghost var k := FreeReading(st, clock.reading, t, TextDir, "chat_history_", ".txt");
    assert k.Some?;
    var name := FreshName(fs, clock, TextDir, "chat_history_", ".txt", k.value);
    FirstFreeUnique(st, clock.reading, t, clock.ticks - 1, k.value, TextDir, "chat_history_", ".txt");
    var written := fs.Write(TextDir, name, TurnRecord(prompt, text));
    e := Lift(written);
  }

  /** Lines 32-66: the avatar path, the optional speech, the transcript and the answer. */
  method Persist(fs: FileSystem, clock: Clock, gpu: Accelerator, be: Backend, prompt: string, text: string,
                 avatarName: Option<string>, enableTts: bool, speakerWav: string, language: string)
    returns (r: Result<Answer, Error>)
    requires fs.Valid() && clock.Valid() && gpu.Valid()
    requires !PersistOf(be, fs.State(), clock.reading, clock.ticks, prompt, text,
                        avatarName, enableTts, speakerWav, language).Hangs?
    modifies fs, clock`ticks, gpu`loaded, gpu`live
    ensures fs.Valid() && gpu.Valid()
    ensures var voiced := if enableTts then Voiced(gpu, be, |old(gpu.loaded)|) else [];
      && gpu.loaded == old(gpu.loaded) + voiced
      && gpu.live == old(gpu.live) + Held(voiced)
    ensures Outcome(r, fs.State(), clock.ticks)
            == PersistOf(be, old(fs.State()), clock.reading, old(clock.ticks), prompt, text,
                         avatarName, enableTts, speakerWav, language)
  {
    var avatarPath := AvatarPath(avatarName);
    var audioPath: Option<Path> := None;
    if enableTts {
      var saved := SaveSpeech(fs, clock, gpu, be, text, speakerWav, language);
      if saved.Failure? {
        return Failure(saved.error);
      }
      audioPath := Some(saved.value);
    }
    var e := SaveHistory(fs, clock, prompt, text);
    if e.Some? {
      return Failure(e.value);
    }
    r := Success(Answer(text, avatarPath, audioPath));
  }

  /** The language model lines 26 loads, if it loads, numbered from `mark`. */
  function Paired(be: Backend, llmModelName: string, mark: nat): seq<Handle>
  {
    var path := LlmPath(llmModelName);
    if be.loadFails(Tokenizer, path) || be.loadFails(CausalLm, path) then []
    else [Handle(mark, Tokenizer, path, Unplaced), Handle(mark + 1, CausalLm, path, Unplaced)]
  }

  /** Lines 26-30: load the language model and generate the reply. */
  method Think(gpu: Accelerator, be: Backend, prompt: string, llmModelName: string) returns (r: Result<string, Error>)
    requires gpu.Valid()
    modifies gpu`loaded, gpu`live
    ensures gpu.Valid()
    ensures var path := LlmPath(llmModelName);
      r == if be.loadFails(Tokenizer, path) || be.loadFails(CausalLm, path) then Failure(LoadError(path))
           else Reply(be, path, prompt)
    ensures gpu.loaded == old(gpu.loaded) + Paired(be, llmModelName, |old(gpu.loaded)|)
    ensures gpu.live == old(gpu.live) + Held(Paired(be, llmModelName, |old(gpu.loaded)|))
  {
    var models := LoadModel(gpu, be, llmModelName);
    if models.Failure? {
      return Failure(models.error);
    }
    r := Generate(be, LlmPath(llmModelName), prompt);
  }

  /** Lines 26-66: load the language model, reply, then persist. */
  method Respond(fs: FileSystem, clock: Clock, gpu: Accelerator, be: Backend, prompt: string,
                 llmModelName: string, avatarName: Option<string>, enableTts: bool, speakerWav: string,
                 language: string)
    returns (r: Result<Answer, Error>)
    requires fs.Valid() && clock.Valid() && gpu.Valid()
    requires !AnswerOf(be, fs.State(), clock.reading, clock.ticks, prompt,
                       llmModelName, avatarName, enableTts, speakerWav, language).Hangs?
    modifies fs, clock`ticks, gpu`loaded, gpu`live
    ensures fs.Valid() && gpu.Valid()
    ensures var pair := Paired(be, llmModelName, |old(gpu.loaded)|);
      var spoken := Spoken(gpu, be, prompt, llmModelName, enableTts, |old(gpu.loaded)|);
      && gpu.loaded == old(gpu.loaded) + pair + spoken
      && gpu.live == old(gpu.live) + Held(pair) + Held(spoken)
    ensures Outcome(r, fs.State(), clock.ticks)
            == AnswerOf(be, old(fs.State()), clock.reading, old(clock.ticks), prompt,
                        llmModelName, avatarName, enableTts, speakerWav, language)
  {
    ghost var mark := |gpu.loaded|;
    var reply := Think(gpu, be, prompt, llmModelName);
    if reply.Failure? {
      assert Spoken(gpu, be, prompt, llmModelName, enableTts, mark) == [];
      return Failure(reply.error);
    }
    r := Persist(fs, clock, gpu, be, prompt, reply.value, avatarName, enableTts, speakerWav, language);
  }

  /** `generate_text_and_speech`: prompt, reply, optional speech and a new transcript. No
      model it loads is ever released. */
  method GenerateTextAndSpeech(fs: FileSystem, clock: Clock, gpu: Accelerator, be: Backend,
                               inputText: string, inputAudio: Option<string>, llmModelName: string,
                               avatarName: Option<string>, enableTts: bool, speakerWav: string,
                               language: string)
    returns (r: Result<Answer, Error>)
    requires fs.Valid() && clock.Valid() && gpu.Valid()
    requires !TurnOf(be, fs.State(), clock.reading, clock.ticks, inputText, inputAudio,
                     llmModelName, avatarName, enableTts, speakerWav, language).Hangs?
    modifies fs, clock`ticks, gpu`loaded, gpu`live
    ensures fs.Valid() && gpu.Valid()
    ensures Outcome(r, fs.State(), clock.ticks)
            == TurnOf(be, old(fs.State()), clock.reading, old(clock.ticks), inputText, inputAudio,
                      llmModelName, avatarName, enableTts, speakerWav, language)
    ensures var heard := Heard(be, inputAudio, |old(gpu.loaded)|);
      var prompt := PromptOf(be, inputText, inputAudio);
      var mark := |old(gpu.loaded)| + |heard|;
      var pair := if prompt.Success? then Paired(be, llmModelName, mark) else [];
      var spoken := if prompt.Success? then Spoken(gpu, be, prompt.value, llmModelName, enableTts, mark) else [];
      && gpu.loaded == old(gpu.loaded) + heard + pair + spoken
      && gpu.live == old(gpu.live) + Held(heard) + Held(pair) + Held(spoken)
  {
    var heard := Listen(gpu, be, inputText, inputAudio);
    if heard.Failure? {
      return Failure(heard.error);
    }
    r := Respond(fs, clock, gpu, be, heard.value, llmModelName, avatarName, enableTts, speakerWav, language);
  }

  // ---------------------------------------------------------------------------
  // What a turn does to the file system.

  /** Lines 35-49: the speech stage hangs exactly when the model loads, synthesis succeeds
      and no reading from `t` on names a free audio path. Otherwise the waveform lands in a
      new file of `outputs/audio` exactly when that directory exists; nothing else changes,
      and a failing stage changes nothing at all. */
  lemma SpeechFacts(be: Backend, st: Store, reading: nat -> DateTime, t: nat,
                    text: string, speakerWav: string, language: string)
    requires Closed(st.dirs, st.files) && ValidReadings(reading)
    ensures var s := SpeechOf(be, st, reading, t, text, speakerWav, language);
      var wave := be.synthesize(text, VoicePath(speakerWav), language);
      && (s.AudioLoopHangs? <==>
            !be.loadFails(SpeechSynthesis, TtsModel) && wave.Success?
            && !Ends(st, reading, t, AudioDir, "output_", ".wav"))
      && (s.Saved? ==>
            && (s.result.Success? <==>
                  !be.loadFails(SpeechSynthesis, TtsModel) && wave.Success? && AudioDir in st.dirs)
            && (s.result.Failure? ==> s.store == st)
            && (s.result.Success? ==>
                  var p := s.result.value;
                  && p.Sub? && p.parent == AudioDir && !Present(st, p)
                  && s.store.dirs == st.dirs
                  && s.store.files == st.files[p := be.wavBytes(wave.value, SampleRate)]
                  && s.ticks > t)
            && Closed(s.store.dirs, s.store.files))
  {
  }

  /** Lines 51-64: once `outputs/text` can be made, the transcript loop hangs exactly when
      no reading from `t` on names a free transcript; when it ends the transcript is
      written, to a file that did not exist, and holds the turn's record. When the
      directory cannot be made nothing changes. */
  lemma HistoryFacts(st: Store, reading: nat -> DateTime, t: nat, prompt: string, text: string)
    requires Closed(st.dirs, st.files) && ValidReadings(reading)
    ensures var h := HistoryOf(st, reading, t, prompt, text);
      var made := Store(st.dirs + Ancestors(TextDir), st.files);
      && (h.HistoryLoopHangs? <==>
            MakeDirsError(st.dirs, st.files, TextDir, true).None?
            && !Ends(made, reading, t, TextDir, "chat_history_", ".txt"))
      && (h.Recorded? ==>
            && (h.error.None? <==> MakeDirsError(st.dirs, st.files, TextDir, true).None?)
            && (h.error.Some? ==> h.store == st && h.ticks == t)
            && (h.error.None? ==>
                  && TranscriptPath(st, reading, t).Some?
                  && var p := TranscriptPath(st, reading, t).value;
                  && p.Sub? && p.parent == TextDir && p !in st.files && p !in h.store.dirs
                  && h.store.dirs == made.dirs
                  && h.store.files == st.files[p := TurnRecord(prompt, text)]
                  && h.ticks > t)
            && Closed(h.store.dirs, h.store.files))
  {
    if MakeDirsError(st.dirs, st.files, TextDir, true).None? {
      if TextDir in st.dirs {
        MakeDirsIdempotent(st.dirs, st.files, TextDir);
      } else {
        MakeDirsFresh(st.dirs, st.files, TextDir, "");
      }
    }
  }

  /** A turn that returns never overwrites or removes a file and never removes a directory,
      and the tree keeps its shape. */
  lemma NeverOverwrites(be: Backend, st: Store, reading: nat -> DateTime, t: nat,
                        inputText: string, inputAudio: Option<string>, llmModelName: string,
                        avatarName: Option<string>, enableTts: bool, speakerWav: string, language: string)
    requires Closed(st.dirs, st.files) && ValidReadings(reading)
    ensures var o := TurnOf(be, st, reading, t, inputText, inputAudio, llmModelName, avatarName,
                            enableTts, speakerWav, language);
      o.Outcome? ==>
        && Closed(o.store.dirs, o.store.files)
        && st.dirs <= o.store.dirs
        && (forall p | p in st.files :: p in o.store.files && o.store.files[p] == st.files[p])
  {
    var prompt := PromptOf(be, inputText, inputAudio);
    var path := LlmPath(llmModelName);
    if prompt.Success? && !be.loadFails(Tokenizer, path) && !be.loadFails(CausalLm, path)
       && Reply(be, path, prompt.value).Success? {
      var text := Reply(be, path, prompt.value).value;
      if enableTts {
        SpeechFacts(be, st, reading, t, text, speakerWav, language);
        var s := SpeechOf(be, st, reading, t, text, speakerWav, language);
        if s.Saved? && s.result.Success? {
          HistoryFacts(s.store, reading, s.ticks, prompt.value, text);
        }
      } else {
        HistoryFacts(st, reading, t, prompt.value, text);
      }
    }
  }

  /** Lines 24-66 on the answer: a turn can only hang once the language model has replied.
      A turn that returns succeeds exactly when the prompt is there, the language model
      loads and replies, the speech (when asked for) is saved and `outputs/text` can be
      made; it then returns the reply, the avatar path and an audio path exactly when
      speech was asked for. A turn that fails before any file is written leaves the file
      system and the clock as they were. */
  lemma TurnResult(be: Backend, st: Store, reading: nat -> DateTime, t: nat,
                   inputText: string, inputAudio: Option<string>, llmModelName: string,
                   avatarName: Option<string>, enableTts: bool, speakerWav: string, language: string)
    requires Closed(st.dirs, st.files) && ValidReadings(reading)
    ensures var o := TurnOf(be, st, reading, t, inputText, inputAudio, llmModelName, avatarName,
                            enableTts, speakerWav, language);
      var prompt := PromptOf(be, inputText, inputAudio);
      var path := LlmPath(llmModelName);
      var replied := prompt.Success? && !be.loadFails(Tokenizer, path) && !be.loadFails(CausalLm, path)
                     && Reply(be, path, prompt.value).Success?;
      && (o.Hangs? ==> replied)
      && (!replied ==> o.Outcome? && o.store == st && o.ticks == t && o.result.Failure?)
      && (prompt.Failure? ==> o == Outcome(Failure(prompt.error), st, t))
      && (o.Outcome? ==>
            && (o.result.Success? <==>
                  && replied
                  && (enableTts ==> && !be.loadFails(SpeechSynthesis, TtsModel)
                                    && be.synthesize(Reply(be, path, prompt.value).value, VoicePath(speakerWav), language).Success?
                                    && AudioDir in st.dirs)
                  && MakeDirsError(st.dirs, st.files, TextDir, true).None?)
            && (o.result.Success? ==>
                  && o.result.value.text == Reply(be, path, prompt.value).value
                  && o.result.value.avatarPath == AvatarPath(avatarName)
                  && (o.result.value.audioPath.Some? <==> enableTts)))
  {
    var prompt := PromptOf(be, inputText, inputAudio);
    var path := LlmPath(llmModelName);
    if prompt.Success? && !be.loadFails(Tokenizer, path) && !be.loadFails(CausalLm, path)
       && Reply(be, path, prompt.value).Success? {
      var text := Reply(be, path, prompt.value).value;
      if enableTts {
        SpeechFacts(be, st, reading, t, text, speakerWav, language);
        var s := SpeechOf(be, st, reading, t, text, speakerWav, language);
        if s.Saved? && s.result.Success? {
          HistoryFacts(s.store, reading, s.ticks, prompt.value, text);
          var outputs := Sub(Cwd, "outputs");
          assert UnderFile(s.store.files, outputs) == UnderFile(st.files, outputs);
          assert UnderFile(s.store.files, TextDir) == UnderFile(st.files, TextDir);
        }
      } else {
        HistoryFacts(st, reading, t, prompt.value, text);
      }
    }
  }

  /** Lines 51-66 on the files: a transcript stage that returns successfully adds exactly
      one new file, holding the record, and keeps every file that was there. */
  lemma FinishFiles(st: Store, reading: nat -> DateTime, t: nat, prompt: string, text: string,
                    avatarName: Option<string>, audio: Option<Path>)
    requires Closed(st.dirs, st.files) && ValidReadings(reading)
    ensures var o := Finish(st, reading, t, prompt, text, avatarName, audio);
      o.Outcome? && o.result.Success? ==>
        && o.result.value == Answer(text, AvatarPath(avatarName), audio)
        && |o.store.files| == |st.files| + 1
        && o.ticks > t
        && (forall p | p in st.files :: p in o.store.files && o.store.files[p] == st.files[p])
        && (exists name :: && Sub(TextDir, name) !in st.files && Sub(TextDir, name) in o.store.files
                           && o.store.files[Sub(TextDir, name)] == TurnRecord(prompt, text))
  {
    HistoryFacts(st, reading, t, prompt, text);
    var o := Finish(st, reading, t, prompt, text, avatarName, audio);
    if o.Outcome? && o.result.Success? {
      var p := TranscriptPath(st, reading, t).value;
      assert o.store.files[p] == TurnRecord(prompt, text);
    }
  }

  /** Lines 32-66 on the files: once the reply is there, a stage that returns successfully
      adds exactly one new file, the transcript holding the record, or two when it also
      spoke, the audio holding the waveform. */
  lemma PersistFiles(be: Backend, st: Store, reading: nat -> DateTime, t: nat, prompt: string, text: string,
                     avatarName: Option<string>, enableTts: bool, speakerWav: string, language: string)
    requires Closed(st.dirs, st.files) && ValidReadings(reading)
    ensures var o := PersistOf(be, st, reading, t, prompt, text, avatarName, enableTts, speakerWav, language);
      o.Outcome? && o.result.Success? ==>
        && o.result.value.text == text
        && (o.result.value.audioPath.Some? <==> enableTts)
        && |o.store.files| == |st.files| + (if enableTts then 2 else 1)
        && o.ticks >= t + (if enableTts then 2 else 1)
        && (exists name :: && Sub(TextDir, name) !in st.files && Sub(TextDir, name) in o.store.files
                           && o.store.files[Sub(TextDir, name)] == TurnRecord(prompt, text))
        && (enableTts ==>
              var audio := o.result.value.audioPath.value;
              && audio !in st.files && audio in o.store.files
              && o.store.files[audio] == be.wavBytes(be.synthesize(text, VoicePath(speakerWav), language).value, SampleRate))
  {
    if enableTts {
      SpeechFacts(be, st, reading, t, text, speakerWav, language);
      var s := SpeechOf(be, st, reading, t, text, speakerWav, language);
      if s.Saved? && s.result.Success? {
        FinishFiles(s.store, reading, s.ticks, prompt, text, avatarName, Some(s.result.value));
        var o := Finish(s.store, reading, s.ticks, prompt, text, avatarName, Some(s.result.value));
        if o.Outcome? && o.result.Success? {
          var name :| && Sub(TextDir, name) !in s.store.files && Sub(TextDir, name) in o.store.files
                      && o.store.files[Sub(TextDir, name)] == TurnRecord(prompt, text);
          assert Sub(TextDir, name) !in st.files;
        }
      }
    } else {
      FinishFiles(st, reading, t, prompt, text, avatarName, None);
    }
  }

  /** Lines 49 and 62-64 on the files: a successful turn adds exactly one new file, the
      transcript holding its record, or two when it also spoke, the audio holding the
      waveform; every read of the clock it made came after reading `t`. */
  lemma TurnFiles(be: Backend, st: Store, reading: nat -> DateTime, t: nat,
                  inputText: string, inputAudio: Option<string>, llmModelName: string,
                  avatarName: Option<string>, enableTts: bool, speakerWav: string, language: string)
    requires Closed(st.dirs, st.files) && ValidReadings(reading)
    ensures var o := TurnOf(be, st, reading, t, inputText, inputAudio, llmModelName, avatarName,
                            enableTts, speakerWav, language);
      o.Outcome? && o.result.Success? ==>
        && PromptOf(be, inputText, inputAudio).Success?
        && |o.store.files| == |st.files| + (if enableTts then 2 else 1)
        && o.ticks >= t + (if enableTts then 2 else 1)
        && (exists name :: && Sub(TextDir, name) !in st.files && Sub(TextDir, name) in o.store.files
                           && o.store.files[Sub(TextDir, name)]
                              == TurnRecord(PromptOf(be, inputText, inputAudio).value, o.result.value.text))
        && (enableTts ==>
              var audio := o.result.value.audioPath.value;
              && audio !in st.files && audio in o.store.files
              && o.store.files[audio]
                 == be.wavBytes(be.synthesize(o.result.value.text, VoicePath(speakerWav), language).value, SampleRate))
  {
    var o := TurnOf(be, st, reading, t, inputText, inputAudio, llmModelName, avatarName,
                    enableTts, speakerWav, language);
    var prompt := PromptOf(be, inputText, inputAudio);
    var path := LlmPath(llmModelName);
    if o.Outcome? && o.result.Success? {
      TurnResult(be, st, reading, t, inputText, inputAudio, llmModelName, avatarName, enableTts, speakerWav, language);
      var text := Reply(be, path, prompt.value).value;
      PersistFiles(be, st, reading, t, prompt.value, text, avatarName, enableTts, speakerWav, language);
    }
  }

  /** Unlike a session that appends, two successful turns in a row, whatever their inputs,
      leave two different new transcripts side by side, each holding its own turn's record:
      the second overwrites nothing the first wrote. */
  lemma TurnsAccumulate(be: Backend, st: Store, reading: nat -> DateTime, t: nat,
                        text1: string, audio1: Option<string>, llm1: string, avatar1: Option<string>,
                        tts1: bool, speaker1: string, language1: string,
                        text2: string, audio2: Option<string>, llm2: string, avatar2: Option<string>,
                        tts2: bool, speaker2: string, language2: string)
    requires Closed(st.dirs, st.files) && ValidReadings(reading)
    ensures var o1 := TurnOf(be, st, reading, t, text1, audio1, llm1, avatar1, tts1, speaker1, language1);
      o1.Outcome? ==>
        var o2 := TurnOf(be, o1.store, reading, o1.ticks, text2, audio2, llm2, avatar2, tts2, speaker2, language2);
        && (o2.Outcome? ==>
              forall p | p in o1.store.files :: p in o2.store.files && o2.store.files[p] == o1.store.files[p])
        && (o2.Outcome? && o1.result.Success? && o2.result.Success? ==>
              exists n1, n2 ::
                && n1 != n2
                && Sub(TextDir, n1) !in st.files && Sub(TextDir, n2) !in st.files
                && Sub(TextDir, n1) in o2.store.files && Sub(TextDir, n2) in o2.store.files
                && o2.store.files[Sub(TextDir, n1)] == TurnRecord(PromptOf(be, text1, audio1).value, o1.result.value.text)
                && o2.store.files[Sub(TextDir, n2)] == TurnRecord(PromptOf(be, text2, audio2).value, o2.result.value.text))
  {
    var o1 := TurnOf(be, st, reading, t, text1, audio1, llm1, avatar1, tts1, speaker1, language1);
    NeverOverwrites(be, st, reading, t, text1, audio1, llm1, avatar1, tts1, speaker1, language1);
    if o1.Outcome? {
      var o2 := TurnOf(be, o1.store, reading, o1.ticks, text2, audio2, llm2, avatar2, tts2, speaker2, language2);
      NeverOverwrites(be, o1.store, reading, o1.ticks, text2, audio2, llm2, avatar2, tts2, speaker2, language2);
      if o2.Outcome? && o1.result.Success? && o2.result.Success? {
        TurnFiles(be, st, reading, t, text1, audio1, llm1, avatar1, tts1, speaker1, language1);
        TurnFiles(be, o1.store, reading, o1.ticks, text2, audio2, llm2, avatar2, tts2, speaker2, language2);
        var r1 := TurnRecord(PromptOf(be, text1, audio1).value, o1.result.value.text);
        var r2 := TurnRecord(PromptOf(be, text2, audio2).value, o2.result.value.text);
        var n1 :| Sub(TextDir, n1) !in st.files && Sub(TextDir, n1) in o1.store.files
                  && o1.store.files[Sub(TextDir, n1)] == r1;
        var n2 :| Sub(TextDir, n2) !in o1.store.files && Sub(TextDir, n2) in o2.store.files
                  && o2.store.files[Sub(TextDir, n2)] == r2;
        assert Sub(TextDir, n2) !in st.files;
        assert n1 != n2 && o2.store.files[Sub(TextDir, n1)] == r1;
      }
    }
  }

  // ---------------------------------------------------------------------------
  // When a turn ends.

  /** Nothing of any name stands in `dir` yet. */
  ghost predicate Vacant(st: Store, dir: Path)
  {
    forall name :: !Present(st, Sub(dir, name))
  }

  /** In a directory that holds nothing yet, the loop keeps its first probe. */
  lemma VacantFirstProbe(st: Store, reading: nat -> DateTime, t: nat, dir: Path, stem: string, ext: string)
    requires ValidReadings(reading) && Vacant(st, dir)
    ensures FreeReading(st, reading, t, dir, stem, ext) == Some(t)
  {
    assert !Present(st, Sub(dir, StampedName(stem, reading(t), ext)));
    assert FirstFree(st, reading, t, t, dir, stem, ext);
    var k := FreeReading(st, reading, t, dir, stem, ext);
    FirstFreeUnique(st, reading, t, t, k.value, dir, stem, ext);
  }

  /** Making `outputs/text` adds no entry inside it. */
  lemma MadeStaysVacant(st: Store)
    requires Vacant(st, TextDir)
    ensures Vacant(Store(st.dirs + Ancestors(TextDir), st.files), TextDir)
  {
    AncestorsAbove(TextDir);
    forall name ensures Sub(TextDir, name) !in Ancestors(TextDir) {
      assert Depth(Sub(TextDir, name)) == 3;
    }
  }

  /** Whatever the clock shows, a turn ends whenever `outputs/audio` and `outputs/text`
      hold nothing yet: each collision loop keeps the first name it probes. */
  lemma QuietTurnEnds(be: Backend, st: Store, reading: nat -> DateTime, t: nat,
                      inputText: string, inputAudio: Option<string>, llmModelName: string,
                      avatarName: Option<string>, enableTts: bool, speakerWav: string, language: string)
    requires Closed(st.dirs, st.files) && ValidReadings(reading)
    requires Vacant(st, AudioDir) && Vacant(st, TextDir)
    ensures TurnOf(be, st, reading, t, inputText, inputAudio, llmModelName, avatarName,
                   enableTts, speakerWav, language).Outcome?
  {
    var prompt := PromptOf(be, inputText, inputAudio);
    var path := LlmPath(llmModelName);
    if prompt.Success? && !be.loadFails(Tokenizer, path) && !be.loadFails(CausalLm, path)
       && Reply(be, path, prompt.value).Success? {
      var text := Reply(be, path, prompt.value).value;
      var after := st;
      var t' := t;
      if enableTts {
        VacantFirstProbe(st, reading, t, AudioDir, "output_", ".wav");
        var s := SpeechOf(be, st, reading, t, text, speakerWav, language);
        if s.Saved? && s.result.Success? {
          assert Vacant(s.store, TextDir) by {
            forall name ensures !Present(s.store, Sub(TextDir, name)) {
              assert Sub(TextDir, name) != s.result.value;
            }
          }
          after, t' := s.store, s.ticks;
        }
      }
      MadeStaysVacant(after);
      VacantFirstProbe(Store(after.dirs + Ancestors(TextDir), after.files), reading, t', TextDir, "chat_history_", ".txt");
    }
  }

  /** The hypothesis the turn's code needs can be met: on a fresh working directory even
      a stopped clock lets a turn end. */
  lemma FreshStoreTurnEnds(be: Backend, t: nat, inputText: string, inputAudio: Option<string>, llmModelName: string,
                           avatarName: Option<string>, enableTts: bool, speakerWav: string, language: string)
    ensures var stopped := (i: nat) => DateTime(2024, 1, 1, 0, 0, 0);
      && ValidReadings(stopped)
      && TurnOf(be, Store({Cwd}, map[]), stopped, t, inputText, inputAudio, llmModelName, avatarName,
                enableTts, speakerWav, language).Outcome?
  {
    var stopped := (i: nat) => DateTime(2024, 1, 1, 0, 0, 0);
    assert Valid(DateTime(2024, 1, 1, 0, 0, 0));
    QuietTurnEnds(be, Store({Cwd}, map[]), stopped, t, inputText, inputAudio, llmModelName, avatarName,
                  enableTts, speakerWav, language);
  }

  /** Lines 19, 13-14 and 36-37 on placement: the code never calls `.to(device)` on the
      transcription and language models, so they stay where they load; only the speech
      model goes to the resolved device. */
  lemma Placement(gpu: Accelerator, be: Backend, inputAudio: Option<string>, prompt: string,
                  llmModelName: string, enableTts: bool, mark: nat)
    ensures forall h | h in Heard(be, inputAudio, mark) + Paired(be, llmModelName, mark)
                            + Spoken(gpu, be, prompt, llmModelName, enableTts, mark) ::
              h.device == if h.kind == SpeechSynthesis then gpu.Resolve() else Unplaced
  {
  }
}
