/** The session-threading front end: one turn that reuses or lazily creates
    `outputs/chat_<ts>/{text,audio}`, appends to the session transcript and releases
    every model it binds inside its `try` block.

    Each stage is specified by a function from the file-system snapshot and the clock
    to what the stage returns and leaves behind; the methods are proved to follow those
    functions, and the lemmas at the end state what a turn does to the session. */
module AppRU {
  import opened Outcomes
  import opened Timestamps
  import opened FileStore
  import opened Clocks
  import opened Leases
  import opened Stages

  /** What one turn returns: reply text, avatar path, audio path and the session directory. */
  datatype Turn = Turn(text: string, avatarPath: Option<string>, audioPath: Option<Path>, chatDir: Option<Path>)

  /** `chat_dir` is truthy: given and not the empty path. */
  predicate HasSession(chatDir: Option<Path>)
  {
    chatDir.Some? && chatDir.value != Cwd
  }

  /** `os.path.join('outputs', f"chat_{now.strftime('%Y%m%d_%H%M%S')}")`. */
  function SessionRoot(dt: DateTime): Path
    requires Valid(dt)
  {
    Sub(Sub(Cwd, "outputs"), StampedName("chat_", dt, ""))
  }

  /** The directories a session creation adds: the root with its ancestors, `text` and `audio`. */
  function SessionDirs(root: Path): set<Path>
  {
    Ancestors(root) + {Sub(root, "text"), Sub(root, "audio")}
  }

  /** The session a turn writes into: the one passed in, else a new one named by the clock. */
  function Root(chatDir: Option<Path>, dt: DateTime): Path
    requires Valid(dt)
  {
    if HasSession(chatDir) then chatDir.value else SessionRoot(dt)
  }

  /** `chat_dir/text/chat_history.txt`. */
  function HistoryFile(root: Path): Path
  {
    Sub(Sub(root, "text"), TranscriptName)
  }

  /** `chat_dir/audio/output_<ts>.wav`. */
  function AudioFile(root: Path, dt: DateTime): Path
    requires Valid(dt)
  {
    Sub(Sub(root, "audio"), StampedName("output_", dt, ".wav"))
  }

  /** What a file held before a write that creates it when missing. */
  function Prior(files: map<Path, string>, p: Path): string
  {
    if p in files then files[p] else ""
  }

  // ---------------------------------------------------------------------------
  // The stages as functions of the snapshot.

  datatype Created = Created(root: Path, error: Option<Error>, store: Store)

  /** Lines 61-65 (and 73-77): name the root by the clock, then `os.makedirs` the root,
      `text` and `audio`, none with `exist_ok`. Only the root can fail: its
      subdirectories are then new. */
  function CreationOf(st: Store, dt: DateTime): Created
    requires Valid(dt)
  {
    var root := SessionRoot(dt);
    var e := Lift(MakeDirsError(st.dirs, st.files, root, false));
    Created(root, e, if e.None? then Store(st.dirs + SessionDirs(root), st.files) else st)
  }

  datatype Session = Session(dir: Option<Path>, error: Option<Error>, store: Store, ticks: nat)

  /** `if not chat_dir: <create a session>`, with the clock read `t` times so far. */
  function SessionOf(st: Store, reading: nat -> DateTime, t: nat, chatDir: Option<Path>): Session
    requires ValidReadings(reading)
  {
    if HasSession(chatDir) then Session(chatDir, None, st, t)
    else
      var c := CreationOf(st, reading(t));
      Session(Some(c.root), c.error, c.store, t + 1)
  }

  datatype Saved = Saved(path: Path, error: Option<Error>, store: Store)

  /** Lines 67-70: name the audio file by the clock and `sf.write` it, replacing a file
      of that name. */
  function SaveOf(st: Store, root: Path, dt: DateTime, wav: string): Saved
    requires Valid(dt)
  {
    var path := AudioFile(root, dt);
    var e := Lift(OpenError(st.dirs, st.files, Sub(root, "audio"), path.name));
    Saved(path, e, if e.None? then Store(st.dirs, st.files[path := wav]) else st)
  }

  /** Lines 79-82: open the transcript in append mode and write the turn's record. */
  function AppendOf(st: Store, root: Path, record: string): (Option<Error>, Store)
  {
    var e := Lift(OpenError(st.dirs, st.files, Sub(root, "text"), TranscriptName));
    (e, if e.None? then Store(st.dirs, Appended(st.files, HistoryFile(root), record)) else st)
  }

  /** Where the tail of the try block stands: the first error, the audio path, the session
      directory, the snapshot and the number of clock readings. */
  datatype Step = Step(failure: Option<Error>, audioPath: Option<Path>, dir: Option<Path>, store: Store, ticks: nat)

  /** Lines 58-70: synthesize, ensure the session, write the audio file. */
  function SpeechOf(be: Backend, st: Store, reading: nat -> DateTime, t: nat, text: string,
                    speakerWav: string, language: string, chatDir: Option<Path>): Step
    requires ValidReadings(reading)
  {
    match be.synthesize(text, VoicePath(speakerWav), language)
    case Failure(err) => Step(Some(err), None, chatDir, st, t)
    case Success(wav) =>
      var s := SessionOf(st, reading, t, chatDir);
      if s.error.Some? then Step(s.error, None, s.dir, s.store, s.ticks)
      else
        var saved := SaveOf(s.store, s.dir.value, reading(s.ticks), be.wavBytes(wav, SampleRate));
        Step(saved.error, Some(saved.path), s.dir, saved.store, s.ticks + 1)
  }

  /** Lines 58-82: speech when enabled, the session when still missing, the transcript. */
  function PersistOf(be: Backend, st: Store, reading: nat -> DateTime, t: nat, prompt: string, text: string,
                     enableTts: bool, speakerWav: string, language: string, chatDir: Option<Path>): Step
    requires ValidReadings(reading)
  {
    var sp := if enableTts then SpeechOf(be, st, reading, t, text, speakerWav, language, chatDir)
              else Step(None, None, chatDir, st, t);
    if sp.failure.Some? then sp
    else
      var s := SessionOf(sp.store, reading, sp.ticks, sp.dir);
      if s.error.Some? then Step(s.error, sp.audioPath, s.dir, s.store, s.ticks)
      else
        var (e, after) := AppendOf(s.store, s.dir.value, TurnRecord(prompt, text));
        Step(e, sp.audioPath, s.dir, after, s.ticks)
  }

  /** The first load of lines 40-46 that fails, if any: the text model (tokenizer and
      causal model together), the speech model when speech is on, the Whisper model when
      audio was given. That last load is the second of the turn, after line 33's, and has
      its own verdict. */
  function LoadFailure(be: Backend, llmModelName: string, enableTts: bool, hasAudio: bool): Option<Error>
  {
    var path := LlmPath(llmModelName);
    if be.loadFails(Tokenizer, path) || be.loadFails(CausalLm, path) then Some(LoadError(path))
    else if enableTts && be.loadFails(SpeechSynthesis, TtsModel) then Some(LoadError(TtsModel))
    else if hasAudio && be.reloadFails(Transcription, WhisperSize) then Some(LoadError(WhisperSize))
    else None
  }

  datatype Outcome = Outcome(result: Result<Turn, Error>, store: Store, ticks: nat)

  /** Lines 39-82, the try block, once the prompt is known. */
  function AttemptOf(be: Backend, st: Store, reading: nat -> DateTime, t: nat, prompt: string,
                     llmModelName: string, avatarName: Option<string>, enableTts: bool,
                     speakerWav: string, language: string, chatDir: Option<Path>, hasAudio: bool): Outcome
    requires ValidReadings(reading)
  {
    match LoadFailure(be, llmModelName, enableTts, hasAudio)
    case Some(e) => Outcome(Failure(e), st, t)
    case None =>
      match Reply(be, LlmPath(llmModelName), prompt)
      case Failure(e) => Outcome(Failure(e), st, t)
      case Success(text) =>
        var p := PersistOf(be, st, reading, t, prompt, text, enableTts, speakerWav, language, chatDir);
        if p.failure.Some? then Outcome(Failure(p.failure.value), p.store, p.ticks)
        else Outcome(Success(Turn(text, AvatarPath(avatarName), p.audioPath, p.dir)), p.store, p.ticks)
  }

  /** `generate_text_and_speech` on the file system and the clock. */
  function TurnOf(be: Backend, st: Store, reading: nat -> DateTime, t: nat,
                  inputText: string, inputAudio: Option<string>, llmModelName: string,
                  avatarName: Option<string>, enableTts: bool, speakerWav: string,
                  language: string, chatDir: Option<Path>): Outcome
    requires ValidReadings(reading)
  {
    match PromptOf(be, inputText, inputAudio)
    case Failure(e) => Outcome(Failure(e), st, t)
    case Success(prompt) =>
      AttemptOf(be, st, reading, t, prompt, llmModelName, avatarName, enableTts,
                speakerWav, language, chatDir, Truthy(inputAudio))
  }

  // ---------------------------------------------------------------------------
  // Loading and generation.

  /** `load_model`: a tokenizer left where it loads and a causal model moved to the
      resolved device. Taken as one step: when either part fails nothing stays loaded. */
  method LoadModel(gpu: Accelerator, be: Backend, name: string) returns (r: Result<(Handle, Handle), Error>)
    requires gpu.Valid()
    modifies gpu`loaded, gpu`live
    ensures gpu.Valid()
    ensures var path := LlmPath(name);
      if be.loadFails(Tokenizer, path) || be.loadFails(CausalLm, path) then
        && r == Failure(LoadError(path))
        && gpu.loaded == old(gpu.loaded) && gpu.live == old(gpu.live)
      else
        && r.Success?
        && r.value.0 == Handle(|old(gpu.loaded)|, Tokenizer, path, Unplaced)
        && r.value.1 == Handle(|old(gpu.loaded)| + 1, CausalLm, path, gpu.Resolve())
        && gpu.loaded == old(gpu.loaded) + [r.value.0, r.value.1]
        && gpu.live == old(gpu.live) + {r.value.0, r.value.1}
  {
    var path := LlmPath(name);
    if be.loadFails(Tokenizer, path) || be.loadFails(CausalLm, path) {
      return Failure(LoadError(path));
    }
    var tokenizer := gpu.Load(Tokenizer, path, Unplaced, false);
    var device := gpu.Resolve();
    var model := gpu.Load(CausalLm, path, device, false);
    return Success((tokenizer.value, model.value));
  }

  /** `transcribe_audio`: loads the medium Whisper model on the resolved device and
      transcribes. Nothing here releases that model. */
  method TranscribeAudio(gpu: Accelerator, be: Backend, path: string) returns (r: Result<string, Error>)
    requires gpu.Valid()
    modifies gpu`loaded, gpu`live
    ensures gpu.Valid()
    ensures r == Transcribed(be, path)
    ensures gpu.loaded == old(gpu.loaded) +
      (if be.loadFails(Transcription, WhisperSize) then []
       else [Handle(|old(gpu.loaded)|, Transcription, WhisperSize, gpu.Resolve())])
    ensures gpu.live == old(gpu.live) +
      (if be.loadFails(Transcription, WhisperSize) then {}
       else {Handle(|old(gpu.loaded)|, Transcription, WhisperSize, gpu.Resolve())})
  {
    var model := gpu.Load(Transcription, WhisperSize, gpu.Resolve(), be.loadFails(Transcription, WhisperSize));
    if model.None? {
      return Failure(LoadError(WhisperSize));
    }
    r := be.transcribe(path);
  }

  /** The handles bound to the four locals the finally block releases. */
  function Bound(tokenizer: Option<Handle>, llmModel: Option<Handle>,
                 ttsModel: Option<Handle>, whisperModel: Option<Handle>): set<Handle>
  {
    (if tokenizer.Some? then {tokenizer.value} else {})
    + (if llmModel.Some? then {llmModel.value} else {})
    + (if ttsModel.Some? then {ttsModel.value} else {})
    + (if whisperModel.Some? then {whisperModel.value} else {})
  }

  function Listed(h: Option<Handle>): seq<Handle>
  {
    if h.Some? then [h.value] else []
  }

  /** `if wanted: model = Loader(...).to(device)` for the speech and the Whisper model,
      where `fails` is the backend's verdict on that load. */
  method LoadIf(gpu: Accelerator, wanted: bool, kind: Capability, model: string, fails: bool)
    returns (failure: Option<Error>, h: Option<Handle>)
    requires gpu.Valid()
    modifies gpu`loaded, gpu`live
    ensures gpu.Valid()
    ensures h.Some? <==> wanted && !fails
    ensures failure == if wanted && fails then Some(LoadError(model)) else None
    ensures h.Some? ==> h.value == Handle(|old(gpu.loaded)|, kind, model, gpu.Resolve())
    ensures gpu.loaded == old(gpu.loaded) + Listed(h)
    ensures gpu.live == old(gpu.live) + (if h.Some? then {h.value} else {})
  {
    failure, h := None, None;
    if wanted {
      h := gpu.Load(kind, model, gpu.Resolve(), fails);
      if h.None? {
        failure := Some(LoadError(model));
      }
    }
  }

  /** The loads at the head of the try block: the text model, the speech model when speech
      is on, and a second Whisper model when audio was given. What loaded is bound. */
  method LoadModels(gpu: Accelerator, be: Backend, llmModelName: string, enableTts: bool, hasAudio: bool)
    returns (failure: Option<Error>, tokenizer: Option<Handle>, llmModel: Option<Handle>,
             ttsModel: Option<Handle>, whisperModel: Option<Handle>)
    requires gpu.Valid()
    modifies gpu`loaded, gpu`live
    ensures gpu.Valid()
    ensures gpu.loaded == old(gpu.loaded) + Listed(tokenizer) + Listed(llmModel) + Listed(ttsModel) + Listed(whisperModel)
    ensures gpu.live == old(gpu.live) + Bound(tokenizer, llmModel, ttsModel, whisperModel)
    ensures forall h | h in Bound(tokenizer, llmModel, ttsModel, whisperModel) :: h.id >= |old(gpu.loaded)|
    ensures failure == LoadFailure(be, llmModelName, enableTts, hasAudio)
    ensures failure.None? ==>
      && tokenizer.Some? && llmModel.Some?
      && (ttsModel.Some? <==> enableTts) && (whisperModel.Some? <==> hasAudio)
  {
    var pair := LoadModel(gpu, be, llmModelName);
    if pair.Failure? {
      assert gpu.loaded == old(gpu.loaded) + [] + [] + [] + [];
      return Some(pair.error), None, None, None, None;
    }
    tokenizer, llmModel := Some(pair.value.0), Some(pair.value.1);
    ghost var text := gpu.loaded;
    assert text == old(gpu.loaded) + Listed(tokenizer) + Listed(llmModel);
    failure, ttsModel := LoadIf(gpu, enableTts, SpeechSynthesis, TtsModel, be.loadFails(SpeechSynthesis, TtsModel));
    if failure.Some? {
      assert gpu.loaded == text + Listed(ttsModel) + [];
      return failure, tokenizer, llmModel, ttsModel, None;
    }
    failure, whisperModel := LoadIf(gpu, hasAudio, Transcription, WhisperSize, be.reloadFails(Transcription, WhisperSize));
  }

  // ---------------------------------------------------------------------------
  // The stages as the code runs them.

  /** Lines 61-65: the session root, then its `text` and `audio` subdirectories. */
  method CreateSession(fs: FileSystem, clock: Clock) returns (root: Path, e: Option<Error>)
    requires fs.Valid() && clock.Valid()
    modifies fs`dirs, clock`ticks
    ensures fs.Valid() && clock.ticks == old(clock.ticks) + 1
    ensures Created(root, e, fs.State()) == CreationOf(old(fs.State()), clock.reading(old(clock.ticks)))
  {
    var now := clock.Now();
    root := SessionRoot(now);
    MakeDirsFresh(fs.dirs, fs.files, root, "text");
    MakeDirsFresh(fs.dirs, fs.files, root, "audio");
    var made := fs.MakeDirs(root, false);
    if made.Some? {
      return root, Lift(made);
    }
    var text := fs.MakeDirs(Sub(root, "text"), false);
    assert text.None?;
    var audio := fs.MakeDirs(Sub(root, "audio"), false);
    assert audio.None?;
    e := None;
  }

  method EnsureSession(fs: FileSystem, clock: Clock, chatDir: Option<Path>) returns (dir: Option<Path>, e: Option<Error>)
    requires fs.Valid() && clock.Valid()
    modifies fs`dirs, clock`ticks
    ensures fs.Valid()
    ensures Session(dir, e, fs.State(), clock.ticks) == SessionOf(old(fs.State()), clock.reading, old(clock.ticks), chatDir)
  {
    dir, e := chatDir, None;
    if !HasSession(chatDir) {
      var root;
      root, e := CreateSession(fs, clock);
      dir := Some(root);
    }
  }

  method SaveSpeech(fs: FileSystem, clock: Clock, root: Path, wav: string) returns (path: Path, e: Option<Error>)
    requires fs.Valid() && clock.Valid()
    modifies fs`files, clock`ticks
    ensures fs.Valid() && clock.ticks == old(clock.ticks) + 1
    ensures Saved(path, e, fs.State()) == SaveOf(old(fs.State()), root, clock.reading(old(clock.ticks)), wav)
  {
    var now := clock.Now();
    var name := StampedName("output_", now, ".wav");
    var written := fs.Write(Sub(root, "audio"), name, wav);
    path := Sub(Sub(root, "audio"), name);
    e := Lift(written);
  }

  method AppendTurn(fs: FileSystem, root: Path, prompt: string, text: string) returns (e: Option<Error>)
    requires fs.Valid()
    modifies fs`files
    ensures fs.Valid()
    ensures (e, fs.State()) == AppendOf(old(fs.State()), root, TurnRecord(prompt, text))
  {
    var appended := fs.Append(Sub(root, "text"), TranscriptName, TurnRecord(prompt, text));
    e := Lift(appended);
  }

  method Speak(fs: FileSystem, clock: Clock, be: Backend, text: string, speakerWav: string,
               language: string, chatDir: Option<Path>)
    returns (failure: Option<Error>, audioPath: Option<Path>, dir: Option<Path>)
    requires fs.Valid() && clock.Valid()
    modifies fs, clock`ticks
    ensures fs.Valid()
    ensures Step(failure, audioPath, dir, fs.State(), clock.ticks)
            == SpeechOf(be, old(fs.State()), clock.reading, old(clock.ticks), text, speakerWav, language, chatDir)
  {
    dir, audioPath := chatDir, None;
    var wav := be.synthesize(text, VoicePath(speakerWav), language);
    if wav.Failure? {
      return Some(wav.error), audioPath, dir;
    }
    dir, failure := EnsureSession(fs, clock, dir);
    if failure.Some? {
      return;
    }
    var path;
    path, failure := SaveSpeech(fs, clock, dir.value, be.wavBytes(wav.value, SampleRate));
    audioPath := Some(path);
  }

  method Persist(fs: FileSystem, clock: Clock, be: Backend, prompt: string, text: string,
                 enableTts: bool, speakerWav: string, language: string, chatDir: Option<Path>)
    returns (failure: Option<Error>, audioPath: Option<Path>, dir: Option<Path>)
    requires fs.Valid() && clock.Valid()
    modifies fs, clock`ticks
    ensures fs.Valid()
    ensures Step(failure, audioPath, dir, fs.State(), clock.ticks)
            == PersistOf(be, old(fs.State()), clock.reading, old(clock.ticks), prompt, text,
                         enableTts, speakerWav, language, chatDir)
  {
    failure, audioPath, dir := None, None, chatDir;
    if enableTts {
      failure, audioPath, dir := Speak(fs, clock, be, text, speakerWav, language, dir);
      if failure.Some? {
        return;
      }
    }
    dir, failure := EnsureSession(fs, clock, dir);
    if failure.Some? {
      return;
    }
    failure := AppendTurn(fs, dir.value, prompt, text);
  }

  /** Lines 39-82, the try block: loads, reply, avatar and persistence. What loaded is
      bound for the finally block, also when a later step fails. */
  method Attempt(fs: FileSystem, clock: Clock, gpu: Accelerator, be: Backend, prompt: string,
                 llmModelName: string, avatarName: Option<string>, enableTts: bool,
                 speakerWav: string, language: string, chatDir: Option<Path>, hasAudio: bool)
    returns (r: Result<Turn, Error>, tokenizer: Option<Handle>, llmModel: Option<Handle>,
             ttsModel: Option<Handle>, whisperModel: Option<Handle>)
    requires fs.Valid() && clock.Valid() && gpu.Valid()
    modifies fs, clock`ticks, gpu`loaded, gpu`live
    ensures fs.Valid() && gpu.Valid()
    ensures Outcome(r, fs.State(), clock.ticks)
            == AttemptOf(be, old(fs.State()), clock.reading, old(clock.ticks), prompt, llmModelName,
                         avatarName, enableTts, speakerWav, language, chatDir, hasAudio)
    ensures gpu.loaded == old(gpu.loaded) + Listed(tokenizer) + Listed(llmModel) + Listed(ttsModel) + Listed(whisperModel)
    ensures gpu.live == old(gpu.live) + Bound(tokenizer, llmModel, ttsModel, whisperModel)
    ensures forall h | h in Bound(tokenizer, llmModel, ttsModel, whisperModel) :: h.id >= |old(gpu.loaded)|
  {
    var failure;
    failure, tokenizer, llmModel, ttsModel, whisperModel := LoadModels(gpu, be, llmModelName, enableTts, hasAudio);
    if failure.Some? {
      return Failure(failure.value), tokenizer, llmModel, ttsModel, whisperModel;
    }
    var reply := Generate(be, LlmPath(llmModelName), prompt);
    if reply.Failure? {
      return Failure(reply.error), tokenizer, llmModel, ttsModel, whisperModel;
    }
    var audioPath, dir;
    failure, audioPath, dir := Persist(fs, clock, be, prompt, reply.value, enableTts, speakerWav, language, chatDir);
    if failure.Some? {
      return Failure(failure.value), tokenizer, llmModel, ttsModel, whisperModel;
    }
    r := Success(Turn(reply.value, AvatarPath(avatarName), audioPath, dir));
  }

  /** The Whisper model line 26 loads for line 33: it is never released by `del`, since
      the finally block only releases the four locals of lines 35-37. */
  function Stray(gpu: Accelerator, be: Backend, inputAudio: Option<string>, mark: nat): set<Handle>
    reads gpu
  {
    if Truthy(inputAudio) && !be.loadFails(Transcription, WhisperSize)
    then {Handle(mark, Transcription, WhisperSize, gpu.Resolve())} else {}
  }

  /** Line 33: `transcribe_audio(input_audio) if input_audio else input_text`. */
  method Listen(gpu: Accelerator, be: Backend, inputText: string, inputAudio: Option<string>)
    returns (r: Result<string, Error>)
    requires gpu.Valid()
    modifies gpu`loaded, gpu`live
    ensures gpu.Valid()
    ensures r == PromptOf(be, inputText, inputAudio)
    ensures gpu.loaded == old(gpu.loaded) + (if Stray(gpu, be, inputAudio, |old(gpu.loaded)|) == {} then []
                                             else [Handle(|old(gpu.loaded)|, Transcription, WhisperSize, gpu.Resolve())])
    ensures gpu.live == old(gpu.live) + Stray(gpu, be, inputAudio, |old(gpu.loaded)|)
  {
    if Truthy(inputAudio) {
      r := TranscribeAudio(gpu, be, inputAudio.value);
    } else {
      r := Success(inputText);
    }
  }

  /** Lines 84-93, the finally block: drop every bound model, then empty the cache. */
  method Finally(gpu: Accelerator, tokenizer: Option<Handle>, llmModel: Option<Handle>,
                 ttsModel: Option<Handle>, whisperModel: Option<Handle>)
    requires gpu.Valid()
    modifies gpu`live, gpu`cacheClears
    ensures gpu.Valid()
    ensures gpu.live == old(gpu.live) - Bound(tokenizer, llmModel, ttsModel, whisperModel)
    ensures gpu.cacheClears == old(gpu.cacheClears) + 1
  {
    gpu.Release(tokenizer);
    gpu.Release(llmModel);
    gpu.Release(ttsModel);
    gpu.Release(whisperModel);
    gpu.EmptyCache();
  }

  /** `generate_text_and_speech`: prompt, reply, optional speech, persistence into the
      session, then release of whatever the `try` block bound. */
  method GenerateTextAndSpeech(fs: FileSystem, clock: Clock, gpu: Accelerator, be: Backend,
                               inputText: string, inputAudio: Option<string>, llmModelName: string,
                               avatarName: Option<string>, enableTts: bool, speakerWav: string,
                               language: string, chatDir: Option<Path>)
    returns (r: Result<Turn, Error>)
    requires fs.Valid() && clock.Valid() && gpu.Valid()
    modifies fs, clock`ticks, gpu
    ensures fs.Valid() && gpu.Valid()
    ensures Outcome(r, fs.State(), clock.ticks)
            == TurnOf(be, old(fs.State()), clock.reading, old(clock.ticks), inputText, inputAudio,
                      llmModelName, avatarName, enableTts, speakerWav, language, chatDir)
    // The leases: everything the `try` block loaded is released and the cache emptied.
    // Only the Whisper model `transcribe_audio` loaded is never released.
    ensures |gpu.loaded| >= |old(gpu.loaded)| && gpu.loaded[..|old(gpu.loaded)|] == old(gpu.loaded)
    ensures gpu.live == old(gpu.live) + Stray(gpu, be, inputAudio, |old(gpu.loaded)|)
    ensures Stray(gpu, be, inputAudio, |old(gpu.loaded)|) <= gpu.Since(|old(gpu.loaded)|)
    // A failed transcription raises before the try block: no finally block runs then.
    ensures PromptOf(be, inputText, inputAudio).Success? ==> gpu.cacheClears == old(gpu.cacheClears) + 1
    ensures PromptOf(be, inputText, inputAudio).Failure? ==> gpu.cacheClears == old(gpu.cacheClears)
  {
    // Line 33: the transcription runs before the try block.
    var heard := Listen(gpu, be, inputText, inputAudio);
    if heard.Failure? {
      return Failure(heard.error);
    }
    var prompt := heard.value;
    // The try block.
    var tokenizer, llmModel, ttsModel, whisperModel;
    r, tokenizer, llmModel, ttsModel, whisperModel :=
      Attempt(fs, clock, gpu, be, prompt, llmModelName, avatarName, enableTts,
              speakerWav, language, chatDir, Truthy(inputAudio));

    Finally(gpu, tokenizer, llmModel, ttsModel, whisperModel);
  }

  // ---------------------------------------------------------------------------
  // What a turn does to the session.

  /** Creating a session succeeds exactly when nothing is at the root and no ancestor of it
      is a file; it keeps the tree shape and touches no file. */
  lemma CreationFacts(st: Store, dt: DateTime)
    requires Closed(st.dirs, st.files) && Valid(dt)
    ensures var c := CreationOf(st, dt);
      && c.root == SessionRoot(dt)
      && (c.error.None? <==> c.root !in st.dirs && c.root !in st.files && !UnderFile(st.files, c.root))
      && (c.error.Some? ==> c.store == st)
      && c.store.files == st.files && Closed(c.store.dirs, c.store.files)
  {
    var root := SessionRoot(dt);
    MakeDirsFresh(st.dirs, st.files, root, "text");
    MakeDirsFresh(st.dirs, st.files, root, "audio");
  }

  /** Lines 58-82 on the directories: a session passed in is kept as it is; otherwise at
      most one session is created, named by the first clock reading and only where nothing
      is yet; a turn that gets as far as its transcript has created it; and a root that
      already exists makes the turn fail with the file system untouched. */
  lemma PersistSession(be: Backend, st: Store, reading: nat -> DateTime, t: nat, prompt: string, text: string,
                       enableTts: bool, speakerWav: string, language: string, chatDir: Option<Path>)
    requires Closed(st.dirs, st.files) && ValidReadings(reading)
    ensures var p := PersistOf(be, st, reading, t, prompt, text, enableTts, speakerWav, language, chatDir);
      var root := SessionRoot(reading(t));
      && (HasSession(chatDir) ==> p.store.dirs == st.dirs && p.dir == chatDir)
      && (!HasSession(chatDir) ==>
            || p.store.dirs == st.dirs
            || (p.store.dirs == st.dirs + SessionDirs(root) && root !in st.dirs && root !in st.files))
      && (!HasSession(chatDir) && p.failure.None? ==>
            p.dir == Some(root) && p.store.dirs == st.dirs + SessionDirs(root))
      && (!HasSession(chatDir) && (root in st.dirs || root in st.files) ==>
            p.failure.Some? && p.store == st)
  {
    CreationFacts(st, reading(t));
  }

  /** Lines 58-70 on the files: at most the audio file changes, and it holds the speech
      once the step succeeds; a session created on the way is the one the step returns. */
  lemma SpeechFiles(be: Backend, st: Store, reading: nat -> DateTime, t: nat, text: string,
                    speakerWav: string, language: string, chatDir: Option<Path>)
    requires ValidReadings(reading)
    ensures var sp := SpeechOf(be, st, reading, t, text, speakerWav, language, chatDir);
      var root := Root(chatDir, reading(t));
      var audio := AudioFile(root, reading(if HasSession(chatDir) then t else t + 1));
      var wave := be.synthesize(text, VoicePath(speakerWav), language);
      && (sp.failure.Some? ==> sp.store.files == st.files)
      && (sp.failure.None? ==>
            && wave.Success? && sp.dir == Some(root) && HasSession(sp.dir) && sp.audioPath == Some(audio)
            && sp.store.files == st.files[audio := be.wavBytes(wave.value, SampleRate)]
            && sp.ticks == t + (if HasSession(chatDir) then 0 else 1) + 1)
  {
  }

  /** Lines 58-82 on the files: only the session transcript and this turn's audio file
      change; the transcript is extended by exactly the turn's record, and only when the
      turn succeeds; the audio file holds the synthesized speech. */
  lemma PersistFiles(be: Backend, st: Store, reading: nat -> DateTime, t: nat, prompt: string, text: string,
                     enableTts: bool, speakerWav: string, language: string, chatDir: Option<Path>)
    requires ValidReadings(reading)
    ensures var p := PersistOf(be, st, reading, t, prompt, text, enableTts, speakerWav, language, chatDir);
      var root := Root(chatDir, reading(t));
      var history := HistoryFile(root);
      var audio := AudioFile(root, reading(if HasSession(chatDir) then t else t + 1));
      var wave := be.synthesize(text, VoicePath(speakerWav), language);
      && (enableTts ==> p.store.files - {history, audio} == st.files - {history, audio})
      && (!enableTts ==> p.store.files - {history} == st.files - {history})
      && (p.failure.Some? ==>
            && (history in p.store.files <==> history in st.files)
            && (history in st.files ==> p.store.files[history] == st.files[history]))
      && (p.failure.None? ==>
            && history in p.store.files
            && p.store.files[history] == Prior(st.files, history) + TurnRecord(prompt, text)
            && p.ticks == t + (if HasSession(chatDir) then 0 else 1) + (if enableTts then 1 else 0))
      && (p.failure.None? && enableTts ==>
            && wave.Success? && p.audioPath == Some(audio) && audio in p.store.files
            && p.store.files[audio] == be.wavBytes(wave.value, SampleRate))
      && (p.failure.None? && !enableTts ==> p.audioPath == None)
  {
    if enableTts {
      SpeechFiles(be, st, reading, t, text, speakerWav, language, chatDir);
    }
  }

  lemma SessionKeepsTree(st: Store, reading: nat -> DateTime, t: nat, chatDir: Option<Path>)
    requires Closed(st.dirs, st.files) && ValidReadings(reading)
    ensures var s := SessionOf(st, reading, t, chatDir);
      Closed(s.store.dirs, s.store.files) && s.store.files == st.files
      && (s.error.None? ==> HasSession(s.dir))
  {
    CreationFacts(st, reading(t));
  }

  lemma SaveKeepsTree(st: Store, root: Path, dt: DateTime, wav: string)
    requires Closed(st.dirs, st.files) && Valid(dt)
    ensures Closed(SaveOf(st, root, dt, wav).store.dirs, SaveOf(st, root, dt, wav).store.files)
  {
  }

  lemma AppendKeepsTree(st: Store, root: Path, record: string)
    requires Closed(st.dirs, st.files)
    ensures Closed(AppendOf(st, root, record).1.dirs, AppendOf(st, root, record).1.files)
  {
  }

  /** Every write a turn makes keeps the file system a tree. */
  lemma PersistKeepsTree(be: Backend, st: Store, reading: nat -> DateTime, t: nat, prompt: string, text: string,
                         enableTts: bool, speakerWav: string, language: string, chatDir: Option<Path>)
    requires Closed(st.dirs, st.files) && ValidReadings(reading)
    ensures var p := PersistOf(be, st, reading, t, prompt, text, enableTts, speakerWav, language, chatDir);
      Closed(p.store.dirs, p.store.files)
  {
    var sp := if enableTts then SpeechOf(be, st, reading, t, text, speakerWav, language, chatDir)
              else Step(None, None, chatDir, st, t);
    var wave := be.synthesize(text, VoicePath(speakerWav), language);
    if enableTts && wave.Success? {
      SessionKeepsTree(st, reading, t, chatDir);
      var s := SessionOf(st, reading, t, chatDir);
      if s.error.None? {
        SaveKeepsTree(s.store, s.dir.value, reading(s.ticks), be.wavBytes(wave.value, SampleRate));
      }
    }
    assert Closed(sp.store.dirs, sp.store.files);
    if sp.failure.None? {
      SessionKeepsTree(sp.store, reading, sp.ticks, sp.dir);
      var s := SessionOf(sp.store, reading, sp.ticks, sp.dir);
      if s.error.None? {
        AppendKeepsTree(s.store, s.dir.value, TurnRecord(prompt, text));
      }
    }
  }

  /** What a turn returns: a prompt or load failure aborts before anything is written; a
      success carries the reply to its prompt, the avatar path, and an audio path exactly
      when speech is on. */
  lemma TurnResult(be: Backend, st: Store, reading: nat -> DateTime, t: nat,
                   inputText: string, inputAudio: Option<string>, llmModelName: string,
                   avatarName: Option<string>, enableTts: bool, speakerWav: string,
                   language: string, chatDir: Option<Path>)
    requires ValidReadings(reading)
    ensures var o := TurnOf(be, st, reading, t, inputText, inputAudio, llmModelName, avatarName,
                            enableTts, speakerWav, language, chatDir);
      var prompt := PromptOf(be, inputText, inputAudio);
      var loads := LoadFailure(be, llmModelName, enableTts, Truthy(inputAudio));
      && (prompt.Failure? ==> o == Outcome(Failure(prompt.error), st, t))
      && (prompt.Success? && loads.Some? ==> o == Outcome(Failure(loads.value), st, t))
      && (o.result.Success? ==>
            && prompt.Success? && loads.None?
            && Reply(be, LlmPath(llmModelName), prompt.value) == Success(o.result.value.text)
            && o.result.value.avatarPath == AvatarPath(avatarName)
            && (o.result.value.audioPath.Some? <==> enableTts))
  {
    var prompt := PromptOf(be, inputText, inputAudio);
    if prompt.Success? && LoadFailure(be, llmModelName, enableTts, Truthy(inputAudio)).None? {
      var reply := Reply(be, LlmPath(llmModelName), prompt.value);
      if reply.Success? {
        PersistFiles(be, st, reading, t, prompt.value, reply.value, enableTts, speakerWav, language, chatDir);
      }
    }
  }

  /** `generate_text_and_speech` on the directories: a session passed in is kept and
      returned; otherwise a successful turn returns the session it created, named by the
      clock and new; and a session root that already exists makes the turn fail with the
      file system untouched. */
  lemma TurnSession(be: Backend, st: Store, reading: nat -> DateTime, t: nat,
                    inputText: string, inputAudio: Option<string>, llmModelName: string,
                    avatarName: Option<string>, enableTts: bool, speakerWav: string,
                    language: string, chatDir: Option<Path>)
    requires Closed(st.dirs, st.files) && ValidReadings(reading)
    ensures var o := TurnOf(be, st, reading, t, inputText, inputAudio, llmModelName, avatarName,
                            enableTts, speakerWav, language, chatDir);
      var root := SessionRoot(reading(t));
      && Closed(o.store.dirs, o.store.files)
      && (HasSession(chatDir) ==>
            o.store.dirs == st.dirs && (o.result.Success? ==> o.result.value.chatDir == chatDir))
      && (!HasSession(chatDir) ==>
            || o.store.dirs == st.dirs
            || (o.store.dirs == st.dirs + SessionDirs(root) && root !in st.dirs && root !in st.files))
      && (!HasSession(chatDir) && o.result.Success? ==>
            o.result.value.chatDir == Some(root) && o.store.dirs == st.dirs + SessionDirs(root))
      && (!HasSession(chatDir) && (root in st.dirs || root in st.files) ==>
            o.result.Failure? && o.store == st)
  {
    var prompt := PromptOf(be, inputText, inputAudio);
    if prompt.Success? && LoadFailure(be, llmModelName, enableTts, Truthy(inputAudio)).None? {
      var reply := Reply(be, LlmPath(llmModelName), prompt.value);
      if reply.Success? {
        PersistSession(be, st, reading, t, prompt.value, reply.value, enableTts, speakerWav, language, chatDir);
        PersistKeepsTree(be, st, reading, t, prompt.value, reply.value, enableTts, speakerWav, language, chatDir);
      }
    }
  }

  /** `generate_text_and_speech` on the files: only the session transcript and this turn's
      audio file change; a failed turn leaves the transcript as it was; a successful one
      extends it by exactly `Human: <prompt>` and `AI: <reply>`, and its audio file holds
      the speech of the reply. */
  lemma TurnFiles(be: Backend, st: Store, reading: nat -> DateTime, t: nat,
                  inputText: string, inputAudio: Option<string>, llmModelName: string,
                  avatarName: Option<string>, enableTts: bool, speakerWav: string,
                  language: string, chatDir: Option<Path>)
    requires ValidReadings(reading)
    ensures var o := TurnOf(be, st, reading, t, inputText, inputAudio, llmModelName, avatarName,
                            enableTts, speakerWav, language, chatDir);
      var root := Root(chatDir, reading(t));
      var history := HistoryFile(root);
      var audio := AudioFile(root, reading(if HasSession(chatDir) then t else t + 1));
      var prompt := PromptOf(be, inputText, inputAudio);
      && (enableTts ==> o.store.files - {history, audio} == st.files - {history, audio})
      && (!enableTts ==> o.store.files - {history} == st.files - {history})
      && (o.result.Failure? ==>
            && (history in o.store.files <==> history in st.files)
            && (history in st.files ==> o.store.files[history] == st.files[history]))
      && (o.result.Success? ==>
            && prompt.Success? && history in o.store.files
            && o.store.files[history] == Prior(st.files, history) + TurnRecord(prompt.value, o.result.value.text))
      && (o.result.Success? && enableTts ==>
            var wave := be.synthesize(o.result.value.text, VoicePath(speakerWav), language);
            && wave.Success? && o.result.value.audioPath == Some(audio) && audio in o.store.files
            && o.store.files[audio] == be.wavBytes(wave.value, SampleRate))
  {
    var o := TurnOf(be, st, reading, t, inputText, inputAudio, llmModelName, avatarName,
                    enableTts, speakerWav, language, chatDir);
    var prompt := PromptOf(be, inputText, inputAudio);
    if prompt.Success? && LoadFailure(be, llmModelName, enableTts, Truthy(inputAudio)).None?
       && Reply(be, LlmPath(llmModelName), prompt.value).Success? {
      var text := Reply(be, LlmPath(llmModelName), prompt.value).value;
      var p := PersistOf(be, st, reading, t, prompt.value, text, enableTts, speakerWav, language, chatDir);
      PersistFiles(be, st, reading, t, prompt.value, text, enableTts, speakerWav, language, chatDir);
      assert o.store == p.store && (o.result.Success? <==> p.failure.None?);
      assert o.result.Success? ==> o.result.value.text == text && o.result.value.audioPath == p.audioPath;
    } else {
      assert o.store == st && o.result.Failure?;
    }
  }

  /** A turn given an existing session: it creates no directory and, when it succeeds,
      returns that session and extends its transcript by its record. */
  lemma ResumedTurn(be: Backend, st: Store, reading: nat -> DateTime, t: nat,
                    inputText: string, inputAudio: Option<string>, llmModelName: string,
                    avatarName: Option<string>, enableTts: bool, speakerWav: string,
                    language: string, root: Path)
    requires Closed(st.dirs, st.files) && ValidReadings(reading) && root != Cwd
    ensures var o := TurnOf(be, st, reading, t, inputText, inputAudio, llmModelName, avatarName,
                            enableTts, speakerWav, language, Some(root));
      var history := HistoryFile(root);
      && o.store.dirs == st.dirs
      && (o.result.Success? ==>
            && o.result.value.chatDir == Some(root)
            && PromptOf(be, inputText, inputAudio).Success? && history in o.store.files
            && o.store.files[history]
               == Prior(st.files, history) + TurnRecord(PromptOf(be, inputText, inputAudio).value, o.result.value.text))
  {
    TurnSession(be, st, reading, t, inputText, inputAudio, llmModelName, avatarName,
                enableTts, speakerWav, language, Some(root));
    TurnFiles(be, st, reading, t, inputText, inputAudio, llmModelName, avatarName,
              enableTts, speakerWav, language, Some(root));
  }

  /** A turn given no session: when it succeeds it returns the session it created, whose
      transcript holds just its record. */
  lemma FreshTurn(be: Backend, st: Store, reading: nat -> DateTime, t: nat,
                  inputText: string, inputAudio: Option<string>, llmModelName: string,
                  avatarName: Option<string>, enableTts: bool, speakerWav: string, language: string)
    requires Closed(st.dirs, st.files) && ValidReadings(reading)
    ensures var o := TurnOf(be, st, reading, t, inputText, inputAudio, llmModelName, avatarName,
                            enableTts, speakerWav, language, None);
      var root := SessionRoot(reading(t));
      var history := HistoryFile(root);
      && Closed(o.store.dirs, o.store.files)
      && (o.result.Success? ==>
            && o.result.value.chatDir == Some(root) && o.store.dirs == st.dirs + SessionDirs(root)
            && PromptOf(be, inputText, inputAudio).Success? && history in o.store.files
            && o.store.files[history] == TurnRecord(PromptOf(be, inputText, inputAudio).value, o.result.value.text))
  {
    TurnSession(be, st, reading, t, inputText, inputAudio, llmModelName, avatarName,
                enableTts, speakerWav, language, None);
    TurnFiles(be, st, reading, t, inputText, inputAudio, llmModelName, avatarName,
              enableTts, speakerWav, language, None);
    var root := SessionRoot(reading(t));
    assert root !in st.dirs ==> HistoryFile(root) !in st.files;
  }

  /** Two turns of one conversation, as the client threads them: the first is given no
      session and creates one; the second is given the directory the first returned, and
      each turn has its own inputs and settings.
      When both succeed, the second creates no directory and the new session's transcript
      holds exactly the two records, in order. */
  lemma SessionThreading(be: Backend, st: Store, reading: nat -> DateTime, t: nat,
                         text1: string, audio1: Option<string>, llm1: string, avatar1: Option<string>,
                         tts1: bool, speaker1: string, language1: string,
                         text2: string, audio2: Option<string>, llm2: string, avatar2: Option<string>,
                         tts2: bool, speaker2: string, language2: string)
    requires Closed(st.dirs, st.files) && ValidReadings(reading)
    ensures var o1 := TurnOf(be, st, reading, t, text1, audio1, llm1, avatar1, tts1, speaker1, language1, None);
      o1.result.Success? ==>
      var o2 := TurnOf(be, o1.store, reading, o1.ticks, text2, audio2, llm2, avatar2, tts2, speaker2, language2,
                       o1.result.value.chatDir);
      var root := SessionRoot(reading(t));
      var history := HistoryFile(root);
      o2.result.Success? ==>
        && o1.result.value.chatDir == Some(root) && o2.result.value.chatDir == Some(root)
        && o1.store.dirs == st.dirs + SessionDirs(root) && o2.store.dirs == o1.store.dirs
        && PromptOf(be, text1, audio1).Success? && PromptOf(be, text2, audio2).Success?
        && history in o2.store.files
        && o2.store.files[history]
           == TurnRecord(PromptOf(be, text1, audio1).value, o1.result.value.text)
              + TurnRecord(PromptOf(be, text2, audio2).value, o2.result.value.text)
  {
    var o1 := TurnOf(be, st, reading, t, text1, audio1, llm1, avatar1, tts1, speaker1, language1, None);
    FreshTurn(be, st, reading, t, text1, audio1, llm1, avatar1, tts1, speaker1, language1);
    if o1.result.Success? {
      ResumedTurn(be, o1.store, reading, o1.ticks, text2, audio2, llm2, avatar2, tts2, speaker2, language2,
                  SessionRoot(reading(t)));
    }
  }
}
