# Single-turn orchestrator of a voice chat front end, in Dafny

This project models `generate_text_and_speech`, the function that runs one chat turn.
It comes in two front ends:

- **appRU.py** threads an optional session directory `chat_dir` through turns. It
  creates `outputs/chat_<ts>/{text,audio}` lazily, appends each turn to
  `text/chat_history.txt`, and in a `finally` block releases every model it bound in its
  `try` block, then empties the accelerator cache.
- **appEN.py** has no session and releases nothing. It names each output after the clock
  (`outputs/audio/output_<ts>.wav`, `outputs/text/chat_history_<ts>.txt`). While a file of
  that name exists it reads the clock again. Only then does it write.

The environment is modelled as follows:

- **File system** (`FileStore`). A `FileSystem` class holds a set of directories and a
  map from file path to contents. `Valid()` keeps it a tree: every parent of an entry is
  a directory, and no path is both a directory and a file. `os.makedirs` (with and
  without `exist_ok`), `open(…, "a")` and `open(…, "w")`/`sf.write` are its methods. Each
  method's error and new state are given by a function of the old snapshot (`Store`).
- **Clock** (`Clocks`). The clock is the oracle `reading: nat -> DateTime`. `ticks`
  counts how many readings were taken. Readings are arbitrary valid date-times: the
  clock may stand still or step back. A collision loop ends as soon as it reads a time
  whose name is free. It is proved to end before reading `b` whenever the readings from
  its start up to `b` show more distinct times than the store has entries. A loop that
  never meets a free name never returns. The specification functions model that turn as
  a hang outcome (`AudioLoopHangs`, `HistoryLoopHangs`, `Hangs`).
- **Timestamps** (`Timestamps`). `strftime('%Y%m%d_%H%M%S')` is a formatter over the C
  conversions `%Y %m %d %H %M %S`. It yields 15 characters, and it is proved injective:
  its output parses back to the reading.
- **Models on the accelerator** (`Leases`). An `Accelerator` class logs every model
  loaded as a `Handle` and keeps a ghost set of the live ones. `del` removes a handle
  from that set. `torch.cuda.empty_cache()` bumps a ghost counter.
  `torch.cuda.is_available()` is a constant of the accelerator.
- **Libraries** (`Stages`). Transformers, Whisper and TTS are the fields of a `Backend`
  value: uninterpreted and possibly failing functions for loading, encoding, generating,
  decoding, transcribing, synthesizing and encoding a waveform as file contents. A load
  repeated later in the same turn (appRU.py loads Whisper at line 33 and again at line
  46) has its own verdict, `reloadFails`.

Each orchestrating method is proved against a function of the old state: `TurnOf`,
`PersistOf`, `SpeechOf` and so on. The method's `ensures` equates its outputs, the new
store and the new clock count with that function. Lemmas about the functions then state
what a turn promises.

## Model

| member | source | states |
|---|---|---|
| Timestamps.DaysInMonth | appRU.py:61-62 | a month of a valid date has 28 to 31 days |
| Timestamps.DigitValue | appRU.py:62 | a digit character's value is below ten and prints back as the same character |
| Timestamps.Pad2 | appRU.py:62 | a two-digit field is two digit characters whose value is the number |
| Timestamps.Strftime | appRU.py:62 | defines `strftime` over a list of conversions: each conversion prints its own field of the date, in order, and a literal prints itself |
| Timestamps.Digits4 | appRU.py:62 | `%Y` on a four-digit year is the two-digit rendering of its century followed by that of its remainder |
| Timestamps.StampFields | appRU.py:62 | `%Y%m%d_%H%M%S` is year, month, day, `_`, hour, minute and second, each zero-padded, in that order |
| Timestamps.Format | appEN.py:41 | a timestamp has 15 characters, with `_` at index 8 and digits everywhere else |
| Timestamps.FormatAt | appEN.py:41 | each field of the reading can be read back from its fixed slice of the timestamp |
| Timestamps.ParseFormat | appEN.py:41 | parsing a timestamp gives back the reading it was made from |
| Timestamps.FormatParse | appEN.py:41 | any string that parses to a reading is the timestamp of that reading, and the reading is valid |
| Timestamps.FormatInjective | appEN.py:40-47 | two readings give the same timestamp if and only if they are the same reading |
| Timestamps.StampedName | appEN.py:41 | `<stem><ts><ext>` is as long as its parts, and the timestamp sits right after the stem |
| Timestamps.StampedNameInjective | appEN.py:44-47 | two readings give the same file name if and only if they are the same reading |
| FileStore.Ancestors | appEN.py:51 | the directories `makedirs` creates include the path itself and the working directory |
| FileStore.AncestorsClosed | appEN.py:51 | the parent of every directory `makedirs` creates is also among them |
| FileStore.AncestorsOfDir | appEN.py:51 | in a valid tree, an existing directory already has all its ancestors |
| FileStore.Appended | appRU.py:80-82 | after an append, the file holds its old contents (empty if it was new) followed by the text, and no other file changes |
| FileStore.MakeDirsError | appEN.py:51 | defines the error `os.makedirs(p, exist_ok)` raises, checked in this order: the working directory itself (`os.makedirs("")`) is FileNotFound; a file at `p` is FileExists even with `exist_ok`; a directory at `p` is FileExists only without `exist_ok`; a file among the ancestors is NotADirectory; otherwise no error |
| FileStore.OpenError | appEN.py:62 | defines the error `open(dir/name, "w" or "a")` raises (`sf.write` fails in the same cases and is given the same error): a directory of that name is IsADirectory; an existing directory `dir` gives no error; `dir` or an ancestor being a file is NotADirectory; a missing `dir` is FileNotFound |
| FileStore.FileSystem.Exists | appEN.py:44 | defines `os.path.exists`: true for a directory or a file at the path |
| FileStore.MakeDirsIdempotent | appEN.py:51 | `makedirs(p, exist_ok=True)` on an existing directory succeeds and adds nothing |
| FileStore.MakeDirsFresh | appRU.py:63-65 | `makedirs(p)` without `exist_ok` succeeds if and only if nothing is at `p` and no ancestor is a file; on success the tree stays valid and any child of `p` is still free |
| FileStore.FileSystem.MakeDirs | appRU.py:63-65 | fails as the error function says; on success it adds `p` and its ancestors, and files are unchanged |
| FileStore.FileSystem.Append | appRU.py:80-82 | it opens in append mode and fails as the open-error function says; on success the file is extended by the text |
| FileStore.FileSystem.Write | appEN.py:62-64 | `open(…, "w")` fails as the open-error function says; on success the path holds exactly the content, and nothing else changes |
| Clocks.Clock.Now | appEN.py:40 | `datetime.now()` returns the next reading of the clock, and the clock moves one reading on |
| Leases.Accelerator.Resolve | appRU.py:19 | the device is `cuda` if and only if CUDA is available, and `cpu` otherwise |
| Leases.Accelerator.Load | appRU.py:18-20 | a failed load changes nothing; a successful one gives a new handle numbered after all earlier ones, logged and live |
| Leases.Accelerator.Release | appRU.py:85-92 | `del` of a bound model makes it no longer live; a `None` local is skipped |
| Leases.Accelerator.EmptyCache | appRU.py:93 | the cache is emptied once more |
| Outcomes.Truthy | appRU.py:33 | defines Python truthiness of `input_audio` (line 33) and `avatar_name` (line 55): `None` and the empty string are false |
| Stages.LlmPath | appRU.py:17 | defines `f"inputs/text/llm_models/{model_name}"`, the same at appEN.py:12 |
| Stages.VoicePath | appRU.py:59 | defines `f"inputs/audio/voices/{speaker_wav}"`, the same at appEN.py:38 |
| Stages.Lift | appRU.py:63-82 | a file-system error surfaces as the turn's I/O error, and no error surfaces as none |
| Stages.PromptOf | appRU.py:33 | with audio, the prompt is the transcription of it; without audio, it is the typed text verbatim |
| Stages.Transcribed | appRU.py:24-28 | defines `transcribe_audio`: a load error when the medium Whisper model does not load, otherwise the library's transcription of the file |
| Stages.DropPrompt | appRU.py:52 | the slice keeps exactly the tokens after the first `n`; its length is `len(outputs[0]) - n`; the dropped prefix and the slice make up `outputs[0]` again |
| Stages.Reply | appRU.py:48-53 | defines the reply: encode the prompt, generate up to 512 tokens, drop the prompt's tokens, decode; the first failing step is the error |
| Stages.Generate | appRU.py:48-53 | encode, generate and decode give the reply function of the model and prompt, with every failure propagated |
| Stages.ReplyIsContinuation | appEN.py:27-30 | the reply decodes exactly the generated tokens, with the prompt's own tokens excluded |
| Stages.AvatarPath | appRU.py:55 | there is an avatar path if and only if an avatar name is given, and it starts with `inputs/image/avatars/` |
| Stages.TurnRecord | appRU.py:81-82 | the record is `Human: ` + prompt + newline + `AI: ` + reply + blank line, with each part at its offset |
| AppRU.HasSession | appRU.py:60 | defines `not chat_dir` negated, at lines 60 and 72: a given path other than the empty one (modelled as the working directory `Cwd`) |
| AppRU.SessionRoot | appRU.py:62 | defines `os.path.join('outputs', f"chat_{ts}")` for a reading, the same at line 74 |
| AppRU.HistoryFile | appRU.py:79 | defines `os.path.join(chat_dir, 'text', 'chat_history.txt')` |
| AppRU.AudioFile | appRU.py:68-69 | defines `os.path.join(chat_dir, 'audio', f"output_{ts}.wav")` for a reading |
| AppRU.Bound | appRU.py:85-92 | defines the handles held by the four locals the finally block tests against `None` and deletes |
| AppRU.Stray | appRU.py:26 | defines the Whisper model `transcribe_audio` loads for line 33 when audio is given and it loads, on the resolved device; no `del` releases it |
| AppRU.LoadModel | appRU.py:16-21 | `load_model` fails with the path's load error and loads nothing, or it gives a tokenizer where it loads and a causal model on the resolved device, both new and live |
| AppRU.TranscribeAudio | appRU.py:24-28 | the result is the transcription function's; the medium Whisper model is logged on the resolved device and never released by `del` |
| AppRU.LoadIf | appRU.py:41-46 | an optional load binds a handle if and only if it is wanted and its verdict is success; it fails if and only if it is wanted and the verdict is failure |
| AppRU.LoadModels | appRU.py:40-46 | the first failing load is what the load-failure function names; the bound handles are exactly those newly logged and live |
| AppRU.LoadFailure | appRU.py:40-46 | defines the first load that fails, in source order: the text model (tokenizer, then causal model), the speech model when speech is on, the second Whisper model when audio was given, judged by its own verdict so that it can fail after line 33's load succeeded |
| AppRU.CreateSession | appRU.py:61-65 | creating a session reads the clock once, and root, error and new store are as the creation function says |
| AppRU.CreationOf | appRU.py:61-65 | defines session creation: the root is `outputs/chat_<ts>` of the given reading; only `makedirs` of the root can fail (without `exist_ok`); on success the root, `text` and `audio` are added |
| AppRU.SessionOf | appRU.py:60-65 | defines `if not chat_dir`: a given session is kept and the clock is not read; otherwise a session is created from the next reading, which is consumed |
| AppRU.EnsureSession | appRU.py:60-65 | `if not chat_dir` creates a session; otherwise it keeps the one passed in |
| AppRU.SaveSpeech | appRU.py:67-70 | reads the clock once, then writes the audio file whose path and outcome the save function gives |
| AppRU.SaveOf | appRU.py:67-70 | defines the audio save: the path is `chat_dir/audio/output_<ts>.wav` of the given reading; `sf.write` fails as opening in `chat_dir/audio` fails, and otherwise creates or replaces that file with the encoded waveform |
| AppRU.AppendTurn | appRU.py:79-82 | the transcript is appended as the append function says |
| AppRU.AppendOf | appRU.py:79-82 | defines the append: opening `chat_dir/text/chat_history.txt` fails as the open-error function says, and otherwise the turn's record is appended |
| AppRU.Speak | appRU.py:58-70 | the speech stage's error, audio path, session and store are as the speech function says |
| AppRU.SpeechOf | appRU.py:58-70 | defines the speech branch: a synthesis failure stops it before any directory is made; otherwise the session is ensured (first reading if it is created), then the audio file is named by the next reading and written |
| AppRU.Persist | appRU.py:58-82 | speech, session and transcript end as the persistence function says |
| AppRU.PersistOf | appRU.py:58-82 | defines the tail of the try block: speech when enabled, then `if not chat_dir` (which creates a session only if speech did not), then the append; the first error stops it, keeping the store as far as it got |
| AppRU.Attempt | appRU.py:39-82 | the try block's result and store are the attempt function's; every handle it binds is newly logged and live |
| AppRU.AttemptOf | appRU.py:39-82 | defines the try block: a load failure or a failed reply aborts with the store and clock untouched; otherwise persistence runs, and on success the turn returns the reply, the avatar path, the audio path and the session |
| AppRU.Listen | appRU.py:33 | the prompt is `PromptOf`; the only model it adds to the live set is the Whisper model of `transcribe_audio`, which no `del` releases |
| AppRU.Finally | appRU.py:84-93 | every bound handle stops being live, nothing else is released, and the cache is emptied once |
| AppRU.GenerateTextAndSpeech | appRU.py:31-95 | the result, store and clock count are `TurnOf`'s; afterwards the only new live model, the only one no `del` releases, is the Whisper model line 26 loads for line 33, and once the prompt is known the cache is emptied once, on every exit from the try block; when the transcription fails no `finally` runs and the cache is not emptied |
| AppRU.TurnOf | appRU.py:31-95 | defines a turn on store and clock: a failed transcription raises before the try block with nothing changed; otherwise the try block decides the outcome |
| AppRU.CreationFacts | appRU.py:61-65 | creation succeeds if and only if nothing is at the root and no ancestor of it is a file; on success it adds the root, `text` and `audio`; the tree stays valid and no file changes |
| AppRU.PersistSession | appRU.py:58-82 | a session passed in is kept and no directory is made; otherwise exactly one session is created, named by the first reading, by whichever branch comes first; an existing root fails the turn with nothing written |
| AppRU.SpeechFiles | appRU.py:58-70 | only the audio file can change; on success it is `chat_dir/audio/output_<ts>.wav` and holds the encoded waveform |
| AppRU.PersistFiles | appRU.py:58-82 | only the transcript and this turn's audio file change; on success the transcript is its old contents followed by the turn's record; a failure leaves it as it was; the audio path is present if and only if speech is on |
| AppRU.SessionKeepsTree | appRU.py:60-65 | making a session keeps the tree valid, changes no file, and on success gives a session |
| AppRU.SaveKeepsTree | appRU.py:67-70 | writing the audio file keeps the tree valid |
| AppRU.AppendKeepsTree | appRU.py:79-82 | appending the transcript keeps the tree valid |
| AppRU.PersistKeepsTree | appRU.py:58-82 | every write in a turn keeps the tree valid |
| AppRU.TurnResult | appRU.py:31-95 | a prompt or load failure aborts with that error before anything is written; a success carries the reply to the prompt and the avatar path, and has an audio path if and only if speech is on |
| AppRU.TurnSession | appRU.py:60-77 | a session passed in is returned unchanged and no directory is created; otherwise a success returns the new session `outputs/chat_<ts>` of the first reading, and an existing root fails with the store untouched |
| AppRU.TurnFiles | appRU.py:58-95 | only the transcript and the audio file change; a successful turn extends the transcript by exactly its record, and its audio file holds the speech of the reply |
| AppRU.ResumedTurn | appRU.py:72-82 | a turn given an existing session creates no directory; on success it returns that session, and the transcript is extended by the turn's record |
| AppRU.FreshTurn | appRU.py:58-82 | a turn without a session that succeeds returns the new session it created, whose transcript holds just the turn's record |
| AppRU.SessionThreading | appRU.py:31-95 | two successful turns, each with its own inputs and settings, with the session threaded from the first to the second, share one session; its transcript holds both records in order |
| AppEN.FirstFreeUnique | appEN.py:44-47 | the reading a collision loop stops at is determined: there is only one first free reading |
| AppEN.CandidateInjective | appEN.py:41-42 | different readings probe different paths |
| AppEN.Shown | appEN.py:40-47 | defines the distinct times the clock shows between two readings |
| AppEN.Probes | appEN.py:41-42 | defines the paths a set of times names |
| AppEN.ProbesSize | appEN.py:41-42 | a set of valid times names exactly as many paths as it has times |
| AppEN.Outside | appEN.py:44 | a set larger than another has an element outside it |
| AppEN.EventuallyFree | appEN.py:44-47 | when the readings from `t` up to `b` show more distinct times than the store has entries, one of them, between `t` and `b`, names a free path, however the clock moves in between |
| AppEN.FirstFreeBelow | appEN.py:44-47 | scanning up towards a free reading meets a first free one that is no later |
| AppEN.Ends | appEN.py:44-47 | defines that a loop can end: some reading from its start on names a free path |
| AppEN.SomeFirstFree | appEN.py:44-47 | a loop that can end has a first free reading |
| AppEN.FreeReading | appEN.py:40-47 | the reading a loop keeps, if any: it is free and every reading passed over named an existing path; when there is none, every reading from the start on names an existing path, so the loop never ends |
| AppEN.LoopEnds | appEN.py:44-47 | a loop whose readings up to `b` show more distinct times than the store has entries ends, at a reading before `b` |
| AppEN.FreshName | appEN.py:40-47 | the loop reads the clock at least once and keeps the name of the first free reading from where it started: that path does not exist, and every earlier name tried did |
| AppEN.Candidate | appEN.py:41-42 | defines the path a loop probes for a reading: `dir/<stem><ts><ext>` |
| AppEN.Present | appEN.py:44 | defines `os.path.exists` on a snapshot: a directory or a file is there |
| AppEN.Heard | appEN.py:19 | defines the Whisper model `transcribe_audio` loads when audio is given and it loads, left where the library puts it |
| AppEN.Paired | appEN.py:26 | defines the tokenizer and causal model `load_model` loads when both load, neither moved to a device |
| AppEN.Voiced | appEN.py:36-37 | defines the speech model `TTS("xtts_v2").to(device)` loads, on the resolved device |
| AppEN.Spoken | appEN.py:35-37 | defines the speech model a turn loads: only when the language model loaded and replied and speech is on |
| AppEN.LoadModel | appEN.py:11-15 | `load_model` fails with the path's load error and loads nothing, or it gives a tokenizer and a causal model left where they load, both new and live |
| AppEN.Listen | appEN.py:25 | the prompt is `PromptOf`; a Whisper model is logged, and never released by `del`, when audio is given and it loads |
| AppEN.SaveSpeech | appEN.py:35-49 | for a call whose loop ends, the result, store and clock count are the speech function's; the speech model loads on the resolved device and stays live |
| AppEN.SpeechOf | appEN.py:35-49 | defines the speech branch from a reading: a speech-model load error or a synthesis error stops it with nothing written; otherwise it hangs if no reading names a free audio path, and else the first free `outputs/audio/output_<ts>.wav` is chosen and `sf.write` either fails as opening there fails or creates that file with the encoded waveform |
| AppEN.SaveHistory | appEN.py:51-64 | for a call whose loop ends, the error, store and clock count are the history function's |
| AppEN.HistoryOf | appEN.py:51-64 | defines the transcript stage from a reading: a `makedirs("outputs/text", exist_ok=True)` error stops it; otherwise it hangs if no reading names a free transcript, and else the first free `chat_history_<ts>.txt` is chosen and opened with "w", and on success it holds the turn's record |
| AppEN.TranscriptPath | appEN.py:53-60 | defines the transcript path a turn reaching line 51 picks, if its loop ends: the first free candidate once `outputs/text` exists |
| AppEN.Persist | appEN.py:32-66 | for a call that does not hang, the answer, store and clock count are the persistence function's; only the speech model can be newly loaded, and only when speech is on |
| AppEN.Finish | appEN.py:51-66 | defines the end of a turn once the audio is saved: the transcript stage, then the answer with the reply, the avatar path and the audio path |
| AppEN.PersistOf | appEN.py:32-66 | defines everything after the reply: the speech branch when speech is on (its failure ends the turn), then the end of the turn |
| AppEN.Think | appEN.py:26-30 | the reply is the load error or the reply function's result; the tokenizer and causal model stay live |
| AppEN.Respond | appEN.py:26-66 | for a call that does not hang, the answer, store and clock count are `AnswerOf`'s; the language model, and the speech model when it is reached, are newly logged and stay live |
| AppEN.AnswerOf | appEN.py:26-66 | defines the turn once it has a prompt: a language-model load failure or a failed reply ends it with store and clock untouched; otherwise persistence |
| AppEN.GenerateTextAndSpeech | appEN.py:24-66 | for a turn that does not hang, the answer, store and clock count are `TurnOf`'s; every model the turn loads stays live, listed in load order |
| AppEN.TurnOf | appEN.py:24-66 | defines a turn on store and clock: a failed transcription ends it with nothing changed; otherwise the answer stage |
| AppEN.SpeechFacts | appEN.py:35-49 | the stage hangs if and only if the model loads, synthesis succeeds and no reading from the start on names a free audio path; otherwise the waveform lands in a new file of `outputs/audio` if and only if the speech model loads, synthesis succeeds and the directory exists; only that file is added, and a failure changes nothing |
| AppEN.HistoryFacts | appEN.py:51-64 | the stage hangs if and only if `outputs/text` can be made and no reading from the start on names a free transcript; otherwise the transcript is written if and only if `outputs/text` can be made; it goes to a file that did not exist, holds exactly the turn's record, and is the only file added; a failure changes nothing |
| AppEN.NeverOverwrites | appEN.py:24-66 | a turn that returns never overwrites or removes a file, never removes a directory, and keeps the tree valid |
| AppEN.TurnResult | appEN.py:24-66 | a turn can only hang after the reply; a turn that returns succeeds if and only if the prompt is there, the model loads and replies, the speech is saved (when asked for) and `outputs/text` can be made; it returns the reply, the avatar path, and an audio path if and only if speech was asked for; a turn that fails before writing leaves store and clock as they were |
| AppEN.FinishFiles | appEN.py:51-66 | a successful transcript stage adds exactly one new file, holding the turn's record, and keeps every existing file |
| AppEN.PersistFiles | appEN.py:32-66 | once the reply is there, a successful rest of the turn adds exactly one new transcript holding the record, plus one new audio file holding the waveform when speech is on |
| AppEN.TurnFiles | appEN.py:44-64 | a successful turn adds exactly one new transcript holding its record, plus one new audio file holding the waveform when speech is on, and reads the clock at least that many times |
| AppEN.TurnsAccumulate | appEN.py:53-64 | a second turn, with any inputs, that returns keeps every file of the first; when both succeed there are two different new files in `outputs/text`, neither there before, each holding its own turn's record |
| AppEN.Vacant | appEN.py:44 | defines a directory that holds nothing yet |
| AppEN.VacantFirstProbe | appEN.py:40-47 | in a directory that holds nothing yet, a loop keeps its first reading |
| AppEN.MadeStaysVacant | appEN.py:51 | `makedirs("outputs/text")` adds nothing inside `outputs/text` |
| AppEN.QuietTurnEnds | appEN.py:24-66 | whatever the clock shows, a turn does not hang when `outputs/audio` and `outputs/text` hold nothing yet |
| AppEN.FreshStoreTurnEnds | appEN.py:24-66 | on a fresh working directory even a stopped clock is a valid clock under which a turn does not hang, so the methods' requirement can be met |
| AppEN.Placement | appEN.py:13-19 | the code never calls `.to(device)` on the Whisper and language models, so they stay where they load; only the speech model goes to the resolved one |

## Left out

- The Gradio interface, its launch, and the `os.listdir` menus that fill its drop-downs are UI and listing glue.
- The logging and warnings configuration is not modelled.
- The internals of transformers, Whisper and TTS are uninterpreted `Backend` functions that may fail. The waveform and its 22050 Hz `sf.write` encoding are the oracle `wavBytes`.
- Tensor plumbing on lines 27/48-51 (`return_tensors`, moving inputs to the model's device, `max_length`, the pad token) is folded into the generation oracle.
- The file-system errors modelled are a missing parent directory, a file where a directory is needed (the parent or any ancestor), an existing entry for `makedirs`, and a directory where a file is opened. Permission errors, a full disk, a read-only file system, over-long names and symbolic links are not modelled.
- The two `f.write` calls of a transcript are a single write. Nothing can fail between them in this model.
- `torch.cuda.is_available()` is fixed for the lifetime of an `Accelerator`, not re-probed at each call.
- `torch.cuda.empty_cache()` is a ghost counter. Releasing a model is a ghost set of live handles: Python's garbage collector and the real memory are not modelled.
- AppRU.LoadModel and AppEN.LoadModel: `load_model` is taken as one step, so a failure of the causal model after the tokenizer loaded leaves nothing loaded.
- The wall clock is an oracle sequence. Every reading is assumed to be a valid date with a four-digit year (1000-9999). This is the clocks' `Valid()` requirement.
- AppEN.FreshName: the loop's termination rests on a ghost bound, a reading known to name a free path. `FreeReading` supplies it when the loop ends.
- AppEN.SaveSpeech, AppEN.SaveHistory, AppEN.Persist, AppEN.Respond and AppEN.GenerateTextAndSpeech: a method must terminate, so these require that their specification function does not hang. The never-ending run of a loop is modelled in the functions, as a hang outcome, and not in the methods. `LoopEnds`, `QuietTurnEnds` and `FreshStoreTurnEnds` state when the requirement holds.
- An empty `chat_dir` string is falsy in Python and is modelled as "no session". A session path is a `Path` value, so joining onto an empty string is not modelled separately.
- Concurrency and cross-process file locking do not occur in the source and are not modelled.
