/** The pure parts of a turn shared by both front ends: the foreign libraries as oracles,
    prompt selection, the reply slice, and the derived paths and transcript record. */
module Stages {
  import opened Outcomes
  import opened FileStore
  import opened Leases

  type Token = int
  type Waveform = seq<real>

  /** Why a turn raised. */
  datatype Error =
    | LoadError(model: string)
    | TranscriptionError
    | GenerationError
    | SynthesisError
    | Io(cause: FsError)

  /** `max_length` passed to `generate`: the budget for prompt and reply together. */
  const MaxLength: nat := 512
  /** The rate `sf.write` records the waveform at. */
  const SampleRate: nat := 22050
  const WhisperSize: string := "medium"
  const TtsModel: string := "xtts_v2"
  const TranscriptName: string := "chat_history.txt"

  /** The foreign libraries as uninterpreted, possibly failing functions. Text models are
      identified by their catalog path. */
  datatype Backend = Backend(
    loadFails: (Capability, string) -> bool,               // from_pretrained / whisper.load_model / TTS(...)
    reloadFails: (Capability, string) -> bool,             // the same load run again later in the turn
    transcribe: string -> Result<string, Error>,           // whisper model.transcribe(path)["text"]
    encode: (string, string) -> Result<seq<Token>, Error>, // tokenizer.encode(prompt)
    generate: (string, seq<Token>, nat) -> Result<seq<Token>, Error>, // llm.generate(...)[0]
    decode: (string, seq<Token>) -> Result<string, Error>, // tokenizer.decode(.., skip_special_tokens=True)
    synthesize: (string, string, string) -> Result<Waveform, Error>, // tts.tts(text, speaker_wav, language)
    wavBytes: (Waveform, nat) -> string                    // the file sf.write produces
  )

  /** A file-system failure as the turn reports it. */
  function Lift(e: Option<FsError>): (r: Option<Error>)
    ensures r.None? <==> e.None?
    ensures e.Some? ==> r == Some(Io(e.value))
  {
    match e
    case None => None
    case Some(cause) => Some(Io(cause))
  }

  /** `f"inputs/text/llm_models/{model_name}"`. */
  function LlmPath(name: string): string
  {
    "inputs/text/llm_models/" + name
  }

  /** `f"inputs/audio/voices/{speaker_wav}"`. */
  function VoicePath(speakerWav: string): string
  {
    "inputs/audio/voices/" + speakerWav
  }

  /** `f"inputs/image/avatars/{avatar_name}" if avatar_name else None`. */
  function AvatarPath(avatarName: Option<string>): (r: Option<string>)
    ensures r.Some? <==> Truthy(avatarName)
    ensures r.Some? ==> |r.value| > 21 && r.value[..21] == "inputs/image/avatars/"
                        && r.value[21..] == avatarName.value
  {
    if Truthy(avatarName) then Some("inputs/image/avatars/" + avatarName.value) else None
  }

  /** What `transcribe_audio(path)` returns or raises: the medium Whisper model must
      load, then transcription may still fail. */
  function Transcribed(be: Backend, path: string): Result<string, Error>
  {
    if be.loadFails(Transcription, WhisperSize) then Failure(LoadError(WhisperSize))
    else be.transcribe(path)
  }

  /** `transcribe_audio(input_audio) if input_audio else input_text`. */
  function PromptOf(be: Backend, inputText: string, inputAudio: Option<string>): (r: Result<string, Error>)
    ensures !Truthy(inputAudio) ==> r == Success(inputText)
    ensures Truthy(inputAudio) ==> r == Transcribed(be, inputAudio.value)
  {
    if Truthy(inputAudio) then Transcribed(be, inputAudio.value) else Success(inputText)
  }

  /** Python's `outputs[n:]`: empty when the slice starts past the end. */
  function DropPrompt(outputs: seq<Token>, n: nat): (r: seq<Token>)
    ensures |r| == if n <= |outputs| then |outputs| - n else 0
    ensures forall i | 0 <= i < |r| :: r[i] == outputs[n + i]
    ensures n <= |outputs| ==> outputs[..n] + r == outputs
  {
    if n <= |outputs| then outputs[n..] else []
  }

  /** Encode the prompt, generate within the budget, decode only the tokens after the prompt. */
  function Reply(be: Backend, model: string, prompt: string): Result<string, Error>
  {
    match be.encode(model, prompt)
    case Failure(e) => Failure(e)
    case Success(inputs) =>
      match be.generate(model, inputs, MaxLength)
      case Failure(e) => Failure(e)
      case Success(outputs) => be.decode(model, DropPrompt(outputs, |inputs|))
  }

  /** `tokenizer.encode`, `generate` within 512 tokens, keep the tokens after the prompt, decode. */
  method Generate(be: Backend, model: string, prompt: string) returns (r: Result<string, Error>)
    ensures r == Reply(be, model, prompt)
  {
    var inputs := be.encode(model, prompt);
    if inputs.Failure? {
      return Failure(inputs.error);
    }
    var outputs := be.generate(model, inputs.value, MaxLength);
    if outputs.Failure? {
      return Failure(outputs.error);
    }
    var generated := DropPrompt(outputs.value, |inputs.value|);
    r := be.decode(model, generated);
  }
  /** A causal model returns the prompt followed by what it generated: the reply is the
      decode of exactly the generated part. */
  lemma ReplyIsContinuation(be: Backend, model: string, prompt: string, generated: seq<Token>)
    requires be.encode(model, prompt).Success?
    requires be.generate(model, be.encode(model, prompt).value, MaxLength)
             == Success(be.encode(model, prompt).value + generated)
    ensures Reply(be, model, prompt) == be.decode(model, generated)
  {
    var inputs := be.encode(model, prompt).value;
    var r := DropPrompt(inputs + generated, |inputs|);
    assert r == generated;
  }

  /** The two lines the transcript file receives for one turn, with the blank line after. */
  function TurnRecord(prompt: string, reply: string): (r: string)
    ensures |r| == 7 + |prompt| + 5 + |reply| + 2
    ensures r[..7] == "Human: " && r[7..7 + |prompt|] == prompt
    ensures r[7 + |prompt|..12 + |prompt|] == "\nAI: "
    ensures r[12 + |prompt|..|r| - 2] == reply && r[|r| - 2..] == "\n\n"
  {
    "Human: " + prompt + "\n" + "AI: " + reply + "\n\n"
  }
}
