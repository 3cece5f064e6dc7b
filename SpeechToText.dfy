/** The speech-to-text service of the live-audio server: it holds the
    current recognition provider, decides whether a buffer holds enough
    audio to transcribe, wraps a provider's failure into a result, reports
    which provider is active and deletes stale temporary files. The
    provider's own transcription, the clock and the file system are inputs. */
module SpeechToText {
  import opened Common
  import opened Bytes
  import AsrProviders

  /** `AUDIO_SAMPLE_RATE` in the server configuration. */
  const AudioSampleRate: nat := 16000

  /** Temporary files older than this many milliseconds are deleted. */
  const MaxAge: nat := 10 * 60 * 1000

  /** `hasSufficientAudio`: a missing or empty buffer is not enough;
      otherwise at least a tenth of a second of 16-bit samples is. */
  predicate HasSufficientAudio(buffer: Option<seq<byte>>, sampleRate: nat) {
    buffer.Some? && |buffer.value| != 0 && (|buffer.value| as real) >= (sampleRate as real) * 0.1 * 2.0
  }

  /** At 16 kHz the threshold is 3200 bytes. */
  lemma SufficientAt16k(buffer: Option<seq<byte>>)
    ensures HasSufficientAudio(buffer, AudioSampleRate) <==> buffer.Some? && |buffer.value| >= 3200
  {
  }

  /** More audio never turns a sufficient buffer into an insufficient one. */
  lemma SufficientGrows(a: seq<byte>, b: seq<byte>, sampleRate: nat)
    requires HasSufficientAudio(Some(a), sampleRate)
    ensures HasSufficientAudio(Some(a + b), sampleRate)
  {
  }

  /** What a provider's `transcribe` does: answer with its result, or
      throw with a message. */
  datatype Transcription = Transcribed(result: map<string, Json>) | TranscribeThrew(message: string)

  /** What `transcribeAudio` does: throw, or return a result. */
  datatype Outcome = Returned(result: map<string, Json>) | Threw(message: string)

  /** The class name `getProviderInfo` reports. */
  function ClassName(p: AsrProviders.Provider): string {
    match p
    case OpenAiAsr(_, _) => "OpenAIASRProvider"
    case SiliconflowAsr(_, _) => "SiliconflowASRProvider"
  }

  /** A file in the temporary directory: its name and modification time in
      milliseconds. */
  datatype TempFile = TempFile(name: string, modified: int)

  /** A file is stale when it is older than the maximum age, strictly. */
  predicate Stale(f: TempFile, now: int) {
    now - f.modified > MaxAge
  }

  /** The files left after a clean-up at `now`: the stale ones are deleted
      unless deleting them fails; the rest stay, in order. */
  function Survivors(files: seq<TempFile>, now: int, unlinkFails: string -> bool): (r: seq<TempFile>)
    ensures |r| <= |files|
  {
    if |files| == 0 then []
    else
      var rest := Survivors(files[..|files| - 1], now, unlinkFails);
      var f := files[|files| - 1];
      if Stale(f, now) && !unlinkFails(f.name) then rest else rest + [f]
  }

  /** A file survives exactly when it is not stale or could not be
      deleted: no fresh file is lost and no deletable stale file stays. */
  lemma {:induction false} SurvivorsExactly(files: seq<TempFile>, now: int, unlinkFails: string -> bool, f: TempFile)
    ensures f in Survivors(files, now, unlinkFails) <==> f in files && (!Stale(f, now) || unlinkFails(f.name))
    decreases |files|
  {
    if |files| > 0 {
      var init := files[..|files| - 1];
      SurvivorsExactly(init, now, unlinkFails, f);
      assert files == init + [files[|files| - 1]];
    }
  }

  /** With every deletion succeeding, no stale file survives. */
  lemma {:induction false} SurvivorsFresh(files: seq<TempFile>, now: int, unlinkFails: string -> bool)
    requires forall name :: !unlinkFails(name)
    ensures forall f :: f in Survivors(files, now, unlinkFails) ==> !Stale(f, now)
  {
    forall f | f in Survivors(files, now, unlinkFails)
      ensures !Stale(f, now)
    {
      SurvivorsExactly(files, now, unlinkFails, f);
    }
  }

  class SpeechToTextService {
    /** The active provider; none before one is set up. */
    var asrProvider: Option<AsrProviders.Provider>
    /** The temporary directory's files, oldest entry first. */
    var tempFiles: seq<TempFile>

    constructor (files: seq<TempFile>)
      ensures asrProvider == None && tempFiles == files
    {
      asrProvider := None;
      tempFiles := files;
    }

    /** `initializeProvider`: the configured name, or "openai" when it is
        empty, is built by the factory; a failure is passed on. */
    method InitializeProvider(configured: string, providers: map<string, AsrProviders.ProviderConfig>,
                              global: map<string, string>) returns (error: Option<string>)
      modifies this
      ensures var name := if configured == "" then "openai" else configured;
        match AsrProviders.CreateProvider(name, providers, global)
        case Created(p) => asrProvider == Some(p) && error == None
        case Thrown(m) => asrProvider == old(asrProvider) && error == Some(m)
      ensures tempFiles == old(tempFiles)
    {
      var name := if configured == "" then "openai" else configured;
      error := SwitchProvider(name, providers, global);
    }

    /** `switchProvider`: the provider is replaced only when the factory
        builds the new one; otherwise the old one stays and the error is
        passed on. */
    method SwitchProvider(name: string, providers: map<string, AsrProviders.ProviderConfig>,
                          global: map<string, string>) returns (error: Option<string>)
      modifies this
      ensures match AsrProviders.CreateProvider(name, providers, global)
        case Created(p) => asrProvider == Some(p) && error == None
        case Thrown(m) => asrProvider == old(asrProvider) && error == Some(m)
      ensures tempFiles == old(tempFiles)
    {
      match AsrProviders.CreateProvider(name, providers, global)
      case Created(p) =>
        asrProvider := Some(p);
        error := None;
      case Thrown(m) =>
        error := Some(m);
    }

    /** `transcribeAudio`: without a provider it throws; a provider's
        failure becomes an unsuccessful result with empty text, the error
        message and the time; a provider's result is returned as it is. */
    function TranscribeAudio(transcription: Transcription, now: int): (r: Outcome)
      reads this
    {
      if asrProvider.None? then Threw("ASR provider not initialized")
      else match transcription
        case Transcribed(result) => Returned(result)
        case TranscribeThrew(message) =>
          Returned(map["success" := JBool(false), "text" := JStr(""), "error" := JStr(message),
                       "timestamp" := JNum(now as real), "provider" := JStr("unknown")])
    }

    /** `transcribeAudio` never throws once a provider is set, and a failed
        transcription reports failure, no text and the provider's message. */
    lemma TranscribeAudioWraps(transcription: Transcription, now: int)
      ensures asrProvider.None? <==> TranscribeAudio(transcription, now).Threw?
      ensures asrProvider.Some? && transcription.TranscribeThrew? ==>
        var r := TranscribeAudio(transcription, now).result;
        && r["success"] == JBool(false) && r["text"] == JStr("")
        && r["error"] == JStr(transcription.message)
      ensures asrProvider.Some? && transcription.Transcribed? ==>
        TranscribeAudio(transcription, now) == Returned(transcription.result)
    {
    }

    /** `getProviderInfo`. */
    function ProviderInfo(): (r: map<string, string>)
      reads this
    {
      match asrProvider
      case None => map["provider" := "none", "status" := "not initialized"]
      case Some(p) => map["provider" := ClassName(p), "model" := p.config.model,
                          "apiUrl" := p.config.apiUrl, "status" := "ready"]
    }

    /** Without a provider the status says so; with one it is "ready" and
        names the provider's model and address. */
    lemma ProviderInfoShape()
      ensures asrProvider.None? ==> ProviderInfo() == map["provider" := "none", "status" := "not initialized"]
      ensures asrProvider.Some? ==>
        && ProviderInfo().Keys == {"provider", "model", "apiUrl", "status"}
        && ProviderInfo()["status"] == "ready"
        && ProviderInfo()["model"] == asrProvider.value.config.model
        && ProviderInfo()["apiUrl"] == asrProvider.value.config.apiUrl
    {
    }

    /** `cleanupTempFiles`: each stale file is deleted, one after the
        other; a deletion that fails leaves the file and the loop goes on. */
    method CleanupTempFiles(now: int, unlinkFails: string -> bool)
      modifies this
      ensures tempFiles == Survivors(old(tempFiles), now, unlinkFails)
      ensures asrProvider == old(asrProvider)
    {
      var files := tempFiles;
      var kept: seq<TempFile> := [];
      var i := 0;
      while i < |files|
        invariant 0 <= i <= |files|
        invariant kept == Survivors(files[..i], now, unlinkFails)
      {
        var f := files[i];
        assert files[..i + 1][..i] == files[..i];
        if !Stale(f, now) || unlinkFails(f.name) {
          kept := kept + [f];
        }
        i := i + 1;
      }
      assert files[..|files|] == files;
      tempFiles := kept;
    }
  }
}
