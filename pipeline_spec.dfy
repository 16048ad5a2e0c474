/** What `process_video_files` does, stated as pure functions of the
    outcomes of the external tools. The class in pipeline.dfy is proved to
    produce exactly these traces. */
module PipelineSpec {
  import opened Wrappers
  import PyStr
  import PyPath
  import opened VideoMetadataFixer

  // ---------------------------------------------------------------------
  // Outcomes of the external tools, supplied as input

  /** One run of ffprobe: its standard output, or the exception
      `subprocess.run` raised (missing binary, undecodable output, ...). */
  datatype ProbeResult = ProbeOk(stdout: string) | ProbeFailed(error: string)

  /** One run of ffmpeg in `extract_audio`: success, a non-zero exit status
      with its decoded standard error, or any other exception (the 60-second
      timeout, a missing binary, standard error that does not decode), which
      `extract_audio` does not catch. */
  datatype FfmpegOutcome = FfmpegOk | FfmpegFailed(stderr: string) | FfmpegRaised(error: string)

  /** One use of the speech recogniser in `transcribe_audio`. */
  datatype RecognizerOutcome =
    | Recognized(text: string)        // recognize_google returned a transcript
    | RequestFailed(error: string)    // sr.RequestError
    | NotUnderstood                   // sr.UnknownValueError
    | ReadFailed(error: string)       // opening or recording the audio file raised
    | RecognizeRaised(error: string)  // recognize_google raised anything else

  /** One rewrite of the container by ffmpeg-python in `update_metadata`. */
  datatype UpdateOutcome = UpdateOk | UpdateFailed(error: string)

  /** The tool outcomes of one pass of the loop over audio tracks: the
      re-probe of `has_language_metadata`, then ffmpeg, the recogniser, the
      code `langid.classify` returns, and the rewrite. A field is only looked
      at when the pass gets that far. */
  datatype TrackStep = TrackStep(
    recheck: ProbeResult,
    extraction: FfmpegOutcome,
    recognizer: RecognizerOutcome,
    classified: string,
    update: UpdateOutcome)

  /** The outcomes for one file: the ffprobe run of `check_audio_tracks`,
      and the outcomes of the k-th pass of the track loop. */
  datatype FileTools = FileTools(probe: ProbeResult, step: nat -> TrackStep)

  // ---------------------------------------------------------------------
  // Exceptions and log lines

  /** The exceptions that reach the except clause of `process_video_files`. */
  datatype Exception =
    | TracksCheckFailed(error: string)    // raised by check_audio_tracks
    | ExtractionFailed                    // raised by extract_audio on a non-zero exit
    | ExtractionAborted(error: string)    // escaped extract_audio uncaught (timeout, ...)
    | TranscriptionRequestFailed          // raised by transcribe_audio
    | AudioNotUnderstood                  // raised by transcribe_audio
    | TranscriptionFailed                 // raised by transcribe_audio
    | MetadataUpdateFailed(error: string) // raised by update_metadata

  /** `str(e)` of each exception. */
  function Message(x: Exception): string
  {
    match x
    case TracksCheckFailed(e) => "Error checking audio tracks: " + e
    case ExtractionFailed => "Audio extraction failed"
    case ExtractionAborted(e) => e
    case TranscriptionRequestFailed => "Transcription request failed"
    case AudioNotUnderstood => "Audio not understood"
    case TranscriptionFailed => "Transcription failed"
    case MetadataUpdateFailed(e) => "Error updating metadata: " + e
  }

  /** The lines the fixer adds to its log list box; `Text` gives each one's
      exact wording. */
  datatype LogLine =
    | Processing(filename: string)
    | NoAudioTracks(filename: string)
    | ErrorProcessing(filename: string, exception: Exception)
    | ExtractingAudio(filename: string)
    | UpdatingMetadata(filename: string)
    | MetadataCheckError(error: string)
    | ExtractedAudio(videoPath: string, audioPath: string)
    | FfmpegError(videoPath: string, stderr: string)
    | TranscribingAudio(audioPath: string)
    | TranscriptionSuccessful(transcription: string)
    | ApiRequestError(error: string)
    | CouldNotUnderstand
    | UnexpectedTranscriptionError(error: string)
    | UpdatedMetadata(videoPath: string, language: string)

  function Text(line: LogLine): string
  {
    match line
    case Processing(f) => "Processing " + f + "..."
    case NoAudioTracks(f) => "No audio tracks found in " + f + "."
    case ErrorProcessing(f, x) => "Error processing " + f + ": " + Message(x)
    case ExtractingAudio(f) => "Extracting audio from " + f + "..."
    case UpdatingMetadata(f) => "Updating metadata for " + f + "..."
    case MetadataCheckError(e) => "Error checking language metadata: " + e
    case ExtractedAudio(v, a) => "Extracted audio from " + v + " to " + a + "."
    case FfmpegError(v, e) => "FFmpeg error for " + v + ": " + e
    case TranscribingAudio(a) => "Transcribing audio from " + a + "."
    case TranscriptionSuccessful(t) => "Transcription successful: " + t
    case ApiRequestError(e) => "API request error: " + e
    case CouldNotUnderstand => "Could not understand audio."
    case UnexpectedTranscriptionError(e) => "Unexpected error during transcription: " + e
    case UpdatedMetadata(v, l) => "Updated metadata for " + v + " with language: " + l + "."
  }

  // ---------------------------------------------------------------------
  // Observable effects

  /** One container rewrite: the video path, the language written, and
      whether ffmpeg-python reported success. */
  datatype MetadataWrite = MetadataWrite(path: string, language: string, succeeded: bool)

  /** What a stretch of the run appends: log lines (`log_listbox`), entries
      of `extracted_audio_files`, and container rewrites. */
  datatype Trace = Trace(log: seq<LogLine>, extracted: seq<string>, writes: seq<MetadataWrite>)

  const NoEffect: Trace := Trace([], [], [])

  function Then(a: Trace, b: Trace): Trace
  {
    Trace(a.log + b.log, a.extracted + b.extracted, a.writes + b.writes)
  }

  function LogOnly(log: seq<LogLine>): Trace
  {
    Trace(log, [], [])
  }

  lemma ThenLog(t: Trace, log: seq<LogLine>)
    ensures Then(t, LogOnly(log)) == Trace(t.log + log, t.extracted, t.writes)
  {
    assert t.extracted + [] == t.extracted;
    assert t.writes + [] == t.writes;
  }

  lemma ThenAssoc(a: Trace, b: Trace, c: Trace)
    ensures Then(Then(a, b), c) == Then(a, Then(b, c))
  {
    assert a.log + b.log + c.log == a.log + (b.log + c.log);
    assert a.extracted + b.extracted + c.extracted == a.extracted + (b.extracted + c.extracted);
    assert a.writes + b.writes + c.writes == a.writes + (b.writes + c.writes);
  }

  /** What a call logs, and whether it returned a value or raised. */
  datatype Call<T> = Call(log: seq<LogLine>, result: Result<T, Exception>)

  // ---------------------------------------------------------------------
  // The helpers that log

  /** `check_audio_tracks(full_path)`: the track list, or the exception it
      re-raises with its own prefix. */
  function CheckAudioTracks(probe: ProbeResult): (r: Result<seq<string>, Exception>)
    ensures r.Success? <==> probe.ProbeOk?
    ensures r.Success? ==> (r.value == [] <==> PyStr.Strip(probe.stdout) == "")
    ensures r.Failure? ==> Message(r.error) == "Error checking audio tracks: " + probe.error
  {
    match probe
    case ProbeOk(out) => Success(ParseAudioStreams(out))
    case ProbeFailed(e) => Failure(TracksCheckFailed(e))
  }

  /** `has_language_metadata(full_path)`: the parsed answer, or, when the
      probe raised, a logged error and False. Never raises. */
  function HasLanguageMetadataCall(probe: ProbeResult): (r: Call<bool>)
    ensures r.result.Success?
    ensures r.result.value <==> probe.ProbeOk? && PyStr.Strip(probe.stdout) != ""
    ensures |r.log| <= 1 && (r.log != [] <==> probe.ProbeFailed?)
  {
    match probe
    case ProbeOk(out) => Call([], Success(ParseHasLanguageMetadata(out)))
    case ProbeFailed(e) => Call([MetadataCheckError(e)], Success(false))
  }

  /** `extract_audio(video_path)`. */
  function ExtractAudioCall(videoPath: string, outcome: FfmpegOutcome): (r: Call<string>)
    ensures r.result.Success? <==> outcome == FfmpegOk
    ensures r.result.Success? ==> r.result.value == AudioPathFor(videoPath) && PyStr.EndsWith(r.result.value, AUDIO_FORMAT)
    ensures |r.log| <= 1 && (r.log == [] <==> outcome.FfmpegRaised?)
  {
    var audioPath := AudioPathFor(videoPath);
    match outcome
    case FfmpegOk => Call([ExtractedAudio(videoPath, audioPath)], Success(audioPath))
    case FfmpegFailed(stderr) => Call([FfmpegError(videoPath, stderr)], Failure(ExtractionFailed))
    case FfmpegRaised(e) => Call([], Failure(ExtractionAborted(e)))
  }

  /** `transcribe_audio(audio_path)`. */
  function TranscribeAudioCall(audioPath: string, outcome: RecognizerOutcome): (r: Call<string>)
    ensures r.result.Success? <==> outcome.Recognized?
    ensures r.result.Success? ==> r.result.value == outcome.text
    ensures !outcome.ReadFailed? ==> |r.log| == 2 && r.log[0] == TranscribingAudio(audioPath)
    ensures outcome.ReadFailed? ==> r.log == [UnexpectedTranscriptionError(outcome.error)]
  {
    var started := TranscribingAudio(audioPath);
    match outcome
    case Recognized(t) => Call([started, TranscriptionSuccessful(t)], Success(t))
    case RequestFailed(e) => Call([started, ApiRequestError(e)], Failure(TranscriptionRequestFailed))
    case NotUnderstood => Call([started, CouldNotUnderstand], Failure(AudioNotUnderstood))
    case ReadFailed(e) => Call([UnexpectedTranscriptionError(e)], Failure(TranscriptionFailed))
    case RecognizeRaised(e) => Call([started, UnexpectedTranscriptionError(e)], Failure(TranscriptionFailed))
  }

  /** `update_metadata(video_path, language)`: the log line on success, or
      the exception it re-raises with its own prefix. */
  function UpdateMetadataCall(videoPath: string, language: string, outcome: UpdateOutcome): (r: Call<()>)
    ensures r.result.Success? <==> outcome == UpdateOk
    ensures r.log != [] <==> outcome == UpdateOk
    ensures r.result.Failure? ==> Message(r.result.error) == "Error updating metadata: " + outcome.error
  {
    match outcome
    case UpdateOk => Call([UpdatedMetadata(videoPath, language)], Success(()))
    case UpdateFailed(e) => Call([], Failure(MetadataUpdateFailed(e)))
  }

  // ---------------------------------------------------------------------
  // The loop of process_video_files

  /** What a stretch of the try block appends, and the message of the
      exception that ended it, if one did. */
  datatype Pass = Pass(trace: Trace, raised: Option<Exception>)

  /** `t` followed by what `p` appends, ending as `p` ends. */
  function After(t: Trace, p: Pass): Pass
  {
    Pass(Then(t, p.trace), p.raised)
  }

  /** One pass of `for track in audio_tracks` for the file `name` at
      `fullPath`: stop if the re-probe reports language metadata, otherwise
      announce the extraction and go on. */
  function TrackPass(fullPath: string, name: string, step: TrackStep): (r: Pass)
    ensures r.trace.writes != [] ==> r.trace.extracted == [AudioPathFor(fullPath)]
  {
    var check := HasLanguageMetadataCall(step.recheck);
    if check.result == Success(true) then Pass(LogOnly(check.log), None)
    else After(LogOnly(check.log + [ExtractingAudio(name)]), FromExtraction(fullPath, name, step))
  }

  /** From `extract_audio` on: a returned path is appended to
      `extracted_audio_files` before anything else looks at it. */
  function FromExtraction(fullPath: string, name: string, step: TrackStep): (r: Pass)
    ensures r.trace.extracted != [] <==> step.extraction == FfmpegOk
    ensures r.trace.writes != [] ==> r.trace.extracted == [AudioPathFor(fullPath)]
  {
    var ex := ExtractAudioCall(fullPath, step.extraction);
    match ex.result
    case Failure(e) => Pass(LogOnly(ex.log), Some(e))
    case Success(audioFile) => After(Trace(ex.log, [audioFile], []), FromTranscription(audioFile, fullPath, name, step))
  }

  /** From `if audio_file:` on. */
  function FromTranscription(audioFile: string, fullPath: string, name: string, step: TrackStep): (r: Pass)
    ensures r.trace.extracted == [] && |r.trace.writes| <= 1
    ensures r.trace.writes != [] ==> audioFile != "" && step.recognizer.Recognized?
  {
    if audioFile == "" then Pass(NoEffect, None)
    else
      var tr := TranscribeAudioCall(audioFile, step.recognizer);
      match tr.result
      case Failure(e) => Pass(LogOnly(tr.log), Some(e))
      case Success(transcription) => After(LogOnly(tr.log), FromIdentification(transcription, fullPath, name, step))
  }

  /** From `if transcription:` on. */
  function FromIdentification(transcription: string, fullPath: string, name: string, step: TrackStep): (r: Pass)
    ensures r.trace.extracted == [] && |r.trace.writes| <= 1
    ensures r.trace.writes != [] <==> transcription != "" && step.classified != ""
  {
    if transcription == "" then Pass(NoEffect, None)
    else
      var language := IdentifyLanguage(transcription, step.classified);
      if language == None || language.value == "" then Pass(NoEffect, None)
      else FromUpdate(language.value, fullPath, name, step)
  }

  /** From `if language:` on, with a non-empty language code: announce and
      rewrite the container. */
  function FromUpdate(language: string, fullPath: string, name: string, step: TrackStep): (r: Pass)
    ensures r.trace.extracted == [] && |r.trace.writes| == 1 && r.trace.writes[0].path == fullPath
    ensures r.raised == None <==> step.update == UpdateOk
    ensures r.trace.log != [] && r.trace.log[0] == UpdatingMetadata(name)
  {
    var up := UpdateMetadataCall(fullPath, language, step.update);
    var write := MetadataWrite(fullPath, language, step.update.UpdateOk?);
    Pass(Trace([UpdatingMetadata(name)] + up.log, [], [write]),
         if up.result.Failure? then Some(up.result.error) else None)
  }

  /** The first `n` passes of the track loop; an exception ends the loop. */
  function Tracks(fullPath: string, name: string, tools: FileTools, n: nat): (r: Pass)
    ensures |r.trace.writes| <= n && |r.trace.extracted| <= n
    decreases n
  {
    if n == 0 then Pass(NoEffect, None)
    else
      var p := Tracks(fullPath, name, tools, n - 1);
      if p.raised != None then p
      else
        var q := TrackPass(fullPath, name, tools.step(n - 1));
        Pass(Then(p.trace, q.trace), q.raised)
  }

  /** Once a pass has raised, later passes never run. */
  lemma {:induction false} TracksRaisedIsFinal(fullPath: string, name: string, tools: FileTools, m: nat, n: nat)
    requires m <= n
    requires Tracks(fullPath, name, tools, m).raised != None
    ensures Tracks(fullPath, name, tools, n) == Tracks(fullPath, name, tools, m)
    decreases n
  {
    if m < n {
      TracksRaisedIsFinal(fullPath, name, tools, m, n - 1);
    }
  }

  /** One iteration of `for index, filename in enumerate(video_files)`,
      progress aside: the "Processing" line, then the try block and its
      except clause. */
  function FileRun(folder: string, name: string, tools: FileTools): (r: Trace)
    ensures r.log != [] && r.log[0] == Processing(name) && Text(r.log[0]) == "Processing " + name + "..."
  {
    Then(LogOnly([Processing(name)]), TryBlock(PyPath.Join(folder, name), name, tools))
  }

  /** The try block of the loop over files, with the log line of its except
      clause when an exception escapes it. */
  function TryBlock(fullPath: string, name: string, tools: FileTools): (r: Trace)
    ensures (tools.probe.ProbeFailed? || ParseAudioStreams(tools.probe.stdout) == []) ==> r.extracted == [] && r.writes == []
  {
    match CheckAudioTracks(tools.probe)
    case Failure(e) => LogOnly([ErrorProcessing(name, e)])
    case Success(audioTracks) =>
      if audioTracks == [] then LogOnly([NoAudioTracks(name)])
      else
        var p := Tracks(fullPath, name, tools, |audioTracks|);
        match p.raised
        case None => p.trace
        case Some(e) => Then(p.trace, LogOnly([ErrorProcessing(name, e)]))
  }

  /** The effects of each iteration of the loop of `process_video_files`,
      progress aside: `FileRuns(folder, files, tools)[i]` is what file `i`
      appends. */
  function FileRuns(folder: string, files: seq<string>, tools: seq<FileTools>): (r: seq<Trace>)
    requires |tools| == |files|
    ensures |r| == |files|
  {
    seq(|files|, i requires 0 <= i < |files| => FileRun(folder, files[i], tools[i]))
  }

  /** The effects of the first `count` runs, one after the other. */
  function Concat(runs: seq<Trace>, count: nat): Trace
    requires count <= |runs|
    decreases count, 0
  {
    if count == 0 then NoEffect else ConcatThrough(runs, count - 1)
  }

  /** The effects of the runs up to and including run `i`. */
  function ConcatThrough(runs: seq<Trace>, i: nat): Trace
    requires i < |runs|
    decreases i, 1
  {
    Then(Concat(runs, i), runs[i])
  }

  /** One more run appends its effects. */
  lemma ConcatStep(runs: seq<Trace>, i: nat)
    requires i < |runs|
    ensures Concat(runs, i + 1) == Then(Concat(runs, i), runs[i])
  {
    assert Concat(runs, i + 1) == ConcatThrough(runs, i);
  }

  /** The whole loop of `process_video_files`, progress aside, over the file
      names and the tool outcomes for each. */
  function BatchRun(folder: string, files: seq<string>, tools: seq<FileTools>): (r: Trace)
    requires |tools| == |files|
    ensures |r.log| >= |files|
  {
    ConcatLogLength(FileRuns(folder, files, tools), |files|);
    Concat(FileRuns(folder, files, tools), |files|)
  }

  /** Runs that each log something log at least one line apiece. */
  lemma {:induction false} ConcatLogLength(runs: seq<Trace>, count: nat)
    requires count <= |runs|
    requires forall i :: 0 <= i < count ==> runs[i].log != []
    ensures |Concat(runs, count).log| >= count
  {
    if count > 0 {
      ConcatLogLength(runs, count - 1);
      ConcatStep(runs, count - 1);
    }
  }
}
