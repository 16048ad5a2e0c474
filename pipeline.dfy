/** `process_video_files` and the helpers it calls, as methods of an object
    holding the module-level state they update: the log list box, the global
    `extracted_audio_files`, the container rewrites, the progress bar's value
    and the completion message. */
module Pipeline {
  import opened Wrappers
  import PyPath
  import opened VideoMetadataFixer
  import opened PipelineSpec

  class Fixer {
    /** The lines of `log_listbox`, oldest first. */
    var log: seq<LogLine>
    /** The global `extracted_audio_files`. */
    var extracted: seq<string>
    /** The container rewrites performed, in order. */
    var writes: seq<MetadataWrite>
    /** The value last assigned to `progress_bar["value"]` after a file;
        the steps that `progress_bar.start()`'s timer adds are not part of it. */
    var progress: real
    /** Every value assigned to the progress bar, in order. */
    ghost var progressTrail: seq<real>
    /** How often "Processing complete!" has been shown. */
    var completions: nat

    function Snapshot(): Trace
      reads this
    {
      Trace(log, extracted, writes)
    }

    constructor ()
      ensures Snapshot() == NoEffect && progress == 0.0 && progressTrail == [] && completions == 0
    {
      log, extracted, writes := [], [], [];
      progress, progressTrail, completions := 0.0, [], 0;
    }

    /** `log_message`. */
    method LogMessage(message: LogLine)
      modifies this`log
      ensures log == old(log) + [message]
    {
      log := log + [message];
    }

    /** `show_progress`; the progress bar's animation is not modelled. */
    method ShowProgress(message: LogLine)
      modifies this`log
      ensures log == old(log) + [message]
    {
      LogMessage(message);
    }

    /** `has_language_metadata`, given the outcome of its ffprobe run. */
    method HasLanguageMetadata(probe: ProbeResult) returns (has: bool)
      modifies this`log
      ensures log == old(log) + HasLanguageMetadataCall(probe).log
      ensures HasLanguageMetadataCall(probe).result == Success(has)
    {
      match probe
      case ProbeOk(out) =>
        has := ParseHasLanguageMetadata(out);
      case ProbeFailed(e) =>
        LogMessage(MetadataCheckError(e));
        has := false;
    }

    /** `extract_audio`, given the outcome of its ffmpeg run. */
    method ExtractAudio(videoPath: string, outcome: FfmpegOutcome) returns (r: Result<string, Exception>)
      modifies this`log
      ensures log == old(log) + ExtractAudioCall(videoPath, outcome).log
      ensures r == ExtractAudioCall(videoPath, outcome).result
    {
      var audioPath := AudioPathFor(videoPath);
      match outcome
      case FfmpegOk =>
        LogMessage(ExtractedAudio(videoPath, audioPath));
        r := Success(audioPath);
      case FfmpegFailed(stderr) =>
        LogMessage(FfmpegError(videoPath, stderr));
        r := Failure(ExtractionFailed);
      case FfmpegRaised(e) =>
        r := Failure(ExtractionAborted(e));
    }

    /** `transcribe_audio`, given what the recogniser does. */
    method TranscribeAudio(audioPath: string, outcome: RecognizerOutcome) returns (r: Result<string, Exception>)
      modifies this`log
      ensures log == old(log) + TranscribeAudioCall(audioPath, outcome).log
      ensures r == TranscribeAudioCall(audioPath, outcome).result
    {
      if outcome.ReadFailed? {
        LogMessage(UnexpectedTranscriptionError(outcome.error));
        return Failure(TranscriptionFailed);
      }
      LogMessage(TranscribingAudio(audioPath));
      match outcome
      case Recognized(t) =>
        LogMessage(TranscriptionSuccessful(t));
        r := Success(t);
      case RequestFailed(e) =>
        LogMessage(ApiRequestError(e));
        r := Failure(TranscriptionRequestFailed);
      case NotUnderstood =>
        LogMessage(CouldNotUnderstand);
        r := Failure(AudioNotUnderstood);
      case RecognizeRaised(e) =>
        LogMessage(UnexpectedTranscriptionError(e));
        r := Failure(TranscriptionFailed);
    }

    /** `update_metadata`, given the outcome of the rewrite; the rewrite
        itself is recorded whether or not it succeeds. */
    method UpdateMetadata(videoPath: string, language: string, outcome: UpdateOutcome) returns (r: Result<(), Exception>)
      modifies this`log, this`writes
      ensures log == old(log) + UpdateMetadataCall(videoPath, language, outcome).log
      ensures writes == old(writes) + [MetadataWrite(videoPath, language, outcome.UpdateOk?)]
      ensures r == UpdateMetadataCall(videoPath, language, outcome).result
    {
      writes := writes + [MetadataWrite(videoPath, language, outcome.UpdateOk?)];
      match outcome
      case UpdateOk =>
        LogMessage(UpdatedMetadata(videoPath, language));
        r := Success(());
      case UpdateFailed(e) =>
        r := Failure(MetadataUpdateFailed(e));
    }

    /** The body of `for track in audio_tracks`; returns the message of the
        exception that escaped it, if any. */
    method ProcessTrack(fullPath: string, name: string, step: TrackStep) returns (raised: Option<Exception>)
      modifies this`log, this`extracted, this`writes
      ensures Snapshot() == Then(old(Snapshot()), TrackPass(fullPath, name, step).trace)
      ensures raised == TrackPass(fullPath, name, step).raised
    {
      ghost var s0 := Snapshot();
      ghost var check := HasLanguageMetadataCall(step.recheck);
      raised := None;
      var has := HasLanguageMetadata(step.recheck);
      if !has {
        ShowProgress(ExtractingAudio(name));
        ghost var lead := LogOnly(check.log + [ExtractingAudio(name)]);
        ghost var s1 := Snapshot();
        assert s1 == Then(s0, lead);
        raised := ExtractAndRest(fullPath, name, step);
        ThenAssoc(s0, lead, FromExtraction(fullPath, name, step).trace);
      }
    }

    /** The track body from `extract_audio` on. */
    method ExtractAndRest(fullPath: string, name: string, step: TrackStep) returns (raised: Option<Exception>)
      modifies this`log, this`extracted, this`writes
      ensures Snapshot() == Then(old(Snapshot()), FromExtraction(fullPath, name, step).trace)
      ensures raised == FromExtraction(fullPath, name, step).raised
    {
      ghost var s1 := Snapshot();
      var audio := ExtractAudio(fullPath, step.extraction);
      if audio.Failure? {
        return Some(audio.error);
      }
      var audioFile := audio.value;
      extracted := extracted + [audioFile];
      ghost var got := Trace(ExtractAudioCall(fullPath, step.extraction).log, [audioFile], []);
      assert Snapshot() == Then(s1, got);
      raised := TranscribeAndRest(audioFile, fullPath, name, step);
      ThenAssoc(s1, got, FromTranscription(audioFile, fullPath, name, step).trace);
    }

    /** The track body from `if audio_file:` on. */
    method TranscribeAndRest(audioFile: string, fullPath: string, name: string, step: TrackStep)
      returns (raised: Option<Exception>)
      modifies this`log, this`writes
      ensures Snapshot() == Then(old(Snapshot()), FromTranscription(audioFile, fullPath, name, step).trace)
      ensures raised == FromTranscription(audioFile, fullPath, name, step).raised
    {
      ghost var s2 := Snapshot();
      raised := None;
      if audioFile != "" {
        var transcription := TranscribeAudio(audioFile, step.recognizer);
        if transcription.Failure? {
          raised := Some(transcription.error);
        } else if transcription.value != "" {
          ghost var s3 := Snapshot();
          var language := IdentifyLanguage(transcription.value, step.classified);
          if language != None && language.value != "" {
            ShowProgress(UpdatingMetadata(name));
            var updated := UpdateMetadata(fullPath, language.value, step.update);
            if updated.Failure? {
              raised := Some(updated.error);
            }
          }
          assert Snapshot() == Then(s3, FromIdentification(transcription.value, fullPath, name, step).trace);
        }
      }
    }

    /** One iteration of the loop over files, progress aside: the
        "Processing" line, the try block with its loop over audio tracks,
        and the except clause. */
    method ProcessFile(folder: string, name: string, tools: FileTools)
      modifies this`log, this`extracted, this`writes
      ensures Snapshot() == Then(old(Snapshot()), FileRun(folder, name, tools))
    {
      ghost var s0 := Snapshot();
      var fullPath := PyPath.Join(folder, name);
      ShowProgress(Processing(name));
      ghost var head := LogOnly([Processing(name)]);
      ghost var started := Snapshot();
      ThenLog(s0, head.log);
      var audioTracks := CheckAudioTracks(tools.probe);
      if audioTracks.Failure? {
        // the except clause
        LogMessage(ErrorProcessing(name, audioTracks.error));
        ThenLog(started, [ErrorProcessing(name, audioTracks.error)]);
      } else if audioTracks.value != [] {
        var raised := RunTracks(fullPath, name, tools, |audioTracks.value|);
        if raised != None {
          // the except clause
          ghost var s1 := Snapshot();
          LogMessage(ErrorProcessing(name, raised.value));
          ThenLog(s1, [ErrorProcessing(name, raised.value)]);
          ThenAssoc(started, Tracks(fullPath, name, tools, |audioTracks.value|).trace,
                    LogOnly([ErrorProcessing(name, raised.value)]));
        }
      } else {
        LogMessage(NoAudioTracks(name));
        ThenLog(started, [NoAudioTracks(name)]);
      }
      ThenAssoc(s0, head, TryBlock(fullPath, name, tools));
    }

    /** `for track in audio_tracks`, over `n` tracks; an exception ends the
        loop and is passed on. */
    method RunTracks(fullPath: string, name: string, tools: FileTools, n: nat) returns (raised: Option<Exception>)
      modifies this`log, this`extracted, this`writes
      ensures Snapshot() == Then(old(Snapshot()), Tracks(fullPath, name, tools, n).trace)
      ensures raised == Tracks(fullPath, name, tools, n).raised
    {
      ghost var started := Snapshot();
      raised := None;
      var i := 0;
      while i < n && raised == None
        invariant 0 <= i <= n
        invariant raised == Tracks(fullPath, name, tools, i).raised
        invariant Snapshot() == Then(started, Tracks(fullPath, name, tools, i).trace)
      {
        ghost var before := Tracks(fullPath, name, tools, i).trace;
        raised := ProcessTrack(fullPath, name, tools.step(i));
        ThenAssoc(started, before, TrackPass(fullPath, name, tools.step(i)).trace);
        i := i + 1;
      }
      if raised != None {
        TracksRaisedIsFinal(fullPath, name, tools, i, n);
      }
    }

    /** `progress_bar["value"] = (index + 1) / len(video_files) * 100`. */
    method UpdateProgress(index: nat, total: nat, ghost base: seq<real>)
      requires index < total
      requires progressTrail == base + ProgressSeries(index, total)
      modifies this`progress, this`progressTrail
      ensures progress == Progress(index, total)
      ensures progressTrail == base + ProgressSeries(index + 1, total)
    {
      progress := Progress(index, total);
      progressTrail := progressTrail + [progress];
    }

    /** The effects so far are those of `s0` followed by the first `count`
        of `runs`. */
    ghost predicate Processed(s0: Trace, runs: seq<Trace>, count: nat)
      requires count <= |runs|
      reads this
    {
      Snapshot() == Then(s0, Concat(runs, count))
    }

    /** One iteration of the loop in `process_video_files`: process
        file `index`, then move the progress bar. */
    method ProcessOne(folder: string, files: seq<string>, tools: seq<FileTools>, index: nat,
                      ghost s0: Trace, ghost trail0: seq<real>)
      requires |tools| == |files| && index < |files|
      requires Processed(s0, FileRuns(folder, files, tools), index)
      requires progressTrail == trail0 + ProgressSeries(index, |files|)
      modifies this`log, this`extracted, this`writes, this`progress, this`progressTrail
      ensures Processed(s0, FileRuns(folder, files, tools), index + 1)
      ensures progressTrail == trail0 + ProgressSeries(index + 1, |files|)
      ensures progress == Progress(index, |files|)
    {
      ghost var runs := FileRuns(folder, files, tools);
      ghost var before := Concat(runs, index);
      ProcessFile(folder, files[index], tools[index]);
      assert runs[index] == FileRun(folder, files[index], tools[index]);
      ThenAssoc(s0, before, runs[index]);
      ConcatStep(runs, index);
      UpdateProgress(index, |files|, trail0);
    }

    /** `process_video_files`: the files of the list, in order, then the
        completion message. `tools[i]` gives the outcomes of the external
        tools for `files[i]`. */
    method ProcessVideoFiles(folder: string, files: seq<string>, tools: seq<FileTools>)
      requires |tools| == |files|
      modifies this
      ensures Snapshot() == Then(old(Snapshot()), BatchRun(folder, files, tools))
      ensures progressTrail == old(progressTrail) + ProgressSeries(|files|, |files|)
      ensures progress == if files == [] then old(progress) else 100.0
      ensures completions == old(completions) + 1
    {
      ghost var s0, trail0, progress0 := Snapshot(), progressTrail, progress;
      var index := 0;
      while index < |files|
        invariant 0 <= index <= |files|
        invariant Processed(s0, FileRuns(folder, files, tools), index)
        invariant progressTrail == trail0 + ProgressSeries(index, |files|)
        invariant progress == if index == 0 then progress0 else Progress(index - 1, |files|)
        invariant completions == old(completions)
      {
        ProcessOne(folder, files, tools, index, s0, trail0);
        index := index + 1;
      }
      assert Snapshot() == Then(s0, BatchRun(folder, files, tools));
      if files != [] {
        ProgressBounds(|files| - 1, |files|);
      }
      completions := completions + 1;
    }
  }
}
