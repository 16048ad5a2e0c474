/** Properties of `process_video_files` as a whole, stated about the traces
    of PipelineSpec, which the class in pipeline.dfy is proved to produce. */
module PipelineProperties {
  import opened Wrappers
  import PyStr
  import PyPath
  import opened VideoMetadataFixer
  import opened PipelineSpec

  /** Nothing appended is the unit of `Then`. */
  lemma ThenNoEffect(t: Trace)
    ensures Then(t, NoEffect) == t && Then(NoEffect, t) == t
  {
    assert t.log + [] == t.log && t.extracted + [] == t.extracted && t.writes + [] == t.writes;
  }

  // ---------------------------------------------------------------------
  // One pass of the track loop

  /** The re-probe of `has_language_metadata` answers True: it ran and
      printed something other than whitespace. */
  predicate Tagged(step: TrackStep)
  {
    step.recheck.ProbeOk? && PyStr.Strip(step.recheck.stdout) != ""
  }

  /** A pass rewrites the container at most once, and exactly when the
      re-probe answered False, ffmpeg succeeded, the recogniser returned a
      non-empty transcript and the classifier a non-empty code; the rewrite
      is of the video itself, with that code. */
  lemma TrackPassWrites(fullPath: string, name: string, step: TrackStep)
    ensures var w := TrackPass(fullPath, name, step).trace.writes;
      && |w| <= 1
      && (w != [] <==>
            !Tagged(step) && step.extraction == FfmpegOk
            && step.recognizer.Recognized? && step.recognizer.text != ""
            && step.classified != "")
      && (w != [] ==> w == [MetadataWrite(fullPath, step.classified, step.update == UpdateOk)])
  {
  }

  /** A pass appends to `extracted_audio_files` exactly when `extract_audio`
      returned, that is when the re-probe answered False and ffmpeg
      succeeded, and what it appends is the `.wav` path beside the video. */
  lemma TrackPassExtracted(fullPath: string, name: string, step: TrackStep)
    ensures TrackPass(fullPath, name, step).trace.extracted
         == if !Tagged(step) && step.extraction == FfmpegOk then [AudioPathFor(fullPath)] else []
  {
  }

  /** A pass raises exactly when it got past the re-probe and then ffmpeg
      failed or was aborted, the recogniser did not return a transcript, or
      the rewrite of a non-empty code failed. */
  lemma TrackPassRaises(fullPath: string, name: string, step: TrackStep)
    ensures TrackPass(fullPath, name, step).raised != None <==>
      !Tagged(step) &&
      (|| step.extraction != FfmpegOk
       || !step.recognizer.Recognized?
       || (step.recognizer.text != "" && step.classified != "" && step.update.UpdateFailed?))
  {
  }

  /** The lines a pass logs begin with the extraction notice unless the
      re-probe answered True; a failed re-probe logs its error first. */
  lemma TrackPassLogStart(fullPath: string, name: string, step: TrackStep)
    ensures var log := TrackPass(fullPath, name, step).trace.log;
      && (Tagged(step) ==> log == [])
      && (!Tagged(step) && step.recheck.ProbeOk? ==> log != [] && log[0] == ExtractingAudio(name))
      && (step.recheck.ProbeFailed? ==>
            |log| >= 2 && log[0] == MetadataCheckError(step.recheck.error) && log[1] == ExtractingAudio(name))
  {
  }

  // ---------------------------------------------------------------------
  // The track loop of one file

  /** Every rewrite in `t` is of `path`. */
  predicate OnlyWritesTo(t: Trace, path: string)
  {
    forall k :: 0 <= k < |t.writes| ==> t.writes[k].path == path
  }

  /** Every entry `t` appends to `extracted_audio_files` is `audio`. */
  predicate OnlyExtracts(t: Trace, audio: string)
  {
    forall k :: 0 <= k < |t.extracted| ==> t.extracted[k] == audio
  }

  /** Both properties survive putting two stretches together. */
  lemma ThenKeepsPaths(a: Trace, b: Trace, path: string, audio: string)
    requires OnlyWritesTo(a, path) && OnlyWritesTo(b, path)
    requires OnlyExtracts(a, audio) && OnlyExtracts(b, audio)
    ensures OnlyWritesTo(Then(a, b), path) && OnlyExtracts(Then(a, b), audio)
  {
    var t := Then(a, b);
    forall k | 0 <= k < |t.writes|
      ensures t.writes[k].path == path
    {
      if k >= |a.writes| { assert t.writes[k] == b.writes[k - |a.writes|]; }
    }
    forall k | 0 <= k < |t.extracted|
      ensures t.extracted[k] == audio
    {
      if k >= |a.extracted| { assert t.extracted[k] == b.extracted[k - |a.extracted|]; }
    }
  }

  /** One pass rewrites only this video and extracts only its `.wav` path. */
  lemma TrackPassPaths(fullPath: string, name: string, step: TrackStep)
    ensures OnlyWritesTo(TrackPass(fullPath, name, step).trace, fullPath)
    ensures OnlyExtracts(TrackPass(fullPath, name, step).trace, AudioPathFor(fullPath))
  {
    TrackPassWrites(fullPath, name, step);
    TrackPassExtracted(fullPath, name, step);
  }

  /** After `n` passes every rewrite is of this video and every extracted
      file is its `.wav` path (`Tracks` itself bounds how many there are). */
  lemma {:induction false} TracksPaths(fullPath: string, name: string, tools: FileTools, n: nat)
    ensures OnlyWritesTo(Tracks(fullPath, name, tools, n).trace, fullPath)
    ensures OnlyExtracts(Tracks(fullPath, name, tools, n).trace, AudioPathFor(fullPath))
  {
    if n > 0 {
      TracksPaths(fullPath, name, tools, n - 1);
      var p := Tracks(fullPath, name, tools, n - 1);
      if p.raised == None {
        TrackPassPaths(fullPath, name, tools.step(n - 1));
        ThenKeepsPaths(p.trace, TrackPass(fullPath, name, tools.step(n - 1)).trace,
                       fullPath, AudioPathFor(fullPath));
      }
    }
  }

  /** A pass whose re-probe answers True does nothing. */
  lemma TaggedPassIsSilent(fullPath: string, name: string, step: TrackStep)
    requires Tagged(step)
    ensures TrackPass(fullPath, name, step) == Pass(NoEffect, None)
  {
  }

  /** When every re-probe answers True, the loop does nothing at all. */
  lemma {:induction false} TracksAllTagged(fullPath: string, name: string, tools: FileTools, n: nat)
    requires forall k :: 0 <= k < n ==> Tagged(tools.step(k))
    ensures Tracks(fullPath, name, tools, n) == Pass(NoEffect, None)
  {
    if n > 0 {
      TracksAllTagged(fullPath, name, tools, n - 1);
      TaggedPassIsSilent(fullPath, name, tools.step(n - 1));
      ThenNoEffect(NoEffect);
    }
  }

  // ---------------------------------------------------------------------
  // One file

  /** A file whose probe printed nothing logs "No audio tracks found" and
      is neither extracted nor rewritten. */
  lemma FileWithoutTracks(folder: string, name: string, tools: FileTools)
    requires tools.probe.ProbeOk? && PyStr.Strip(tools.probe.stdout) == ""
    ensures FileRun(folder, name, tools) == LogOnly([Processing(name), NoAudioTracks(name)])
    ensures Text(NoAudioTracks(name)) == "No audio tracks found in " + name + "."
  {
  }

  /** A file whose first probe raised logs the error with both prefixes
      and is neither extracted nor rewritten. */
  lemma FileWhoseProbeFailed(folder: string, name: string, tools: FileTools)
    requires tools.probe.ProbeFailed?
    ensures FileRun(folder, name, tools)
         == LogOnly([Processing(name), ErrorProcessing(name, TracksCheckFailed(tools.probe.error))])
  {
  }

  /** No line of `log` is the except clause's "Error processing" line. */
  predicate NoErrorLine(log: seq<LogLine>)
  {
    forall line :: line in log ==> !line.ErrorProcessing?
  }

  /** The "Error processing" line can only be the last line of `log`. */
  predicate ErrorOnlyAtEnd(log: seq<LogLine>)
  {
    log == [] || NoErrorLine(log[..|log| - 1])
  }

  /** No pass of the track loop logs the except clause's line itself. */
  lemma TrackPassNoErrorLine(fullPath: string, name: string, step: TrackStep)
    ensures NoErrorLine(TrackPass(fullPath, name, step).trace.log)
  {
    var ex := ExtractAudioCall(fullPath, step.extraction);
    if ex.result.Success? {
      assert NoErrorLine(FromTranscription(ex.result.value, fullPath, name, step).trace.log);
    }
    assert NoErrorLine(FromExtraction(fullPath, name, step).trace.log);
  }

  /** Nor does the track loop as a whole. */
  lemma {:induction false} TracksNoErrorLine(fullPath: string, name: string, tools: FileTools, n: nat)
    ensures NoErrorLine(Tracks(fullPath, name, tools, n).trace.log)
  {
    if n > 0 {
      TracksNoErrorLine(fullPath, name, tools, n - 1);
      TrackPassNoErrorLine(fullPath, name, tools.step(n - 1));
    }
  }

  /** An exception that escapes the track loop (ffmpeg failing or aborted,
      the recogniser failing, a failed rewrite) ends the file's lines with
      the except clause's "Error processing" line, after everything the
      loop logged, and that line appears nowhere else. */
  lemma FileRunRaised(folder: string, name: string, tools: FileTools, e: Exception)
    requires tools.probe.ProbeOk? && ParseAudioStreams(tools.probe.stdout) != []
    requires Tracks(PyPath.Join(folder, name), name, tools, |ParseAudioStreams(tools.probe.stdout)|).raised == Some(e)
    ensures var p := Tracks(PyPath.Join(folder, name), name, tools, |ParseAudioStreams(tools.probe.stdout)|);
      && FileRun(folder, name, tools).log == [Processing(name)] + p.trace.log + [ErrorProcessing(name, e)]
      && NoErrorLine(p.trace.log)
    ensures Text(ErrorProcessing(name, e)) == "Error processing " + name + ": " + Message(e)
  {
    TracksNoErrorLine(PyPath.Join(folder, name), name, tools, |ParseAudioStreams(tools.probe.stdout)|);
  }

  /** The exception of a file, if any: the one the first probe raised, or
      the one that escaped the track loop. */
  function FileRaised(folder: string, name: string, tools: FileTools): Option<Exception>
  {
    match tools.probe
    case ProbeFailed(error) => Some(TracksCheckFailed(error))
    case ProbeOk(out) =>
      var tracks := ParseAudioStreams(out);
      if tracks == [] then None
      else Tracks(PyPath.Join(folder, name), name, tools, |tracks|).raised
  }

  /** The try block logs an "Error processing" line exactly when an
      exception reached the except clause, and then only as its last line,
      naming that exception. */
  lemma TryBlockErrorLine(folder: string, name: string, tools: FileTools)
    ensures var log := TryBlock(PyPath.Join(folder, name), name, tools).log;
      && ErrorOnlyAtEnd(log)
      && (NoErrorLine(log) <==> FileRaised(folder, name, tools) == None)
      && (FileRaised(folder, name, tools) != None ==>
            log != [] && log[|log| - 1] == ErrorProcessing(name, FileRaised(folder, name, tools).value))
  {
    var log := TryBlock(PyPath.Join(folder, name), name, tools).log;
    match tools.probe {
      case ProbeFailed(_) =>
        assert log[0] in log;
      case ProbeOk(out) =>
        var tracks := ParseAudioStreams(out);
        if tracks != [] {
          var p := Tracks(PyPath.Join(folder, name), name, tools, |tracks|);
          TracksNoErrorLine(PyPath.Join(folder, name), name, tools, |tracks|);
          if p.raised == None {
            if log != [] { assert log[..|log| - 1] <= log; }
          } else {
            assert log[..|log| - 1] == p.trace.log;
            assert log[|log| - 1] in log;
          }
        }
    }
  }

  /** A file logs an "Error processing" line exactly when an exception
      reached the except clause, and then only as its last line, naming
      that exception: an error never sits in the middle of a file's
      lines. */
  lemma FileRunErrorLine(folder: string, name: string, tools: FileTools)
    ensures var log := FileRun(folder, name, tools).log;
      && ErrorOnlyAtEnd(log)
      && (NoErrorLine(log) <==> FileRaised(folder, name, tools) == None)
      && (FileRaised(folder, name, tools) != None ==>
            log[|log| - 1] == ErrorProcessing(name, FileRaised(folder, name, tools).value))
  {
    var t := TryBlock(PyPath.Join(folder, name), name, tools).log;
    TryBlockErrorLine(folder, name, tools);
    PrefixErrorLine(Processing(name), t);
  }

  /** A first line that is not an error line does not change where error
      lines are. */
  lemma PrefixErrorLine(first: LogLine, log: seq<LogLine>)
    requires !first.ErrorProcessing?
    ensures NoErrorLine([first] + log) <==> NoErrorLine(log)
    ensures ErrorOnlyAtEnd(log) ==> ErrorOnlyAtEnd([first] + log)
    ensures log != [] ==> ([first] + log)[|log|] == log[|log| - 1]
  {
    if log != [] {
      assert ([first] + log)[..|log|] == [first] + log[..|log| - 1];
    }
  }

  /** The rewrites of a file are all of that file, at most one per line of
      its probe output, and only happen when the probe listed tracks. */
  lemma FileRunWrites(folder: string, name: string, tools: FileTools)
    ensures OnlyWritesTo(FileRun(folder, name, tools), PyPath.Join(folder, name))
    ensures var w := FileRun(folder, name, tools).writes;
      (w != [] ==> tools.probe.ProbeOk? && |w| <= |ParseAudioStreams(tools.probe.stdout)|)
  {
    var fullPath := PyPath.Join(folder, name);
    match CheckAudioTracks(tools.probe)
    case Failure(_) =>
    case Success(tracks) =>
      if tracks != [] {
        TracksPaths(fullPath, name, tools, |tracks|);
      }
  }

  /** Everything a file appends to `extracted_audio_files` is the `.wav`
      path beside it, at most once per line of its probe output. */
  lemma FileRunExtracted(folder: string, name: string, tools: FileTools)
    ensures OnlyExtracts(FileRun(folder, name, tools), AudioPathFor(PyPath.Join(folder, name)))
    ensures var x := FileRun(folder, name, tools).extracted;
      (x != [] ==> tools.probe.ProbeOk? && |x| <= |ParseAudioStreams(tools.probe.stdout)|)
  {
    var fullPath := PyPath.Join(folder, name);
    match CheckAudioTracks(tools.probe)
    case Failure(_) =>
    case Success(tracks) =>
      if tracks != [] {
        TracksPaths(fullPath, name, tools, |tracks|);
      }
  }

  /** The re-probes of a file print what its first probe printed. */
  ghost predicate StableProbe(tools: FileTools)
  {
    tools.probe.ProbeOk? && forall k: nat :: tools.step(k).recheck == tools.probe
  }

  /** When the re-probes print what the first probe printed, the fixer
      rewrites nothing and extracts nothing, whatever the other tools do:
      a file with tracks already passes the language-metadata check, so
      its log is the "Processing" line alone. */
  lemma {:induction false} StableProbeNeverWrites(folder: string, name: string, tools: FileTools)
    requires StableProbe(tools)
    ensures FileRun(folder, name, tools).writes == []
    ensures FileRun(folder, name, tools).extracted == []
    ensures FileRun(folder, name, tools).log
         == if PyStr.Strip(tools.probe.stdout) == "" then [Processing(name), NoAudioTracks(name)]
            else [Processing(name)]
  {
    var fullPath := PyPath.Join(folder, name);
    var tracks := ParseAudioStreams(tools.probe.stdout);
    if tracks != [] {
      forall k | 0 <= k < |tracks|
        ensures Tagged(tools.step(k))
      {
        assert tools.step(k).recheck == tools.probe;
      }
      TracksAllTagged(fullPath, name, tools, |tracks|);
    }
  }

  // ---------------------------------------------------------------------
  // The batch

  /** A file with one audio stream that carries no language tag (ffprobe
      prints its index only), re-probed with the same answer, gets its
      "Processing" line and nothing else: no extraction, no transcription
      and no rewrite. */
  lemma UntaggedFileIsLeftAlone(folder: string, name: string, tools: FileTools)
    requires tools.probe == ProbeOk("1\n") && StableProbe(tools)
    ensures FileRun(folder, name, tools) == LogOnly([Processing(name)])
  {
    UntaggedStreamCountsAsTagged();
    StableProbeNeverWrites(folder, name, tools);
  }

  /** Runs that each extract and rewrite nothing, put together, extract
      and rewrite nothing. */
  lemma {:induction false} ConcatUntouched(runs: seq<Trace>, count: nat)
    requires count <= |runs|
    requires forall i :: 0 <= i < count ==> runs[i].writes == [] && runs[i].extracted == []
    ensures Concat(runs, count).writes == [] && Concat(runs, count).extracted == []
  {
    if count > 0 {
      ConcatUntouched(runs, count - 1);
      ConcatStep(runs, count - 1);
    }
  }

  /** `m` is a rewrite that one of the first `count` runs performed. */
  ghost predicate WrittenBySome(runs: seq<Trace>, count: nat, m: MetadataWrite)
    requires count <= |runs|
  {
    exists i, j :: 0 <= i < count && 0 <= j < |runs[i].writes| && m == runs[i].writes[j]
  }

  /** Every rewrite of a batch is one that some run of it performed. */
  lemma {:induction false} ConcatWritesFrom(runs: seq<Trace>, count: nat, w: seq<MetadataWrite>)
    requires count <= |runs| && w == Concat(runs, count).writes
    ensures forall k :: 0 <= k < |w| ==> WrittenBySome(runs, count, w[k])
  {
    if count > 0 {
      var before := Concat(runs, count - 1).writes;
      ConcatWritesFrom(runs, count - 1, before);
      ConcatStep(runs, count - 1);
      assert w == before + runs[count - 1].writes;
      forall k | 0 <= k < |w|
        ensures WrittenBySome(runs, count, w[k])
      {
        if k < |before| {
          assert w[k] == before[k] && WrittenBySome(runs, count - 1, before[k]);
        } else {
          assert w[k] == runs[count - 1].writes[k - |before|];
        }
      }
    }
  }

  /** `a` is an entry that one of the first `count` runs appended to
      `extracted_audio_files`. */
  ghost predicate ExtractedBySome(runs: seq<Trace>, count: nat, a: string)
    requires count <= |runs|
  {
    exists i, j :: 0 <= i < count && 0 <= j < |runs[i].extracted| && a == runs[i].extracted[j]
  }

  /** Every entry a batch appends to `extracted_audio_files` is one that
      some run of it appended. */
  lemma {:induction false} ConcatExtractedFrom(runs: seq<Trace>, count: nat, x: seq<string>)
    requires count <= |runs| && x == Concat(runs, count).extracted
    ensures forall k :: 0 <= k < |x| ==> ExtractedBySome(runs, count, x[k])
  {
    if count > 0 {
      var before := Concat(runs, count - 1).extracted;
      ConcatExtractedFrom(runs, count - 1, before);
      ConcatStep(runs, count - 1);
      assert x == before + runs[count - 1].extracted;
      forall k | 0 <= k < |x|
        ensures ExtractedBySome(runs, count, x[k])
      {
        if k < |before| {
          assert x[k] == before[k] && ExtractedBySome(runs, count - 1, before[k]);
        } else {
          assert x[k] == runs[count - 1].extracted[k - |before|];
        }
      }
    }
  }

  /** Later runs only append: the effects of the first `i` runs are a
      prefix of those of the first `count`. */
  lemma {:induction false} ConcatPrefix(runs: seq<Trace>, i: nat, count: nat)
    requires i <= count <= |runs|
    ensures Concat(runs, i).log <= Concat(runs, count).log
    ensures Concat(runs, i).extracted <= Concat(runs, count).extracted
    ensures Concat(runs, i).writes <= Concat(runs, count).writes
    decreases count
  {
    if i < count {
      ConcatPrefix(runs, i, count - 1);
      ConcatStep(runs, count - 1);
    }
  }

  /** The lines of run `i` begin at `|Concat(runs, i).log|` in the log of
      all runs, before those of every later run that logs anything. */
  lemma RunLogPosition(runs: seq<Trace>, i: nat, j: nat)
    requires i < j <= |runs| && runs[i].log != []
    ensures var at := |Concat(runs, i).log|;
      at < |Concat(runs, |runs|).log| && Concat(runs, |runs|).log[at] == runs[i].log[0]
    ensures |Concat(runs, i).log| < |Concat(runs, j).log|
  {
    ConcatStep(runs, i);
    ConcatPrefix(runs, i + 1, j);
    ConcatPrefix(runs, i + 1, |runs|);
    var through := Concat(runs, i + 1).log;
    assert through[|Concat(runs, i).log|] == runs[i].log[0];
  }

  /** Where the log lines of file `i` begin in the log of the batch. */
  ghost function LogStart(folder: string, files: seq<string>, tools: seq<FileTools>, i: nat): nat
    requires |tools| == |files| && i <= |files|
  {
    |Concat(FileRuns(folder, files, tools), i).log|
  }

  /** The lines of file `i` begin with its "Processing" line, and they lie
      before those of every later file: files are processed in list order. */
  lemma BatchProcessesInOrder(folder: string, files: seq<string>, tools: seq<FileTools>, i: nat, j: nat)
    requires |tools| == |files| && i < j <= |files|
    ensures var log := BatchRun(folder, files, tools).log;
      var at := LogStart(folder, files, tools, i);
      at < |log| && log[at] == Processing(files[i])
    ensures LogStart(folder, files, tools, i) < LogStart(folder, files, tools, j)
  {
    var runs := FileRuns(folder, files, tools);
    assert runs[i] == FileRun(folder, files[i], tools[i]);
    RunLogPosition(runs, i, j);
  }

  /** Over a whole batch whose re-probes are stable, nothing is extracted
      and nothing is rewritten. */
  lemma StableBatchNeverWrites(folder: string, files: seq<string>, tools: seq<FileTools>)
    requires |tools| == |files|
    requires forall i :: 0 <= i < |files| ==> StableProbe(tools[i])
    ensures BatchRun(folder, files, tools).writes == []
    ensures BatchRun(folder, files, tools).extracted == []
  {
    var runs := FileRuns(folder, files, tools);
    forall i | 0 <= i < |files|
      ensures runs[i].writes == [] && runs[i].extracted == []
    {
      assert runs[i] == FileRun(folder, files[i], tools[i]);
      StableProbeNeverWrites(folder, files[i], tools[i]);
    }
    ConcatUntouched(runs, |files|);
  }

  /** Every rewrite of a batch is of one of its files, joined to the
      folder: no file's outcomes rewrite another file. */
  lemma BatchWritesOnlyListedFiles(folder: string, files: seq<string>, tools: seq<FileTools>)
    requires |tools| == |files|
    ensures var w := BatchRun(folder, files, tools).writes;
      forall k :: 0 <= k < |w| ==> exists i :: 0 <= i < |files| && w[k].path == PyPath.Join(folder, files[i])
  {
    var runs := FileRuns(folder, files, tools);
    var w := Concat(runs, |files|).writes;
    ConcatWritesFrom(runs, |files|, w);
    forall k | 0 <= k < |w|
      ensures exists i :: 0 <= i < |files| && w[k].path == PyPath.Join(folder, files[i])
    {
      assert WrittenBySome(runs, |files|, w[k]);
      var i, j :| 0 <= i < |files| && 0 <= j < |runs[i].writes| && w[k] == runs[i].writes[j];
      assert runs[i] == FileRun(folder, files[i], tools[i]);
      FileRunWrites(folder, files[i], tools[i]);
      assert runs[i].writes[j].path == PyPath.Join(folder, files[i]);
    }
  }

  /** Every entry a batch appends to `extracted_audio_files` is the `.wav`
      path of one of its files. */
  lemma BatchExtractsOnlyListedFiles(folder: string, files: seq<string>, tools: seq<FileTools>)
    requires |tools| == |files|
    ensures var x := BatchRun(folder, files, tools).extracted;
      forall k :: 0 <= k < |x| ==> exists i :: 0 <= i < |files| && x[k] == AudioPathFor(PyPath.Join(folder, files[i]))
  {
    var runs := FileRuns(folder, files, tools);
    var x := Concat(runs, |files|).extracted;
    ConcatExtractedFrom(runs, |files|, x);
    forall k | 0 <= k < |x|
      ensures exists i :: 0 <= i < |files| && x[k] == AudioPathFor(PyPath.Join(folder, files[i]))
    {
      assert ExtractedBySome(runs, |files|, x[k]);
      var i, j :| 0 <= i < |files| && 0 <= j < |runs[i].extracted| && x[k] == runs[i].extracted[j];
      assert runs[i] == FileRun(folder, files[i], tools[i]);
      FileRunExtracted(folder, files[i], tools[i]);
      assert runs[i].extracted[j] == AudioPathFor(PyPath.Join(folder, files[i]));
    }
  }
}
