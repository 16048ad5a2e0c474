/** The pure helpers of video_metadata_fixer.py: the file-name filter of
    `list_video_files`, the audio path of `extract_audio`, the parsing of
    ffprobe's CSV output in `check_audio_tracks` and `has_language_metadata`,
    `identify_language`, and the progress value of `process_video_files`. */
module VideoMetadataFixer {
  import opened Wrappers
  import PyStr
  import PyPath

  const AUDIO_FORMAT: string := ".wav"
  const VIDEO_EXTENSIONS: seq<string> := [".mp4", ".mkv", ".avi", ".mov"]

  // ---------------------------------------------------------------------
  // list_video_files

  /** `f.lower().endswith(VIDEO_EXTENSIONS)`: a video name ends with a dot
      and three more characters. */
  predicate IsVideoFile(name: string)
    ensures IsVideoFile(name) ==> |name| >= 4 && name[|name| - 4] == '.'
  {
    exists i :: 0 <= i < |VIDEO_EXTENSIONS| && PyStr.EndsWith(PyStr.Lower(name), VIDEO_EXTENSIONS[i])
  }

  /** Whether a name is a video does not depend on its case. */
  lemma IsVideoFileIgnoresCase(name: string)
    ensures IsVideoFile(PyStr.Lower(name)) <==> IsVideoFile(name)
  {
    PyStr.LowerIdempotent(name);
  }

  /** The list comprehension of `list_video_files`: the video names among
      the entries. */
  function ListVideoFiles(entries: seq<string>): (r: seq<string>)
    ensures |r| <= |entries|
    ensures forall i :: 0 <= i < |r| ==> IsVideoFile(r[i])
    decreases |entries|
  {
    if entries == [] then []
    else (if IsVideoFile(entries[0]) then [entries[0]] else []) + ListVideoFiles(entries[1..])
  }

  /** The filter keeps the entries that are video files, each as often as
      it occurs, and no others. */
  lemma {:induction false} ListVideoFilesKeeps(entries: seq<string>)
    ensures var r := ListVideoFiles(entries);
      forall x :: multiset(r)[x] == if IsVideoFile(x) then multiset(entries)[x] else 0
    decreases |entries|
  {
    if entries != [] {
      ListVideoFilesKeeps(entries[1..]);
      assert entries == [entries[0]] + entries[1..];
    }
  }

  /** The filter keeps the order of the listing: filtering a concatenation
      concatenates the filtered parts. */
  lemma {:induction false} ListVideoFilesAppend(a: seq<string>, b: seq<string>)
    ensures ListVideoFiles(a + b) == ListVideoFiles(a) + ListVideoFiles(b)
    decreases |a|
  {
    if a != [] {
      assert (a + b)[0] == a[0];
      assert (a + b)[1..] == a[1..] + b;
      ListVideoFilesAppend(a[1..], b);
    } else {
      assert a + b == b;
    }
  }

  /** Upper- and mixed-case extensions are recognised. */
  lemma VideoNamesAccepted()
    ensures IsVideoFile("Clip.MP4") && IsVideoFile("trip.Mov")
  {
    assert PyStr.Lower("Clip.MP4")[4..] == VIDEO_EXTENSIONS[0];
    assert PyStr.Lower("trip.Mov")[4..] == VIDEO_EXTENSIONS[3];
  }

  /** Other extensions are not, nor is a video extension followed by more
      text. */
  lemma VideoNamesRejected()
    ensures !IsVideoFile("notes.txt") && !IsVideoFile("show.mkv.part")
  {
    assert PyStr.Lower("notes.txt")[5..][0] == '.';
    assert PyStr.Lower("notes.txt")[5..][1] == 't';
    assert PyStr.Lower("show.mkv.part")[9..][0] == 'p';
  }

  // ---------------------------------------------------------------------
  // extract_audio: the audio path

  /** `os.path.splitext(video_path)[0] + AUDIO_FORMAT`: a path ending with
      `.wav`, no longer than the video path plus `.wav`. */
  function AudioPathFor(videoPath: string): (r: string)
    ensures PyStr.EndsWith(r, AUDIO_FORMAT)
    ensures |r| <= |videoPath| + |AUDIO_FORMAT|
  {
    PyPath.SplitExt(videoPath).0 + AUDIO_FORMAT
  }

  /** The audio path is the video path with its extension (if any) replaced
      by `.wav`: it ends with `.wav`, what precedes that is the video path
      up to its extension, and the directory part is kept. */
  lemma AudioPathShape(videoPath: string)
    ensures var r := AudioPathFor(videoPath);
      && videoPath == r[..|r| - |AUDIO_FORMAT|] + PyPath.SplitExt(videoPath).1
      && PyPath.DirPrefix(r) == PyPath.DirPrefix(videoPath)
  {
    var (root, ext) := PyPath.SplitExt(videoPath);
    PyPath.SplitExtShape(videoPath);
    var r := root + AUDIO_FORMAT;
    assert r[..|r| - |AUDIO_FORMAT|] == root;
    assert '/' !in AUDIO_FORMAT;
    PyPath.RFindAppend(root, AUDIO_FORMAT, '/');
    PyPath.RFindAppend(root, ext, '/');
  }

  /** A video named `dir + stem + ext`, with `ext` such as `.mp4`, gets the
      audio path `dir + stem + ".wav"`. */
  lemma AudioPathOfVideo(dir: string, stem: string, ext: string)
    requires dir == [] || dir[|dir| - 1] == '/'
    requires '/' !in stem
    requires exists k :: 0 <= k < |stem| && stem[k] != '.'
    requires |ext| >= 1 && ext[0] == '.' && '.' !in ext[1..] && '/' !in ext[1..]
    ensures AudioPathFor(dir + stem + ext) == dir + stem + AUDIO_FORMAT
  {
    PyPath.SplitExtOfNamed(dir, stem, ext);
  }

  /** A file name made only of dots before its last dot has no extension,
      so `.wav` is added to the whole path. */
  lemma AudioPathOfDotFile()
    ensures AudioPathFor("/videos/.mp4") == "/videos/.mp4.wav"
  {
    var p := "/videos/.mp4";
    assert PyPath.RFind(p, '/') == 7 by {
      assert p == "/videos/" + ".mp4";
      assert PyPath.RFind("/videos/", '/') == 7;
      PyPath.RFindAppend("/videos/", ".mp4", '/');
    }
    assert PyPath.RFind(p, '.') == 8 by {
      assert p == "/videos/." + "mp4";
      PyPath.RFindAppend("/videos/.", "mp4", '.');
    }
  }

  // ---------------------------------------------------------------------
  // check_audio_tracks and has_language_metadata: parsing ffprobe's output

  /** `result.stdout.strip().split("\n")`, the lines both probes look at. */
  function ProbeLines(stdout: string): (r: seq<string>)
    ensures |r| >= 1
  {
    PyStr.Split(PyStr.Strip(stdout), '\n')
  }

  /** The track list `check_audio_tracks` returns for a probe output: empty
      exactly when the stripped output is empty. */
  function ParseAudioStreams(stdout: string): (r: seq<string>)
    ensures r == [] <==> PyStr.Strip(stdout) == ""
  {
    var streams := ProbeLines(stdout);
    PyStr.StripShape(stdout);
    PyStr.SplitHead(PyStr.Strip(stdout), '\n');
    assert PyStr.IsSpace('\n');
    if streams[0] != "" then streams else []
  }

  /** A non-empty track list holds the lines of the stripped output, none
      containing a newline, and joined by newlines they give that output
      back. */
  lemma ParseAudioStreamsLines(stdout: string)
    ensures var r := ParseAudioStreams(stdout);
      r != [] ==>
        && (forall i :: 0 <= i < |r| ==> '\n' !in r[i])
        && PyStr.Join(r, '\n') == PyStr.Strip(stdout)
  {
    PyStr.SplitShape(PyStr.Strip(stdout), '\n');
  }

  /** `any(lang for lang in languages if lang)`. */
  function AnyNonEmpty(languages: seq<string>): bool
  {
    languages != [] && (languages[0] != "" || AnyNonEmpty(languages[1..]))
  }

  /** `AnyNonEmpty` holds exactly when some line is not empty. */
  lemma {:induction false} AnyNonEmptyIff(languages: seq<string>)
    ensures AnyNonEmpty(languages) <==> exists i :: 0 <= i < |languages| && languages[i] != ""
  {
    if languages != [] {
      AnyNonEmptyIff(languages[1..]);
      if !AnyNonEmpty(languages) {
        forall i | 0 <= i < |languages| ensures languages[i] == "" {
          if i > 0 { assert languages[i] == languages[1..][i - 1]; }
        }
      } else if languages[0] == "" {
        var j :| 0 <= j < |languages[1..]| && languages[1..][j] != "";
        assert languages[j + 1] != "";
      }
    }
  }

  /** The answer of `has_language_metadata` for a probe output: true
      exactly when the probe printed something other than whitespace,
      whether or not any stream carries a language tag. */
  function ParseHasLanguageMetadata(stdout: string): (r: bool)
    ensures r <==> PyStr.Strip(stdout) != ""
  {
    var languages := ProbeLines(stdout);
    PyStr.StripShape(stdout);
    PyStr.SplitHead(PyStr.Strip(stdout), '\n');
    assert PyStr.Strip(stdout) == "" ==> languages == [""] && languages[1..] == [];
    assert PyStr.IsSpace('\n');
    assert PyStr.Strip(stdout) != "" ==> languages[0] != "" && AnyNonEmpty(languages);
    assert PyStr.Strip(stdout) == "" ==> !AnyNonEmpty(languages[1..]) && !AnyNonEmpty(languages);
    AnyNonEmpty(languages)
  }

  /** On the same probe output, the track list is non-empty exactly when the
      language-metadata check is true. */
  lemma TracksIffLanguageMetadata(stdout: string)
    ensures ParseAudioStreams(stdout) != [] <==> ParseHasLanguageMetadata(stdout)
  {
  }

  /** What ffprobe prints for one audio stream without a language tag
      (`index` only) already counts as language metadata. */
  lemma UntaggedStreamCountsAsTagged()
    ensures ParseAudioStreams("1\n") == ["1"]
    ensures ParseHasLanguageMetadata("1\n")
  {
    assert PyStr.TrimStart("1\n") == "1\n";
    assert PyStr.TrimEnd("1\n") == "1";
    assert PyStr.Split("1", '\n') == ["1"] by { PyStr.SplitNoSep("1", '\n'); }
  }

  // ---------------------------------------------------------------------
  // identify_language

  /** `identify_language(transcription)`, where `classified` is the code
      `langid.classify` returns for the transcription: None exactly for the
      empty transcription, and the classifier's code otherwise. */
  function IdentifyLanguage(transcription: string, classified: string): (r: Option<string>)
    ensures r == None <==> transcription == ""
    ensures r != None ==> r.value == classified
  {
    if transcription != "" then Some(classified) else None
  }

  // ---------------------------------------------------------------------
  // process_video_files: the progress value

  /** `(index + 1) / len(video_files) * 100`, in exact arithmetic: a
      value in (0, 100]. */
  function Progress(index: nat, total: nat): (r: real)
    requires index < total
    ensures 0.0 < r <= 100.0
  {
    var f := (index + 1) as real / total as real;
    assert f * total as real == (index + 1) as real;
    f * 100.0
  }

  /** The progress value is 100 exactly after the last file. */
  lemma ProgressBounds(index: nat, total: nat)
    requires index < total
    ensures Progress(index, total) == 100.0 <==> index == total - 1
  {
    var f := (index + 1) as real / total as real;
    assert f * total as real == (index + 1) as real;
    assert f == 1.0 <==> index == total - 1;
  }

  /** Progress strictly increases from one file to the next. */
  lemma ProgressIncreasing(i: nat, j: nat, total: nat)
    requires i < j < total
    ensures Progress(i, total) < Progress(j, total)
  {
    var n := total as real;
    var a := (i + 1) as real / n;
    var b := (j + 1) as real / n;
    assert a * n == (i + 1) as real;
    assert b * n == (j + 1) as real;
    assert (b - a) * n == (j - i) as real;
    assert a < b;
  }

  /** The values the progress bar takes after each of the first `count`
      of `total` files. */
  function ProgressSeries(count: nat, total: nat): seq<real>
    requires count <= total
  {
    if count == 0 then [] else ProgressSeries(count - 1, total) + [Progress(count - 1, total)]
  }

  /** The i-th value of the series is the progress after file i. */
  lemma {:induction false} ProgressSeriesAt(count: nat, total: nat, i: nat)
    requires count <= total && i < count
    ensures |ProgressSeries(count, total)| == count
    ensures ProgressSeries(count, total)[i] == Progress(i, total)
    decreases count
  {
    ProgressSeriesLength(count, total);
    if i < count - 1 {
      ProgressSeriesAt(count - 1, total, i);
    }
  }

  lemma {:induction false} ProgressSeriesLength(count: nat, total: nat)
    requires count <= total
    ensures |ProgressSeries(count, total)| == count
    decreases count
  {
    if count > 0 {
      ProgressSeriesLength(count - 1, total);
    }
  }

  /** Over a whole list the series is strictly increasing and, for a
      non-empty list, ends at 100. */
  lemma ProgressSeriesShape(total: nat)
    ensures |ProgressSeries(total, total)| == total
    ensures forall i, j :: 0 <= i < j < total ==> ProgressSeries(total, total)[i] < ProgressSeries(total, total)[j]
    ensures total > 0 ==> ProgressSeries(total, total)[total - 1] == 100.0
  {
    ProgressSeriesLength(total, total);
    forall i, j | 0 <= i < j < total
      ensures ProgressSeries(total, total)[i] < ProgressSeries(total, total)[j]
    {
      ProgressSeriesAt(total, total, i);
      ProgressSeriesAt(total, total, j);
      ProgressIncreasing(i, j, total);
    }
    if total > 0 {
      ProgressSeriesAt(total, total, total - 1);
      ProgressBounds(total - 1, total);
    }
  }
}
