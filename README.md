# Video Metadata Fixer, modelled in Dafny

Video Metadata Fixer is a small desktop tool, `video_metadata_fixer.py`. It
lists the video files of a folder. For each audio track of each video it
checks with ffprobe whether the video already carries language metadata. If
it does not, the tool:

1. extracts the audio with ffmpeg;
2. transcribes the audio with a speech recogniser;
3. identifies the language of the transcript with `langid`;
4. writes the language code back into the container with ffmpeg-python.

Every step is reported in a log list box, a progress bar advances after
each file, and a message box says "Processing complete!" at the end.

This project models the core of that tool and proves properties of the model:

- **`process_video_files` and its helpers** (`show_progress`,
  `log_message`, `check_audio_tracks`, `extract_audio`, `transcribe_audio`,
  `identify_language`, `update_metadata`, `has_language_metadata`).
  - They are methods of the class `Pipeline.Fixer`. Its fields are the
    state they update in place:
    - the lines of the log list box;
    - the global `extracted_audio_files`;
    - the container rewrites performed;
    - the progress bar's value, with a ghost record of every value assigned;
    - how often the completion message was shown.
  - The file loop and the track loop are `while` loops.
  - Every method is proved to produce exactly the effects given by the pure
    functions of `PipelineSpec`: `TrackPass`, `Tracks`, `FileRun`, `BatchRun`
    and the `…Call` functions of the helpers.
- **What the external tools do is an input.** `FileTools` gives, for one
  file, the outcome of the first ffprobe run. It also gives, for the k-th
  pass of the track loop, the outcomes of:
  - the re-probe in `has_language_metadata`;
  - ffmpeg;
  - the recogniser;
  - the code `langid.classify` returns;
  - the rewrite.

  Exceptions become values (`Exception`), and each has the message
  `str(e)` would give. Log lines are a datatype, and `Text` gives each
  one's exact wording.
- **The pure helpers**, in the module `VideoMetadataFixer`:
  - the extension filter of `list_video_files`;
  - the `.wav` path of `extract_audio`;
  - the parsing of ffprobe's CSV output in both probes;
  - `identify_language`;
  - the progress value `(index + 1) / len(video_files) * 100`.
- **The Python library behaviour they rely on**:
  - `PyStr` covers `str.strip` (its full `isspace` set), `str.split` with a
    one-character separator, `str.join` and `str.endswith` exactly, and
    `str.lower` only as far as the suffix test needs (see "Left out");
  - `PyPath` covers `os.path.join` and `os.path.splitext` in their POSIX
    form, including `splitext`'s rule that leading dots of a file name do
    not start an extension.

The main consequence the proofs bring out is about the probe output. Both
`check_audio_tracks` and `has_language_metadata` strip and split the same
ffprobe output, so the track list is non-empty exactly when
`has_language_metadata` answers True (`TracksIffLanguageMetadata`).

- A stream without a language tag still prints its `index`, so it counts
  as tagged (`UntaggedStreamCountsAsTagged`).
- Therefore, whenever the re-probe prints what the first probe printed, the
  tool extracts, transcribes and rewrites nothing, for any file and any
  batch (`StableProbeNeverWrites`, `StableBatchNeverWrites`).

So a file whose streams carry no language tag is never rewritten while the
re-probe prints what the first probe printed (`UntaggedFileIsLeftAlone`). A
language is written only when a re-probe prints nothing but whitespace, or
raises, after the first probe listed tracks. `FileTools` allows such
outcomes, so that path is modelled and proved too.

Another detail the model keeps, because the code does it: the path returned
by `extract_audio` is appended to `extracted_audio_files` before
`if audio_file:` tests it. Nothing in the code ever deletes these files.

## Model

The constants `AUDIO_FORMAT` (`".wav"`) and `VIDEO_EXTENSIONS` (`.mp4`, `.mkv`, `.avi`, `.mov`) of video_metadata_fixer.py:12-13 are the constants of the same names in the module `VideoMetadataFixer`; `AudioPathFor`, `IsVideoFile` and the lemmas about them are stated with them.

| member | source | states |
|---|---|---|
| PyStr.TrimStartShape | video_metadata_fixer.py:166 | `lstrip` keeps a suffix, drops only whitespace, and what it keeps does not start with whitespace |
| PyStr.TrimEndShape | video_metadata_fixer.py:166 | `rstrip` keeps a prefix, drops only whitespace, and what it keeps does not end with whitespace |
| PyStr.IsSpace | video_metadata_fixer.py:166 | the whitespace set of `str.isspace`, which `strip()` removes at lines 166 and 247; `Strip`, `StripShape` and `ParseAudioStreams` are stated with it |
| PyStr.Strip | video_metadata_fixer.py:166 | `strip()` is no longer than its input, and a non-empty result begins and ends with a non-whitespace character |
| PyStr.StripShape | video_metadata_fixer.py:166 | `strip()` is empty exactly when the whole output is whitespace |
| PyStr.Split | video_metadata_fixer.py:166 | `split("\n")` never returns an empty list, so `audio_streams[0]` always exists |
| PyStr.SplitShape | video_metadata_fixer.py:166 | no piece of a split contains the separator, and joining the pieces with it gives the string back |
| PyStr.SplitJoin | video_metadata_fixer.py:166 | splitting a join of separator-free pieces gives the pieces back (the other half of the round trip) |
| PyStr.SplitHead | video_metadata_fixer.py:166-167 | the first piece is empty exactly when the string is empty or starts with the separator |
| PyStr.Lower | video_metadata_fixer.py:90 | the model's `lower()` maps each character to one character: `A`..`Z` become `a`..`z`, no `A`..`Z` or Kelvin sign is left, and every other character stays |
| PyStr.LowerIdempotent | video_metadata_fixer.py:90 | lower-casing an already lowered name changes nothing |
| PyStr.EndsWith | video_metadata_fixer.py:90 | `s.endswith(suffix)`: the suffix is no longer than `s` and is its last characters; `IsVideoFile` and `AudioPathFor`'s ensures use it |
| VideoMetadataFixer.IsVideoFile | video_metadata_fixer.py:90 | a name that passes the extension test ends with a dot followed by three characters |
| VideoMetadataFixer.IsVideoFileIgnoresCase | video_metadata_fixer.py:90 | a name is a video exactly when its lower-cased form is: the test is case-insensitive |
| VideoMetadataFixer.ListVideoFiles | video_metadata_fixer.py:89-91 | the comprehension returns no more names than the listing holds, and each is a video name |
| VideoMetadataFixer.ListVideoFilesKeeps | video_metadata_fixer.py:88-91 | every entry of the directory listing with a video extension is kept as often as it occurs, and nothing else is |
| VideoMetadataFixer.ListVideoFilesAppend | video_metadata_fixer.py:89-91 | the filter keeps the listing's order: filtering a concatenation concatenates the filtered parts |
| VideoMetadataFixer.VideoNamesAccepted | video_metadata_fixer.py:90 | `Clip.MP4` and `trip.Mov` are recognised as videos |
| VideoMetadataFixer.VideoNamesRejected | video_metadata_fixer.py:90 | `notes.txt` and `show.mkv.part` are not |
| PyPath.Join | video_metadata_fixer.py:102 | `os.path.join(folder, filename)` ends with the file name and starts with the folder, unless the name is absolute, in which case it is the name |
| PyPath.RFind | video_metadata_fixer.py:173 | `rfind` returns -1 or an index holding the character |
| PyPath.RFindIsLast | video_metadata_fixer.py:173 | no later index holds the character |
| PyPath.RFindAppend | video_metadata_fixer.py:173 | appending text without the character leaves `rfind` unchanged |
| PyPath.AllDotsIff | video_metadata_fixer.py:173 | the leading-dot scan of `splitext` holds exactly when the scanned range is all dots |
| PyPath.SplitExt | video_metadata_fixer.py:173 | root and extension concatenate to the path |
| PyPath.SplitExtShape | video_metadata_fixer.py:173 | the extension is empty, or a dot followed by text holding neither `.` nor `/` |
| PyPath.SplitExtOfNamed | video_metadata_fixer.py:173 | `dir + stem + ext`, with a stem that is not all dots, splits into `dir + stem` and `ext` |
| PyPath.SplitExtLeadingDots | video_metadata_fixer.py:173 | conversely, a non-empty extension starts at the last dot, after the last `/`, and the file name before it is not all dots |
| VideoMetadataFixer.AudioPathFor | video_metadata_fixer.py:173 | the audio path ends with `.wav` and is at most the video path plus `.wav` long |
| VideoMetadataFixer.AudioPathShape | video_metadata_fixer.py:173 | what precedes `.wav` in the audio path, followed by the video's extension, is the video path, and the directory is the video's |
| VideoMetadataFixer.AudioPathOfVideo | video_metadata_fixer.py:173 | `dir/stem.mp4` (any such extension) gives `dir/stem.wav` |
| VideoMetadataFixer.AudioPathOfDotFile | video_metadata_fixer.py:173 | `/videos/.mp4` has no extension and gives `/videos/.mp4.wav` |
| VideoMetadataFixer.ProbeLines | video_metadata_fixer.py:166 | the stripped and split output always has a first line |
| VideoMetadataFixer.ParseAudioStreams | video_metadata_fixer.py:166-167 | `check_audio_tracks` returns no tracks exactly when the ffprobe output is whitespace only |
| VideoMetadataFixer.ParseAudioStreamsLines | video_metadata_fixer.py:166-167 | a non-empty track list is the newline-free lines of the stripped output, and they join back into that output |
| VideoMetadataFixer.AnyNonEmpty | video_metadata_fixer.py:248 | the `any(lang for lang in languages if lang)` scan; `AnyNonEmptyIff` gives its meaning and `ParseHasLanguageMetadata` uses it |
| VideoMetadataFixer.AnyNonEmptyIff | video_metadata_fixer.py:248 | `any(lang for lang in languages if lang)` holds exactly when some line is non-empty |
| VideoMetadataFixer.ParseHasLanguageMetadata | video_metadata_fixer.py:247-248 | `has_language_metadata` answers True exactly when the ffprobe output is not whitespace only |
| VideoMetadataFixer.TracksIffLanguageMetadata | video_metadata_fixer.py:247-248 | on the same output, the track list of lines 166-167 is non-empty exactly when this check is True |
| VideoMetadataFixer.UntaggedStreamCountsAsTagged | video_metadata_fixer.py:237-248 | the output `1\n` of a stream without a language tag is one track and already counts as language metadata |
| VideoMetadataFixer.IdentifyLanguage | video_metadata_fixer.py:209-213 | None exactly for the empty transcription; otherwise the classifier's code |
| VideoMetadataFixer.Progress | video_metadata_fixer.py:131 | each progress value lies in (0, 100] |
| VideoMetadataFixer.ProgressBounds | video_metadata_fixer.py:131 | the progress value is 100 exactly after the last file |
| VideoMetadataFixer.ProgressIncreasing | video_metadata_fixer.py:131 | progress strictly increases from file to file |
| VideoMetadataFixer.ProgressSeriesAt | video_metadata_fixer.py:131 | the i-th value assigned to the bar is `(i + 1) / n * 100` |
| VideoMetadataFixer.ProgressSeriesShape | video_metadata_fixer.py:101-131 | over a whole list, the values assigned are strictly increasing, one per file, and the last is 100 |
| PipelineSpec.Message | video_metadata_fixer.py:169-223 | `str(e)` for each exception raised at lines 169, 186, 200, 203, 206 and 223 (and the uncaught ffmpeg exception's own text); `CheckAudioTracks`, `UpdateMetadataCall`, `FileRunRaised` and `FileRunErrorLine` state the messages with it |
| PipelineSpec.Text | video_metadata_fixer.py:104-250 | the exact wording of every log line: the f-strings at lines 104, 111, 119-121, 125, 127, 182, 185, 194, 196, 199, 202, 205, 221 and 250; `FileRun`'s ensures, `FileWithoutTracks` and `FileRunRaised` state lines with it |
| PipelineSpec.CheckAudioTracks | video_metadata_fixer.py:147-169 | returns a track list exactly when ffprobe ran; the list is empty exactly when the output is whitespace; otherwise the raised message is "Error checking audio tracks: " and the error |
| PipelineSpec.HasLanguageMetadataCall | video_metadata_fixer.py:226-251 | never raises; answers True exactly when ffprobe ran and printed something other than whitespace; logs one line exactly when ffprobe raised |
| PipelineSpec.ExtractAudioCall | video_metadata_fixer.py:172-186 | returns exactly when ffmpeg succeeded, and then the `.wav` path; logs one line unless an exception escaped uncaught |
| PipelineSpec.TranscribeAudioCall | video_metadata_fixer.py:189-206 | returns exactly the recogniser's transcript; logs "Transcribing audio" and one more line, except when opening or recording the file raised, which logs only the unexpected-error line |
| PipelineSpec.UpdateMetadataCall | video_metadata_fixer.py:216-223 | returns, and logs, exactly when the rewrite succeeded; otherwise raises "Error updating metadata: " and the error |
| PipelineSpec.TrackPass | video_metadata_fixer.py:110-122 | a pass that rewrites the container has first appended the video's `.wav` path to `extracted_audio_files` |
| PipelineSpec.FromExtraction | video_metadata_fixer.py:112-122 | from `extract_audio` on, a path is appended exactly when ffmpeg succeeded, and a rewrite only after that path was appended |
| PipelineSpec.FromTranscription | video_metadata_fixer.py:114-122 | from `if audio_file:` on, nothing is appended, at most one rewrite happens, and only for a non-empty path with a transcript |
| PipelineSpec.FromIdentification | video_metadata_fixer.py:116-122 | from `if transcription:` on, a rewrite happens exactly when the transcript and the code are non-empty |
| PipelineSpec.FromUpdate | video_metadata_fixer.py:118-122 | exactly one rewrite, of this video, announced by "Updating metadata"; it raises exactly when the rewrite failed |
| PipelineSpec.Tracks | video_metadata_fixer.py:109-122 | n passes of the track loop rewrite at most n times and append at most n paths |
| PipelineSpec.TracksRaisedIsFinal | video_metadata_fixer.py:106-126 | once a track pass raises, no later pass runs: the exception leaves the track loop |
| PipelineSpec.TryBlock | video_metadata_fixer.py:106-128 | a file whose probe raised or listed no tracks is neither extracted nor rewritten |
| PipelineSpec.FileRun | video_metadata_fixer.py:101-128 | each file's lines begin with "Processing <name>..." |
| PipelineSpec.FileRuns | video_metadata_fixer.py:101-128 | one run per listed file, in list order |
| PipelineSpec.BatchRun | video_metadata_fixer.py:101-128 | the loop logs at least one line per file |
| PipelineSpec.ConcatLogLength | video_metadata_fixer.py:101-104 | runs that each log a line together log at least one line per run |
| Pipeline.Fixer.constructor | video_metadata_fixer.py:16 | the log, `extracted_audio_files` and the rewrites start empty, and the progress bar at 0 |
| Pipeline.Fixer.LogMessage | video_metadata_fixer.py:142-144 | appends exactly the message to the log, and changes nothing else |
| Pipeline.Fixer.ShowProgress | video_metadata_fixer.py:137-139 | appends exactly the message to the log |
| Pipeline.Fixer.HasLanguageMetadata | video_metadata_fixer.py:226-251 | returns the parsed answer; when the probe raised, it logs the error and returns False, and it never raises |
| Pipeline.Fixer.ExtractAudio | video_metadata_fixer.py:172-186 | on success, logs and returns the `.wav` path; on a non-zero exit, logs ffmpeg's stderr and raises "Audio extraction failed"; any other exception passes through without a log line |
| Pipeline.Fixer.TranscribeAudio | video_metadata_fixer.py:189-206 | the log lines and result of each recogniser outcome, including the exceptions and their messages |
| Pipeline.Fixer.UpdateMetadata | video_metadata_fixer.py:216-223 | records the rewrite of the video with the code; logs on success, otherwise raises "Error updating metadata: …" |
| Pipeline.Fixer.ProcessTrack | video_metadata_fixer.py:110-122 | one pass of the track loop has exactly the effects and outcome of `TrackPass` |
| Pipeline.Fixer.ExtractAndRest | video_metadata_fixer.py:112-122 | from `extract_audio` on; the returned path is appended to `extracted_audio_files` before anything else |
| Pipeline.Fixer.TranscribeAndRest | video_metadata_fixer.py:114-122 | from `if audio_file:` on, the effects and outcome the transcript, the code and the rewrite give |
| Pipeline.Fixer.RunTracks | video_metadata_fixer.py:109-122 | the track loop has exactly the effects of `Tracks` and stops at the first exception |
| Pipeline.Fixer.ProcessFile | video_metadata_fixer.py:102-128 | one file has exactly the effects of `FileRun`: the "Processing" line, the try block, and the except clause's line |
| Pipeline.Fixer.UpdateProgress | video_metadata_fixer.py:131 | sets the bar to `(index + 1) / total * 100` and records that value |
| Pipeline.Fixer.ProcessOne | video_metadata_fixer.py:101-131 | one iteration of the file loop appends that file's effects and advances the bar |
| Pipeline.Fixer.ProcessVideoFiles | video_metadata_fixer.py:97-134 | the log, `extracted_audio_files` and the rewrites grow by exactly `BatchRun`; the bar takes the progress series and ends at 100 for a non-empty list; the completion message is shown exactly once |
| PipelineProperties.TrackPassWrites | video_metadata_fixer.py:110-122 | a track pass rewrites at most once: exactly when the re-probe says False, ffmpeg succeeds, and the transcript and the code are non-empty; it rewrites this video with that code |
| PipelineProperties.TrackPassExtracted | video_metadata_fixer.py:110-113 | a pass appends the `.wav` path exactly when `extract_audio` returned, and nothing when it raised |
| PipelineProperties.TrackPassRaises | video_metadata_fixer.py:110-122 | a pass raises exactly when it got past the re-probe and then ffmpeg failed, the recogniser gave no transcript, or the rewrite of a non-empty code failed |
| PipelineProperties.TrackPassLogStart | video_metadata_fixer.py:110-111 | a pass whose re-probe says True logs nothing; otherwise it logs "Extracting audio", preceded by the probe error if the re-probe raised |
| PipelineProperties.ThenKeepsPaths | video_metadata_fixer.py:109-122 | two stretches that each rewrite only one video and extract only its path do so together |
| PipelineProperties.TrackPassPaths | video_metadata_fixer.py:110-122 | a pass rewrites only this video and extracts only its `.wav` path |
| PipelineProperties.TracksPaths | video_metadata_fixer.py:109-122 | every rewrite of the track loop is of this video and every extracted path is its `.wav` path |
| PipelineProperties.TaggedPassIsSilent | video_metadata_fixer.py:110 | a pass whose re-probe says True has no effect |
| PipelineProperties.TracksAllTagged | video_metadata_fixer.py:109-110 | when every re-probe says True, the track loop has no effect |
| PipelineProperties.FileWithoutTracks | video_metadata_fixer.py:124-125 | a file whose probe printed nothing logs "No audio tracks found in <name>." and nothing else happens |
| PipelineProperties.FileWhoseProbeFailed | video_metadata_fixer.py:126-128 | a file whose first probe raised logs "Error processing …" with the "Error checking audio tracks" message, and nothing else happens |
| PipelineProperties.TrackPassNoErrorLine | video_metadata_fixer.py:110-122 | a pass of the track loop never logs the except clause's "Error processing" line |
| PipelineProperties.TracksNoErrorLine | video_metadata_fixer.py:109-122 | nor does the whole track loop |
| PipelineProperties.FileRunRaised | video_metadata_fixer.py:106-128 | an exception from the track loop ends the file's lines with "Error processing <name>: <message>", right after everything the loop logged, and nowhere else |
| PipelineProperties.TryBlockErrorLine | video_metadata_fixer.py:106-128 | the try block logs an "Error processing" line exactly when an exception reached the except clause, only as its last line, naming that exception |
| PipelineProperties.FileRunErrorLine | video_metadata_fixer.py:101-128 | the same for a file's lines: the error line appears exactly when the file raised, and only at the end |
| PipelineProperties.PrefixErrorLine | video_metadata_fixer.py:104-128 | the "Processing" line in front changes neither whether nor where an error line appears |
| PipelineProperties.FileRunWrites | video_metadata_fixer.py:107-122 | a file's rewrites are all of that file, at most one per track line, and only when the probe listed tracks |
| PipelineProperties.FileRunExtracted | video_metadata_fixer.py:107-113 | a file's extracted paths are all its `.wav` path, at most one per track line |
| PipelineProperties.StableProbeNeverWrites | video_metadata_fixer.py:107-110 | when every re-probe prints what the first probe printed, nothing is extracted or rewritten, and the file logs only "Processing" (plus "No audio tracks" for empty output) |
| PipelineProperties.UntaggedFileIsLeftAlone | video_metadata_fixer.py:107-110 | a file with one untagged stream and a stable re-probe gets its "Processing" line and nothing else |
| PipelineProperties.ConcatUntouched | video_metadata_fixer.py:101-128 | files that each extract and rewrite nothing do so together |
| PipelineProperties.ConcatWritesFrom | video_metadata_fixer.py:101-128 | every rewrite of the loop is one that some file's iteration performed |
| PipelineProperties.ConcatExtractedFrom | video_metadata_fixer.py:101-128 | every extracted path of the loop is one that some file's iteration appended |
| PipelineProperties.ConcatPrefix | video_metadata_fixer.py:101-128 | later iterations only append, to the log, to `extracted_audio_files` and to the rewrites |
| PipelineProperties.RunLogPosition | video_metadata_fixer.py:101-128 | each iteration's lines start where the earlier ones end, before those of every later iteration |
| PipelineProperties.StableBatchNeverWrites | video_metadata_fixer.py:101-122 | over a whole batch with stable re-probes, nothing is extracted or rewritten |
| PipelineProperties.BatchWritesOnlyListedFiles | video_metadata_fixer.py:101-122 | every rewrite of a batch is of one of its files, joined to the folder |
| PipelineProperties.BatchExtractsOnlyListedFiles | video_metadata_fixer.py:101-113 | every extracted path of a batch is the `.wav` path of one of its files |
| PipelineProperties.BatchProcessesInOrder | video_metadata_fixer.py:101-104 | file i's lines begin with its "Processing" line, and they come before those of every later file |

## Left out

- The tkinter window is not modelled: the folder entry, the browse dialog, the file list box, the widgets' calls and `app.mainloop()`. The folder and the list of file names are inputs of `ProcessVideoFiles`.
- The thread that keeps the window responsive is not modelled; the model runs the loop on its own.
- `os.listdir` is not modelled. Its result is the `entries` argument of `ListVideoFiles`, in whatever order the system returns.
- ffprobe, ffmpeg, the speech recogniser, `langid` and ffmpeg-python are parameters (`FileTools`). Their outcomes are chosen freely, per file and per track pass, so repeated probes of one file may disagree.
- ffmpeg's 60-second timeout is one of those outcomes: an exception that escapes `extract_audio` (`FfmpegRaised`).
- The bytes ffmpeg writes are not modelled: neither the `.wav` file nor the rewritten container. A rewrite is modelled as a record of the path, the code and whether it succeeded.
- Pipeline.Fixer.ShowProgress: does not model `progress_bar.start()`. Its ttk timer keeps stepping `progress_bar["value"]` between the assignments of line 131; those steps are not modelled, so the field `progress` is the value last assigned after a file, not what the bar shows.
- The `app.update_idletasks()` redraw and the message box's window are not modelled. The completion message is a counter.
- VideoMetadataFixer.Progress: uses exact rational arithmetic in place of floating point, so rounding of `(index + 1) / len(video_files) * 100` is not modelled.
- PyPath.Join: models the POSIX `os.path.join`. The Windows flavour, with drive letters and `\`, is not modelled.
- PyPath.SplitExt: models the POSIX `splitext`, with `/` as the only separator.
- PyStr.Lower: lower-cases `A`–`Z` and the Kelvin sign and keeps every other character, one character for one. Python's full Unicode mapping is not modelled, and neither is the length change it can cause. For the ASCII video extensions the suffix test gives the same answer: no other character lower-cases to text ending in one of the extension's characters. One example is `İ`, which becomes `i` followed by a combining dot.
- File names holding lone surrogates, which `os.listdir` can return, are not modelled: a Dafny `char` cannot hold one.
- `langid.classify` is assumed never to raise: its code is a plain string in `TrackStep`.
- The text decoding of ffprobe's output is not modelled; an error in it is one of the `ProbeFailed` outcomes.
- Deleting the extracted audio files is not modelled, because the code never does it. It only collects their paths in `extracted_audio_files`.
