/**
 * One run of the download pipeline for one URL and one output directory:
 * make sure the directory exists, list the formats, keep the video ones, let
 * the user pick one, fetch the picked video stream, fetch the best audio
 * stream, and merge the two files with ffmpeg. Every collaborator (the
 * filesystem check, the extraction library, the user's number, the two
 * downloads and the ffmpeg process) is an outcome fixed in advance in a
 * `World`; a run yields the actions it attempted, in order, and how it ended.
 */
module Pipeline {
  import opened Wrappers
  import opened Formats
  import opened Paths

  /** The hard-coded directory of the ffmpeg installation. */
  const FfmpegDir: string := "C:/ffmpeg/bin/"
  /** The format spec of the audio fetch, whatever was selected. */
  const AudioSpec: string := "bestaudio/best"
  const VideoName: string := "video.mp4"
  const AudioName: string := "audio.mp4"
  const OutputName: string := "output.mp4"

  /** The option dictionary handed to the download library. */
  datatype Options = Options(format: string, outtmpl: string, noplaylist: bool, verbose: bool, ffmpegLocation: string)

  /** What the listing call of the extraction library does: return the
      descriptors, or raise. */
  datatype Listing = Listed(formats: seq<Descriptor>) | ExtractionError

  /** What running ffmpeg does: exit with status 0, exit with another status,
      or fail to start (an `OSError`, such as `FileNotFoundError` for a missing
      executable or `PermissionError`), which the merge's handler does not catch. */
  datatype MergeStatus = ExitZero | ExitNonZero | FailsToStart

  /** The behaviour of every collaborator during one run. `choice` is the
      number the user typed, already parsed. */
  datatype World = World(
    dirExists: bool,
    listing: Listing,
    choice: int,
    videoFetchOk: bool,
    audioFetchOk: bool,
    merge: MergeStatus)

  /** The externally visible steps a run attempts. */
  datatype Action =
    | MakeDirs(dir: string)
    | ListFormats(url: string)
    | AskFormat(menu: seq<Descriptor>)
    | Download(url: string, opts: Options)
    | RunFfmpeg(argv: seq<string>)

  /** How a run ends. `ListingRaised` and `MergeRaised` are exceptions that
      nothing in the run catches; every other outcome is a normal return. */
  datatype Outcome =
    | ListingRaised
    | NoFormats
    | NoVideoFormats
    | VideoFailed
    | AudioFailed
    | MergeFailed
    | MergeRaised
    | Merged

  /** The video fetch's format spec: the selected identifier with the generic
      fallback. No selection is rendered as the text `None`, the way Python
      formats a missing value into a string. */
  function VideoSpec(selected: Option<string>): string
  {
    (if selected.Some? then selected.value else "None") + "/best"
  }

  /** The options of the video fetch, as first built. */
  function VideoOptions(path: string, selected: Option<string>): Options
  {
    Options(VideoSpec(selected), Join(path, VideoName), true, true, FfmpegDir)
  }

  /** The three files of a run are three different paths, whatever the directory. */
  lemma FilesDistinct(path: string)
    ensures Join(path, VideoName) != Join(path, AudioName)
    ensures Join(path, VideoName) != Join(path, OutputName)
    ensures Join(path, AudioName) != Join(path, OutputName)
  {
    assert VideoName[0] != AudioName[0];
    assert !IsSuffix(VideoName, AudioName) && !IsSuffix(AudioName, VideoName);
    JoinDistinguishesNames(path, VideoName, AudioName);
    assert OutputName[1..] != VideoName by { assert OutputName[1..][0] != VideoName[0]; }
    assert !IsSuffix(VideoName, OutputName) && !IsSuffix(OutputName, VideoName);
    JoinDistinguishesNames(path, VideoName, OutputName);
    assert OutputName[1..] != AudioName by { assert OutputName[1..][0] != AudioName[0]; }
    assert !IsSuffix(AudioName, OutputName) && !IsSuffix(OutputName, AudioName);
    JoinDistinguishesNames(path, AudioName, OutputName);
  }

  /** The ffmpeg argument vector: the executable under the ffmpeg directory,
      two inputs, copy the video stream, re-encode the audio to AAC, one
      output. Its two inputs and its output are three different files. */
  function FfmpegCommand(path: string): (argv: seq<string>)
    ensures |argv| == 12
    ensures argv[2] != argv[4] && argv[2] != argv[11] && argv[4] != argv[11]
  {
    FilesDistinct(path);
    [Join(FfmpegDir, "ffmpeg.exe"),
     "-i", Join(path, VideoName),
     "-i", Join(path, AudioName),
     "-c:v", "copy",
     "-c:a", "aac",
     "-strict", "experimental",
     Join(path, OutputName)]
  }

  /** The stages of a run, as a state machine; a reference description of the
      run, step by step, against which the straight-line procedure is proved. */
  datatype Stage =
    | EnsuringDir
    | ListingFormats
    | Filtering(formats: seq<Descriptor>)
    | Selecting(menu: seq<Descriptor>)
    | FetchingVideo(opts: Options)
    | FetchingAudio(opts: Options)
    | Merging(argv: seq<string>)
    | Finished(outcome: Outcome)

  /** Every step moves strictly closer to `Finished`. */
  function Rank(s: Stage): nat
  {
    match s
    case EnsuringDir => 7
    case ListingFormats => 6
    case Filtering(_) => 5
    case Selecting(_) => 4
    case FetchingVideo(_) => 3
    case FetchingAudio(_) => 2
    case Merging(_) => 1
    case Finished(_) => 0
  }

  /** One transition: the next stage and the actions attempted on the way. */
  function Step(url: string, path: string, w: World, s: Stage): (r: (Stage, seq<Action>))
    requires !s.Finished?
    ensures Rank(r.0) < Rank(s)
  {
    match s
    case EnsuringDir =>
      (ListingFormats, if w.dirExists then [] else [MakeDirs(path)])
    case ListingFormats =>
      var next :=
        match w.listing
        case ExtractionError => Finished(ListingRaised)
        case Listed(fs) => if fs == [] then Finished(NoFormats) else Filtering(fs);
      (next, [ListFormats(url)])
    case Filtering(fs) =>
      var menu := FilterVideoFormats(fs);
      (if menu == [] then Finished(NoVideoFormats) else Selecting(menu), [])
    case Selecting(menu) =>
      (FetchingVideo(VideoOptions(path, ChooseFormat(menu, w.choice))), [AskFormat(menu)])
    case FetchingVideo(o) =>
      var next :=
        if w.videoFetchOk then FetchingAudio(o.(format := AudioSpec, outtmpl := Join(path, AudioName)))
        else Finished(VideoFailed);
      (next, [Download(url, o)])
    case FetchingAudio(o) =>
      (if w.audioFetchOk then Merging(FfmpegCommand(path)) else Finished(AudioFailed), [Download(url, o)])
    case Merging(argv) =>
      var outcome :=
        match w.merge
        case ExitZero => Merged
        case ExitNonZero => MergeFailed
        case FailsToStart => MergeRaised;
      (Finished(outcome), [RunFfmpeg(argv)])
  }

  /** The actions attempted from stage `s` on, and the outcome reached. */
  function Run(url: string, path: string, w: World, s: Stage): (seq<Action>, Outcome)
    decreases Rank(s)
  {
    if s.Finished? then ([], s.outcome)
    else
      var step := Step(url, path, w, s);
      var rest := Run(url, path, w, step.0);
      (step.1 + rest.0, rest.1)
  }

  /** What a run from `s` adds to the actions `before` already attempted. */
  ghost predicate RunsAs(url: string, path: string, w: World, s: Stage, before: seq<Action>)
  {
    Run(url, path, w, EnsuringDir) == (before + Run(url, path, w, s).0, Run(url, path, w, s).1)
  }

  /** Moving one step forward from `s`, with `before` the actions already attempted. */
  lemma Advance(url: string, path: string, w: World, s: Stage, before: seq<Action>)
    requires !s.Finished? && RunsAs(url, path, w, s, before)
    ensures RunsAs(url, path, w, Step(url, path, w, s).0, before + Step(url, path, w, s).1)
    ensures Step(url, path, w, s).1 == [] ==> RunsAs(url, path, w, Step(url, path, w, s).0, before)
  {
    assert before + [] == before;
    var step := Step(url, path, w, s);
    var rest := Run(url, path, w, step.0).0;
    assert before + (step.1 + rest) == (before + step.1) + rest;
  }

  /** A run that has reached `Finished` has attempted exactly `before`. */
  lemma Finish(url: string, path: string, w: World, s: Stage, before: seq<Action>)
    requires s.Finished? && RunsAs(url, path, w, s, before)
    ensures Run(url, path, w, EnsuringDir) == (before, s.outcome)
  {
    assert before + [] == before;
  }

  /** Runs the pipeline: the procedure of the program, with early returns and
      one option record updated in place between the two fetches. */
  method DownloadVideoAndAudio(url: string, path: string, w: World) returns (trace: seq<Action>, outcome: Outcome)
    ensures (trace, outcome) == Run(url, path, w, EnsuringDir)
  {
    trace := [];
    ghost var stage := EnsuringDir;
    assert RunsAs(url, path, w, stage, trace) by { assert [] + Run(url, path, w, stage).0 == Run(url, path, w, stage).0; }

    Advance(url, path, w, stage, trace);
    if !w.dirExists {
      trace := trace + [MakeDirs(path)];
    }
    stage := ListingFormats;
    assert RunsAs(url, path, w, stage, trace);

    Advance(url, path, w, stage, trace);
    trace := trace + [ListFormats(url)];
    if w.listing.ExtractionError? {
      outcome := ListingRaised;
      stage := Finished(outcome);
      Finish(url, path, w, stage, trace);
      return;
    }
    var formats := w.listing.formats;
    if formats == [] {
      outcome := NoFormats;
      stage := Finished(outcome);
      Finish(url, path, w, stage, trace);
      return;
    }
    stage := Filtering(formats);
    assert RunsAs(url, path, w, stage, trace);

    Advance(url, path, w, stage, trace);
    assert trace + [] == trace;
    var videoFormats := FilterVideoFormats(formats);
    if videoFormats == [] {
      outcome := NoVideoFormats;
      stage := Finished(outcome);
      Finish(url, path, w, stage, trace);
      return;
    }
    stage := Selecting(videoFormats);
    assert RunsAs(url, path, w, stage, trace);

    Advance(url, path, w, stage, trace);
    trace := trace + [AskFormat(videoFormats)];
    var selected := ChooseFormat(videoFormats, w.choice);
    var opts := Options(VideoSpec(selected), Join(path, VideoName), true, true, FfmpegDir);
    stage := FetchingVideo(opts);
    assert RunsAs(url, path, w, stage, trace);

    Advance(url, path, w, stage, trace);
    trace := trace + [Download(url, opts)];
    if !w.videoFetchOk {
      outcome := VideoFailed;
      stage := Finished(outcome);
      Finish(url, path, w, stage, trace);
      return;
    }
    opts := opts.(format := AudioSpec);
    opts := opts.(outtmpl := Join(path, AudioName));
    stage := FetchingAudio(opts);
    assert RunsAs(url, path, w, stage, trace);

    Advance(url, path, w, stage, trace);
    trace := trace + [Download(url, opts)];
    if !w.audioFetchOk {
      outcome := AudioFailed;
      stage := Finished(outcome);
      Finish(url, path, w, stage, trace);
      return;
    }
    var command := FfmpegCommand(path);
    stage := Merging(command);
    assert RunsAs(url, path, w, stage, trace);

    Advance(url, path, w, stage, trace);
    trace := trace + [RunFfmpeg(command)];
    match w.merge {
      case ExitZero => outcome := Merged;
      case ExitNonZero => outcome := MergeFailed;
      case FailsToStart => outcome := MergeRaised;
    }
    stage := Finished(outcome);
    Finish(url, path, w, stage, trace);
  }
}
