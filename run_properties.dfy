/**
 * What a whole run does, for every behaviour of the collaborators: the exact
 * actions attempted for each way a run can end, and the guarantees that
 * follow (each failure stops the run, the merge only follows two successful
 * fetches and merges exactly the two files they wrote).
 */
module RunProperties {
  import opened Wrappers
  import opened Formats
  import opened Paths
  import opened Pipeline

  /** The directory is created first, and only when it is missing. */
  function DirActions(path: string, w: World): seq<Action>
  {
    if w.dirExists then [] else [MakeDirs(path)]
  }

  /** The listing succeeds and holds at least one video descriptor, so the
      user is asked to choose. */
  predicate OffersMenu(w: World)
  {
    w.listing.Listed? && FilterVideoFormats(w.listing.formats) != []
  }

  function Menu(w: World): seq<Descriptor>
    requires w.listing.Listed?
  {
    FilterVideoFormats(w.listing.formats)
  }

  /** The options of the video fetch in a run that offers a menu. */
  function FetchedVideoOptions(path: string, w: World): Options
    requires w.listing.Listed?
  {
    VideoOptions(path, ChooseFormat(Menu(w), w.choice))
  }

  /** Every run starts by ensuring the directory, then lists the formats. */
  lemma StartRun(url: string, path: string, w: World)
    ensures RunsAs(url, path, w, ListingFormats, DirActions(path, w))
  {
    assert RunsAs(url, path, w, EnsuringDir, []) by {
      assert [] + Run(url, path, w, EnsuringDir).0 == Run(url, path, w, EnsuringDir).0;
    }
    Advance(url, path, w, EnsuringDir, []);
    assert [] + DirActions(path, w) == DirActions(path, w);
  }

  /** A listing that raises ends the run right after the listing call. */
  lemma ListingErrorEndsRun(url: string, path: string, w: World)
    requires w.listing.ExtractionError?
    ensures Run(url, path, w, EnsuringDir) == (DirActions(path, w) + [ListFormats(url)], ListingRaised)
  {
    StartRun(url, path, w);
    Advance(url, path, w, ListingFormats, DirActions(path, w));
    Finish(url, path, w, Finished(ListingRaised), DirActions(path, w) + [ListFormats(url)]);
  }

  /** An empty listing ends the run before the filter, the menu or any fetch. */
  lemma EmptyListingEndsRun(url: string, path: string, w: World)
    requires w.listing == Listed([])
    ensures Run(url, path, w, EnsuringDir) == (DirActions(path, w) + [ListFormats(url)], NoFormats)
  {
    StartRun(url, path, w);
    Advance(url, path, w, ListingFormats, DirActions(path, w));
    Finish(url, path, w, Finished(NoFormats), DirActions(path, w) + [ListFormats(url)]);
  }

  /** A listing without any video descriptor ends the run before the menu or
      any fetch. */
  lemma NoVideoFormatsEndsRun(url: string, path: string, w: World)
    requires w.listing.Listed? && w.listing.formats != []
    requires forall d :: d in w.listing.formats ==> !IsVideo(d)
    ensures Run(url, path, w, EnsuringDir) == (DirActions(path, w) + [ListFormats(url)], NoVideoFormats)
  {
    var fs := w.listing.formats;
    var before := DirActions(path, w) + [ListFormats(url)];
    FilterEmptyIff(fs);
    StartRun(url, path, w);
    Advance(url, path, w, ListingFormats, DirActions(path, w));
    Advance(url, path, w, Filtering(fs), before);
    Finish(url, path, w, Finished(NoVideoFormats), before);
  }

  /** A run that offers a menu asks the user once and then fetches the video. */
  lemma RunReachesVideoFetch(url: string, path: string, w: World)
    requires OffersMenu(w)
    ensures RunsAs(url, path, w, FetchingVideo(FetchedVideoOptions(path, w)),
      DirActions(path, w) + [ListFormats(url), AskFormat(Menu(w))])
  {
    var fs := w.listing.formats;
    var before := DirActions(path, w) + [ListFormats(url)];
    StartRun(url, path, w);
    Advance(url, path, w, ListingFormats, DirActions(path, w));
    Advance(url, path, w, Filtering(fs), before);
    Advance(url, path, w, Selecting(Menu(w)), before);
    assert before + [AskFormat(Menu(w))] == DirActions(path, w) + [ListFormats(url), AskFormat(Menu(w))];
  }

  /** A failed video fetch ends the run: the audio fetch and the merge are
      not attempted. */
  lemma VideoFailureEndsRun(url: string, path: string, w: World)
    requires OffersMenu(w) && !w.videoFetchOk
    ensures Run(url, path, w, EnsuringDir)
      == (DirActions(path, w) + [ListFormats(url), AskFormat(Menu(w)), Download(url, FetchedVideoOptions(path, w))],
          VideoFailed)
  {
    var o := FetchedVideoOptions(path, w);
    var before := DirActions(path, w) + [ListFormats(url), AskFormat(Menu(w))];
    RunReachesVideoFetch(url, path, w);
    Advance(url, path, w, FetchingVideo(o), before);
    Finish(url, path, w, Finished(VideoFailed), before + [Download(url, o)]);
    assert before + [Download(url, o)]
        == DirActions(path, w) + [ListFormats(url), AskFormat(Menu(w)), Download(url, o)];
  }

  /** After a successful video fetch the audio is fetched with the best-audio
      spec into `audio.mp4`, whatever was selected; the option record differs
      from the video fetch's only in the spec and the output template. A
      failed audio fetch ends the run without a merge. */
  lemma AudioFailureEndsRun(url: string, path: string, w: World)
    requires OffersMenu(w) && w.videoFetchOk && !w.audioFetchOk
    ensures Run(url, path, w, EnsuringDir)
      == (DirActions(path, w) + [ListFormats(url), AskFormat(Menu(w)),
            Download(url, FetchedVideoOptions(path, w)),
            Download(url, Options("bestaudio/best", Join(path, "audio.mp4"), true, true, "C:/ffmpeg/bin/"))],
          AudioFailed)
  {
    var o := FetchedVideoOptions(path, w);
    var a := o.(format := AudioSpec, outtmpl := Join(path, AudioName));
    var before := DirActions(path, w) + [ListFormats(url), AskFormat(Menu(w))];
    RunReachesVideoFetch(url, path, w);
    Advance(url, path, w, FetchingVideo(o), before);
    Advance(url, path, w, FetchingAudio(a), before + [Download(url, o)]);
    Finish(url, path, w, Finished(AudioFailed), before + [Download(url, o)] + [Download(url, a)]);
    assert before + [Download(url, o)] + [Download(url, a)]
        == DirActions(path, w) + [ListFormats(url), AskFormat(Menu(w)), Download(url, o), Download(url, a)];
  }

  /** When both fetches succeed the run ends with one ffmpeg call on the two
      fetched files; its exit status alone decides the outcome, and a missing
      executable is an exception the run does not catch. */
  lemma MergeEndsRun(url: string, path: string, w: World)
    requires OffersMenu(w) && w.videoFetchOk && w.audioFetchOk
    ensures Run(url, path, w, EnsuringDir).0
      == DirActions(path, w) + [ListFormats(url), AskFormat(Menu(w)),
           Download(url, FetchedVideoOptions(path, w)),
           Download(url, Options("bestaudio/best", Join(path, "audio.mp4"), true, true, "C:/ffmpeg/bin/")),
           RunFfmpeg(FfmpegCommand(path))]
    ensures Run(url, path, w, EnsuringDir).1 == Merged <==> w.merge == ExitZero
    ensures Run(url, path, w, EnsuringDir).1 == MergeFailed <==> w.merge == ExitNonZero
    ensures Run(url, path, w, EnsuringDir).1 == MergeRaised <==> w.merge == FailsToStart
  {
    var o := FetchedVideoOptions(path, w);
    var a := o.(format := AudioSpec, outtmpl := Join(path, AudioName));
    var argv := FfmpegCommand(path);
    var before := DirActions(path, w) + [ListFormats(url), AskFormat(Menu(w))];
    RunReachesVideoFetch(url, path, w);
    Advance(url, path, w, FetchingVideo(o), before);
    Advance(url, path, w, FetchingAudio(a), before + [Download(url, o)]);
    Advance(url, path, w, Merging(argv), before + [Download(url, o)] + [Download(url, a)]);
    var last := Step(url, path, w, Merging(argv)).0;
    Finish(url, path, w, last, before + [Download(url, o)] + [Download(url, a)] + [RunFfmpeg(argv)]);
  }

  /** The actions of a run that does not reach the merge. */
  lemma NoMergeWithoutBothFetches(url: string, path: string, w: World)
    requires !(OffersMenu(w) && w.videoFetchOk && w.audioFetchOk)
    ensures forall a :: a in Run(url, path, w, EnsuringDir).0 ==> !a.RunFfmpeg?
  {
    match w.listing
    case ExtractionError =>
      ListingErrorEndsRun(url, path, w);
    case Listed(fs) =>
      if fs == [] {
        EmptyListingEndsRun(url, path, w);
      } else if FilterVideoFormats(fs) == [] {
        FilterEmptyIff(fs);
        NoVideoFormatsEndsRun(url, path, w);
      } else if !w.videoFetchOk {
        VideoFailureEndsRun(url, path, w);
      } else {
        AudioFailureEndsRun(url, path, w);
      }
  }

  /** Over every behaviour of the collaborators, ffmpeg runs exactly when the
      menu was offered and both fetches succeeded. */
  lemma MergeIffBothFetches(url: string, path: string, w: World)
    ensures var t := Run(url, path, w, EnsuringDir).0;
      (exists i :: 0 <= i < |t| && t[i].RunFfmpeg?) <==> OffersMenu(w) && w.videoFetchOk && w.audioFetchOk
  {
    var t := Run(url, path, w, EnsuringDir).0;
    if OffersMenu(w) && w.videoFetchOk && w.audioFetchOk {
      MergeEndsRun(url, path, w);
      assert t[|t| - 1].RunFfmpeg?;
    } else {
      NoMergeWithoutBothFetches(url, path, w);
      assert forall i :: 0 <= i < |t| ==> t[i] in t;
    }
  }

  /** Over every behaviour of the collaborators, an ffmpeg run is the last
      action of the run: nothing is attempted after the merge. */
  lemma MergeIsLast(url: string, path: string, w: World)
    ensures var t := Run(url, path, w, EnsuringDir).0;
      forall i :: 0 <= i < |t| && t[i].RunFfmpeg? ==> i == |t| - 1
  {
    var t := Run(url, path, w, EnsuringDir).0;
    if OffersMenu(w) && w.videoFetchOk && w.audioFetchOk {
      MergeEndsRun(url, path, w);
      assert forall i :: 0 <= i < |t| - 1 ==> !t[i].RunFfmpeg?;
    } else {
      NoMergeWithoutBothFetches(url, path, w);
      assert forall i :: 0 <= i < |t| ==> t[i] in t;
    }
  }

  /** Over every behaviour of the collaborators, a run that ends with ffmpeg
      has fetched the video and then the audio directly before it; ffmpeg's
      two inputs are the files those fetches wrote, and the audio fetch's
      options differ from the video fetch's only in the format spec and the
      output template. */
  lemma MergeFollowsBothFetches(url: string, path: string, w: World)
    ensures var t := Run(url, path, w, EnsuringDir).0;
      |t| > 0 && t[|t| - 1].RunFfmpeg? ==>
        && |t| >= 3
        && t[|t| - 3].Download? && t[|t| - 2].Download?
        && t[|t| - 1].argv == FfmpegCommand(path)
        && t[|t| - 1].argv[2] == t[|t| - 3].opts.outtmpl
        && t[|t| - 1].argv[4] == t[|t| - 2].opts.outtmpl
        && t[|t| - 2].opts == t[|t| - 3].opts.(format := AudioSpec, outtmpl := Join(path, AudioName))
  {
    var t := Run(url, path, w, EnsuringDir).0;
    if OffersMenu(w) && w.videoFetchOk && w.audioFetchOk {
      MergeEndsRun(url, path, w);
      var o := FetchedVideoOptions(path, w);
      var n := |t|;
      assert t[n - 3] == Download(url, o);
      assert t[n - 2] == Download(url, o.(format := AudioSpec, outtmpl := Join(path, AudioName)));
    } else if |t| > 0 {
      NoMergeWithoutBothFetches(url, path, w);
      assert t[|t| - 1] in t;
    }
  }

  /** The merge command in full, with the executable resolved under the
      hard-coded ffmpeg directory. */
  lemma FfmpegCommandExact(path: string)
    ensures FfmpegCommand(path)
      == ["C:/ffmpeg/bin/ffmpeg.exe",
          "-i", Join(path, "video.mp4"),
          "-i", Join(path, "audio.mp4"),
          "-c:v", "copy", "-c:a", "aac", "-strict", "experimental",
          Join(path, "output.mp4")]
  {
    assert FfmpegDir[|FfmpegDir| - 1] == Sep;
    assert Join(FfmpegDir, "ffmpeg.exe") == FfmpegDir + "ffmpeg.exe";
    assert FfmpegDir + "ffmpeg.exe" == "C:/ffmpeg/bin/ffmpeg.exe";
  }

  /** The video fetch's format spec is the chosen identifier with the `best`
      fallback for a number on the menu, and the literal `None/best` for any
      other number. */
  lemma VideoSpecOfChoice(menu: seq<Descriptor>, number: int)
    ensures 1 <= number <= |menu| ==> VideoSpec(ChooseFormat(menu, number)) == menu[number - 1].formatId + "/best"
    ensures !(1 <= number <= |menu|) ==> VideoSpec(ChooseFormat(menu, number)) == "None/best"
  {
  }

  /** The video fetch asks either for a video descriptor of the listing (with
      the fallback) or for `None/best`. */
  lemma VideoSpecNamesListedVideo(formats: seq<Descriptor>, number: int)
    ensures var s := VideoSpec(ChooseFormat(FilterVideoFormats(formats), number));
      s == "None/best" || exists d :: d in formats && IsVideo(d) && s == d.formatId + "/best"
  {
    ChosenFormatIsListedVideo(formats, number);
  }

  /** Under the default directory the three files are `./video.mp4`,
      `./audio.mp4` and `./output.mp4`. */
  lemma DefaultDirectoryFiles()
    ensures Join(".", VideoName) == "./video.mp4"
    ensures Join(".", AudioName) == "./audio.mp4"
    ensures Join(".", OutputName) == "./output.mp4"
  {
  }

  /** The example listing of one 1080p video stream and one audio-only stream:
      the menu shows the video stream only; number 1 selects it, number 9 is
      out of range and the video fetch falls back to `None/best`. */
  lemma ExampleSelection()
    ensures var video := Descriptor("137", "1080p", Some(1080), Some(500.0));
      var audio := Descriptor("140", "audio only", None, Some(128.0));
      && FilterVideoFormats([video, audio]) == [video]
      && ChooseFormat(FilterVideoFormats([video, audio]), 1) == Some("137")
      && VideoSpec(ChooseFormat(FilterVideoFormats([video, audio]), 9)) == "None/best"
  {
  }
}
