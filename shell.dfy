/** One pass of the interactive menu loop: its dispatch, and whether the loop
    comes back to the menu afterwards. */
module Shell {
  import opened Formats
  import opened Pipeline
  import opened RunProperties

  /** The directory the menu runs the pipeline in. */
  const DefaultPath: string := "."

  /** What one pass of the menu does. */
  datatype Command = StartDownload(url: string, path: string) | RejectEmptyUrl | Quit | RejectChoice

  /** Dispatches on the stripped menu choice; `url` is the stripped URL the
      user gives, which is only asked for under choice `1`. */
  function Dispatch(choice: string, url: string): (c: Command)
    ensures c.StartDownload? <==> choice == "1" && url != ""
    ensures c.StartDownload? ==> c.url == url && c.path == DefaultPath
    ensures c == RejectEmptyUrl <==> choice == "1" && url == ""
    ensures c == Quit <==> choice == "2"
    ensures c == RejectChoice <==> choice != "1" && choice != "2"
  {
    if choice == "1" then
      if url != "" then StartDownload(url, DefaultPath) else RejectEmptyUrl
    else if choice == "2" then Quit
    else RejectChoice
  }

  /** An outcome that is an exception nothing catches: it leaves the run, the
      menu loop and the program. */
  predicate Uncaught(o: Outcome)
  {
    o == ListingRaised || o == MergeRaised
  }

  /** Whether the menu loop comes back to the menu after command `c`, given
      the outcome `o` of the run it started (ignored for other commands). */
  predicate Continues(c: Command, o: Outcome)
  {
    match c
    case StartDownload(_, _) => !Uncaught(o)
    case Quit => false
    case _ => true
  }

  /** After choice `1` with a URL, the program goes back to the menu unless the
      listing call raised or ffmpeg failed to start after both fetches
      succeeded; every other failure returns normally to the menu. */
  lemma DownloadReturnsToMenu(url: string, w: World)
    requires url != ""
    ensures var c := Dispatch("1", url);
      Continues(c, Run(url, c.path, w, EnsuringDir).1)
      <==> !(w.listing.ExtractionError?
             || (OffersMenu(w) && w.videoFetchOk && w.audioFetchOk && w.merge == FailsToStart))
  {
    var path := DefaultPath;
    match w.listing
    case ExtractionError =>
      ListingErrorEndsRun(url, path, w);
    case Listed(fs) =>
      if fs == [] {
        EmptyListingEndsRun(url, path, w);
      } else if FilterVideoFormats(fs) == [] {
        FilterEmptyIff(fs);
        NoVideoFormatsEndsRun(url, path, w);
      } else if !w.videoFetchOk {
        VideoFailureEndsRun(url, path, w);
      } else if !w.audioFetchOk {
        AudioFailureEndsRun(url, path, w);
      } else {
        MergeEndsRun(url, path, w);
      }
  }
}
