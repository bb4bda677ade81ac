# A verified model of the video/audio downloader's decision logic

The program is an interactive command-line tool. It lists the formats a
video URL offers, keeps the video formats, lets the user pick one by number,
downloads the picked video stream and then the best audio stream into two
fixed files, and merges them with ffmpeg into a third fixed file. The
extraction and download library, the ffmpeg process, the filesystem and the
console are collaborators. The model covers the logic the program itself
owns:

- `Formats` (formats.dfy): a stream descriptor, the filter that keeps the
  descriptors whose height is present, and the resolution of a 1-based menu
  number to a format identifier.
- `Paths` (paths.dfy): `os.path.join` of two components, following the POSIX
  rules.
- `Pipeline` (pipeline.dfy): one run of `download_video_and_audio`. It is
  written as an imperative method. The method appends each attempted action to
  a trace, updates one option record in place between the two fetches, and
  returns early on each failure. Every collaborator's behaviour is fixed in
  advance in a `World`: whether the directory exists, what the listing call
  returns or whether it raises, the number the user typed, whether each fetch
  succeeds, and how ffmpeg ends. The method is proved equal to `Run`, a
  reference stage machine: ensure directory, list, filter, select, fetch
  video, fetch audio, merge, finished.
- `RunProperties` (run_properties.dfy): for every `World`, the exact trace and
  outcome of a run for each way it can end, and the guarantees that follow.
- `Shell` (shell.dfy): the dispatch of one pass of the menu loop.

The program's own messages suggest more error handling than the code has; the model follows the code:

- A listing call that raises is not caught; the run ends with the exception
  (`ListingRaised`).
- An ffmpeg that fails to start (an `OSError` such as a missing executable)
  raises an exception that the merge's handler does not catch (`MergeRaised`).
  Only a non-zero exit status is reported as a merge failure.
- The menu loop calls the pipeline outside any `try`, so these two exceptions
  end the whole program, not just the run; so does the `ValueError` of a
  non-numeric format number. `Shell.Continues` and
  `Shell.DownloadReturnsToMenu` state which runs come back to the menu.
- A menu number outside the menu does not give a clean "best" spec. The video
  fetch is asked for the literal `None/best`, because Python formats the
  missing selection as `None`.

## Model

| member | source | states |
|---|---|---|
| Formats.FilterVideoFormats | main.py:13-16 | every kept descriptor is in the listing and has a height; the result is no longer than the listing |
| Formats.FilterAppend | main.py:15 | filtering a concatenation is the concatenation of the filtered parts |
| Formats.FilterMembership | main.py:15 | a descriptor is kept if and only if it is listed and its height is present |
| Formats.VideoPositionsExact | main.py:15 | the reference positions are in range, strictly increasing, and are exactly those of the descriptors with a height |
| Formats.FilterIsVideoSubsequence | main.py:15 | the result is the subsequence of the listing at exactly the positions of the descriptors with a height, in listing order |
| Formats.FilterKeepsAllVideo | main.py:15 | a listing whose descriptors all have a height passes unchanged |
| Formats.FilterIdempotent | main.py:15 | filtering twice equals filtering once |
| Formats.FilterEmptyIff | main.py:15 | the result is empty if and only if no listed descriptor has a height |
| Formats.ChooseFormat | main.py:24-29 | a selection exists if and only if 1 <= number <= menu length, and it is then the identifier at position number - 1 |
| Formats.ChosenFormatIsListedVideo | main.py:24-26 | a selection from the filtered listing is the identifier of a listed descriptor with a height |
| Formats.EveryVideoFormatSelectable | main.py:19-26 | every listed descriptor with a height is selected by some menu number |
| Paths.JoinShape | main.py:83-85 | the name ends the joined path, and for a relative name the path is the directory followed by the name, with or without one separator between them |
| Paths.JoinSameImpliesSuffix | main.py:83-85 | two names that join to the same path under one directory are suffixes of one another |
| Paths.JoinDistinguishesNames | main.py:83-85 | names neither of which ends the other give different paths under every directory |
| Pipeline.FilesDistinct | main.py:83-85 | `video.mp4`, `audio.mp4` and `output.mp4` under any directory are three different paths |
| Paths.Join | main.py:83-85 | `os.path.join` of a directory and a name (also used at main.py:57, 75 and 88); no contract of its own, its properties are in `Paths.JoinShape` |
| Pipeline.VideoSpec | main.py:56 | the f-string `<selected>/best` with a missing selection printed as `None`; no contract of its own, its properties are in `RunProperties.VideoSpecOfChoice` |
| Pipeline.VideoOptions | main.py:55-61 | the option record of the video fetch; no contract of its own, its use and the audio fetch's changes to it are stated in `RunProperties.AudioFailureEndsRun` and `RunProperties.MergeFollowsBothFetches` |
| Pipeline.FfmpegCommand | main.py:87-95 | the command has 12 arguments, and its two inputs and its output are pairwise different files |
| Pipeline.DownloadVideoAndAudio | main.py:31-102 | the trace and outcome of the procedure (early returns, options updated in place) equal those of the reference stage machine from its first stage |
| RunProperties.StartRun | main.py:32-37 | a run first creates the directory if and only if it is missing, and then lists the formats |
| RunProperties.ListingErrorEndsRun | main.py:36-37 | a listing call that raises ends the run right after it, with an uncaught exception |
| RunProperties.EmptyListingEndsRun | main.py:37-40 | an empty listing ends the run before the filter, the menu or any fetch |
| RunProperties.NoVideoFormatsEndsRun | main.py:43-46 | a listing without a descriptor with a height ends the run before the menu or any fetch |
| RunProperties.RunReachesVideoFetch | main.py:43-61 | a listing with a video descriptor leads to one menu prompt and then the video fetch with the options built from the selection |
| RunProperties.VideoFailureEndsRun | main.py:63-69 | a failed video fetch ends the run; neither the audio fetch nor the merge is attempted |
| RunProperties.AudioFailureEndsRun | main.py:71-80 | the audio fetch uses `bestaudio/best` and `path/audio.mp4` with the other options unchanged, whatever was selected; its failure ends the run before the merge |
| RunProperties.MergeEndsRun | main.py:82-102 | after two successful fetches the run's last action is the ffmpeg command; exit 0 is success, a non-zero exit is a reported failure, a missing executable is an uncaught exception |
| RunProperties.NoMergeWithoutBothFetches | main.py:63-80 | a run in which the listing, the video fetch or the audio fetch fails never runs ffmpeg |
| RunProperties.MergeIffBothFetches | main.py:37-102 | ffmpeg runs if and only if the listing offered a video format and both fetches succeeded |
| RunProperties.MergeIsLast | main.py:97-102 | an ffmpeg run is the last action of a run, whether it succeeds or fails |
| RunProperties.MergeFollowsBothFetches | main.py:63-95 | a run ending with ffmpeg has fetched the video and then the audio directly before; ffmpeg's inputs are the files those fetches wrote, and their options differ only in format spec and output template |
| RunProperties.VideoSpecOfChoice | main.py:24-29 | the video spec is `<identifier>/best` for a number on the menu and the literal `None/best` for any other number |
| RunProperties.VideoSpecNamesListedVideo | main.py:43-56 | the video spec is `None/best` or names a listed descriptor with a height, followed by `/best` |
| RunProperties.FfmpegCommandExact | main.py:87-95 | the merge command is exactly the resolved executable, the two inputs, copy for video, AAC for audio, `-strict experimental`, and the output |
| RunProperties.DefaultDirectoryFiles | main.py:83-85 | under the default directory `.` the files are `./video.mp4`, `./audio.mp4` and `./output.mp4` |
| RunProperties.ExampleSelection | main.py:13-29 | with one 1080p stream and one audio-only stream, only the video stream is offered; number 1 selects `137`; number 9 gives `None/best` |
| Shell.Dispatch | main.py:104-123 | choice `1` with a non-empty URL starts a run in `.`; with an empty URL it is rejected; `2` quits; anything else is rejected |
| Shell.DownloadReturnsToMenu | main.py:112-116 | after choice `1` with a URL the loop comes back to the menu if and only if neither the listing call raised nor ffmpeg failed to start after two successful fetches |

`Pipeline.Run` and `Pipeline.Step` are the reference stage machine. They are
specification functions with no property of their own, so they have no row.
`Pipeline.Advance` and `Pipeline.Finish` are proof steps over that machine
(one step of `Run` unfolded, and a finished run closed off); they state
nothing about the program and have no row either.

## Left out

- Console output: every message, the rendering of the menu lines (including the `N/A` placeholders) and the debug dump of the listing.
- Console input: `input()`, the `strip()` of each answer, and the `int()` parse of the format number. The model takes the number already parsed. Non-numeric text raises `ValueError` in the program, and the model claims no fallback for it.
- The extraction and download library: `extract_info` and `download` are represented only by their outcomes in `World`. Any exception the download raises is a failed fetch. The `quiet` option of the listing call is not modelled.
- The descriptor fields that the menu reads with a hard lookup (`format_id` and `format`). A descriptor missing one would raise during display; descriptors here always carry both.
- `subprocess.run` and ffmpeg itself: only the argument vector and the three ways it can end are modelled.
- Filesystem effects: `os.path.exists` is a boolean of `World`, and `os.makedirs` is a trace action that cannot fail. The files that the fetches and the merge write are not modelled as contents.
- Paths.Join: follows POSIX joining with `/`. On Windows, `os.path.join` separates with a backslash and treats drive letters specially, so the exact file strings differ there; the ffmpeg executable string is the same on both.
- Shell.Dispatch: models one pass of the `main()` loop. The loop itself, which repeats until choice `2` or an uncaught exception, is I/O-driven and not modelled; `Shell.Continues` says only whether one pass comes back to the menu.
- Exceptions outside `Exception` (for example a keyboard interrupt during a fetch) are not modelled.
