# chan-downloader, modelled in Dafny

chan-downloader saves the images and videos of a 4chan thread into a local
directory. Given a thread link such as
`https://boards.4chan.org/wg/thread/6872254`, `download_thread` derives the
directory `<workpath>/<output>/<board>/<thread>`, creates it when missing,
fetches the thread page, finds every media link on it with one regular
expression, and saves every other match (the page names each file twice)
unless its file already exists. The repository has two versions of this
code: the library (`src/lib.rs`, output root chosen by the caller, any 2xx
reply is written, a page that cannot be fetched is reported) and the older
standalone program (`src/main.rs`, output root `downloads`, a `names` flag,
only status 200 is written, 404 and other statuses are reported, a page that
cannot be fetched ends the program).

The model is organised as the program is:

- `Text` — `str::split` on one character, the text before a separator, and
  decimal rendering of a status code.
- `Paths` — `Path::join` on Unix.
- `Locator` — splitting the thread link into segments, the board, the thread
  id, the optional thread name in segment 6, and the directory each version
  chooses.
- `Media` — the pattern
  `//i(s)?\d*\.(4cdn|4chan)\.org/\w+/(\d+\.(jpg|png|gif|webm))` as a
  datatype `MediaLink` with its rendering `Locator` (capture 1) and `FileName`
  (capture 2), a matcher `Parse` proved sound, complete and unambiguous
  against that rendering, and `Scan`, the leftmost non-overlapping scan that
  `captures_iter` performs.
- `Selection` — `step_by(2)` over the captures and the progress total
  `count() / 2`.
- `Machine` — the world: a set of existing paths, the log of requested URLs
  and the lines written to standard error (`World`), and the `Host` object
  whose methods change it; the web is a fixed function from URL to
  `Response`.
- `Save` — `save_image` of each version, as a function giving the result and
  whether the file comes to exist (`LibOutcome`, `MainOutcome`) and as a
  method on a `Host`.
- `Download` — one loop turn (`Visit`), the loop (`VisitAll`, carried out by
  the method `DownloadLinks`), the directory step, and the whole of
  `download_thread` (`Run`, carried out by `DownloadThread`).

Every `unwrap` that fails and every out-of-range index ends the Rust program;
the model records that as `panicked` in its `Progress` result rather than as
a precondition, so a link with fewer than six `/`-separated segments, a page
body that breaks off, or a file that cannot be created are all modelled
outcomes.

The loop is sequential; repeated links are avoided only by taking every
other match and by skipping files that already exist.

## Model

| member | source | states |
|---|---|---|
| Text.Split | src/lib.rs:40 | `split('/')` yields at least one piece and no piece contains the separator |
| Text.JoinSplit | src/lib.rs:40 | the pieces of a split, joined again with the separator, give back the text |
| Text.SplitJoin | src/lib.rs:40 | splitting the join of separator-free pieces gives back the pieces |
| Text.SplitCount | src/lib.rs:40 | a split has one piece more than the text has separators |
| Text.SplitAround | src/lib.rs:40 | splitting `a + sep + b` is splitting `a` followed by splitting `b` |
| Text.SplitPlain | src/lib.rs:42 | text without the separator splits into itself alone |
| Text.SplitAppend | src/lib.rs:40 | appending the separator and a separator-free piece appends that piece to the split |
| Text.BeforeIsLongestPlainPrefix | src/lib.rs:42-43 | piece 0 of `split('#')` is the longest `#`-free prefix: followed by `#` or the whole text |
| Text.BeforePlain | src/lib.rs:42-43 | piece 0 of a text without `#` is the text |
| Text.DigitChar | src/main.rs:49 | a digit value below ten maps to a character between `0` and `9` |
| Text.Decimal | src/main.rs:49 | the rendering of a status code is non-empty, all digits, and starts with `0` only for zero |
| Text.DecimalRoundTrip | src/main.rs:49 | reading the rendered digits gives back the status code |
| Paths.Join | src/lib.rs:49 | an absolute part replaces the base; otherwise the result extends the base and ends with the part |
| Paths.JoinAddsComponent | src/lib.rs:56 | joining a `/`-free part onto a trimmed base adds exactly one path segment |
| Locator.Board | src/lib.rs:40-41 | the board is segment 3 and contains no `/` |
| Locator.ThreadId | src/lib.rs:42-43 | the thread id is a prefix of segment 5 without `/` or `#` |
| Locator.NamedThread | src/lib.rs:45-47 | a thread name exists exactly when there are more than six segments, and is a `#`-free prefix of segment 6 |
| Locator.LibThread | src/lib.rs:45-54 | the directory name is the thread id or the thread name |
| Locator.LibThreadChoice | src/lib.rs:45-54 | the thread name replaces the id exactly when `workpath/output/board/name` exists |
| Locator.LibDirectory | src/lib.rs:56 | the library saves into `workpath.join(output).join(board).join(thread)` with the thread name `LibThread` chooses |
| Locator.LibDirectoryLayout | src/lib.rs:56 | the directory is `workpath/output/board/thread`, or `output/board/thread` for an absolute output root |
| Locator.PlainLinkDirectory | src/lib.rs:40-56 | a link without a seventh segment is saved in `workpath/output/board/id` |
| Locator.LinkSegments | src/lib.rs:40 | six `/`-free parts joined by `/` split back into exactly those parts |
| Locator.MainThread | src/main.rs:63-77 | the directory name is the thread id or the thread name |
| Locator.MainDirectory | src/main.rs:79 | the standalone program saves into `workpath.join("downloads").join(board).join(thread)` with the thread name `MainThread` chooses |
| Locator.MainMatchesLib | src/main.rs:68-79 | without `names` the standalone program picks the library's directory under `downloads`; with it the thread name always wins |
| Locator.ThreadLinkParts | src/lib.rs:40-43 | `https://host/board/thread/id` has six segments, board `board`, id cut at `#`, no thread name |
| Locator.NamedThreadLinkParts | src/lib.rs:45-47 | a seventh segment is the thread name cut at `#` |
| Locator.ExampleLinkShape | src/lib.rs:40 | the example link has the thread-link shape |
| Locator.ExampleThreadLink | src/lib.rs:40-43 | the example link names board `wg` and thread `6872254` |
| Locator.ExampleThreadDirectory | src/lib.rs:56 | under `/home/anon` with output root `downloads` the example thread goes to `/home/anon/downloads/wg/6872254` |
| Media.Locator | src/lib.rs:36 | capture 1 of a link: `//i`, the optional `s`, the shard digits, `.`, the host, `.org/`, the board, `/` and capture 2 |
| Media.FileName | src/lib.rs:36 | capture 2 of a link: the digit stem, `.` and the extension |
| Media.DigitRun | src/lib.rs:36 | `\d*` takes the longest run of digits |
| Media.WordRun | src/lib.rs:36 | `\w+` takes the longest run of word characters |
| Media.HostAt | src/lib.rs:36 | `4cdn` or `4chan` is recognised only where its name is present |
| Media.ExtensionAt | src/lib.rs:36 | `jpg`, `png`, `gif` or `webm` is recognised only where its name is present |
| Media.Parse | src/lib.rs:35-37 | a match is well formed and its capture 1 is a prefix of the text |
| Media.ParseLocator | src/lib.rs:35-37 | every well-formed link is matched at the start of its own rendering, whatever follows |
| Media.ParseUnique | src/lib.rs:35-37 | at a given position the pattern matches in at most one way |
| Media.LocatorInjective | src/lib.rs:35-37 | capture 1 determines every part of the link |
| Media.CaptureShape | src/lib.rs:35-37 | capture 1 starts with `//`; capture 2 ends it, holds no `/` and starts with a digit |
| Media.Scan | src/lib.rs:66 | every link reported by `captures_iter` is well formed |
| Media.ScanEmpty | src/lib.rs:66 | a page yields no links exactly when the pattern matches nowhere in it |
| Media.FirstMatch | src/lib.rs:66 | the first matching position lies within the text |
| Media.ScanLeftmost | src/lib.rs:66 | the first link is the match at the leftmost matching position and the scan resumes after its end |
| Media.ScanSkipsPlainText | src/lib.rs:66 | text without `/` contributes no match |
| Media.ScanAtLocator | src/lib.rs:66 | a locator at the start of the text is reported first |
| Media.ScanRepeatedLink | src/lib.rs:66 | a page naming one image twice yields that link twice |
| Media.MentionStep | src/lib.rs:66 | a link mentioned after `/`-free text is the next match, and the scan goes on after it |
| Media.DoubledStep | src/lib.rs:66 | a link mentioned twice, each time after the same `/`-free text, gives two matches in a row |
| Media.ScanDoubledPage | src/lib.rs:66 | a page naming each of its links twice, every mention after `/`-free text, has exactly the matches `Doubled(links)` |
| Media.DoubledPageVisitsEachOnce | src/lib.rs:66-74 | on such a page `step_by(2)` visits every link once in page order and the progress total is the number of links |
| Media.ExampleLink | src/lib.rs:36 | `//i.4cdn.org/wg/111.jpg` is a well-formed link with file name `111.jpg` |
| Selection.EveryOther | src/lib.rs:74 | `step_by(2)` keeps captures 0, 2, 4, ..., that is `(n + 1) / 2` of `n` |
| Selection.ProgressTotal | src/lib.rs:67 | the progress total is the number of matches halved and rounded down |
| Selection.VisitedAgainstTotal | src/lib.rs:67 | the visited captures equal the progress total `n / 2` for even `n` and exceed it by one for odd `n` |
| Selection.Doubled | src/lib.rs:74 | each element repeated twice in a row: twice the length, with element `k` at positions `2k` and `2k + 1` (the match sequence of a doubled page, by `Media.ScanDoubledPage`) |
| Selection.EveryOtherOfDoubled | src/main.rs:91-98 | taking every other element of a doubled sequence gives it back, and its halved length is the original length |
| Machine.Host.constructor | src/lib.rs:31 | a fresh client with the given existing paths, nothing requested and nothing reported |
| Machine.IsSuccess | src/lib.rs:23 | a status counts as success exactly when it lies between 200 and 299 |
| Machine.Host.Get | src/lib.rs:16 | a request is logged and answered by the web |
| Machine.Host.Report | src/lib.rs:83 | `eprintln!` appends one line to standard error |
| Machine.Host.Create | src/lib.rs:24 | a created path exists afterwards and nothing else changes |
| Save.LibOutcome | src/lib.rs:20-28 | a file exists exactly after a 2xx reply when it can be created; a transport error is the only error; every other reply returns the name |
| Save.MainOutcome | src/main.rs:33-52 | only status 200 writes the file; 404 gives `File not found`; any other status gives `Received response status: <code>`; a transport error ends the program |
| Save.StatusMessage | src/main.rs:49 | the report for an unexpected status: `Received response status: ` followed by the code in decimal |
| Save.StatusMessageNamesStatus | src/main.rs:49 | the status message determines the status and is never `File not found` |
| Save.LibAndMainOnStatus | src/main.rs:37-50 | both versions agree on 200 and on non-2xx files; other 2xx codes are written by the library and reported by the standalone program |
| Save.LibSaveImage | src/lib.rs:20-28 | the method returns the library outcome and changes only the request log and the saved file |
| Save.MainSaveImage | src/main.rs:33-52 | the method returns the standalone outcome and changes only the request log and the saved file |
| Download.ImagePath | src/lib.rs:75 | an image is saved at the thread directory joined with capture 2 |
| Download.ImageUrl | src/lib.rs:78 | an image is fetched from `https:` followed by capture 1 |
| Download.Visit | src/lib.rs:75-87 | one loop turn: skip an existing file; otherwise save it, report an error result as `Error: ` and the message, and end on a panic |
| Download.VisitAll | src/lib.rs:74-88 | the turns over the selected links in order, stopping at the first panic |
| Download.VisitEffect | src/lib.rs:75-85 | an existing file is neither fetched nor rewritten; an absent one is fetched once from `https:` + capture 1 and exists afterwards exactly when the response is written |
| Download.FailedSaveContinues | src/main.rs:101-111 | a failed save is reported as `Error: ...` and the loop goes on |
| Download.RepeatSkipped | src/lib.rs:75-76 | a later capture with the same file name is skipped once its file was saved |
| Download.VisitAllFrame | src/lib.rs:74-88 | the loop only adds files in the thread directory named after the links, requests only links whose files were absent, and makes one turn per link unless the program ends |
| Download.VisitAllSettles | src/main.rs:98-112 | after a loop that does not end the program, every link's file exists or its response had nothing to write |
| Download.SettledLoopIsIdle | src/lib.rs:74-88 | a loop over settled links creates nothing and does not end the program |
| Download.SecondPassAddsNothing | src/lib.rs:74-88 | a second run of the loop over the same links creates no further file |
| Download.VisitLink | src/lib.rs:75-85 | one turn of the loop method leaves the world and counters one step of the loop specification gives |
| Download.DownloadLinks | src/lib.rs:74-88 | the loop method leaves the world and counters the loop specification gives |
| Download.Prepared | src/lib.rs:56-62 | a missing directory is created, or the failure is reported as `Failed to create new directory: ` and the reason |
| Download.PreparedDirectory | src/lib.rs:56-62 | the directory exists afterwards unless it was missing and could not be created, which is reported; nothing else is created |
| Download.PrepareDirectory | src/main.rs:79-85 | the directory step changes the world as the directory specification gives |
| Download.Run | src/lib.rs:30-93 | `download_thread`: read the link, prepare the directory, request the page, then loop over every other match; a short link, an unreadable body or, in the standalone program, an unreachable page ends it |
| Download.MalformedLinkPanics | src/lib.rs:40-42 | a link with fewer than six segments ends the program before anything is touched |
| Download.LibLoadFailure | src/lib.rs:64-91 | an unreachable thread page is reported, no image is requested or saved, and the program carries on |
| Download.MainLoadFailure | src/main.rs:87-88 | an unreachable page or an unreadable body ends the program after the one page request |
| Download.LoopAfterLoad | src/lib.rs:74-88 | after the page request the loop only requests absent files of the links, only adds the directory and those files, and makes one turn per link unless the program ends |
| Download.RunWithPage | src/lib.rs:64-88 | the page is requested first, then only absent files of selected links; new paths are the directory and its files; the loop makes one turn per selected link |
| Download.PageWithOneImage | src/main.rs:87-112 | a page naming one image twice, in an existing directory, saves that image once with one loop turn |
| Download.OneImageTurn | src/main.rs:99-111 | a turn over an absent file with a readable 200 reply creates the file and requests its URL |
| Download.DownloadThread | src/lib.rs:30-93 | the method leaves the world and counters the specification of `download_thread` gives |
| Download.LibDownloadThread | src/lib.rs:30-93 | `download_thread` of the library, saving under `workpath/output` |
| Download.MainDownloadThread | src/main.rs:54-114 | `download_thread` of the standalone program, saving under `workpath/downloads` |

## Left out

- HTTP: the bytes of responses are not modelled. A reply's body is either read completely or breaks off; for an image, breaking off is where `io::copy` fails after `File::create`, for the page where `text()` fails.
- Run: the web is a fixed function, so the same URL always gets the same response.
- The filesystem is a set of path strings: `exists`, `create_dir_all` and `File::create` are membership, insertion and the existence of the thread directory; `create_dir_all` does not add the ancestor directories to the set, paths are not normalised (`.`, `..`, repeated `/`), and files and directories are not told apart.
- Download.Visit: `File::create` is assumed to succeed exactly when the thread directory exists (the same assumption is made in `Download.VisitLink`); the save functions take this as their `canCreate` parameter, and permissions and other failures are not modelled.
- `env::current_dir()` is the `workpath` parameter; its failure is not modelled.
- `create_dir_all`'s failure is the `mkdirError` parameter, the message its error displays.
- `img_path.to_str().unwrap()` never fails, since paths are strings.
- `TempDir::new` in src/main.rs:34-41 is assumed to succeed; the temporary path it builds is never used.
- The progress bar (`indicatif`): only its position (the loop-turn counter) and its total (`Selection.ProgressTotal`) are modelled; styling, messages and `finish_with_message` are not.
- `main()` in src/main.rs:20-27, the command-line parsing of src/bin.rs and `Client::new` are not part of this model.
- Media.Parse: `\d` and `\w` are ASCII digits and ASCII letters, digits and `_`; Rust's Unicode classes are wider.
- The compilation of the regular expression (`Regex::new(..).unwrap()`) always succeeds for this fixed pattern and is not modelled.
- The thread id is not checked to be numeric, as in the code.
- Paths.Join: Unix semantics only.
