/**
 * `download_thread` in its two versions: derive the thread directory,
 * create it when missing, fetch the thread page, and save every other
 * media link found on it into the directory, skipping files that already
 * exist. `Run` is the whole effect on the world as a function; `Visit` and
 * `VisitAll` are one and all turns of the download loop; the methods carry
 * them out on a `Host`.
 */
module Download {
  import opened Optional
  import opened Paths
  import opened Locator
  import Media
  import opened Selection
  import opened Machine
  import opened Save

  /** Which program runs: src/lib.rs with its output root, or src/main.rs with its `names` flag. */
  datatype Variant = Library(output: string) | Standalone(names: bool)

  /** `save_image` of the running program. */
  function Outcome(v: Variant, resp: Response, name: string, canCreate: bool): Effect
  {
    match v
    case Library(_) => LibOutcome(resp, name, canCreate)
    case Standalone(_) => MainOutcome(resp, name, canCreate)
  }

  /** A response that makes `save_image` neither write a file nor end the program. */
  predicate Quiet(v: Variant, resp: Response)
  {
    match v
    case Library(_) => !(resp.Reply? && IsSuccess(resp.status))
    case Standalone(_) => resp.Reply? && resp.status != 200
  }

  /** The URL a link is fetched from: `https:` and the whole capture. */
  function ImageUrl(m: Media.MediaLink): string
  {
    "https:" + Media.Locator(m)
  }

  /** The path a link is saved to: the directory joined with the file-name capture. */
  function ImagePath(dir: string, m: Media.MediaLink): string
  {
    Join(dir, Media.FileName(m))
  }

  /** The world, the number of loop turns completed (the progress bar's position), and whether the program ended. */
  datatype Progress = Progress(world: World, visited: nat, panicked: bool)

  /**
   * One turn of the download loop: an existing file is skipped; otherwise
   * the image is fetched and saved (the file can be created when the thread
   * directory exists), and an error result is reported as `Error: ...`.
   */
  function Visit(v: Variant, web: string -> Response, dir: string, p: Progress, m: Media.MediaLink): Progress
  {
    var path := ImagePath(dir, m);
    if path in p.world.paths then p.(visited := p.visited + 1)
    else
      var e := Outcome(v, web(ImageUrl(m)), path, dir in p.world.paths);
      var w := AfterSave(p.world, ImageUrl(m), path, e);
      match e.result
      case Crashed => Progress(w, p.visited, true)
      case Failed(message) => Progress(w.(stderr := w.stderr + ["Error: " + message]), p.visited + 1, false)
      case Returned(_) => Progress(w, p.visited + 1, false)
  }

  /** The loop over `links`, stopping when the program ends. */
  function VisitAll(v: Variant, web: string -> Response, dir: string, p: Progress, links: seq<Media.MediaLink>): Progress
    decreases |links|
  {
    if p.panicked || links == [] then p
    else VisitAll(v, web, dir, Visit(v, web, dir, p, links[0]), links[1..])
  }

  /** The path of one of `links` in `dir`. */
  predicate IsImagePathOf(dir: string, links: seq<Media.MediaLink>, path: string)
  {
    exists m <- links :: path == ImagePath(dir, m)
  }

  /** The URL of one of `links` whose file was absent from `paths`. */
  predicate IsFetchOf(dir: string, links: seq<Media.MediaLink>, paths: set<string>, url: string)
  {
    exists m <- links :: url == ImageUrl(m) && ImagePath(dir, m) !in paths
  }

  /** The file of `m` exists, or its response leaves nothing to write. */
  predicate Settled(v: Variant, web: string -> Response, dir: string, paths: set<string>, m: Media.MediaLink)
  {
    ImagePath(dir, m) in paths || Quiet(v, web(ImageUrl(m)))
  }

  /**
   * One turn: an existing file is neither fetched nor rewritten; an absent
   * one is fetched once, comes to exist exactly when the response is
   * written, and a quiet response writes nothing and does not end the
   * program; exactly an error result adds its `Error: ` line to standard error.
   */
  lemma VisitEffect(v: Variant, web: string -> Response, dir: string, p: Progress, m: Media.MediaLink)
    ensures var r := Visit(v, web, dir, p, m); var path := ImagePath(dir, m);
      && (path in p.world.paths ==> r == p.(visited := p.visited + 1))
      && (path !in p.world.paths ==>
            && r.world.requests == p.world.requests + [ImageUrl(m)]
            && (r.world.paths == p.world.paths || r.world.paths == p.world.paths + {path})
            && (path in r.world.paths <==> Outcome(v, web(ImageUrl(m)), path, dir in p.world.paths).created)
            && (r.panicked <==> Outcome(v, web(ImageUrl(m)), path, dir in p.world.paths).result.Crashed?)
            && (var result := Outcome(v, web(ImageUrl(m)), path, dir in p.world.paths).result;
                r.world.stderr == if result.Failed? then p.world.stderr + ["Error: " + result.message] else p.world.stderr)
            && (Quiet(v, web(ImageUrl(m))) ==> !r.panicked && r.world.paths == p.world.paths)
            && (!r.panicked ==> Settled(v, web, dir, r.world.paths, m)))
  {
  }

  /** A failed save is reported and the loop goes on. */
  lemma FailedSaveContinues(v: Variant, web: string -> Response, dir: string, p: Progress, m: Media.MediaLink)
    requires ImagePath(dir, m) !in p.world.paths
    requires Outcome(v, web(ImageUrl(m)), ImagePath(dir, m), dir in p.world.paths).result.Failed?
    ensures var r := Visit(v, web, dir, p, m);
      var message := Outcome(v, web(ImageUrl(m)), ImagePath(dir, m), dir in p.world.paths).result.message;
      !r.panicked && r.visited == p.visited + 1 && r.world.paths == p.world.paths
      && r.world.stderr == p.world.stderr + ["Error: " + message]
  {
  }

  /** A link met again after its file was saved is skipped without a second request. */
  lemma RepeatSkipped(v: Variant, web: string -> Response, dir: string, p: Progress, m: Media.MediaLink, n: Media.MediaLink)
    requires Media.FileName(m) == Media.FileName(n)
    requires !Visit(v, web, dir, p, m).panicked && !Quiet(v, web(ImageUrl(m)))
    ensures var q := Visit(v, web, dir, p, m);
      Visit(v, web, dir, q, n) == q.(visited := q.visited + 1)
  {
  }

  /**
   * Over the whole loop, files and requests are only added; every new file
   * is the path of one of the links; every new request is the URL of a link
   * whose file was absent before the loop; and the loop completes one turn
   * per link unless the program ends.
   */
  lemma {:induction false} VisitAllFrame(v: Variant, web: string -> Response, dir: string, p: Progress, links: seq<Media.MediaLink>)
    requires !p.panicked
    ensures var r := VisitAll(v, web, dir, p, links);
      && p.world.paths <= r.world.paths
      && p.world.requests <= r.world.requests
      && p.world.stderr <= r.world.stderr
      && (forall path <- r.world.paths - p.world.paths :: IsImagePathOf(dir, links, path))
      && (forall k :: |p.world.requests| <= k < |r.world.requests| ==> IsFetchOf(dir, links, p.world.paths, r.world.requests[k]))
      && (!r.panicked ==> r.visited == p.visited + |links|)
      && (r.panicked ==> p.visited <= r.visited < p.visited + |links|)
    decreases |links|
  {
    if links != [] {
      var m := links[0];
      var q := Visit(v, web, dir, p, m);
      VisitEffect(v, web, dir, p, m);
      var r := VisitAll(v, web, dir, p, links);
      if q.panicked {
        assert r == q;
        forall k | |p.world.requests| <= k < |r.world.requests|
          ensures IsFetchOf(dir, links, p.world.paths, r.world.requests[k])
        {
          assert r.world.requests[k] == ImageUrl(m);
        }
        forall path <- r.world.paths - p.world.paths ensures IsImagePathOf(dir, links, path) {
          assert path == ImagePath(dir, m);
        }
      } else {
        VisitAllFrame(v, web, dir, q, links[1..]);
        assert r == VisitAll(v, web, dir, q, links[1..]);
        forall path <- r.world.paths - p.world.paths ensures IsImagePathOf(dir, links, path) {
          if path in q.world.paths {
            assert path == ImagePath(dir, m);
          } else {
            assert IsImagePathOf(dir, links[1..], path);
            var n :| n in links[1..] && path == ImagePath(dir, n);
            assert n in links;
          }
        }
        forall k | |p.world.requests| <= k < |r.world.requests|
          ensures IsFetchOf(dir, links, p.world.paths, r.world.requests[k])
        {
          if k < |q.world.requests| {
            assert q.world.requests[k] == r.world.requests[k];
            assert r.world.requests[k] == ImageUrl(m);
          } else {
            assert IsFetchOf(dir, links[1..], q.world.paths, r.world.requests[k]);
            var n :| n in links[1..] && r.world.requests[k] == ImageUrl(n) && ImagePath(dir, n) !in q.world.paths;
            assert n in links;
          }
        }
      }
    }
  }

  /** When the loop does not end the program, every link is settled: its file exists, or its response had nothing to write. */
  lemma {:induction false} VisitAllSettles(v: Variant, web: string -> Response, dir: string, p: Progress, links: seq<Media.MediaLink>)
    requires !p.panicked
    ensures var r := VisitAll(v, web, dir, p, links);
      !r.panicked ==> forall m <- links :: Settled(v, web, dir, r.world.paths, m)
    decreases |links|
  {
    if links != [] {
      var m := links[0];
      var q := Visit(v, web, dir, p, m);
      VisitEffect(v, web, dir, p, m);
      if !q.panicked {
        VisitAllSettles(v, web, dir, q, links[1..]);
        VisitAllFrame(v, web, dir, q, links[1..]);
        var r := VisitAll(v, web, dir, q, links[1..]);
        assert r == VisitAll(v, web, dir, p, links);
        if !r.panicked {
          forall n <- links ensures Settled(v, web, dir, r.world.paths, n) {
            if n != m {
              assert n in links[1..];
            }
          }
        }
      }
    }
  }

  /**
   * When every link is already settled, the loop creates no file and does
   * not end the program: it only fetches again the links whose responses
   * had nothing to write.
   */
  lemma {:induction false} SettledLoopIsIdle(v: Variant, web: string -> Response, dir: string, p: Progress, links: seq<Media.MediaLink>)
    requires !p.panicked
    requires forall m <- links :: Settled(v, web, dir, p.world.paths, m)
    ensures var r := VisitAll(v, web, dir, p, links);
      !r.panicked && r.world.paths == p.world.paths && r.visited == p.visited + |links|
    decreases |links|
  {
    if links != [] {
      var m := links[0];
      var q := Visit(v, web, dir, p, m);
      VisitEffect(v, web, dir, p, m);
      assert Settled(v, web, dir, p.world.paths, m);
      forall n <- links[1..] ensures Settled(v, web, dir, q.world.paths, n) {
        assert n in links;
      }
      SettledLoopIsIdle(v, web, dir, q, links[1..]);
    }
  }

  /**
   * Running the loop a second time over the same links, after a first run
   * that did not end the program, creates no further file.
   */
  lemma SecondPassAddsNothing(v: Variant, web: string -> Response, dir: string, p: Progress, links: seq<Media.MediaLink>)
    requires !p.panicked
    requires !VisitAll(v, web, dir, p, links).panicked
    ensures var first := VisitAll(v, web, dir, p, links);
      var second := VisitAll(v, web, dir, first, links);
      !second.panicked && second.world.paths == first.world.paths
  {
    VisitAllSettles(v, web, dir, p, links);
    SettledLoopIsIdle(v, web, dir, VisitAll(v, web, dir, p, links), links);
  }

  /** The download loop: `for cap in links_iter.step_by(2)` over the selected links. */
  method DownloadLinks(host: Host, v: Variant, dir: string, links: seq<Media.MediaLink>) returns (visited: nat, panicked: bool)
    modifies host
    ensures Progress(host.State(), visited, panicked)
      == VisitAll(v, host.web, dir, Progress(old(host.State()), 0, false), links)
  {
    visited, panicked := 0, false;
    var i := 0;
    while i < |links|
      invariant i <= |links|
      invariant VisitAll(v, host.web, dir, Progress(host.State(), visited, false), links[i..])
        == VisitAll(v, host.web, dir, Progress(old(host.State()), 0, false), links)
    {
      assert links[i..][0] == links[i] && links[i..][1..] == links[i + 1..];
      visited, panicked := VisitLink(host, v, dir, links[i], visited);
      if panicked {
        return;
      }
      i := i + 1;
    }
  }

  /** One turn of the loop: skip an existing file, otherwise fetch, save and report. */
  method VisitLink(host: Host, v: Variant, dir: string, m: Media.MediaLink, visited: nat) returns (next: nat, panicked: bool)
    modifies host
    ensures Progress(host.State(), next, panicked)
      == Visit(v, host.web, dir, Progress(old(host.State()), visited, false), m)
  {
    next, panicked := visited + 1, false;
    var path := ImagePath(dir, m);
    if path !in host.paths {
      var canCreate := dir in host.paths;
      var r;
      if v.Library? {
        r := LibSaveImage(host, ImageUrl(m), path, canCreate);
      } else {
        r := MainSaveImage(host, ImageUrl(m), path, canCreate);
      }
      if r.Crashed? {
        return visited, true;
      }
      if r.Failed? {
        host.Report("Error: " + r.message);
      }
    }
  }

  /** The thread directory of the running program. */
  function ThreadDirectory(v: Variant, link: string, workpath: string, existing: set<string>): string
    requires HasThreadSegments(link)
  {
    match v
    case Library(output) => LibDirectory(link, workpath, output, existing)
    case Standalone(names) => MainDirectory(link, workpath, names, existing)
  }

  /** The message printed when `create_dir_all` fails. */
  function DirectoryFailure(reason: string): string
  {
    "Failed to create new directory: " + reason
  }

  /**
   * The world after the directory step: a missing directory is created
   * unless `create_dir_all` fails with `mkdirError`, which is reported.
   */
  function Prepared(w: World, dir: string, mkdirError: Option<string>): World
  {
    if dir in w.paths then w
    else match mkdirError
      case None => w.(paths := w.paths + {dir})
      case Some(reason) => w.(stderr := w.stderr + [DirectoryFailure(reason)])
  }

  /**
   * After the directory step the directory exists unless it was missing and
   * could not be created, in which case the failure is reported; no other
   * path appears and nothing is requested.
   */
  lemma PreparedDirectory(w: World, dir: string, mkdirError: Option<string>)
    ensures var r := Prepared(w, dir, mkdirError);
      && (dir in r.paths <==> dir in w.paths || mkdirError.None?)
      && (dir !in r.paths ==> r.stderr == w.stderr + [DirectoryFailure(mkdirError.value)])
      && r.paths - w.paths <= {dir} && w.paths <= r.paths
      && r.requests == w.requests
  {
  }

  /** The directory step of `download_thread`. */
  method PrepareDirectory(host: Host, dir: string, mkdirError: Option<string>)
    modifies host
    ensures host.State() == Prepared(old(host.State()), dir, mkdirError)
  {
    if dir !in host.paths {
      match mkdirError
      case None =>
        host.Create(dir);
      case Some(reason) =>
        host.Report(DirectoryFailure(reason));
    }
  }

  /**
   * The whole of `download_thread` as a function of the world it starts in:
   * a link with fewer than six segments ends the program at once; then the
   * directory step, the request for the thread page, and the loop over
   * every other link on it. A page that cannot be fetched is reported by
   * src/lib.rs and ends src/main.rs; a page whose body breaks off ends
   * both.
   */
  function Run(v: Variant, web: string -> Response, w: World, link: string, workpath: string, mkdirError: Option<string>): Progress
  {
    if !HasThreadSegments(link) then Progress(w, 0, true)
    else
      var dir := ThreadDirectory(v, link, workpath, w.paths);
      var prepared := Prepared(w, dir, mkdirError);
      var loaded := prepared.(requests := prepared.requests + [link]);
      match web(link)
      case TransportError(reason) =>
        if v.Library? then Progress(loaded.(stderr := loaded.stderr + ["Error: " + reason]), 0, false)
        else Progress(loaded, 0, true)
      case Reply(_, None) => Progress(loaded, 0, true)
      case Reply(_, Some(page)) => VisitAll(v, web, dir, Progress(loaded, 0, false), EveryOther(Media.Scan(page)))
  }

  /** A link without the six segments the code indexes ends the program before anything is touched. */
  lemma MalformedLinkPanics(v: Variant, web: string -> Response, w: World, link: string, workpath: string, mkdirError: Option<string>)
    requires !HasThreadSegments(link)
    ensures Run(v, web, w, link, workpath, mkdirError) == Progress(w, 0, true)
  {
  }

  /**
   * src/lib.rs, thread page unreachable: the error is reported after the
   * directory step, nothing else is requested, no image is saved, and the
   * program carries on.
   */
  lemma LibLoadFailure(output: string, web: string -> Response, w: World, link: string, workpath: string, mkdirError: Option<string>)
    requires HasThreadSegments(link) && web(link).TransportError?
    ensures var r := Run(Library(output), web, w, link, workpath, mkdirError);
      var prepared := Prepared(w, LibDirectory(link, workpath, output, w.paths), mkdirError);
      && !r.panicked && r.visited == 0
      && r.world.paths == prepared.paths
      && r.world.requests == w.requests + [link]
      && r.world.stderr == prepared.stderr + ["Error: " + web(link).reason]
  {
  }

  /**
   * src/main.rs, thread page unreachable or its body unreadable: the
   * program ends after the directory step and the one request for the page.
   */
  lemma MainLoadFailure(names: bool, web: string -> Response, w: World, link: string, workpath: string, mkdirError: Option<string>)
    requires HasThreadSegments(link) && (web(link).TransportError? || web(link).body.None?)
    ensures var r := Run(Standalone(names), web, w, link, workpath, mkdirError);
      var prepared := Prepared(w, MainDirectory(link, workpath, names, w.paths), mkdirError);
      && r.panicked && r.visited == 0
      && r.world == prepared.(requests := w.requests + [link])
  {
  }

  /**
   * With a readable thread page: the page is requested first; afterwards
   * only image URLs of the selected links are requested, each for a file
   * absent at that point; the only new paths are the thread directory and
   * files in it named after the selected links; and unless the program
   * ends, one loop turn is made per selected link, one more than the
   * progress total when the number of matches is odd.
   */
  lemma RunWithPage(v: Variant, web: string -> Response, w: World, link: string, workpath: string, mkdirError: Option<string>, page: string)
    requires HasThreadSegments(link) && web(link).Reply? && web(link).body == Some(page)
    ensures var r := Run(v, web, w, link, workpath, mkdirError);
      var dir := ThreadDirectory(v, link, workpath, w.paths);
      var links := EveryOther(Media.Scan(page));
      && |r.world.requests| > |w.requests|
      && r.world.requests[..|w.requests| + 1] == w.requests + [link]
      && (forall k :: |w.requests| < k < |r.world.requests| ==> IsFetchOf(dir, links, w.paths, r.world.requests[k]))
      && w.paths <= r.world.paths
      && (forall path <- r.world.paths - w.paths :: path == dir || IsImagePathOf(dir, links, path))
      && (!r.panicked ==> r.visited == |links| == ProgressTotal(|Media.Scan(page)|) + |Media.Scan(page)| % 2)
      && (!r.panicked ==> forall m <- links :: Settled(v, web, dir, r.world.paths, m))
  {
    var dir := ThreadDirectory(v, link, workpath, w.paths);
    var prepared := Prepared(w, dir, mkdirError);
    PreparedDirectory(w, dir, mkdirError);
    var loaded := prepared.(requests := prepared.requests + [link]);
    var links := EveryOther(Media.Scan(page));
    assert Run(v, web, w, link, workpath, mkdirError) == VisitAll(v, web, dir, Progress(loaded, 0, false), links);
    LoopAfterLoad(v, web, dir, w, loaded, link, links);
    VisitedAgainstTotal(Media.Scan(page));
  }

  /**
   * The loop that follows the page request, started from a world that
   * differs from `w` by at most the directory and the page request.
   */
  lemma LoopAfterLoad(v: Variant, web: string -> Response, dir: string, w: World, loaded: World, link: string, links: seq<Media.MediaLink>)
    requires w.paths <= loaded.paths && loaded.paths - w.paths <= {dir}
    requires loaded.requests == w.requests + [link]
    ensures var r := VisitAll(v, web, dir, Progress(loaded, 0, false), links);
      && |r.world.requests| > |w.requests|
      && r.world.requests[..|w.requests| + 1] == w.requests + [link]
      && (forall k :: |w.requests| < k < |r.world.requests| ==> IsFetchOf(dir, links, w.paths, r.world.requests[k]))
      && w.paths <= r.world.paths
      && (forall path <- r.world.paths - w.paths :: path == dir || IsImagePathOf(dir, links, path))
      && (!r.panicked ==> r.visited == |links|)
      && (!r.panicked ==> forall m <- links :: Settled(v, web, dir, r.world.paths, m))
  {
    var p := Progress(loaded, 0, false);
    VisitAllFrame(v, web, dir, p, links);
    VisitAllSettles(v, web, dir, p, links);
    var r := VisitAll(v, web, dir, p, links);
    assert r.world.requests[..|loaded.requests|] == loaded.requests;
    forall k | |w.requests| < k < |r.world.requests|
      ensures IsFetchOf(dir, links, w.paths, r.world.requests[k])
    {
      assert IsFetchOf(dir, links, loaded.paths, r.world.requests[k]);
      var m :| m in links && r.world.requests[k] == ImageUrl(m) && ImagePath(dir, m) !in loaded.paths;
    }
    forall path <- r.world.paths - w.paths ensures path == dir || IsImagePathOf(dir, links, path) {
      if path in loaded.paths {
        assert path in loaded.paths - w.paths;
      } else {
        assert IsImagePathOf(dir, links, path);
      }
    }
  }

  /**
   * The usual thread page, which names each image twice: with the thread
   * directory in place, the image is fetched once and saved once, and the
   * loop makes one turn.
   */
  lemma PageWithOneImage(v: Variant, web: string -> Response, w: World, link: string, workpath: string, mkdirError: Option<string>,
                         m: Media.MediaLink, a: string, b: string, c: string, data: string)
    requires HasThreadSegments(link) && Media.WellFormed(m)
    requires '/' !in a && '/' !in b && '/' !in c
    requires web(link).Reply? && web(link).body == Some(a + Media.Locator(m) + b + Media.Locator(m) + c)
    requires web(ImageUrl(m)) == Reply(200, Some(data))
    requires var dir := ThreadDirectory(v, link, workpath, w.paths);
      dir in w.paths && ImagePath(dir, m) !in w.paths
    ensures var dir := ThreadDirectory(v, link, workpath, w.paths);
      Run(v, web, w, link, workpath, mkdirError)
        == Progress(World(w.paths + {ImagePath(dir, m)}, w.requests + [link, ImageUrl(m)], w.stderr), 1, false)
  {
    var dir := ThreadDirectory(v, link, workpath, w.paths);
    var page := a + Media.Locator(m) + b + Media.Locator(m) + c;
    Media.ScanRepeatedLink(m, a, b, c);
    assert EveryOther(Media.Scan(page)) == [m];
    var p := Progress(w.(requests := w.requests + [link]), 0, false);
    assert Run(v, web, w, link, workpath, mkdirError) == VisitAll(v, web, dir, p, [m]);
    OneImageTurn(v, web, dir, p, m, data);
  }

  /** One turn over a link whose file is absent from an existing directory and whose image reads completely. */
  lemma OneImageTurn(v: Variant, web: string -> Response, dir: string, p: Progress, m: Media.MediaLink, data: string)
    requires !p.panicked && dir in p.world.paths && ImagePath(dir, m) !in p.world.paths
    requires web(ImageUrl(m)) == Reply(200, Some(data))
    ensures VisitAll(v, web, dir, p, [m])
      == Progress(p.world.(paths := p.world.paths + {ImagePath(dir, m)}, requests := p.world.requests + [ImageUrl(m)]), p.visited + 1, false)
  {
    assert [m][1..] == [];
  }

  /** `download_thread` for either program. */
  method DownloadThread(host: Host, v: Variant, link: string, workpath: string, mkdirError: Option<string>)
    returns (visited: nat, panicked: bool)
    modifies host
    ensures Progress(host.State(), visited, panicked) == Run(v, host.web, old(host.State()), link, workpath, mkdirError)
  {
    if !HasThreadSegments(link) {
      return 0, true;
    }
    var dir := ThreadDirectory(v, link, workpath, host.paths);
    PrepareDirectory(host, dir, mkdirError);
    var page := host.Get(link);
    match page
    case TransportError(reason) =>
      if v.Library? {
        host.Report("Error: " + reason);
        return 0, false;
      }
      return 0, true;
    case Reply(_, body) =>
      if body.None? {
        return 0, true;
      }
      visited, panicked := DownloadLinks(host, v, dir, EveryOther(Media.Scan(body.value)));
  }

  /** `download_thread` of src/lib.rs, saving under `workpath/output`. */
  method LibDownloadThread(host: Host, link: string, workpath: string, output: string, mkdirError: Option<string>)
    returns (visited: nat, panicked: bool)
    modifies host
    ensures Progress(host.State(), visited, panicked)
      == Run(Library(output), host.web, old(host.State()), link, workpath, mkdirError)
  {
    visited, panicked := DownloadThread(host, Library(output), link, workpath, mkdirError);
  }

  /** `download_thread` of src/main.rs, saving under `workpath/downloads`. */
  method MainDownloadThread(host: Host, link: string, workpath: string, names: bool, mkdirError: Option<string>)
    returns (visited: nat, panicked: bool)
    modifies host
    ensures Progress(host.State(), visited, panicked)
      == Run(Standalone(names), host.web, old(host.State()), link, workpath, mkdirError)
  {
    visited, panicked := DownloadThread(host, Standalone(names), link, workpath, mkdirError);
  }
}
