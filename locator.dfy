/**
 * Reading a thread link such as `https://boards.4chan.org/wg/thread/6872254`
 * and deriving the directory the thread's files are saved in
 * (`download_thread` in src/lib.rs and in src/main.rs, before the page is
 * fetched).
 */
module Locator {
  import opened Optional
  import opened Text
  import opened Paths

  /** The link split on `/`: scheme, empty, host, board, `thread`, id, and maybe a name. */
  function Segments(link: string): seq<string>
  {
    Split(link, '/')
  }

  /** The link has the six segments the code indexes without checking. */
  predicate HasThreadSegments(link: string)
  {
    |Segments(link)| >= 6
  }

  /** Segment 3, the board. */
  function Board(link: string): (board: string)
    requires HasThreadSegments(link)
    ensures '/' !in board
  {
    Segments(link)[3]
  }

  /** Segment 5 up to its first `#`, the thread number. */
  function ThreadId(link: string): (thread: string)
    requires HasThreadSegments(link)
    ensures thread <= Segments(link)[5]
    ensures '/' !in thread && '#' !in thread
  {
    BeforeIsLongestPlainPrefix(Segments(link)[5], '#');
    Before(Segments(link)[5], '#')
  }

  /** Segment 6 up to its first `#`, present when the link has more than six segments. */
  function NamedThread(link: string): (name: Option<string>)
    requires HasThreadSegments(link)
    ensures name.Some? <==> |Segments(link)| > 6
    ensures name.Some? ==> name.value <= Segments(link)[6]
    ensures name.Some? ==> '/' !in name.value && '#' !in name.value
  {
    if |Segments(link)| > 6 then
      BeforeIsLongestPlainPrefix(Segments(link)[6], '#');
      Some(Before(Segments(link)[6], '#'))
    else None
  }

  /** `root.join(board).join(thread)`. */
  function ThreadPath(root: string, board: string, thread: string): string
  {
    Join(Join(root, board), thread)
  }

  /**
   * The thread directory name chosen by src/lib.rs: the name in segment 6
   * when a directory of that name already exists for the board under
   * `workpath/output`, the thread number otherwise.
   */
  function LibThread(link: string, workpath: string, output: string, existing: set<string>): (thread: string)
    requires HasThreadSegments(link)
    ensures '/' !in thread && '#' !in thread
    ensures thread == ThreadId(link) || NamedThread(link) == Some(thread)
  {
    var name := NamedThread(link);
    if name.Some? && ThreadPath(Join(workpath, output), Board(link), name.value) in existing then name.value
    else ThreadId(link)
  }

  /** The directory src/lib.rs saves into: `workpath/output/board/thread`. */
  function LibDirectory(link: string, workpath: string, output: string, existing: set<string>): string
    requires HasThreadSegments(link)
  {
    ThreadPath(Join(workpath, output), Board(link), LibThread(link, workpath, output, existing))
  }

  /** The root src/main.rs always saves under. */
  const DownloadsRoot: string := "downloads"

  /**
   * The thread directory name chosen by src/main.rs: the name in segment 6
   * when the `names` flag is given or a directory of that name already
   * exists for the board under `workpath/downloads`, the thread number
   * otherwise.
   */
  function MainThread(link: string, workpath: string, names: bool, existing: set<string>): (thread: string)
    requires HasThreadSegments(link)
    ensures '/' !in thread && '#' !in thread
    ensures thread == ThreadId(link) || NamedThread(link) == Some(thread)
  {
    var name := NamedThread(link);
    if name.Some? && (names || ThreadPath(Join(workpath, DownloadsRoot), Board(link), name.value) in existing) then name.value
    else ThreadId(link)
  }

  /** The directory src/main.rs saves into: `workpath/downloads/board/thread`. */
  function MainDirectory(link: string, workpath: string, names: bool, existing: set<string>): string
    requires HasThreadSegments(link)
  {
    ThreadPath(Join(workpath, DownloadsRoot), Board(link), MainThread(link, workpath, names, existing))
  }

  /** The name in segment 6 replaces the thread number exactly when its directory exists. */
  lemma LibThreadChoice(link: string, workpath: string, output: string, existing: set<string>)
    requires HasThreadSegments(link)
    ensures |Segments(link)| <= 6 ==> LibThread(link, workpath, output, existing) == ThreadId(link)
    ensures |Segments(link)| > 6 ==>
      var name := Before(Segments(link)[6], '#');
      LibThread(link, workpath, output, existing)
        == if ThreadPath(Join(workpath, output), Board(link), name) in existing then name else ThreadId(link)
  {
  }

  /**
   * Under a trimmed working directory, a trimmed relative output root and a
   * non-empty board, the directory is `workpath/output/board/thread`; an
   * absolute output root replaces the working directory.
   */
  lemma LibDirectoryLayout(link: string, workpath: string, output: string, existing: set<string>)
    requires HasThreadSegments(link)
    requires IsTrimmed(workpath) && IsTrimmed(output) && Board(link) != ""
    ensures var thread := LibThread(link, workpath, output, existing);
      LibDirectory(link, workpath, output, existing)
        == (if IsAbsolute(output) then output else workpath + "/" + output) + "/" + Board(link) + "/" + thread
  {
    var thread := LibThread(link, workpath, output, existing);
    var root := if IsAbsolute(output) then output else workpath + "/" + output;
    assert Join(workpath, output) == root;
    JoinAddsComponent(root, Board(link));
    JoinAddsComponent(root + "/" + Board(link), thread);
  }

  /**
   * Without the `names` flag src/main.rs chooses the directory src/lib.rs
   * chooses for the output root `downloads`; with it, segment 6 always wins
   * when present.
   */
  lemma MainMatchesLib(link: string, workpath: string, existing: set<string>)
    requires HasThreadSegments(link)
    ensures MainDirectory(link, workpath, false, existing) == LibDirectory(link, workpath, DownloadsRoot, existing)
    ensures |Segments(link)| > 6 ==> MainThread(link, workpath, true, existing) == Before(Segments(link)[6], '#')
  {
  }

  /** The shape of a thread link: `https://host/board/thread/id`. */
  function ThreadLink(host: string, board: string, id: string): string
  {
    "https:" + "/" + "/" + host + "/" + board + "/" + "thread" + "/" + id
  }

  /** Six `/`-free parts glued as a link split back into those parts. */
  lemma LinkSegments(scheme: string, host: string, board: string, marker: string, id: string)
    requires '/' !in scheme && '/' !in host && '/' !in board && '/' !in marker && '/' !in id
    ensures Split(scheme + "/" + "/" + host + "/" + board + "/" + marker + "/" + id, '/')
      == [scheme, "", host, board, marker, id]
  {
    var a := scheme + "/";
    var none: string := "";
    assert a + none == a;
    SplitAppend(scheme, none, '/');
    SplitPlain(scheme, '/');
    var b := a + "/" + host;
    SplitAppend(a, host, '/');
    var c := b + "/" + board;
    SplitAppend(b, board, '/');
    var d := c + "/" + marker;
    SplitAppend(c, marker, '/');
    SplitAppend(d, id, '/');
  }

  /** A thread link splits on `/` into scheme, empty, host, board, `thread` and id. */
  lemma ThreadLinkSegments(host: string, board: string, id: string)
    requires '/' !in host && '/' !in board && '/' !in id
    ensures Segments(ThreadLink(host, board, id)) == ["https:", "", host, board, "thread", id]
  {
    LinkSegments("https:", host, board, "thread", id);
  }

  /** A thread link splits into its named parts: board in segment 3, id in segment 5. */
  lemma ThreadLinkParts(host: string, board: string, id: string)
    requires '/' !in host && '/' !in board && '/' !in id
    ensures Segments(ThreadLink(host, board, id)) == ["https:", "", host, board, "thread", id]
    ensures HasThreadSegments(ThreadLink(host, board, id))
    ensures Board(ThreadLink(host, board, id)) == board
    ensures ThreadId(ThreadLink(host, board, id)) == Before(id, '#')
    ensures NamedThread(ThreadLink(host, board, id)) == None
  {
    ThreadLinkSegments(host, board, id);
  }

  /** A seventh segment after the id is the candidate thread name, cut at its `#`. */
  lemma NamedThreadLinkParts(host: string, board: string, id: string, name: string)
    requires '/' !in host && '/' !in board && '/' !in id && '/' !in name
    ensures Segments(ThreadLink(host, board, id) + "/" + name) == ["https:", "", host, board, "thread", id, name]
    ensures HasThreadSegments(ThreadLink(host, board, id) + "/" + name)
    ensures Board(ThreadLink(host, board, id) + "/" + name) == board
    ensures ThreadId(ThreadLink(host, board, id) + "/" + name) == Before(id, '#')
    ensures NamedThread(ThreadLink(host, board, id) + "/" + name) == Some(Before(name, '#'))
  {
    ThreadLinkParts(host, board, id);
    SplitAround(ThreadLink(host, board, id), name, '/');
    SplitPlain(name, '/');
  }

  /** An example thread link, `https://boards.4chan.org/wg/thread/6872254`, in its parts. */
  lemma ExampleLinkShape(link: string)
    requires link == "https://boards.4chan.org/wg/thread/6872254"
    ensures link == ThreadLink("boards.4chan.org", "wg", "6872254")
  {
    var site := "https:" + "/" + "/" + "boards.4chan.org";
    assert site == "https://boards.4chan.org";
    assert site + "/" + "wg" == "https://boards.4chan.org/wg";
    assert "https://boards.4chan.org/wg" + "/" + "thread" == "https://boards.4chan.org/wg/thread";
    assert "https://boards.4chan.org/wg/thread" + "/" + "6872254" == link;
  }

  /** The example thread link names board `wg` and thread `6872254`. */
  lemma ExampleThreadLink(link: string)
    requires link == ThreadLink("boards.4chan.org", "wg", "6872254")
    ensures HasThreadSegments(link) && Board(link) == "wg" && ThreadId(link) == "6872254"
    ensures NamedThread(link) == None
  {
    ThreadLinkParts("boards.4chan.org", "wg", "6872254");
    BeforePlain("6872254", '#');
  }

  /** Saved under `/home/anon` with output root `downloads`, its files go to `/home/anon/downloads/wg/6872254`. */
  lemma ExampleThreadDirectory(link: string, existing: set<string>)
    requires link == ThreadLink("boards.4chan.org", "wg", "6872254")
    ensures HasThreadSegments(link)
      && LibDirectory(link, "/home/anon", "downloads", existing) == "/home/anon/downloads/wg/6872254"
  {
    ExampleThreadLink(link);
    PlainLinkDirectory(link, "/home/anon", "downloads", existing);
    ExampleDirectoryText("/home/anon", "downloads", "wg", "6872254");
  }

  /** A link without a name segment is saved under its thread number. */
  lemma PlainLinkDirectory(link: string, workpath: string, output: string, existing: set<string>)
    requires HasThreadSegments(link) && NamedThread(link) == None
    requires IsTrimmed(workpath) && IsTrimmed(output) && !IsAbsolute(output) && Board(link) != ""
    ensures LibDirectory(link, workpath, output, existing) == workpath + "/" + output + "/" + Board(link) + "/" + ThreadId(link)
  {
    LibDirectoryLayout(link, workpath, output, existing);
  }

  /** The example directory written out. */
  lemma ExampleDirectoryText(workpath: string, output: string, board: string, thread: string)
    requires workpath == "/home/anon" && output == "downloads" && board == "wg" && thread == "6872254"
    ensures workpath + "/" + output + "/" + board + "/" + thread == "/home/anon/downloads/wg/6872254"
  {
  }
}
