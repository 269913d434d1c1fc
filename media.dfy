/**
 * The media-link pattern of src/lib.rs and src/main.rs,
 *
 *   (//i(?:s)?\d*\.(?:4cdn|4chan)\.org/\w+/(\d+\.(?:jpg|png|gif|webm)))
 *
 * matched by hand. Group 1 is the whole protocol-relative locator, group 2
 * the file name at its end. A match is described by a `MediaLink` value, the
 * parts the pattern leaves free; `Locator` and `FileName` render the two
 * groups. `Parse` matches at the start of a text and `Scan` finds the
 * leftmost, non-overlapping matches of a whole page, as `captures_iter` does.
 */
module Media {
  import opened Optional
  import opened Selection

  // Character classes, restricted to ASCII.
  predicate IsDigit(c: char) { '0' <= c <= '9' }
  predicate IsWordChar(c: char) { IsDigit(c) || 'a' <= c <= 'z' || 'A' <= c <= 'Z' || c == '_' }
  predicate AllDigits(s: string) { forall i :: 0 <= i < |s| ==> IsDigit(s[i]) }
  predicate AllWordChars(s: string) { forall i :: 0 <= i < |s| ==> IsWordChar(s[i]) }

  datatype Host = Cdn | Chan
  datatype Extension = Jpg | Png | Gif | Webm

  /**
   * The free parts of one match: whether the `s` after `//i` is there, the
   * digits before the first dot, the host, the board (`\w+`), and the file
   * stem (`\d+`) and extension.
   */
  datatype MediaLink = MediaLink(secure: bool, shard: string, host: Host, board: string, stem: string, ext: Extension)

  function HostName(h: Host): string
  {
    match h
    case Cdn => "4cdn"
    case Chan => "4chan"
  }

  function ExtensionName(e: Extension): string
  {
    match e
    case Jpg => "jpg"
    case Png => "png"
    case Gif => "gif"
    case Webm => "webm"
  }

  /** The parts satisfy the character classes and repetition counts of the pattern. */
  predicate WellFormed(m: MediaLink)
  {
    AllDigits(m.shard) && |m.board| > 0 && AllWordChars(m.board) && |m.stem| > 0 && AllDigits(m.stem)
  }

  /** Group 2: `\d+\.(jpg|png|gif|webm)`. */
  function FileName(m: MediaLink): string
  {
    m.stem + "." + ExtensionName(m.ext)
  }

  /** The text after `.org/`: `\w+/` and the file name. */
  function BoardPath(m: MediaLink): string
  {
    m.board + "/" + FileName(m)
  }

  /** The text after the dot that follows the shard digits. */
  function HostPath(m: MediaLink): string
  {
    HostName(m.host) + ".org/" + BoardPath(m)
  }

  /** The shard digits, a dot and the host path. */
  function DigitsPath(m: MediaLink): string
  {
    m.shard + "." + HostPath(m)
  }

  /** The text after `//i`: the optional `s` and the digits path. */
  function ShardPath(m: MediaLink): string
  {
    (if m.secure then "s" else "") + DigitsPath(m)
  }

  /** Group 1: the whole match. */
  function Locator(m: MediaLink): string
  {
    "//i" + ShardPath(m)
  }

  /** Length of the longest run of digits at the start of `t` (`\d*`, greedy). */
  function DigitRun(t: string): (n: nat)
    ensures n <= |t|
    ensures forall i :: 0 <= i < n ==> IsDigit(t[i])
    ensures n < |t| ==> !IsDigit(t[n])
    decreases |t|
  {
    if |t| > 0 && IsDigit(t[0]) then 1 + DigitRun(t[1..]) else 0
  }

  /** Length of the longest run of word characters at the start of `t` (`\w+`, greedy). */
  function WordRun(t: string): (n: nat)
    ensures n <= |t|
    ensures forall i :: 0 <= i < n ==> IsWordChar(t[i])
    ensures n < |t| ==> !IsWordChar(t[n])
    decreases |t|
  {
    if |t| > 0 && IsWordChar(t[0]) then 1 + WordRun(t[1..]) else 0
  }

  /** The alternation `4cdn|4chan` at the start of `t`. */
  function HostAt(t: string): (h: Option<Host>)
    ensures h.Some? ==> HostName(h.value) <= t
  {
    if "4cdn" <= t then Some(Cdn) else if "4chan" <= t then Some(Chan) else None
  }

  /** The alternation `jpg|png|gif|webm` at the start of `t`. */
  function ExtensionAt(t: string): (e: Option<Extension>)
    ensures e.Some? ==> ExtensionName(e.value) <= t
  {
    if "jpg" <= t then Some(Jpg)
    else if "png" <= t then Some(Png)
    else if "gif" <= t then Some(Gif)
    else if "webm" <= t then Some(Webm)
    else None
  }

  lemma PrefixConcat(a: string, b: string, t: string)
    requires a <= t && b <= t[|a|..]
    ensures a + b <= t
  {
    assert t[..|a| + |b|] == t[..|a|] + t[|a|..][..|b|];
  }

  /** `\d+\.(jpg|png|gif|webm)` at the start of `t`, completing the given parts. */
  function ParseFile(t: string, secure: bool, shard: string, host: Host, board: string): (r: Option<MediaLink>)
    ensures r.Some? ==> (r.value.secure == secure && r.value.shard == shard && r.value.host == host
      && r.value.board == board && |r.value.stem| > 0 && AllDigits(r.value.stem) && FileName(r.value) <= t)
  {
    var n := DigitRun(t);
    if n == 0 || n == |t| || t[n] != '.' then None
    else
      match ExtensionAt(t[n + 1..])
      case None => None
      case Some(e) =>
        var m := MediaLink(secure, shard, host, board, t[..n], e);
        PrefixConcat(t[..n], ".", t);
        PrefixConcat(t[..n] + ".", ExtensionName(e), t);
        Some(m)
  }

  /** `\w+/` and the file name at the start of `t`. */
  function ParseBoardPath(t: string, secure: bool, shard: string, host: Host): (r: Option<MediaLink>)
    ensures r.Some? ==> (r.value.secure == secure && r.value.shard == shard && r.value.host == host
      && |r.value.board| > 0 && AllWordChars(r.value.board) && |r.value.stem| > 0 && AllDigits(r.value.stem)
      && BoardPath(r.value) <= t)
  {
    var n := WordRun(t);
    if n == 0 || n == |t| || t[n] != '/' then None
    else
      match ParseFile(t[n + 1..], secure, shard, host, t[..n])
      case None => None
      case Some(m) =>
        PrefixConcat(t[..n], "/", t);
        PrefixConcat(t[..n] + "/", FileName(m), t);
        Some(m)
  }

  /** `(4cdn|4chan)\.org/` and the board path at the start of `t`. */
  function ParseHostPath(t: string, secure: bool, shard: string): (r: Option<MediaLink>)
    ensures r.Some? ==> (r.value.secure == secure && r.value.shard == shard
      && |r.value.board| > 0 && AllWordChars(r.value.board) && |r.value.stem| > 0 && AllDigits(r.value.stem)
      && HostPath(r.value) <= t)
  {
    match HostAt(t)
    case None => None
    case Some(h) =>
      var k := |HostName(h)|;
      if !(".org/" <= t[k..]) then None
      else
        match ParseBoardPath(t[k + 5..], secure, shard, h)
        case None => None
        case Some(m) =>
          PrefixConcat(HostName(h), ".org/", t);
          PrefixConcat(HostName(h) + ".org/", BoardPath(m), t);
          Some(m)
  }

  /** `\d*\.` and the host path at the start of `t`. */
  function ParseDigitsPath(t: string, secure: bool): (r: Option<MediaLink>)
    ensures r.Some? ==> (r.value.secure == secure && WellFormed(r.value) && DigitsPath(r.value) <= t)
  {
    var n := DigitRun(t);
    if n == |t| || t[n] != '.' then None
    else
      match ParseHostPath(t[n + 1..], secure, t[..n])
      case None => None
      case Some(m) =>
        DigitsPathFound(t, n, secure, m);
        Some(m)
  }

  /** What the digits stage returns is well-formed and its text begins `t`. */
  lemma DigitsPathFound(t: string, n: nat, secure: bool, m: MediaLink)
    requires n == DigitRun(t) && n < |t| && t[n] == '.'
    requires ParseHostPath(t[n + 1..], secure, t[..n]) == Some(m)
    ensures m.secure == secure && WellFormed(m) && DigitsPath(m) <= t
  {
    assert AllDigits(m.shard);
    PrefixConcat(t[..n], ".", t);
    PrefixConcat(t[..n] + ".", HostPath(m), t);
  }

  /** `s?` and the digits path at the start of `t`. */
  function ParseShardPath(t: string): (r: Option<MediaLink>)
    ensures r.Some? ==> WellFormed(r.value) && ShardPath(r.value) <= t
  {
    if |t| > 0 && t[0] == 's' then
      match ParseDigitsPath(t[1..], true)
      case None => None
      case Some(m) =>
        PrefixConcat("s", DigitsPath(m), t);
        Some(m)
    else ParseDigitsPath(t, false)
  }

  /**
   * The pattern matched at the start of `t`: the parts of the match, or
   * `None` when `t` does not begin with a match. What is returned is
   * well-formed and its locator is a prefix of `t`.
   */
  function Parse(t: string): (r: Option<MediaLink>)
    ensures r.Some? ==> WellFormed(r.value) && Locator(r.value) <= t
  {
    if !("//i" <= t) then None
    else
      match ParseShardPath(t[3..])
      case None => None
      case Some(m) =>
        PrefixConcat("//i", ShardPath(m), t);
        Some(m)
  }

  /** The greedy digit run stops exactly where the digits end. */
  lemma {:induction false} DigitRunOf(s: string, rest: string)
    requires AllDigits(s)
    requires |rest| > 0 ==> !IsDigit(rest[0])
    ensures DigitRun(s + rest) == |s|
    decreases |s|
  {
    if |s| > 0 {
      assert (s + rest)[1..] == s[1..] + rest;
      DigitRunOf(s[1..], rest);
    }
  }

  /** The greedy word run stops exactly where the word characters end. */
  lemma {:induction false} WordRunOf(s: string, rest: string)
    requires AllWordChars(s)
    requires |rest| > 0 ==> !IsWordChar(rest[0])
    ensures WordRun(s + rest) == |s|
    decreases |s|
  {
    if |s| > 0 {
      assert (s + rest)[1..] == s[1..] + rest;
      WordRunOf(s[1..], rest);
    }
  }

  /** The host alternatives are prefix-free, so the one present is the one found. */
  lemma HostAtOf(h: Host, rest: string)
    ensures HostAt(HostName(h) + rest) == Some(h)
  {
    var t := HostName(h) + rest;
    assert t[..|HostName(h)|] == HostName(h);
    if h == Chan {
      assert t[2] == 'h';
    }
  }

  /** The extension alternatives are prefix-free, so the one present is the one found. */
  lemma ExtensionAtOf(e: Extension, rest: string)
    ensures ExtensionAt(ExtensionName(e) + rest) == Some(e)
  {
    var t := ExtensionName(e) + rest;
    assert t[..|ExtensionName(e)|] == ExtensionName(e);
    assert t[0] == ExtensionName(e)[0];
  }

  /** After a digit run and a dot, the file stage reads the extension. */
  lemma FileStep(stem: string, x: string, e: Extension, secure: bool, shard: string, host: Host, board: string)
    requires |stem| > 0 && AllDigits(stem) && ExtensionAt(x) == Some(e)
    ensures ParseFile(stem + "." + x, secure, shard, host, board) == Some(MediaLink(secure, shard, host, board, stem, e))
  {
    var t := stem + "." + x;
    var n := |stem|;
    assert t == stem + ("." + x);
    DigitRunOf(stem, "." + x);
    assert t[..n] == stem && t[n] == '.' && t[n + 1..] == x;
    FileFound(t, n, e, secure, shard, host, board);
  }

  /** The file stage succeeds where a digit run is followed by a dot and an extension. */
  lemma FileFound(t: string, n: nat, e: Extension, secure: bool, shard: string, host: Host, board: string)
    requires 0 < n < |t| && DigitRun(t) == n && t[n] == '.' && ExtensionAt(t[n + 1..]) == Some(e)
    ensures ParseFile(t, secure, shard, host, board) == Some(MediaLink(secure, shard, host, board, t[..n], e))
  {
  }

  lemma ParseFileOf(m: MediaLink, rest: string)
    requires |m.stem| > 0 && AllDigits(m.stem)
    ensures ParseFile(FileName(m) + rest, m.secure, m.shard, m.host, m.board) == Some(m)
  {
    var x := ExtensionName(m.ext) + rest;
    ExtensionAtOf(m.ext, rest);
    assert FileName(m) + rest == m.stem + "." + x;
    FileStep(m.stem, x, m.ext, m.secure, m.shard, m.host, m.board);
  }

  /** After a word run and a `/`, the board stage hands over to the file stage. */
  lemma BoardStep(board: string, f: string, secure: bool, shard: string, host: Host)
    requires |board| > 0 && AllWordChars(board)
    requires |f| > 0 && IsDigit(f[0])
    ensures ParseBoardPath(board + "/" + f, secure, shard, host) == ParseFile(f, secure, shard, host, board)
  {
    var u := "/" + f;
    var t := board + u;
    assert board + "/" + f == t;
    WordRunOf(board, u);
    assert t[..|board|] == board;
    assert t[|board|] == '/';
    assert t[|board| + 1..] == f;
  }

  lemma ParseBoardPathOf(m: MediaLink, rest: string)
    requires WellFormed(m)
    ensures ParseBoardPath(BoardPath(m) + rest, m.secure, m.shard, m.host) == Some(m)
  {
    var f := FileName(m) + rest;
    assert f[0] == m.stem[0];
    assert BoardPath(m) + rest == m.board + "/" + f;
    BoardStep(m.board, f, m.secure, m.shard, m.host);
    ParseFileOf(m, rest);
  }

  /** After the host name and `.org/`, the host stage hands over to the board stage. */
  lemma HostStep(h: Host, b: string, secure: bool, shard: string)
    ensures ParseHostPath(HostName(h) + ".org/" + b, secure, shard) == ParseBoardPath(b, secure, shard, h)
  {
    var u := ".org/" + b;
    var t := HostName(h) + u;
    assert HostName(h) + ".org/" + b == t;
    HostAtOf(h, u);
    var k := |HostName(h)|;
    assert t[k..] == u;
    assert ".org/" <= t[k..];
    assert t[k..][5..] == b;
    assert t[k + 5..] == b;
  }

  lemma ParseHostPathOf(m: MediaLink, rest: string)
    requires WellFormed(m)
    ensures ParseHostPath(HostPath(m) + rest, m.secure, m.shard) == Some(m)
  {
    var b := BoardPath(m) + rest;
    assert HostPath(m) + rest == HostName(m.host) + ".org/" + b;
    HostStep(m.host, b, m.secure, m.shard);
    ParseBoardPathOf(m, rest);
  }

  /** After a digit run and a dot, the digits stage hands over to the host stage. */
  lemma DigitsStep(shard: string, h: string, secure: bool)
    requires AllDigits(shard)
    ensures ParseDigitsPath(shard + "." + h, secure) == ParseHostPath(h, secure, shard)
  {
    var u := "." + h;
    var t := shard + u;
    assert shard + "." + h == t;
    DigitRunOf(shard, u);
    assert t[..|shard|] == shard;
    assert t[|shard|] == '.';
    assert t[|shard| + 1..] == h;
  }

  lemma ParseDigitsPathOf(m: MediaLink, rest: string)
    requires WellFormed(m)
    ensures ParseDigitsPath(DigitsPath(m) + rest, m.secure) == Some(m)
  {
    var h := HostPath(m) + rest;
    assert DigitsPath(m) + rest == m.shard + "." + h;
    DigitsStep(m.shard, h, m.secure);
    ParseHostPathOf(m, rest);
  }

  /** The optional `s` is consumed exactly when present, given that the digits path cannot start with `s`. */
  lemma ShardStep(secure: bool, d: string)
    requires |d| > 0 ==> d[0] != 's'
    ensures ParseShardPath((if secure then "s" else "") + d) == ParseDigitsPath(d, secure)
  {
    if secure {
      assert ("s" + d)[1..] == d;
    } else {
      var none: string := "";
      assert none + d == d;
    }
  }

  /** The digits path of a well-formed link starts with a digit or the dot. */
  lemma DigitsPathLead(m: MediaLink, rest: string)
    requires WellFormed(m)
    ensures |DigitsPath(m) + rest| > 0 && (DigitsPath(m) + rest)[0] != 's'
  {
    var d := DigitsPath(m) + rest;
    if |m.shard| > 0 { assert d[0] == m.shard[0]; } else { assert d[0] == '.'; }
  }

  lemma ParseShardPathOf(m: MediaLink, rest: string)
    requires WellFormed(m)
    ensures ParseShardPath(ShardPath(m) + rest) == Some(m)
  {
    ParseDigitsPathOf(m, rest);
    var d := DigitsPath(m) + rest;
    DigitsPathLead(m, rest);
    ShardStep(m.secure, d);
    var lead := if m.secure then "s" else "";
    assert ShardPath(m) == lead + DigitsPath(m);
    ConcatAssoc(lead, DigitsPath(m), rest);
  }

  /** Concatenation is associative. */
  lemma ConcatAssoc(a: string, b: string, c: string)
    ensures (a + b) + c == a + (b + c)
  {
  }

  /**
   * Every well-formed link is matched where its locator starts, whatever
   * follows it: the matcher finds exactly the parts the locator was built
   * from.
   */
  lemma ParseLocator(m: MediaLink, rest: string)
    requires WellFormed(m)
    ensures Parse(Locator(m) + rest) == Some(m)
  {
    var t := Locator(m) + rest;
    assert t == "//i" + (ShardPath(m) + rest);
    assert t[3..] == ShardPath(m) + rest;
    ParseShardPathOf(m, rest);
  }

  /**
   * At any position the pattern matches in at most one way: any well-formed
   * link whose locator begins the text is the one `Parse` returns.
   */
  lemma ParseUnique(t: string, m: MediaLink)
    requires WellFormed(m) && Locator(m) <= t
    ensures Parse(t) == Some(m)
  {
    assert t == Locator(m) + t[|Locator(m)|..];
    ParseLocator(m, t[|Locator(m)|..]);
  }

  /** Distinct well-formed links have distinct locators. */
  lemma LocatorInjective(m1: MediaLink, m2: MediaLink)
    requires WellFormed(m1) && WellFormed(m2) && Locator(m1) == Locator(m2)
    ensures m1 == m2
  {
    ParseUnique(Locator(m1), m1);
    ParseUnique(Locator(m1), m2);
  }

  /**
   * Both groups of a match: the locator starts with `//`, and the file name
   * ends it and holds no `/`, so it names a file inside a directory.
   */
  lemma CaptureShape(m: MediaLink)
    requires WellFormed(m)
    ensures "//" <= Locator(m)
    ensures |FileName(m)| < |Locator(m)|
    ensures Locator(m)[|Locator(m)| - |FileName(m)|..] == FileName(m)
    ensures '/' !in FileName(m)
    ensures IsDigit(FileName(m)[0])
  {
    var lead := LocatorLead(m);
    EndsWith(lead, FileName(m));
    FileShape(m.stem, ExtensionName(m.ext));
  }

  /** The locator is a lead starting with `//i` followed by the file name. */
  lemma LocatorLead(m: MediaLink) returns (lead: string)
    ensures Locator(m) == lead + FileName(m) && |lead| > 0 && "//" <= lead
  {
    lead := "//i" + (if m.secure then "s" else "") + (m.shard + ".") + (HostName(m.host) + ".org/") + (m.board + "/");
    Regroup5("//i", if m.secure then "s" else "", m.shard + ".", HostName(m.host) + ".org/", m.board + "/", FileName(m));
  }

  /** `f` is the last `|f|` characters of `lead + f`. */
  lemma EndsWith(lead: string, f: string)
    ensures (lead + f)[|lead + f| - |f|..] == f
  {
  }

  /** A digit stem, a dot and a separator-free extension make a separator-free name led by a digit. */
  lemma FileShape(stem: string, x: string)
    requires |stem| > 0 && AllDigits(stem) && '/' !in x
    ensures '/' !in stem + "." + x && IsDigit((stem + "." + x)[0])
  {
    var f := stem + "." + x;
    assert forall i :: 0 <= i < |stem| ==> f[i] == stem[i];
    assert forall i :: |stem| < i < |f| ==> f[i] == x[i - |stem| - 1];
  }

  /** Concatenation regrouped to the left. */
  lemma Regroup5(a: string, b: string, c: string, d: string, e: string, f: string)
    ensures a + (b + (c + (d + (e + f)))) == a + b + c + d + e + f
  {
  }

  /**
   * The links of a page in the order `captures_iter` reports them: the
   * leftmost match, then the matches in the text after its end.
   */
  function Scan(t: string): (links: seq<MediaLink>)
    ensures forall m <- links :: WellFormed(m)
    decreases |t|
  {
    if |t| == 0 then []
    else
      match Parse(t)
      case Some(m) => [m] + Scan(t[|Locator(m)|..])
      case None => Scan(t[1..])
  }

  /** No match starts at any position of `t`. */
  predicate NoMatch(t: string)
  {
    forall p :: 0 <= p <= |t| ==> Parse(t[p..]).None?
  }

  /** A page with no match anywhere yields no links, and only such a page does. */
  lemma {:induction false} ScanEmpty(t: string)
    ensures Scan(t) == [] <==> NoMatch(t)
    decreases |t|
  {
    assert t[0..] == t;
    if |t| > 0 {
      ScanEmpty(t[1..]);
      if Parse(t).None? {
        assert Scan(t) == Scan(t[1..]);
        if NoMatch(t[1..]) {
          forall p | 1 <= p <= |t| ensures Parse(t[p..]).None? {
            assert t[p..] == t[1..][p - 1..];
          }
        }
        if NoMatch(t) {
          forall p | 0 <= p <= |t[1..]| ensures Parse(t[1..][p..]).None? {
            assert t[1..][p..] == t[p + 1..];
          }
        }
      }
    }
  }

  /** The first position of `t` where a match starts, or `|t|` when there is none. */
  function FirstMatch(t: string): (p: nat)
    ensures p <= |t|
    decreases |t|
  {
    if |t| == 0 || Parse(t).Some? then 0 else 1 + FirstMatch(t[1..])
  }

  /** A match starts at `p` and at no earlier position of `t`. */
  predicate FirstMatchAt(t: string, p: nat)
  {
    p < |t| && Parse(t[p..]).Some? && forall q :: 0 <= q < p ==> Parse(t[q..]).None?
  }

  /**
   * Scanning is leftmost and non-overlapping: the first link is the match
   * at the first position where the pattern matches, and the remaining
   * links are those of the text after that match.
   */
  lemma ScanLeftmost(t: string, p: nat)
    requires Scan(t) != [] && p == FirstMatch(t)
    ensures FirstMatchAt(t, p)
    ensures var m := Parse(t[p..]).value;
      Scan(t) == [m] + Scan(t[p + |Locator(m)|..])
  {
    FirstMatchFound(t);
    ScanSkipsNoMatch(t, p);
    ScanAt(t, p);
  }

  /** The scan of the text from a matching position starts with that match and goes on after it. */
  lemma ScanAt(t: string, p: nat)
    requires p < |t| && Parse(t[p..]).Some?
    ensures var m := Parse(t[p..]).value;
      p + |Locator(m)| <= |t| && Scan(t[p..]) == [m] + Scan(t[p + |Locator(m)|..])
  {
    var v := t[p..];
    var m := Parse(v).value;
    ScanHere(v, m);
    SliceOfSlice(t, p, |Locator(m)|);
  }

  /** Dropping `p` elements and then `k` more drops `p + k`. */
  lemma SliceOfSlice(t: string, p: nat, k: nat)
    requires p + k <= |t|
    ensures t[p..][k..] == t[p + k..]
  {
  }

  /** A match at the start of the text is reported first and the scan resumes after it. */
  lemma ScanHere(v: string, m: MediaLink)
    requires |v| > 0 && Parse(v) == Some(m)
    ensures |Locator(m)| <= |v| && Scan(v) == [m] + Scan(v[|Locator(m)|..])
  {
  }

  /** When the scan finds a link, `FirstMatch` is the leftmost matching position. */
  lemma {:induction false} FirstMatchFound(t: string)
    requires Scan(t) != []
    ensures FirstMatchAt(t, FirstMatch(t))
    decreases |t|
  {
    if Parse(t).None? {
      var u := t[1..];
      assert Scan(t) == Scan(u);
      FirstMatchFound(u);
      ShiftMatchAt(t, FirstMatch(u) + 1);
    } else {
      assert t[0..] == t;
    }
  }

  /** Positions where no match starts are skipped by the scan. */
  lemma {:induction false} ScanSkipsNoMatch(t: string, p: nat)
    requires p <= |t|
    requires forall q :: 0 <= q < p ==> Parse(t[q..]).None?
    ensures Scan(t) == Scan(t[p..])
    decreases p
  {
    if p == 0 {
      assert t[0..] == t;
    } else {
      assert Parse(t[0..]).None?;
      assert t[0..] == t;
      var u := t[1..];
      forall q | 0 <= q < p - 1 ensures Parse(u[q..]).None? {
        SliceShift(t, q + 1);
      }
      ScanSkipsNoMatch(u, p - 1);
      SliceShift(t, p);
    }
  }

  /** Dropping the first element and then `p - 1` more drops `p`. */
  lemma SliceShift(t: string, p: nat)
    requires 0 < p <= |t|
    ensures t[1..][p - 1..] == t[p..]
  {
  }

  /** A first match of `t[1..]` at `p - 1` is a first match of `t` at `p` when none starts at 0. */
  lemma ShiftMatchAt(t: string, p: nat)
    requires 0 < p && |t| > 0 && Parse(t).None?
    requires FirstMatchAt(t[1..], p - 1)
    ensures FirstMatchAt(t, p)
  {
    SliceShift(t, p);
    forall q | 0 <= q < p ensures Parse(t[q..]).None? {
      if q > 0 { SliceShift(t, q); } else { assert t[0..] == t; }
    }
  }

  /** When the text starts with a match, that match is the first link. */
  lemma ScanMatchHere(t: string)
    requires Parse(t).Some?
    ensures FirstMatch(t) == 0 && FirstMatchAt(t, 0)
    ensures Parse(t[0..]) == Some(Scan(t)[0])
    ensures Scan(t) == [Scan(t)[0]] + Scan(t[|Locator(Scan(t)[0])|..])
  {
    assert t[0..] == t;
  }

  /** Text without a `/` holds no match and is skipped. */
  lemma {:induction false} ScanSkipsPlainText(a: string, rest: string)
    requires '/' !in a
    ensures Scan(a + rest) == Scan(rest)
    decreases |a|
  {
    if |a| > 0 {
      var t := a + rest;
      assert t[0] == a[0];
      assert t[1..] == a[1..] + rest;
      assert '/' !in a[1..] by { forall k | 0 <= k < |a[1..]| ensures a[1..][k] != '/' { assert a[1..][k] == a[k + 1]; } }
      ScanSkipsPlainText(a[1..], rest);
    } else {
      assert a + rest == rest;
    }
  }

  /** A locator at the start of the text is reported, and scanning resumes after it. */
  lemma ScanAtLocator(m: MediaLink, rest: string)
    requires WellFormed(m)
    ensures Scan(Locator(m) + rest) == [m] + Scan(rest)
  {
    ParseLocator(m, rest);
    assert (Locator(m) + rest)[|Locator(m)|..] == rest;
  }

  /**
   * A page that mentions the same image twice, as a thread page links each
   * image from its thumbnail and from its file name, yields that link twice.
   */
  lemma ScanRepeatedLink(m: MediaLink, a: string, b: string, c: string)
    requires WellFormed(m)
    requires '/' !in a && '/' !in b && '/' !in c
    ensures Scan(a + Locator(m) + b + Locator(m) + c) == [m, m]
  {
    var l := Locator(m);
    var t3 := l + c;
    var t2 := b + t3;
    var t1 := l + t2;
    Regroup(a, l, b, c);
    assert Scan(c) == [] by {
      ScanSkipsPlainText(c, "");
      assert c + "" == c;
    }
    assert Scan(t3) == [m] by { ScanAtLocator(m, c); }
    assert Scan(t2) == [m] by { ScanSkipsPlainText(b, t3); }
    assert Scan(t1) == [m, m] by { ScanAtLocator(m, t2); }
    ScanSkipsPlainText(a, t1);
  }

  /**
   * A page that names every one of `ms` twice, each mention preceded by the
   * same `gap` of text, as a thread page links each image from its
   * thumbnail and from its file name.
   */
  function DoubledPage(ms: seq<MediaLink>, gap: string): string
    decreases |ms|
  {
    if |ms| == 0 then "" else gap + Locator(ms[0]) + gap + Locator(ms[0]) + DoubledPage(ms[1..], gap)
  }

  /** One link named twice is matched twice, and the scan goes on after the second mention. */
  lemma DoubledStep(m: MediaLink, gap: string, rest: string)
    requires WellFormed(m) && '/' !in gap
    ensures Scan(gap + Locator(m) + gap + Locator(m) + rest) == [m, m] + Scan(rest)
  {
    var l := Locator(m);
    var u := gap + l + rest;
    MentionStep(m, gap, rest);
    MentionStep(m, gap, u);
    Regroup3(gap + l, gap, l, rest);
  }

  /** A link mention after plain text is matched, and the scan goes on after it. */
  lemma MentionStep(m: MediaLink, gap: string, rest: string)
    requires WellFormed(m) && '/' !in gap
    ensures Scan(gap + Locator(m) + rest) == [m] + Scan(rest)
  {
    var l := Locator(m);
    ScanAtLocator(m, rest);
    ScanSkipsPlainText(gap, l + rest);
    ConcatAssoc(gap, l, rest);
  }

  /** Concatenation regrouped to the right after its first part. */
  lemma Regroup3(x: string, g: string, l: string, r: string)
    ensures x + g + l + r == x + (g + l + r)
  {
  }

  /** The matches of a page naming each link twice are the links, each twice in a row. */
  lemma {:induction false} ScanDoubledPage(ms: seq<MediaLink>, gap: string)
    requires forall m <- ms :: WellFormed(m)
    requires '/' !in gap
    ensures Scan(DoubledPage(ms, gap)) == Doubled(ms)
    decreases |ms|
  {
    if |ms| > 0 {
      DoubledStep(ms[0], gap, DoubledPage(ms[1..], gap));
      ScanDoubledPage(ms[1..], gap);
    }
  }

  /**
   * On such a page `step_by(2)` visits every link once, in page order, and
   * the progress total is the number of links.
   */
  lemma DoubledPageVisitsEachOnce(ms: seq<MediaLink>, gap: string)
    requires forall m <- ms :: WellFormed(m)
    requires '/' !in gap
    ensures EveryOther(Scan(DoubledPage(ms, gap))) == ms
    ensures ProgressTotal(|Scan(DoubledPage(ms, gap))|) == |ms|
  {
    ScanDoubledPage(ms, gap);
    EveryOtherOfDoubled(ms);
  }

  lemma Regroup(a: string, l: string, b: string, c: string)
    ensures a + l + b + l + c == a + (l + (b + (l + c)))
  {
  }

  /** An example media link, `//i.4cdn.org/wg/111.jpg`. */
  lemma ExampleLink()
    ensures var m := MediaLink(false, "", Cdn, "wg", "111", Jpg);
      WellFormed(m) && Locator(m) == "//i.4cdn.org/wg/111.jpg" && FileName(m) == "111.jpg"
  {
    var m := MediaLink(false, "", Cdn, "wg", "111", Jpg);
    var file := "111" + "." + "jpg";
    var none: string := "";
    ExampleFileText("111", "jpg");
    ExampleLinkText("//i", none, "", "4cdn", "wg", file);
  }

  /** The example's file name written out. */
  lemma ExampleFileText(stem: string, ext: string)
    requires stem == "111" && ext == "jpg"
    ensures stem + "." + ext == "111.jpg"
  {
  }

  /** The example's locator written out. */
  lemma ExampleLinkText(lead: string, secure: string, shard: string, host: string, board: string, file: string)
    requires lead == "//i" && secure == "" && shard == "" && host == "4cdn" && board == "wg" && file == "111.jpg"
    ensures lead + (secure + (shard + "." + (host + ".org/" + (board + "/" + file)))) == "//i.4cdn.org/wg/111.jpg"
  {
  }
}
