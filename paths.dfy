/**
 * Path joining as Rust's `Path::join` does it on Unix, on paths held as
 * strings: an absolute component replaces what came before, and otherwise a
 * single `/` is inserted unless the base is empty or already ends in one.
 */
module Paths {
  import opened Text

  predicate IsAbsolute(p: string) { |p| > 0 && p[0] == '/' }

  /** True when `p` is non-empty and does not end in a separator. */
  predicate IsTrimmed(p: string) { |p| > 0 && p[|p| - 1] != '/' }

  function Join(base: string, part: string): (r: string)
    ensures IsAbsolute(part) ==> r == part
    ensures !IsAbsolute(part) ==> |r| == |base| + |part| || |r| == |base| + 1 + |part|
    ensures !IsAbsolute(part) ==> base <= r && r[|r| - |part|..] == part
  {
    if IsAbsolute(part) then part
    else if |base| == 0 || base[|base| - 1] == '/' then base + part
    else base + "/" + part
  }

  /**
   * Joining a separator-free component onto a trimmed base adds exactly one
   * path component: the split of the result is the split of the base
   * followed by the component.
   */
  lemma JoinAddsComponent(base: string, part: string)
    requires IsTrimmed(base)
    requires '/' !in part
    ensures Join(base, part) == base + "/" + part
    ensures Split(Join(base, part), '/') == Split(base, '/') + [part]
  {
    SplitAround(base, part, '/');
    SplitPlain(part, '/');
  }
}
