/**
 * The captures the download loop visits, `captures_iter(..).step_by(2)`,
 * and the total the progress bar is given, `captures_iter(..).count() / 2`.
 */
module Selection {

  /** The elements at positions 0, 2, 4, ... in order. */
  function EveryOther<T>(xs: seq<T>): (ys: seq<T>)
    ensures |ys| == (|xs| + 1) / 2
    ensures forall k :: 0 <= k < |ys| ==> ys[k] == xs[2 * k]
    decreases |xs|
  {
    if |xs| <= 1 then xs
    else
      var rest := EveryOther(xs[2..]);
      EveryOtherStep(xs, rest);
      [xs[0]] + rest
  }

  /** Putting element 0 in front of the even elements from position 2 on gives the even elements. */
  lemma EveryOtherStep<T>(xs: seq<T>, rest: seq<T>)
    requires |xs| >= 2
    requires |rest| == (|xs| - 1) / 2
    requires forall k :: 0 <= k < |rest| ==> rest[k] == xs[2..][2 * k]
    ensures |[xs[0]] + rest| == (|xs| + 1) / 2
    ensures forall k :: 0 <= k < |[xs[0]] + rest| ==> ([xs[0]] + rest)[k] == xs[2 * k]
  {
    forall k | 0 < k < |[xs[0]] + rest| ensures ([xs[0]] + rest)[k] == xs[2 * k] {
      assert ([xs[0]] + rest)[k] == rest[k - 1];
      assert xs[2..][2 * (k - 1)] == xs[2 * k];
    }
  }

  /** The length the progress bar is created with for `n` matches. */
  function ProgressTotal(n: nat): (total: nat)
    ensures 2 * total <= n < 2 * total + 2
  {
    n / 2
  }

  /**
   * The loop visits one capture more than the progress total when the
   * number of matches is odd, and exactly the total when it is even.
   */
  lemma VisitedAgainstTotal<T>(xs: seq<T>)
    ensures |xs| % 2 == 0 ==> |EveryOther(xs)| == ProgressTotal(|xs|)
    ensures |xs| % 2 == 1 ==> |EveryOther(xs)| == ProgressTotal(|xs|) + 1
  {
  }

  /** Each element repeated twice in a row, the shape the page's matches usually have. */
  function Doubled<T>(ys: seq<T>): (xs: seq<T>)
    ensures |xs| == 2 * |ys|
    ensures forall k :: 0 <= k < |ys| ==> xs[2 * k] == ys[k] && xs[2 * k + 1] == ys[k]
    decreases |ys|
  {
    if |ys| == 0 then [] else [ys[0], ys[0]] + Doubled(ys[1..])
  }

  /**
   * On a page where every link is matched twice in a row, taking every
   * other match visits each link once, and the progress total is the number
   * of links.
   */
  lemma {:induction false} EveryOtherOfDoubled<T>(ys: seq<T>)
    ensures EveryOther(Doubled(ys)) == ys
    ensures ProgressTotal(|Doubled(ys)|) == |ys|
  {
    var xs := Doubled(ys);
    assert |EveryOther(xs)| == |ys|;
    forall k | 0 <= k < |ys| ensures EveryOther(xs)[k] == ys[k] { }
  }
}
