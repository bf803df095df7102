/** The string operations the client needs: PHP's `join` and a split at a character's first occurrence. */
module Strings {
  import opened Wrappers

  /** The summed lengths of `pieces`. */
  function TotalLength(pieces: seq<string>): nat
  {
    if |pieces| == 0 then 0 else |pieces[0]| + TotalLength(pieces[1..])
  }

  /**
   * PHP `join(sep, pieces)`: the pieces in their order with `sep` between neighbours;
   * the empty list joins to the empty string and a single piece joins to itself.
   */
  function Join(sep: string, pieces: seq<string>): (s: string)
    ensures |s| == TotalLength(pieces) + (if |pieces| == 0 then 0 else (|pieces| - 1) * |sep|)
  {
    if |pieces| == 0 then ""
    else if |pieces| == 1 then pieces[0]
    else pieces[0] + sep + Join(sep, pieces[1..])
  }

  /**
   * An independent reference for `join`, built from the left as PHP's implode loop does:
   * every piece after the first is appended after a separator.
   */
  function JoinFromLeft(sep: string, pieces: seq<string>): string
  {
    if |pieces| == 0 then ""
    else if |pieces| == 1 then pieces[0]
    else JoinFromLeft(sep, pieces[..|pieces| - 1]) + sep + pieces[|pieces| - 1]
  }

  /** Joining two non-empty lists one after the other puts one separator between the two joins. */
  lemma {:induction false} JoinConcat(sep: string, xs: seq<string>, ys: seq<string>)
    requires |xs| > 0 && |ys| > 0
    ensures Join(sep, xs + ys) == Join(sep, xs) + sep + Join(sep, ys)
  {
    if |xs| == 1 {
      assert (xs + ys)[1..] == ys;
    } else {
      assert (xs + ys)[1..] == xs[1..] + ys;
      JoinConcat(sep, xs[1..], ys);
    }
  }

  /** `Join` and the left-to-right reference agree on every list. */
  lemma {:induction false} JoinAgreesWithFromLeft(sep: string, pieces: seq<string>)
    ensures Join(sep, pieces) == JoinFromLeft(sep, pieces)
  {
    if |pieces| > 1 {
      var init, last := pieces[..|pieces| - 1], pieces[|pieces| - 1];
      JoinAgreesWithFromLeft(sep, init);
      JoinConcat(sep, init, [last]);
      assert init + [last] == pieces;
    }
  }

  /**
   * `s` cut at the first occurrence of `c`: the part before it and the part after it,
   * or None when `c` does not occur.
   */
  function SplitAtFirst(s: string, c: char): (r: Option<(string, string)>)
    ensures r.None? <==> c !in s
    ensures r.Some? ==> s == r.value.0 + [c] + r.value.1 && c !in r.value.0
  {
    if |s| == 0 then None
    else if s[0] == c then Some(([], s[1..]))
    else
      match SplitAtFirst(s[1..], c)
      case None => None
      case Some((before, after)) => Some(([s[0]] + before, after))
  }

  /** Cutting `before + [c] + after` at `c`, where `before` holds no `c`, gives back both parts. */
  lemma {:induction false} SplitAtFirstRecovers(before: string, c: char, after: string)
    requires c !in before
    ensures SplitAtFirst(before + [c] + after, c) == Some((before, after))
  {
    var s := before + [c] + after;
    if |before| == 0 {
      assert s[1..] == after;
    } else {
      assert s[1..] == before[1..] + [c] + after;
      SplitAtFirstRecovers(before[1..], c, after);
      assert s[0] == before[0] && before[0] != c;
      assert [before[0]] + before[1..] == before;
    }
  }
}
