/** The sample window arithmetic of a realtime cycle: how much of the
    retained buffer is carried over and how the merged window is formed. */
module Window {
  import opened Params

  /** `a` is a trailing part of `b`. */
  ghost predicate IsSuffix<S>(a: seq<S>, b: seq<S>)
  {
    |a| <= |b| && b[|b| - |a|..] == a
  }

  lemma SuffixOfSuffix<S>(a: seq<S>, b: seq<S>, c: seq<S>)
    requires IsSuffix(a, b) && IsSuffix(b, c)
    ensures IsSuffix(a, c)
  {
    assert c[|c| - |a|..] == c[|c| - |b|..][|b| - |a|..];
  }

  /** The last `n` elements of a sequence are a suffix of it. */
  lemma LastIsSuffix<S>(s: seq<S>, n: nat)
    requires n <= |s|
    ensures IsSuffix(s[|s| - n..], s)
  {
  }

  /** Appending the same elements to both sides keeps a suffix a suffix. */
  lemma {:induction false} SuffixAppend<S>(a: seq<S>, b: seq<S>, incoming: seq<S>)
    requires IsSuffix(a, b)
    ensures IsSuffix(a + incoming, b + incoming)
  {
    var c := b + incoming;
    assert c[|c| - |a + incoming|..] == b[|b| - |a|..] + incoming;
  }

  /** Number of retained samples carried into the next window:
      `min(|old|, max(0, keep + len - |new|))`. It is the largest count not
      above `oldLen` that keeps the window within `max(newLen, keep + len)`. */
  function Take(oldLen: int, newLen: int, keep: int, len: int): (t: int)
    requires 0 <= oldLen
    ensures 0 <= t <= oldLen
    ensures t + newLen <= Max(newLen, keep + len)
    ensures t == oldLen || t + newLen == Max(newLen, keep + len)
  {
    Min(oldLen, Max(0, keep + len - newLen))
  }

  /** The merged window: the last `Take` samples of the retained buffer
      followed by all of the incoming samples, in order. It is the most recent
      stretch of `prev + incoming`, ends with `incoming`, and is never longer than
      `max(|incoming|, keep + len)`. */
  function Merge<S>(prev: seq<S>, incoming: seq<S>, keep: int, len: int): (w: seq<S>)
    ensures |w| == Take(|prev|, |incoming|, keep, len) + |incoming|
    ensures |w| <= Max(|incoming|, keep + len)
    ensures IsSuffix(w, prev + incoming)
    ensures IsSuffix(incoming, w)
  {
    var t := Take(|prev|, |incoming|, keep, len);
    var w := prev[|prev| - t..] + incoming;
    assert (prev + incoming)[|prev| - t..] == w;
    w
  }

  /** At session start nothing is retained, so the first window is exactly
      the first incoming chunk, with no padding. */
  lemma MergeEmptyRetained<S>(incoming: seq<S>, keep: int, len: int)
    ensures Merge([], incoming, keep, len) == incoming
  {
  }

  /** Merging never reorders or skips audio: if the retained buffer is the
      most recent stretch of everything heard so far, the merged window is
      the most recent stretch of everything heard including the incoming chunk. */
  lemma MergeKeepsRecency<S>(prev: seq<S>, heard: seq<S>, incoming: seq<S>, keep: int, len: int)
    requires IsSuffix(prev, heard)
    ensures IsSuffix(Merge(prev, incoming, keep, len), heard + incoming)
  {
    SuffixAppend(prev, heard, incoming);
    SuffixOfSuffix(Merge(prev, incoming, keep, len), prev + incoming, heard + incoming);
  }

  /** A window merged from an incoming chunk of at most `2 * step` samples is
      within `max(2 * step, keep + len)`: the retained buffer stays bounded
      however many cycles run. */
  lemma MergeBounded<S>(prev: seq<S>, incoming: seq<S>, step: int, keep: int, len: int)
    requires |incoming| <= 2 * step
    ensures |Merge(prev, incoming, keep, len)| <= Max(2 * step, keep + len)
  {
  }
}
