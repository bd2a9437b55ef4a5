/**
 * Fitting a diagnostic snapshot under its byte ceiling by popping candidates
 * from the longest section, one at a time.
 *
 * The encoder is any function from the sections to a byte count: nothing below
 * assumes that a shorter list encodes to fewer bytes.
 */
module Trimming {

  const BYTE_LIMIT: nat := 65_536

  /** A stage of the trace, or its fusion section. */
  datatype Section<T> = Section(candidates: seq<T>, omitted: int)

  datatype Fit = Encoded | ExceedsLimit

  /** The first of the sections with the most candidates. */
  ghost predicate IsLongest<T>(s: seq<Section<T>>, i: nat) {
    && i < |s|
    && (forall k :: 0 <= k < |s| ==> |s[k].candidates| <= |s[i].candidates|)
    && (forall k :: 0 <= k < i ==> |s[k].candidates| < |s[i].candidates|)
  }

  function LongestAmong<T>(s: seq<Section<T>>, n: nat): (i: nat)
    requires 0 < n <= |s|
    ensures i < n
    ensures forall k :: 0 <= k < n ==> |s[k].candidates| <= |s[i].candidates|
    ensures forall k :: 0 <= k < i ==> |s[k].candidates| < |s[i].candidates|
  {
    if n == 1 then 0
    else
      var i := LongestAmong(s, n - 1);
      if |s[n - 1].candidates| > |s[i].candidates| then n - 1 else i
  }

  function Longest<T>(s: seq<Section<T>>): (i: nat)
    requires s != []
    ensures IsLongest(s, i)
  {
    LongestAmong(s, |s|)
  }

  function Total<T>(s: seq<Section<T>>): nat {
    if s == [] then 0 else Total(s[..|s| - 1]) + |s[|s| - 1].candidates|
  }

  predicate AllEmpty<T>(s: seq<Section<T>>) {
    forall i :: 0 <= i < |s| ==> |s[i].candidates| == 0
  }

  lemma {:induction false} TotalZeroIffAllEmpty<T>(s: seq<Section<T>>)
    ensures Total(s) == 0 <==> AllEmpty(s)
  {
    if s != [] {
      var front := s[..|s| - 1];
      TotalZeroIffAllEmpty(front);
      assert s == front + [s[|s| - 1]];
      if AllEmpty(s) {
        forall i | 0 <= i < |front| ensures |front[i].candidates| == 0 { assert front[i] == s[i]; }
      }
    }
  }

  lemma {:induction false} TotalAfterUpdate<T>(s: seq<Section<T>>, i: nat, x: Section<T>)
    requires i < |s|
    ensures Total(s[i := x]) == Total(s) - |s[i].candidates| + |x.candidates|
  {
    var t := s[i := x];
    if i == |s| - 1 {
      assert t[..|t| - 1] == s[..|s| - 1];
    } else {
      assert t[..|t| - 1] == s[..|s| - 1][i := x];
      TotalAfterUpdate(s[..|s| - 1], i, x);
    }
  }

  function Pop<T>(x: Section<T>): Section<T>
    requires |x.candidates| > 0
  {
    Section(x.candidates[..|x.candidates| - 1], x.omitted + 1)
  }

  /** One turn of the loop. */
  function TrimOne<T>(s: seq<Section<T>>): (t: seq<Section<T>>)
    requires !AllEmpty(s)
  {
    var i := Longest(s);
    s[i := Pop(s[i])]
  }

  lemma TrimOneTakesOne<T>(s: seq<Section<T>>)
    requires !AllEmpty(s)
    ensures Total(TrimOne(s)) == Total(s) - 1
  {
    var i := Longest(s);
    TotalAfterUpdate(s, i, Pop(s[i]));
  }

  function TrimTimes<T>(s: seq<Section<T>>, k: nat): (t: seq<Section<T>>)
    requires k <= Total(s)
    ensures |t| == |s| && Total(t) == Total(s) - k
  {
    if k == 0 then s
    else
      var t := TrimTimes(s, k - 1);
      TotalZeroIffAllEmpty(t);
      TrimOneTakesOne(t);
      TrimOne(t)
  }

  /** Each section keeps a prefix of its candidates, and kept plus omitted is conserved. */
  ghost predicate Conserved<T>(before: seq<Section<T>>, after: seq<Section<T>>) {
    && |after| == |before|
    && forall i :: 0 <= i < |before| ==>
      && after[i].candidates <= before[i].candidates
      && |after[i].candidates| + after[i].omitted == |before[i].candidates| + before[i].omitted
  }

  lemma TrimOneConserves<T>(before: seq<Section<T>>, after: seq<Section<T>>)
    requires Conserved(before, after) && !AllEmpty(after)
    ensures Conserved(before, TrimOne(after))
  {
    var i := Longest(after);
    assert Pop(after[i]).candidates <= after[i].candidates <= before[i].candidates;
  }

  lemma {:induction false} TrimmingConserves<T>(s: seq<Section<T>>, k: nat)
    requires k <= Total(s)
    ensures Conserved(s, TrimTimes(s, k))
  {
    if k > 0 {
      TrimmingConserves(s, k - 1);
      TotalZeroIffAllEmpty(TrimTimes(s, k - 1));
      TrimOneConserves(s, TrimTimes(s, k - 1));
    }
  }

  function Smaller(a: nat, b: nat): nat { if a <= b then a else b }

  /**
   * A water level: sections before `j` are cut down to `h`, the others to `h + 1`,
   * and shorter sections are untouched.
   */
  ghost predicate LevelledAt<T>(before: seq<Section<T>>, after: seq<Section<T>>, h: nat, j: nat) {
    && |after| == |before| && j <= |before|
    && forall i :: 0 <= i < |before| ==>
      |after[i].candidates| == Smaller(|before[i].candidates|, if i < j then h else h + 1)
  }

  lemma TrimOneLevels<T>(before: seq<Section<T>>, after: seq<Section<T>>, h: nat, j: nat)
    requires LevelledAt(before, after, h, j) && !AllEmpty(after)
    ensures
      var i := Longest(after);
      LevelledAt(before, TrimOne(after), |after[i].candidates| - 1, i + 1)
  {
    var i := Longest(after);
    var m := |after[i].candidates|;
    var t := TrimOne(after);
    assert m <= h + 1;
    forall k | 0 <= k < |before|
      ensures |t[k].candidates| == Smaller(|before[k].candidates|, if k < i + 1 then m - 1 else m)
    {
      var level := if k < j then h else h + 1;
      assert |after[k].candidates| == Smaller(|before[k].candidates|, level);
    }
  }

  lemma UntrimmedIsLevel<T>(s: seq<Section<T>>) returns (h: nat, j: nat)
    ensures LevelledAt(s, s, h, j)
  {
    h, j := if s == [] then 0 else |s[Longest(s)].candidates|, 0;
  }

  /** However many candidates are popped, the result is a water level over the original lists. */
  lemma {:induction false} TrimmingLevels<T>(s: seq<Section<T>>, k: nat) returns (h: nat, j: nat)
    requires k <= Total(s)
    ensures LevelledAt(s, TrimTimes(s, k), h, j)
  {
    if k == 0 {
      h, j := UntrimmedIsLevel(s);
    } else {
      h, j := TrimmingLevels(s, k - 1);
      h, j := TrimmingLevelsNext(s, k - 1, h, j);
    }
  }

  lemma TrimmingLevelsNext<T>(s: seq<Section<T>>, k: nat, h: nat, j: nat) returns (h': nat, j': nat)
    requires k < Total(s) && LevelledAt(s, TrimTimes(s, k), h, j)
    ensures LevelledAt(s, TrimTimes(s, k + 1), h', j')
  {
    var t := TrimTimes(s, k);
    TrimTimesNext(s, k);
    TrimOneLevels(s, t, h, j);
    h', j' := |t[Longest(t)].candidates| - 1, Longest(t) + 1;
  }

  /** Every section that lost a candidate ends within one of the longest section. */
  lemma TrimmedSectionsStayBalanced<T>(s: seq<Section<T>>, k: nat, i: nat, other: nat)
    requires k <= Total(s) && i < |s| && other < |s|
    requires |TrimTimes(s, k)[i].candidates| < |s[i].candidates|
    ensures |TrimTimes(s, k)[other].candidates| <= |TrimTimes(s, k)[i].candidates| + 1
  {
    var h, j := TrimmingLevels(s, k);
    var t := TrimTimes(s, k);
    assert |t[other].candidates| == Smaller(|s[other].candidates|, if other < j then h else h + 1);
    assert |t[i].candidates| == Smaller(|s[i].candidates|, if i < j then h else h + 1);
  }

  /** The loop's answer: the first trimming that fits, or none of them fits. */
  ghost predicate FirstFit<T>(s: seq<Section<T>>, size: seq<Section<T>> -> nat, after: seq<Section<T>>, fit: Fit, k: nat)
  {
    && k <= Total(s)
    && after == TrimTimes(s, k)
    && (forall earlier: nat :: earlier < k ==> size(TrimTimes(s, earlier)) > BYTE_LIMIT)
    && match fit
       case Encoded => size(after) <= BYTE_LIMIT
       case ExceedsLimit => k == Total(s) && size(after) > BYTE_LIMIT
  }

  /** The answer is determined: there is only one first fit. */
  lemma FirstFitIsUnique<T>(s: seq<Section<T>>, size: seq<Section<T>> -> nat,
                            a: seq<Section<T>>, f: Fit, k: nat, b: seq<Section<T>>, g: Fit, l: nat)
    requires FirstFit(s, size, a, f, k) && FirstFit(s, size, b, g, l)
    ensures a == b && f == g && k == l
  {
  }

  /** The loop's state: `pops` turns were taken, and no earlier state fits. */
  ghost predicate Trimmed<T>(s: seq<Section<T>>, size: seq<Section<T>> -> nat, now: seq<Section<T>>, pops: nat) {
    && pops <= Total(s) && now == TrimTimes(s, pops)
    && forall earlier: nat :: earlier < pops ==> size(TrimTimes(s, earlier)) > BYTE_LIMIT
  }

  lemma TrimmedOnceMore<T>(s: seq<Section<T>>, size: seq<Section<T>> -> nat, now: seq<Section<T>>, pops: nat)
    requires Trimmed(s, size, now, pops) && size(now) > BYTE_LIMIT && !AllEmpty(now)
    ensures pops < Total(s) && Trimmed(s, size, TrimOne(now), pops + 1)
  {
    assert pops < Total(s) by { TotalZeroIffAllEmpty(now); }
    TrimTimesNext(s, pops);
    forall earlier: nat | earlier < pops + 1
      ensures size(TrimTimes(s, earlier)) > BYTE_LIMIT
    {
      assert earlier == pops || size(TrimTimes(s, earlier)) > BYTE_LIMIT;
    }
  }

  lemma TrimTimesNext<T>(s: seq<Section<T>>, k: nat)
    requires k < Total(s)
    ensures !AllEmpty(TrimTimes(s, k)) && TrimTimes(s, k + 1) == TrimOne(TrimTimes(s, k))
  {
    TotalZeroIffAllEmpty(TrimTimes(s, k));
  }

  lemma TrimmedToNothing<T>(s: seq<Section<T>>, size: seq<Section<T>> -> nat, now: seq<Section<T>>, pops: nat)
    requires Trimmed(s, size, now, pops) && size(now) > BYTE_LIMIT && AllEmpty(now)
    ensures FirstFit(s, size, now, ExceedsLimit, pops)
  {
    TotalZeroIffAllEmpty(now);
  }

  method LongestSection<T>(a: array<Section<T>>) returns (i: nat)
    requires a.Length > 0
    ensures i == Longest(a[..])
  {
    i := 0;
    for k := 1 to a.Length
      invariant i == LongestAmong(a[..], k)
    {
      if |a[k].candidates| > |a[i].candidates| {
        i := k;
      }
    }
  }

  /** The body of the loop: pop the longest list, unless every list is empty. */
  method PopLongest<T>(a: array<Section<T>>) returns (popped: bool)
    modifies a
    ensures popped <==> !AllEmpty(old(a[..]))
    ensures if popped then a[..] == TrimOne(old(a[..])) else a[..] == old(a[..])
  {
    if a.Length == 0 {
      return false;
    }
    var i := LongestSection(a);
    if |a[i].candidates| == 0 {
      return false;
    }
    assert a[i] == a[..][i];
    a[i] := Section(a[i].candidates[..|a[i].candidates| - 1], a[i].omitted + 1);
    return true;
  }

  /**
   * `_encode_history_diagnostic_snapshot` on the trimmable sections, in place.  It
   * raises only when nothing is left to trim.
   */
  method Encode<T>(a: array<Section<T>>, size: seq<Section<T>> -> nat) returns (fit: Fit, ghost pops: nat)
    modifies a
    ensures FirstFit(old(a[..]), size, a[..], fit, pops)
    ensures fit.ExceedsLimit? ==> AllEmpty(a[..])
  {
    ghost var s := a[..];
    pops := 0;
    while size(a[..]) > BYTE_LIMIT
      invariant Trimmed(s, size, a[..], pops)
      decreases Total(s) - pops
    {
      ghost var now := a[..];
      var popped := PopLongest(a);
      if !popped {
        TrimmedToNothing(s, size, now, pops);
        return ExceedsLimit, pops;
      }
      TrimmedOnceMore(s, size, now, pops);
      pops := pops + 1;
    }
    return Encoded, pops;
  }
}
