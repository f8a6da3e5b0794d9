/**
 The hostname checker of utils/domain.go, on bytes, after conversion of internationalized
 names. A byte of 0x80 or more is rejected whether or not it belongs to valid UTF-8: an
 invalid string fails the encoding test, a valid one yields a rune outside the alphabet.
 */
module Hostname {
  newtype byte = x: int | 0 <= x < 256

  const DOT: byte := 46
  const HYPHEN: byte := 45
  const MAX_LABEL_LENGTH := 63

  predicate LetterOrDigit(b: byte) {
    'a' as int <= b as int <= 'z' as int || '0' as int <= b as int <= '9' as int
  }

  // ---------------------------------------------------------------- labels

  predicate LabelOk(run: seq<byte>) {
    && 0 < |run| <= MAX_LABEL_LENGTH
    && (forall i :: 0 <= i < |run| ==> LetterOrDigit(run[i]) || run[i] == HYPHEN)
    && run[0] != HYPHEN
    && run[|run| - 1] != HYPHEN
  }

  method ValidateLabel(run: seq<byte>) returns (ok: bool)
    ensures ok <==> LabelOk(run)
  {
    if run == [] {
      return false;
    }
    if |run| > MAX_LABEL_LENGTH {
      return false;
    }
    var i := 0;
    while i < |run|
      invariant 0 <= i <= |run|
      invariant forall k :: 0 <= k < i ==> LetterOrDigit(run[k]) || run[k] == HYPHEN
      invariant i > 0 ==> run[0] != HYPHEN
      invariant i == |run| ==> run[|run| - 1] != HYPHEN
    {
      var r := run[i];
      if LetterOrDigit(r) {
      } else if r == HYPHEN {
        if i == 0 || i == |run| - 1 {
          return false;
        }
      } else {
        return false;
      }
      i := i + 1;
    }
    return true;
  }

  /** Length of the leading run of bytes that are not dots. */
  function RunLength(d: seq<byte>): (k: nat)
    ensures k <= |d|
    ensures DOT !in d[..k]
    ensures k < |d| ==> d[k] == DOT
  {
    if d == [] || d[0] == DOT then 0
    else
      var k := 1 + RunLength(d[1..]);
      assert d[..k] == [d[0]] + d[1..][..k - 1];
      k
  }

  /** The pieces of `d` between dots, as a string split returns them. */
  function Split(d: seq<byte>): (labels: seq<seq<byte>>)
    ensures |labels| >= 1
    ensures forall i :: 0 <= i < |labels| ==> DOT !in labels[i]
    decreases |d|
  {
    var k := RunLength(d);
    if k == |d| then (assert d[..k] == d; [d]) else [d[..k]] + Split(d[k + 1..])
  }

  function Join(labels: seq<seq<byte>>): seq<byte>
    requires |labels| >= 1
  {
    if |labels| == 1 then labels[0] else labels[0] + [DOT] + Join(labels[1..])
  }

  lemma JoinCons(a: seq<byte>, rest: seq<seq<byte>>)
    requires |rest| >= 1
    ensures Join([a] + rest) == a + [DOT] + Join(rest)
  {
    assert ([a] + rest)[1..] == rest;
  }

  /** Splitting loses nothing: the dot-free pieces join back to the string. */
  lemma {:induction false} SplitJoins(d: seq<byte>)
    ensures Join(Split(d)) == d
    decreases |d|
  {
    var k := RunLength(d);
    if k < |d| {
      SplitJoins(d[k + 1..]);
      JoinCons(d[..k], Split(d[k + 1..]));
      hide Join, RunLength;
      assert d == d[..k] + [DOT] + d[k + 1..];
    }
  }

  method ValidateDomainLabels(domain: seq<byte>) returns (ok: bool)
    ensures ok <==> HostnameGrammar(domain)
  {
    var labels := Split(domain);
    LabelsMatchGrammar(domain);
    if |labels| < 2 {
      return false;
    }
    for n := 0 to |labels|
      invariant forall k :: 0 <= k < n ==> LabelOk(labels[k])
    {
      var valid := ValidateLabel(labels[n]);
      if !valid {
        return false;
      }
    }
    return true;
  }

  // ---------------------------------------------------------------- the grammar by positions

  /** Every byte is allowed, no run is empty or too long, no hyphen touches a dot or an end. */
  predicate RunsOk(d: seq<byte>) {
    && |d| > 0 && d[0] != DOT && d[|d| - 1] != DOT
    && (forall i :: 0 <= i < |d| ==> LetterOrDigit(d[i]) || d[i] == HYPHEN || d[i] == DOT)
    && (forall i :: 0 < i < |d| && d[i] == DOT ==> d[i - 1] != DOT)
    && (forall i, j :: 0 <= i <= j <= |d| && DOT !in d[i..j] ==> j - i <= MAX_LABEL_LENGTH)
    && (forall i :: 0 <= i < |d| && d[i] == HYPHEN ==>
          0 < i < |d| - 1 && d[i - 1] != DOT && d[i + 1] != DOT)
  }

  /** Section 2.1 of RFC 1123 and section 2.3.4 of RFC 1035, with at least one dot. */
  predicate HostnameGrammar(d: seq<byte>) {
    DOT in d && RunsOk(d)
  }

  lemma {:induction false} OneRun(d: seq<byte>)
    requires DOT !in d
    ensures RunsOk(d) <==> LabelOk(d)
  {
    if RunsOk(d) {
      assert d[0..|d|] == d;
    }
    if LabelOk(d) {
      forall i | 0 <= i < |d| && d[i] == HYPHEN
        ensures 0 < i < |d| - 1 && d[i - 1] != DOT && d[i + 1] != DOT
      {
        assert d[i - 1] in d && d[i + 1] in d;
      }
    }
  }

  /** The bytes of `a` are those before the first dot of `d`, the bytes of `rest` those after it. */
  predicate Cut(d: seq<byte>, a: seq<byte>, rest: seq<byte>) {
    && |d| == |a| + 1 + |rest| && d[|a|] == DOT
    && (forall i :: 0 <= i < |a| ==> a[i] == d[i] && a[i] != DOT)
    && (forall i :: 0 <= i < |rest| ==> rest[i] == d[|a| + 1 + i])
  }

  /** A long run after the dot is one of the whole string. */
  lemma {:induction false} RunsAfterShort(d: seq<byte>, a: seq<byte>, rest: seq<byte>, i: int, j: int)
    requires Cut(d, a, rest) && 0 <= i <= j <= |rest| && DOT !in rest[i..j]
    requires forall i, j :: 0 <= i <= j <= |d| && DOT !in d[i..j] ==> j - i <= MAX_LABEL_LENGTH
    ensures j - i <= MAX_LABEL_LENGTH
  {
    var n := |a| + 1;
    assert d[n + i..n + j] == rest[i..j];
  }

  /** A hyphen after the dot touches neither a dot nor an end. */
  lemma {:induction false} HyphensAfterInside(d: seq<byte>, a: seq<byte>, rest: seq<byte>, i: int)
    requires Cut(d, a, rest) && 0 <= i < |rest| && rest[i] == HYPHEN
    requires forall i :: 0 <= i < |d| && d[i] == HYPHEN ==> 0 < i < |d| - 1 && d[i - 1] != DOT && d[i + 1] != DOT
    ensures 0 < i < |rest| - 1 && rest[i - 1] != DOT && rest[i + 1] != DOT
  {
    var n := |a| + 1;
    assert d[n + i] == HYPHEN && d[n + i - 1] != DOT && n + i < |d| - 1 && d[n + i + 1] != DOT;
  }

  lemma {:induction false} FirstLabel(d: seq<byte>, a: seq<byte>, rest: seq<byte>)
    requires Cut(d, a, rest) && RunsOk(d)
    ensures LabelOk(a)
  {
    assert d[0..|a|] == a;
    assert a != [];
    assert DOT !in a;
  }

  lemma {:induction false} FirstRun(a: seq<byte>, rest: seq<byte>)
    requires DOT !in a
    requires RunsOk(a + [DOT] + rest)
    ensures LabelOk(a) && RunsOk(rest)
  {
    var d := a + [DOT] + rest;
    assert Cut(d, a, rest);
    FirstLabel(d, a, rest);
    RestRuns(d, a, rest);
  }

  lemma {:induction false} RestRuns(d: seq<byte>, a: seq<byte>, rest: seq<byte>)
    requires Cut(d, a, rest) && RunsOk(d)
    ensures RunsOk(rest)
  {
    var n := |a| + 1;
    assert rest != [];
    forall i, j | 0 <= i <= j <= |rest| && DOT !in rest[i..j] ensures j - i <= MAX_LABEL_LENGTH {
      RunsAfterShort(d, a, rest, i, j);
    }
    forall i | 0 <= i < |rest| && rest[i] == HYPHEN
      ensures 0 < i < |rest| - 1 && rest[i - 1] != DOT && rest[i + 1] != DOT
    {
      HyphensAfterInside(d, a, rest, i);
    }
    assert forall i :: 0 <= i < |rest| && rest[i] == DOT ==> d[n + i] == DOT && d[n + i - 1] != DOT;
  }

  lemma {:induction false} AddRun(a: seq<byte>, rest: seq<byte>)
    requires DOT !in a && LabelOk(a) && RunsOk(rest)
    ensures RunsOk(a + [DOT] + rest)
  {
    var d := a + [DOT] + rest;
    var n := |a| + 1;
    assert forall i :: 0 <= i < |a| ==> d[i] == a[i] && a[i] != DOT;
    assert forall i :: n <= i < |d| ==> d[i] == rest[i - n];
    forall i, j | 0 <= i <= |a| < j <= |d| ensures DOT in d[i..j] {
      assert d[i..j][|a| - i] == DOT;
    }
    forall i, j | 0 <= i <= j <= |d| && DOT !in d[i..j]
      ensures j - i <= MAX_LABEL_LENGTH
    {
      assert !(i <= |a| < j);
      if i >= n {
        assert d[i..j] == rest[i - n..j - n];
      }
    }
  }

  predicate AllLabelsOk(labels: seq<seq<byte>>) {
    forall k :: 0 <= k < |labels| ==> LabelOk(labels[k])
  }

  lemma AllLabelsOkCons(a: seq<byte>, labels: seq<seq<byte>>)
    ensures AllLabelsOk([a] + labels) <==> LabelOk(a) && AllLabelsOk(labels)
  {
    var all := [a] + labels;
    assert all[0] == a && all[1..] == labels;
    if AllLabelsOk(all) {
      forall k | 0 <= k < |labels| ensures LabelOk(labels[k]) {
        assert labels[k] == all[k + 1];
      }
    }
  }

  lemma {:induction false} LabelsMatchRuns(d: seq<byte>)
    ensures AllLabelsOk(Split(d)) <==> RunsOk(d)
    decreases |d|
  {
    var k := RunLength(d);
    if k == |d| {
      assert d[..k] == d;
      OneRun(d);
      assert Split(d) == [d] + [];
      AllLabelsOkCons(d, []);
    } else {
      var a, rest := d[..k], d[k + 1..];
      assert d == a + [DOT] + rest;
      LabelsMatchRuns(rest);
      AllLabelsOkCons(a, Split(rest));
      if RunsOk(a + [DOT] + rest) {
        FirstRun(a, rest);
      } else if LabelOk(a) && RunsOk(rest) {
        AddRun(a, rest);
      }
    }
  }

  /** The label-by-label check and the position-wise grammar accept the same strings. */
  lemma {:induction false} LabelsMatchGrammar(d: seq<byte>)
    ensures |Split(d)| >= 2 && AllLabelsOk(Split(d)) <==> HostnameGrammar(d)
  {
    LabelsMatchRuns(d);
    var k := RunLength(d);
    if k == |d| {
      assert d[..k] == d;
    }
  }

  // ---------------------------------------------------------------- normalization (ASCII part)

  predicate Space(b: byte) { 9 <= b <= 13 || b == 32 }

  function Lower(b: byte): byte {
    if 'A' as int <= b as int <= 'Z' as int then b + 32 else b
  }

  function TrimLeft(d: seq<byte>): (r: seq<byte>)
    ensures r != [] ==> !Space(r[0])
    ensures d != [] && !Space(d[0]) ==> r == d
  {
    if d != [] && Space(d[0]) then TrimLeft(d[1..]) else d
  }

  function TrimRight(d: seq<byte>): (r: seq<byte>)
    ensures r <= d
    ensures r != [] ==> !Space(r[|r| - 1])
    ensures d != [] && !Space(d[|d| - 1]) ==> r == d
  {
    if d != [] && Space(d[|d| - 1]) then TrimRight(d[..|d| - 1]) else d
  }

  function ToLower(d: seq<byte>): (r: seq<byte>)
    ensures |r| == |d|
  {
    seq(|d|, i requires 0 <= i < |d| => Lower(d[i]))
  }

  function TrimSuffixDot(d: seq<byte>): seq<byte> {
    if d != [] && d[|d| - 1] == DOT then d[..|d| - 1] else d
  }

  function NormalizeDomain(d: seq<byte>): seq<byte> {
    TrimSuffixDot(ToLower(TrimRight(TrimLeft(d))))
  }

  lemma {:induction false} TrimLeftCuts(d: seq<byte>) returns (i: nat)
    ensures i <= |d| && TrimLeft(d) == d[i..] && forall k :: 0 <= k < i ==> Space(d[k])
  {
    if d != [] && Space(d[0]) {
      i := TrimLeftCuts(d[1..]);
      assert d[1..][i..] == d[i + 1..];
      assert forall k :: 1 <= k < i + 1 ==> d[k] == d[1..][k - 1];
      i := i + 1;
    } else {
      i := 0;
    }
  }

  lemma {:induction false} TrimRightCuts(d: seq<byte>) returns (j: nat)
    ensures j <= |d| && TrimRight(d) == d[..j] && forall k :: j <= k < |d| ==> Space(d[k])
  {
    if d != [] && Space(d[|d| - 1]) {
      var e := d[..|d| - 1];
      j := TrimRightCuts(e);
      assert e[..j] == d[..j];
      assert forall k :: j <= k < |e| ==> d[k] == e[k];
    } else {
      j := |d|;
      assert d[..j] == d;
    }
  }

  /** What trimming leaves is the part of the string between two positions, white space outside and none at its ends. */
  lemma TrimCuts(d: seq<byte>) returns (i: nat, j: nat)
    ensures i <= j <= |d| && TrimRight(TrimLeft(d)) == d[i..j]
    ensures forall k :: 0 <= k < i || j <= k < |d| ==> Space(d[k])
    ensures i < j ==> !Space(d[i]) && !Space(d[j - 1])
  {
    i := TrimLeftCuts(d);
    var e := TrimLeft(d);
    var m := TrimRightCuts(e);
    j := i + m;
    assert e[..m] == d[i..j];
    forall k | j <= k < |d| ensures Space(d[k]) {
      assert e[k - i] == d[k];
    }
    if i < j {
      assert TrimRight(e)[0] == e[0] == d[i] && TrimRight(e)[m - 1] == d[j - 1];
    }
  }

  lemma SpaceMeaning(b: byte)
    ensures Space(b) <==> b in {9, 10, 11, 12, 13, 32}
  {
  }

  /**
   Normalizing strips the white space at both ends, lower-cases what is left letter by letter, and
   drops one dot at its end.
   */
  lemma NormalizeMeaning(d: seq<byte>) returns (i: nat, j: nat)
    ensures i <= j <= |d|
    ensures forall k :: 0 <= k < i || j <= k < |d| ==> d[k] in {9, 10, 11, 12, 13, 32}
    ensures i < j ==> d[i] !in {9, 10, 11, 12, 13, 32} && d[j - 1] !in {9, 10, 11, 12, 13, 32}
    ensures var r := NormalizeDomain(d);
            && |r| == (if i < j && d[j - 1] == DOT then j - i - 1 else j - i)
            && forall k :: 0 <= k < |r| ==>
                 r[k] as int == d[i + k] as int + (if 'A' as int <= d[i + k] as int <= 'Z' as int then 32 else 0)
  {
    hide Space, TrimLeft, TrimRight;
    i, j := TrimCuts(d);
    forall b: byte ensures Space(b) <==> b in {9, 10, 11, 12, 13, 32} {
      SpaceMeaning(b);
    }
  }

  /** Every accepted name is already in normal form, so lookups by normalized name find it. */
  lemma AcceptedIsNormal(d: seq<byte>)
    requires HostnameGrammar(d)
    ensures NormalizeDomain(d) == d
  {
    assert !Space(d[0]) && !Space(d[|d| - 1]);
    assert ToLower(d) == d;
  }

  /** A normalized name has no leading white space and no upper-case letters. */
  predicate NormalStart(r: seq<byte>) {
    (r != [] ==> !Space(r[0])) && forall i :: 0 <= i < |r| ==> Lower(r[i]) == r[i]
  }

  lemma NormalizedStart(d: seq<byte>)
    ensures NormalStart(NormalizeDomain(d))
  {
    var t, r := TrimRight(TrimLeft(d)), NormalizeDomain(d);
    assert t != [] ==> t[0] == TrimLeft(d)[0];
    assert forall i :: 0 <= i < |r| ==> r[i] == Lower(t[i]);
  }

  lemma NormalAgain(r: seq<byte>)
    requires NormalStart(r)
    ensures NormalizeDomain(r) == TrimSuffixDot(TrimRight(r))
  {
    var t := TrimRight(r);
    assert TrimLeft(r) == r;
    assert ToLower(t) == t;
  }

  /**
   One pass is a fixed point exactly when what is left does not end in a dot or a space:
   "a.." and "a ." need a second pass.
   */
  lemma NormalizeTwiceIff(d: seq<byte>)
    ensures var r := NormalizeDomain(d);
            NormalizeDomain(r) == r <==> (r == [] || (r[|r| - 1] != DOT && !Space(r[|r| - 1])))
  {
    var r := NormalizeDomain(d);
    NormalizedStart(d);
    NormalAgain(r);
    hide NormalizeDomain, NormalStart;
    assert |TrimRight(r)| <= |r|;
  }
}
