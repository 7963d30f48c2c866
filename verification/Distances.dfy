/** The two word distances of src/lib/distances.cpp, and the proof that both are metrics.

    `Lev` is the textbook recurrence on the last characters.  It is tied to an independent
    definition of edit distance, the length of a shortest script of single-character edits,
    by `LevIsReached` and `LevIsLeast`; the metric laws follow from scripts.  The two methods
    are the loops of the original, with its argument swap, stripping and one-row table. */
module Distances {

  // ---------------------------------------------------------------- edit distance

  function Min(x: nat, y: nat): nat {
    if x < y then x else y
  }

  function Init(s: string): string
    requires s != []
  {
    s[..|s| - 1]
  }

  function Last(s: string): char
    requires s != []
  {
    s[|s| - 1]
  }

  function Neq(x: char, y: char): nat {
    if x == y then 0 else 1
  }

  function Lev(a: string, b: string): nat
    decreases |a| + |b|
  {
    if a == [] then |b|
    else if b == [] then |a|
    else Min(Lev(Init(a), Init(b)) + Neq(Last(a), Last(b)),
             Min(Lev(Init(a), b), Lev(a, Init(b))) + 1)
  }

  lemma LevEmpty(a: string, b: string)
    ensures b == [] ==> Lev(a, b) == |a|
  {
  }

  lemma LevUnfold(a: string, b: string, both: nat, left: nat, right: nat)
    requires a != [] && b != []
    requires both == Lev(Init(a), Init(b)) && left == Lev(Init(a), b) && right == Lev(a, Init(b))
    ensures Lev(a, b) == Min(both + Neq(Last(a), Last(b)), Min(left, right) + 1)
  {
  }

  // A single-character edit and what it does to a string.
  datatype Edit = Insert(at: nat, c: char) | Delete(at: nat) | Replace(at: nat, c: char)

  predicate Fits(e: Edit, s: string) {
    if e.Insert? then e.at <= |s| else e.at < |s|
  }

  function Apply(e: Edit, s: string): string
    requires Fits(e, s)
  {
    match e
    case Insert(i, c) => s[..i] + [c] + s[i..]
    case Delete(i) => s[..i] + s[i + 1..]
    case Replace(i, c) => s[i := c]
  }

  // The script `es`, applied from left to right, turns `a` into `b`.
  predicate Turns(es: seq<Edit>, a: string, b: string)
    decreases |es|
  {
    if es == [] then a == b
    else Fits(es[0], a) && Turns(es[1..], Apply(es[0], a), b)
  }

  // ------------------------------------------------ laws of the recurrence

  lemma {:induction false} LevSymmetric(a: string, b: string)
    ensures Lev(a, b) == Lev(b, a)
    decreases |a| + |b|
  {
    if a != [] && b != [] {
      LevSymmetric(Init(a), Init(b));
      LevSymmetric(Init(a), b);
      LevSymmetric(a, Init(b));
    }
  }

  lemma {:induction false} LevSelf(a: string)
    ensures Lev(a, a) == 0
  {
    if a != [] { LevSelf(Init(a)); }
  }

  lemma {:induction false} LevZero(a: string, b: string)
    requires Lev(a, b) == 0
    ensures a == b
  {
    if a != [] && b != [] {
      LevZero(Init(a), Init(b));
      assert a == Init(a) + [Last(a)];
      assert b == Init(b) + [Last(b)];
    }
  }

  // One more character at the end of one word moves the distance by at most one.
  lemma {:induction false} LevDropLast(a: string, b: string)
    requires a != []
    ensures Lev(Init(a), b) <= Lev(a, b) + 1
    ensures Lev(a, b) <= Lev(Init(a), b) + 1
    decreases |b|
  {
    if b != [] {
      LevDropLast(a, Init(b));
      if |a| > 1 {
        LevDropLastStep(a, b);
      }
    }
  }

  lemma LevDropLastStep(a: string, b: string)
    requires |a| > 1 && b != []
    requires Lev(Init(a), Init(b)) <= Lev(a, Init(b)) + 1
    requires Lev(a, Init(b)) <= Lev(Init(a), Init(b)) + 1
    ensures Lev(Init(a), b) <= Lev(a, b) + 1
    ensures Lev(a, b) <= Lev(Init(a), b) + 1
  {
    assert Lev(a, b) <= Lev(Init(a), b) + 1;
    assert Lev(Init(a), b) <= Lev(Init(a), Init(b)) + 1;
  }

  lemma LevCancelLast(a: string, b: string)
    requires a != [] && b != [] && Last(a) == Last(b)
    ensures Lev(a, b) == Lev(Init(a), Init(b))
  {
    LevDropLast(a, Init(b));
    LevSymmetric(Init(a), b);
    LevSymmetric(Init(b), Init(a));
    LevDropLast(b, Init(a));
  }

  lemma {:induction false} LevCancelFirst(c: char, a: string, b: string)
    ensures Lev([c] + a, [c] + b) == Lev(a, b)
    decreases |a| + |b|
  {
    if a == [] {
      LevOneCommon(c, b);
      assert [c] + a == [c];
    } else if b == [] {
      LevOneCommon(c, a);
      assert [c] + b == [c];
      LevSymmetric([c] + a, [c]);
    } else {
      hide Lev;
      assert Init([c] + a) == [c] + Init(a) && Last([c] + a) == Last(a);
      assert Init([c] + b) == [c] + Init(b) && Last([c] + b) == Last(b);
      LevCancelFirst(c, Init(a), Init(b));
      LevCancelFirst(c, Init(a), b);
      LevCancelFirst(c, a, Init(b));
      LevUnfold(a, b, Lev(Init(a), Init(b)), Lev(Init(a), b), Lev(a, Init(b)));
      LevUnfold([c] + a, [c] + b, Lev(Init(a), Init(b)), Lev(Init(a), b), Lev(a, Init(b)));
    }
  }

  lemma {:induction false} LevOneCommon(c: char, b: string)
    ensures Lev([c], [c] + b) == |b|
  {
    assert Init([c]) == [];
    if b == [] {
      assert [c] + b == [c];
      LevSelf([c]);
    } else {
      assert Init([c] + b) == [c] + Init(b);
      LevOneCommon(c, Init(b));
    }
  }

  // ------------------------------------------------ scripts and the recurrence

  // A single edit changes the distance to any fixed word by at most one.
  lemma {:induction false} LevOneEdit(e: Edit, a: string, b: string)
    requires Fits(e, a)
    ensures Lev(a, b) <= Lev(Apply(e, a), b) + 1
    decreases |a| + |b|
  {
    hide Lev;
    var t := Apply(e, a);
    if e.Insert? && e.at == |a| {
      assert Init(t) == a;
      LevDropLast(t, b);
    } else if e.Delete? && e.at == |a| - 1 {
      assert t == Init(a);
      LevDropLast(a, b);
    } else if e.Replace? && e.at == |a| - 1 {
      LevReplaceLast(a, t, b);
    } else if b != [] {
      assert Init(t) == Apply(e, Init(a)) && Last(t) == Last(a);
      LevOneEdit(e, Init(a), Init(b));
      LevOneEdit(e, Init(a), b);
      LevOneEdit(e, a, Init(b));
      LevOneEditInside(a, t, b);
    } else {
      LevEmpty(a, b);
      LevEmpty(t, b);
    }
  }

  lemma LevOneEditInside(a: string, t: string, b: string)
    requires a != [] && t != [] && b != [] && Last(t) == Last(a)
    requires Lev(Init(a), Init(b)) <= Lev(Init(t), Init(b)) + 1
    requires Lev(Init(a), b) <= Lev(Init(t), b) + 1
    requires Lev(a, Init(b)) <= Lev(t, Init(b)) + 1
    ensures Lev(a, b) <= Lev(t, b) + 1
  {
    hide Lev;
    LevUnfold(a, b, Lev(Init(a), Init(b)), Lev(Init(a), b), Lev(a, Init(b)));
    LevUnfold(t, b, Lev(Init(t), Init(b)), Lev(Init(t), b), Lev(t, Init(b)));
  }

  lemma {:induction false} LevReplaceLast(a: string, t: string, b: string)
    requires a != [] && t != [] && Init(a) == Init(t)
    ensures Lev(a, b) <= Lev(t, b) + 1
    decreases |b|
  {
    if b != [] {
      LevReplaceLast(a, t, Init(b));
    } else {
      assert |a| == |Init(a)| + 1 == |t|;
    }
  }

  lemma {:induction false} LevIsLeast(es: seq<Edit>, a: string, b: string)
    requires Turns(es, a, b)
    ensures Lev(a, b) <= |es|
    decreases |es|
  {
    if es == [] {
      LevSelf(a);
    } else {
      LevIsLeast(es[1..], Apply(es[0], a), b);
      LevOneEdit(es[0], a, b);
    }
  }

  // At most `k` single-character edits turn `a` into `b`.
  ghost predicate EditsWithin(a: string, b: string, k: nat) {
    exists es :: Turns(es, a, b) && |es| <= k
  }

  lemma LevWithinIff(a: string, b: string, k: nat)
    ensures Lev(a, b) <= k <==> EditsWithin(a, b, k)
  {
    hide Lev, Turns;
    if EditsWithin(a, b, k) {
      var es :| Turns(es, a, b) && |es| <= k;
      LevIsLeast(es, a, b);
    }
    var es := LevIsReached(a, b);
  }

  lemma {:induction false} TurnsTrans(es: seq<Edit>, fs: seq<Edit>, a: string, b: string, c: string)
    requires Turns(es, a, b) && Turns(fs, b, c)
    ensures Turns(es + fs, a, c)
    decreases |es|
  {
    hide Turns, Apply, Fits;
    TurnsUnfold(es, a, b);
    if es == [] {
      assert es + fs == fs;
    } else {
      TurnsTrans(es[1..], fs, Apply(es[0], a), b, c);
      assert (es + fs)[1..] == es[1..] + fs && (es + fs)[0] == es[0];
      TurnsUnfold(es + fs, a, c);
    }
  }

  lemma TurnsUnfold(es: seq<Edit>, a: string, b: string)
    ensures es == [] ==> (Turns(es, a, b) <==> a == b)
    ensures es != [] ==> (Turns(es, a, b) <==> Fits(es[0], a) && Turns(es[1..], Apply(es[0], a), b))
  {
  }

  // A script keeps working when both words get the same last character.
  lemma {:induction false} TurnsWithLast(es: seq<Edit>, a: string, b: string, c: char)
    requires Turns(es, a, b)
    ensures Turns(es, a + [c], b + [c])
    decreases |es|
  {
    if es != [] {
      assert Apply(es[0], a + [c]) == Apply(es[0], a) + [c];
      TurnsWithLast(es[1..], Apply(es[0], a), b, c);
    }
  }

  lemma {:induction false} LevIsReached(a: string, b: string) returns (es: seq<Edit>)
    ensures Turns(es, a, b) && |es| == Lev(a, b)
    decreases |a| + |b|
  {
    hide Turns, Apply;
    if a == [] && b == [] {
      es := [];
      assert Turns(es, a, b) by { NoEdits(a); }
    } else if b != [] && (a == [] || Lev(a, b) == Lev(a, Init(b)) + 1) {
      es := LevIsReached(a, Init(b));
      es := AppendInsert(es, a, b);
    } else if a != [] && (b == [] || Lev(a, b) == Lev(Init(a), b) + 1) {
      es := LevIsReached(Init(a), b);
      es := PrependDelete(es, a, b);
    } else {
      es := LevIsReached(Init(a), Init(b));
      es := KeepOrReplace(es, a, b);
    }
  }

  lemma NoEdits(a: string)
    ensures Turns([], a, a)
  {
  }

  lemma AppendInsert(es: seq<Edit>, a: string, b: string) returns (fs: seq<Edit>)
    requires b != [] && Turns(es, a, Init(b))
    ensures Turns(fs, a, b) && |fs| == |es| + 1
  {
    hide Turns;
    assert Apply(Insert(|Init(b)|, Last(b)), Init(b)) == b;
    fs := AppendEdit(es, Insert(|Init(b)|, Last(b)), a, Init(b), b);
  }

  lemma PrependDelete(es: seq<Edit>, a: string, b: string) returns (fs: seq<Edit>)
    requires a != [] && Turns(es, Init(a), b)
    ensures Turns(fs, a, b) && |fs| == |es| + 1
  {
    var e := Delete(|a| - 1);
    assert Apply(e, a) == Init(a);
    fs := [e] + es;
    assert fs[1..] == es;
  }

  lemma AppendEdit(es: seq<Edit>, e: Edit, a: string, b: string, c: string) returns (fs: seq<Edit>)
    requires Turns(es, a, b) && Fits(e, b) && Apply(e, b) == c
    ensures Turns(fs, a, c) && |fs| == |es| + 1
  {
    assert Turns([e], b, c);
    TurnsTrans(es, [e], a, b, c);
    fs := es + [e];
  }

  lemma KeepOrReplace(es: seq<Edit>, a: string, b: string) returns (fs: seq<Edit>)
    requires a != [] && b != [] && Turns(es, Init(a), Init(b))
    ensures Turns(fs, a, b) && |fs| == |es| + Neq(Last(a), Last(b))
  {
    hide Turns;
    TurnsWithLast(es, Init(a), Init(b), Last(a));
    assert Init(a) + [Last(a)] == a;
    var mid := Init(b) + [Last(a)];
    if Last(a) == Last(b) {
      assert mid == b;
      fs := es;
    } else {
      assert Apply(Replace(|Init(b)|, Last(b)), mid) == b;
      fs := AppendEdit(es, Replace(|Init(b)|, Last(b)), a, mid, b);
    }
  }

  lemma LevTriangle(a: string, b: string, c: string)
    ensures Lev(a, c) <= Lev(a, b) + Lev(b, c)
  {
    var es := LevIsReached(a, b);
    var fs := LevIsReached(b, c);
    TurnsTrans(es, fs, a, b, c);
    LevIsLeast(es + fs, a, c);
  }

  // ------------------------------------------------ edit_distance, src/lib/distances.cpp

  // EDIT_BUFFER_SIZE: MAX_WORD_LENGTH + MAX_WORD_LENGTH.
  const EDIT_BUFFER_SIZE := 62

  // The longer and the shorter word after the swap, with the common prefix [..lo) removed
  // from both and `maxLen`, `minLen` characters left.
  lemma LevStripped(longer: string, shorter: string, lo: nat, maxLen: nat, minLen: nat)
    requires lo < lo + maxLen <= |longer| && lo < lo + minLen <= |shorter|
    ensures longer[lo] == shorter[lo] ==>
              Lev(longer[lo..lo + maxLen], shorter[lo..lo + minLen])
              == Lev(longer[lo + 1..lo + maxLen], shorter[lo + 1..lo + minLen])
    ensures longer[lo + maxLen - 1] == shorter[lo + minLen - 1] ==>
              Lev(longer[lo..lo + maxLen], shorter[lo..lo + minLen])
              == Lev(longer[lo..lo + maxLen - 1], shorter[lo..lo + minLen - 1])
  {
    hide Lev;
    var a, b := longer[lo..lo + maxLen], shorter[lo..lo + minLen];
    if longer[lo] == shorter[lo] {
      assert a == [a[0]] + longer[lo + 1..lo + maxLen];
      assert b == [a[0]] + shorter[lo + 1..lo + minLen];
      LevCancelFirst(a[0], longer[lo + 1..lo + maxLen], shorter[lo + 1..lo + minLen]);
    }
    if Last(a) == Last(b) {
      assert Init(a) == longer[lo..lo + maxLen - 1];
      assert Init(b) == shorter[lo..lo + minLen - 1];
      LevCancelLast(a, b);
    }
  }

  // One cell of the table, on prefixes of the two words.
  lemma LevCell(a: string, b: string, i: nat, j: nat)
    requires 1 <= i <= |a| && 1 <= j <= |b|
    ensures Lev(a[..i], b[..j])
            == Min(Lev(a[..i - 1], b[..j - 1]) + Neq(a[i - 1], b[j - 1]),
                   Min(Lev(a[..i], b[..j - 1]), Lev(a[..i - 1], b[..j])) + 1)
  {
    hide Lev;
    assert Init(a[..i]) == a[..i - 1] && Init(b[..j]) == b[..j - 1];
    LevUnfold(a[..i], b[..j], Lev(a[..i - 1], b[..j - 1]), Lev(a[..i - 1], b[..j]), Lev(a[..i], b[..j - 1]));
  }

  method EditDistance(s1: string, s2: string) returns (dist: nat)
    requires |s1| < EDIT_BUFFER_SIZE && |s2| < EDIT_BUFFER_SIZE
    ensures dist == Lev(s1, s2)
  {
    hide *;
    var maxStr, minStr := s1, s2;
    if |s1| < |s2| {
      maxStr, minStr := s2, s1;
    }
    LevSymmetric(s1, s2);
    var maxLen: nat, minLen: nat := |maxStr|, |minStr|;
    var lo: nat := 0;

    // skip common prefix
    assert maxStr[0..maxLen] == maxStr && minStr[0..minLen] == minStr;
    while minLen > 0 && maxStr[lo] == minStr[lo]
      invariant lo + maxLen == |maxStr| && lo + minLen == |minStr|
      invariant minLen <= maxLen
      invariant Lev(maxStr[lo..lo + maxLen], minStr[lo..lo + minLen]) == Lev(s1, s2)
      decreases minLen
    {
      LevStripped(maxStr, minStr, lo, maxLen, minLen);
      lo, maxLen, minLen := lo + 1, maxLen - 1, minLen - 1;
    }
    // skip common suffix
    while minLen > 0 && maxStr[lo + maxLen - 1] == minStr[lo + minLen - 1]
      invariant lo + maxLen <= |maxStr| && lo + minLen <= |minStr|
      invariant minLen <= maxLen
      invariant Lev(maxStr[lo..lo + maxLen], minStr[lo..lo + minLen]) == Lev(s1, s2)
    {
      LevStripped(maxStr, minStr, lo, maxLen, minLen);
      maxLen, minLen := maxLen - 1, minLen - 1;
    }

    // one word is a prefix or suffix of the other
    if minLen == 0 {
      LevEmpty(maxStr[lo..lo + maxLen], minStr[lo..lo + minLen]);
      LevSymmetric(maxStr[lo..lo + maxLen], minStr[lo..lo + minLen]);
      return maxLen;
    }
    ghost var b := maxStr[lo..lo + maxLen];
    ghost var a := minStr[lo..lo + minLen];
    LevSymmetric(a, b);
    dist := EditTable(minStr[lo..lo + minLen], maxStr[lo..lo + maxLen]);
  }

  // The cell (i, j) of the table: the distance of two prefixes.
  ghost function Cell(a: string, b: string, i: nat, j: nat): nat
    requires i <= |a| && j <= |b|
  {
    Lev(a[..i], b[..j])
  }

  // `d[lo..hi]` holds row `i` of the table.
  ghost predicate HoldsRow(d: seq<nat>, a: string, b: string, i: nat, lo: nat, hi: nat)
    requires i <= |a| && hi <= |b| + 1 && hi <= |d|
  {
    forall k {:trigger d[k]} :: lo <= k < hi ==> d[k] == Cell(a, b, i, k)
  }

  lemma LevFirstColumn(a: string, b: string, i: nat)
    requires 1 <= i <= |a|
    ensures Cell(a, b, i - 1, 0) == i - 1 && Cell(a, b, i, 0) == i
  {
  }

  lemma FirstRow(d: seq<nat>, a: string, b: string)
    requires |b| < |d| && forall k :: 0 <= k <= |b| ==> d[k] == k
    ensures HoldsRow(d, a, b, 0, 0, |b| + 1)
  {
  }

  // The one-row dynamic program that ends edit_distance.
  method EditTable(a: string, b: string) returns (dist: nat)
    requires |b| < EDIT_BUFFER_SIZE
    ensures dist == Lev(a, b)
  {
    var d := new nat[EDIT_BUFFER_SIZE];
    for i := 0 to |b| + 1
      invariant forall k :: 0 <= k < i ==> d[k] == k
    {
      d[i] := i;
    }
    FirstRow(d[..], a, b);
    for i := 1 to |a| + 1
      invariant HoldsRow(d[..], a, b, i - 1, 0, |b| + 1)
    {
      EditRow(d, a, b, i);
    }
    assert a[..|a|] == a && b[..|b|] == b;
    assert d[..][|b|] == Cell(a, b, |a|, |b|);
    dist := d[|b|];
  }

  // The inner loop: row `i` overwrites row `i - 1` from left to right, `prev` keeping the
  // one overwritten cell that the next column still needs.
  method EditRow(d: array<nat>, a: string, b: string, i: nat)
    requires 1 <= i <= |a| && |b| < d.Length
    requires HoldsRow(d[..], a, b, i - 1, 0, |b| + 1)
    modifies d
    ensures HoldsRow(d[..], a, b, i, 0, |b| + 1)
  {
    hide Lev;
    LevFirstColumn(a, b, i);
    assert d[..][0] == Cell(a, b, i - 1, 0);
    d[0] := i;
    var prev: nat := i - 1;
    for j := 1 to |b| + 1
      invariant prev == Cell(a, b, i - 1, j - 1)
      invariant HoldsRow(d[..], a, b, i, 0, j)
      invariant HoldsRow(d[..], a, b, i - 1, j, |b| + 1)
    {
      assert d[..][j - 1] == Cell(a, b, i, j - 1) && d[..][j] == Cell(a, b, i - 1, j);
      var sub := prev + Neq(a[i - 1], b[j - 1]);
      var del := d[j - 1];
      var ins := d[j];
      prev := d[j];
      LevCell(a, b, i, j);
      d[j] := Min(sub, Min(del, ins) + 1);
    }
  }

  // ---------------------------------------------------------------- Hamming distance

  function Ham(a: string, b: string): nat
    requires |a| == |b|
  {
    if a == [] then 0 else Ham(Init(a), Init(b)) + Neq(Last(a), Last(b))
  }

  function Mismatches(a: string, b: string): set<nat>
    requires |a| == |b|
  {
    set i: nat | i < |a| && a[i] != b[i]
  }

  // What the header promises: the number of mismatching positions.
  lemma {:induction false} HamCountsMismatches(a: string, b: string)
    requires |a| == |b|
    ensures Ham(a, b) == |Mismatches(a, b)|
  {
    if a == [] {
      assert Mismatches(a, b) == {};
    } else {
      HamCountsMismatches(Init(a), Init(b));
      var m := Mismatches(Init(a), Init(b));
      if Last(a) == Last(b) {
        assert Mismatches(a, b) == m;
      } else {
        assert Mismatches(a, b) == m + {|a| - 1};
      }
    }
  }

  lemma {:induction false} HamMetric(a: string, b: string, c: string)
    requires |a| == |b| == |c|
    ensures Ham(a, b) == 0 <==> a == b
    ensures Ham(a, b) == Ham(b, a)
    ensures Ham(a, c) <= Ham(a, b) + Ham(b, c)
  {
    if a != [] {
      HamMetric(Init(a), Init(b), Init(c));
      assert a == Init(a) + [Last(a)];
      assert b == Init(b) + [Last(b)];
    }
  }

  // Replacing the mismatching characters is one way to edit, so the edit distance is never larger.
  lemma {:induction false} LevAtMostHam(a: string, b: string)
    requires |a| == |b|
    ensures Lev(a, b) <= Ham(a, b)
  {
    if a != [] { LevAtMostHam(Init(a), Init(b)); }
  }

  datatype Checked = Measured(value: nat) | DifferentLengths

  // hamming_distance throws on words of different length.
  method HammingDistance(s1: string, s2: string) returns (r: Checked)
    ensures r == if |s1| == |s2| then Measured(Ham(s1, s2)) else DifferentLengths
  {
    if |s1| != |s2| {
      return DifferentLengths;
    }
    var dist: nat := 0;
    for i := 0 to |s1|
      invariant dist == Ham(s1[..i], s2[..i])
    {
      assert Init(s1[..i + 1]) == s1[..i] && Init(s2[..i + 1]) == s2[..i];
      dist := dist + Neq(s1[i], s2[i]);
    }
    assert s1[..|s1|] == s1 && s2[..|s2|] == s2;
    return Measured(dist);
  }
}
