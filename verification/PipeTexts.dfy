/** Five texts joined with pipes, and which of them the joined text determines. */
module PipeTexts {
  import opened Whitespace

  /** The parts from n on, joined. */
  function From(parts: seq<string>, n: nat): string
    requires n < |parts|
    decreases |parts| - n
  {
    if n == |parts| - 1 then parts[n] else parts[n] + "|" + From(parts, n + 1)
  }

  predicate Edged(sp: Spaces, s: string) { !Starts(sp, s) && !Ends(sp, s) }

  /** Five parts without whitespace at their ends, the first three not empty. */
  predicate Plausible(sp: Spaces, parts: seq<string>) {
    && |parts| == 5
    && (forall k | 0 <= k < 5 :: Edged(sp, parts[k]))
    && parts[0] != "" && parts[1] != "" && parts[2] != ""
  }

  /** A pipe with no whitespace on either side. */
  predicate Tight(sp: Spaces, s: string, i: nat) {
    && i < |s| && s[i] == '|'
    && (i > 0 ==> !sp(s[i - 1]))
    && (i < |s| - 1 ==> !sp(s[i + 1]))
  }

  /** A pipe inside part k that could as well be one of the four pipes between the parts.  One that starts the
      first part, and one that is all of the second or third, cannot: a part would be left empty that must not be. */
  predicate Movable(sp: Spaces, parts: seq<string>, k: nat, i: nat) {
    && k < |parts| && Tight(sp, parts[k], i)
    && (k == 0 ==> i > 0)
    && (k == 1 || k == 2 ==> |parts[k]| > 1)
  }

  predicate Ambiguous(sp: Spaces, parts: seq<string>) {
    exists k, i | 0 <= k < |parts| && 0 <= i < |parts[k]| :: Movable(sp, parts, k, i)
  }

  // ----- unambiguous parts are determined -----

  /** If one text continues after a pipe where the other still goes on, the other has that pipe. */
  lemma PipeInside(s: string, t: string, c: string, u: string)
    requires s + t == c + "|" + u && |c| < |s|
    ensures s[..|c|] == c && s[|c|] == '|' && s[|c| + 1..] + t == u
  {
    var all := s + t;
    assert c == all[..|c|] && all[|c|] == '|' && u == all[|c| + 1..];
    assert s[..|c|] == all[..|c|] && s[|c| + 1..] + t == all[|c| + 1..];
  }

  lemma FromStarts(sp: Spaces, parts: seq<string>, n: nat)
    requires !sp('|') && n < |parts| && forall k | 0 <= k < |parts| :: Edged(sp, parts[k])
    ensures !Starts(sp, From(parts, n))
  {
    assert Edged(sp, parts[n]);
    assert parts[n] == "" && n < |parts| - 1 ==> From(parts, n)[0] == '|';
    assert parts[n] != "" ==> From(parts, n)[0] == parts[n][0];
  }

  /** Where another reading of the same text has the pipe, it is tight. */
  lemma ReadPipeTight(sp: Spaces, s: string, t: string, c: string, u: string)
    requires s + t == c + "|" + u && |c| < |s| && !Ends(sp, c) && !Starts(sp, u)
    ensures Tight(sp, s, |c|) && c == s[..|c|]
  {
    PipeInside(s, t, c, u);
    if |c| > 0 { assert s[|c| - 1] == c[|c| - 1]; }
    if |c| < |s| - 1 { assert u[0] == s[|c| + 1..][0]; }
  }

  /** The text after a part, with the pipe before it. */
  function Rest(parts: seq<string>, n: nat): string
    requires n < |parts|
  {
    if n == |parts| - 1 then "" else "|" + From(parts, n + 1)
  }

  lemma FromRest(parts: seq<string>, n: nat)
    requires n < |parts|
    ensures From(parts, n) == parts[n] + Rest(parts, n)
  {}

  lemma FixedPipe(sp: Spaces, parts: seq<string>, k: nat, i: nat)
    requires k < |parts| && !Ambiguous(sp, parts) && Tight(sp, parts[k], i)
    ensures (k == 0 && i == 0) || ((k == 1 || k == 2) && parts[k] == "|" && i == 0)
  {
    assert !Movable(sp, parts, k, i);
  }

  /** A text read as parts m to 4 of an unambiguous list cannot be read as a longer list. */
  lemma {:induction false} NotLonger(sp: Spaces, a: seq<string>, m: nat, b: seq<string>, n: nat, c: string)
    requires !sp('|') && Plausible(sp, a) && Plausible(sp, b) && !Ambiguous(sp, a)
    requires 1 <= m < 5 && n <= m && !Ends(sp, c)
    ensures From(a, m) != c + "|" + From(b, n)
    decreases 5 - m
  {
    FromRest(a, m);
    FromStarts(sp, b, n);
    hide Ambiguous, Tight, Edged;
    if From(a, m) == c + "|" + From(b, n) {
      if |c| < |a[m]| {
        ReadPipeTight(sp, a[m], Rest(a, m), c, From(b, n));
        FixedPipe(sp, a, m, |c|);
        LonePipe(sp, a, m, b, n);
      } else if m < 4 {
        LaterPipe(sp, a, m, b, n, c);
      }
    }
  }

  lemma {:induction false} LonePipe(sp: Spaces, a: seq<string>, m: nat, b: seq<string>, n: nat)
    requires !sp('|') && Plausible(sp, a) && Plausible(sp, b) && !Ambiguous(sp, a)
    requires 1 <= m <= 2 && n <= m && a[m] == "|"
    ensures From(a, m) != "|" + From(b, n)
    decreases 5 - m, 0
  {
    if From(a, m) == "|" + From(b, n) {
      assert From(a, m) == "|" + ("|" + From(a, m + 1));
      assert From(b, n) == ("|" + From(b, n))[1..];
      HeadPipe(b[n], From(b, n + 1), From(a, m + 1));
      assert Edged(sp, b[n]);
      NotLonger(sp, a, m + 1, b, n + 1, b[n][1..]);
    }
  }

  lemma HeadPipe(s: string, x: string, t: string)
    requires s != "" && s + "|" + x == "|" + t
    ensures s[0] == '|' && t == s[1..] + "|" + x
  {
    assert s[0] == (s + "|" + x)[0];
    assert t == ("|" + t)[1..] == (s + "|" + x)[1..];
  }

  lemma {:induction false} LaterPipe(sp: Spaces, a: seq<string>, m: nat, b: seq<string>, n: nat, c: string)
    requires !sp('|') && Plausible(sp, a) && Plausible(sp, b) && !Ambiguous(sp, a)
    requires 1 <= m < 4 && n <= m && !Ends(sp, c) && |c| >= |a[m]|
    ensures From(a, m) != c + "|" + From(b, n)
    decreases 5 - m, 0
  {
    var s := From(a, m);
    if s == c + "|" + From(b, n) {
      assert s == a[m] + "|" + From(a, m + 1);
      if |c| == |a[m]| {
        assert c == s[..|c|] == a[m];
        assert From(b, n) == s[|c| + 1..] == From(a, m + 1);
        assert From(b, n) == b[n] + "|" + From(b, n + 1);
        assert Edged(sp, b[n]);
        NotLonger(sp, a, m + 1, b, n + 1, b[n]);
      } else {
        PipeInside(c, "|" + From(b, n), a[m], From(a, m + 1));
        var rest := c[|a[m]| + 1..];
        NotLonger(sp, a, m + 1, b, n, rest);
      }
    }
  }

  lemma {:induction false} DeterminedFrom(sp: Spaces, a: seq<string>, b: seq<string>, k: nat)
    requires !sp('|') && Plausible(sp, a) && Plausible(sp, b) && !Ambiguous(sp, a)
    requires k < 5 && From(a, k) == From(b, k)
    ensures forall i | k <= i < 5 :: a[i] == b[i]
    decreases 5 - k
  {
    if k < 4 {
      var s := From(a, k);
      var t, u := From(a, k + 1), From(b, k + 1);
      assert s == a[k] + "|" + t == b[k] + "|" + u;
      FromStarts(sp, b, k + 1);
      assert Edged(sp, b[k]);
      if |b[k]| < |a[k]| {
        ReadPipeTight(sp, a[k], "|" + t, b[k], u);
        FixedPipe(sp, a, k, |b[k]|);
        assert false;
      } else if |b[k]| == |a[k]| {
        assert a[k] == s[..|a[k]|] == b[k];
        assert t == s[|a[k]| + 1..] == u;
        DeterminedFrom(sp, a, b, k + 1);
      } else {
        PipeInside(b[k], "|" + u, a[k], t);
        NotLonger(sp, a, k + 1, b, k + 1, b[k][|a[k]| + 1..]);
        assert false;
      }
    }
  }

  /** For an unambiguous list the joined text determines all five parts among all plausible lists. */
  lemma Determined(sp: Spaces, a: seq<string>, b: seq<string>)
    requires !sp('|') && Plausible(sp, a) && Plausible(sp, b) && !Ambiguous(sp, a)
    ensures From(a, 0) == From(b, 0) <==> a == b
  {
    if From(a, 0) == From(b, 0) { DeterminedFrom(sp, a, b, 0); }
  }

  // ----- ambiguous parts have a double -----

  /** The list that takes the movable pipe for one between two parts, and that one for its own. */
  function Moved(parts: seq<string>, k: nat, i: nat): seq<string>
    requires |parts| == 5 && k < 5 && i < |parts[k]| && (k == 0 ==> i > 0)
  {
    var x, y := parts[k][..i], parts[k][i + 1..];
    if k < 4 && (k == 3 || i > 0) then parts[k := x][k + 1 := y + "|" + parts[k + 1]]
    else parts[k - 1 := parts[k - 1] + "|" + x][k := y]
  }

  lemma {:induction false} ShiftedSame(a: seq<string>, b: seq<string>, k: nat, n: nat)
    requires |a| == |b| && n <= k && k + 1 < |a|
    requires forall m | 0 <= m < |a| && m != k && m != k + 1 :: a[m] == b[m]
    requires a[k] + "|" + a[k + 1] == b[k] + "|" + b[k + 1]
    ensures From(a, n) == From(b, n)
    decreases k - n
  {
    if n < k {
      ShiftedSame(a, b, k, n + 1);
    } else {
      FromRest(a, k + 1);
      FromRest(b, k + 1);
      RestSame(a, b, k + 1);
      assert From(a, k) == (a[k] + "|" + a[k + 1]) + Rest(a, k + 1);
      assert From(b, k) == (b[k] + "|" + b[k + 1]) + Rest(b, k + 1);
    }
  }

  lemma {:induction false} RestSame(a: seq<string>, b: seq<string>, n: nat)
    requires |a| == |b| && n < |a| && forall m | n < m < |a| :: a[m] == b[m]
    ensures Rest(a, n) == Rest(b, n)
    decreases |a| - n
  {
    if n < |a| - 1 {
      RestSame(a, b, n + 1);
      FromRest(a, n + 1);
      FromRest(b, n + 1);
    }
  }

  lemma SplitEdges(sp: Spaces, s: string, i: nat)
    requires Edged(sp, s) && Tight(sp, s, i)
    ensures Edged(sp, s[..i]) && Edged(sp, s[i + 1..]) && s == s[..i] + "|" + s[i + 1..]
  {}

  lemma JoinEdges(sp: Spaces, a: string, b: string)
    requires !sp('|') && Edged(sp, a) && Edged(sp, b)
    ensures Edged(sp, a + "|" + b)
  {
    var s := a + "|" + b;
    assert s[0] == if a == "" then '|' else a[0];
    assert s[|s| - 1] == if b == "" then '|' else b[|b| - 1];
  }

  lemma SplitNormal(sp: Spaces, s: string, i: nat)
    requires Normal(sp, s) && Tight(sp, s, i)
    ensures Normal(sp, s[..i]) && Normal(sp, s[i + 1..])
  {
    SplitEdges(sp, s, i);
    var y := s[i + 1..];
    assert forall j | 0 <= j < |y| :: y[j] == s[i + 1 + j];
  }

  lemma JoinNormal(sp: Spaces, a: string, b: string)
    requires !sp('|') && Normal(sp, a) && Normal(sp, b)
    ensures Normal(sp, a + "|" + b)
  {
    JoinEdges(sp, a, b);
    var s := a + "|" + b;
    assert s[|a|] == '|';
    assert forall j | 0 <= j < |a| :: s[j] == a[j];
    assert forall j | |a| < j < |s| :: s[j] == b[j - |a| - 1];
    assert |a| > 0 ==> !sp(s[|a| - 1]);
  }

  /** It is another plausible list with the same joined text. */
  lemma MovedSame(sp: Spaces, parts: seq<string>, k: nat, i: nat)
    requires !sp('|') && Plausible(sp, parts) && Movable(sp, parts, k, i)
    ensures var b := Moved(parts, k, i);
            && Plausible(sp, b) && b[k] != parts[k] && From(b, 0) == From(parts, 0)
  {
    var x, y := parts[k][..i], parts[k][i + 1..];
    var b := Moved(parts, k, i);
    SplitEdges(sp, parts[k], i);
    assert forall m | 0 <= m < 5 :: Edged(sp, parts[m]);
    if k < 4 && (k == 3 || i > 0) {
      JoinEdges(sp, y, parts[k + 1]);
      assert parts[k] + "|" + parts[k + 1] == x + "|" + (y + "|" + parts[k + 1]);
      ShiftedSame(parts, b, k, 0);
    } else {
      JoinEdges(sp, parts[k - 1], x);
      assert parts[k - 1] + "|" + parts[k] == (parts[k - 1] + "|" + x) + "|" + y;
      ShiftedSame(parts, b, k - 1, 0);
    }
    hide Edged;
    assert forall m | 0 <= m < 5 :: Edged(sp, b[m]);
  }
}
