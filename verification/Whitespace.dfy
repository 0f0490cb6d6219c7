/** Stripping, splitting and collapsing of whitespace; which characters are whitespace is a parameter. */
module Whitespace {
  type Spaces = char -> bool

  predicate AllSpaces(sp: Spaces, s: string) { forall c | c in s :: sp(c) }

  function StripLeft(sp: Spaces, s: string): string {
    if s != "" && sp(s[0]) then StripLeft(sp, s[1..]) else s
  }

  function StripRight(sp: Spaces, s: string): string {
    if AllSpaces(sp, s) then "" else [s[0]] + StripRight(sp, s[1..])
  }

  function Strip(sp: Spaces, s: string): string { StripRight(sp, StripLeft(sp, s)) }

  /** Every run of whitespace replaced by one blank. */
  function Collapse(sp: Spaces, s: string): string
    decreases |s|
  {
    if s == "" then ""
    else if sp(s[0]) then
      StripLeftShape(sp, s);
      " " + Collapse(sp, StripLeft(sp, s))
    else [s[0]] + Collapse(sp, s[1..])
  }

  /** The length of the word a text starts with. */
  function WordLength(sp: Spaces, s: string): (n: nat)
    ensures n <= |s|
  {
    if s == "" || sp(s[0]) then 0 else 1 + WordLength(sp, s[1..])
  }

  /** The words between the whitespace. */
  function Words(sp: Spaces, s: string): seq<string>
    decreases |s|
  {
    StripLeftShape(sp, s);
    var t := StripLeft(sp, s);
    if t == "" then [] else [t[..WordLength(sp, t)]] + Words(sp, t[WordLength(sp, t)..])
  }

  function JoinWords(words: seq<string>): string {
    if words == [] then "" else if |words| == 1 then words[0] else words[0] + " " + JoinWords(words[1..])
  }

  /** No whitespace at the ends, and inside only single blanks. */
  ghost predicate Normal(sp: Spaces, s: string) { Single(sp, s) && !Starts(sp, s) && !Ends(sp, s) }

  ghost predicate Single(sp: Spaces, s: string) {
    && (forall i | 0 <= i < |s| && sp(s[i]) :: s[i] == ' ')
    && (forall i | 0 <= i < |s| - 1 && sp(s[i]) :: !sp(s[i + 1]))
  }

  predicate Starts(sp: Spaces, s: string) { s != "" && sp(s[0]) }

  predicate Ends(sp: Spaces, s: string) { s != "" && sp(s[|s| - 1]) }

  // ----- stripping -----

  lemma {:induction false} StripLeftShape(sp: Spaces, s: string)
    ensures |StripLeft(sp, s)| <= |s| && (Starts(sp, s) ==> |StripLeft(sp, s)| < |s|)
    ensures !Starts(sp, StripLeft(sp, s))
    ensures Ends(sp, StripLeft(sp, s)) ==> Ends(sp, s)
    ensures StripLeft(sp, s) == "" <==> AllSpaces(sp, s)
    ensures StripLeft(sp, s) != "" ==> (Ends(sp, s) <==> Ends(sp, StripLeft(sp, s)))
  {
    if Starts(sp, s) {
      StripLeftShape(sp, s[1..]);
      assert forall c :: c in s <==> c == s[0] || c in s[1..];
    }
  }

  lemma {:induction false} StripRightShape(sp: Spaces, s: string)
    ensures !Ends(sp, StripRight(sp, s)) && |StripRight(sp, s)| <= |s|
    ensures StripRight(sp, s) == "" <==> AllSpaces(sp, s)
    ensures StripRight(sp, s) != "" ==> StripRight(sp, s)[0] == s[0]
    ensures s != "" && !Ends(sp, s) ==> StripRight(sp, s) == s
  {
    if !AllSpaces(sp, s) {
      StripRightShape(sp, s[1..]);
      assert forall c :: c in s <==> c == s[0] || c in s[1..];
    }
  }

  lemma StripShape(sp: Spaces, s: string)
    ensures !Starts(sp, Strip(sp, s)) && !Ends(sp, Strip(sp, s))
  {
    StripLeftShape(sp, s);
    StripRightShape(sp, StripLeft(sp, s));
  }

  lemma {:induction false} StripsCommute(sp: Spaces, s: string)
    requires !AllSpaces(sp, s)
    ensures StripLeft(sp, StripRight(sp, s)) == StripRight(sp, StripLeft(sp, s))
  {
    StripRightShape(sp, s);
    assert StripRight(sp, s) == [s[0]] + StripRight(sp, s[1..]);
    if sp(s[0]) {
      assert forall c :: c in s <==> c == s[0] || c in s[1..];
      StripsCommute(sp, s[1..]);
      assert StripRight(sp, s)[1..] == StripRight(sp, s[1..]);
    }
  }

  lemma {:induction false} StripRightAfterWord(sp: Spaces, w: string, rest: string)
    requires w != "" && forall c | c in w :: !sp(c)
    ensures StripRight(sp, w + rest) == w + StripRight(sp, rest)
  {
    var s := w + rest;
    assert s[0] in s && s[1..] == w[1..] + rest;
    if |w| == 1 {
      assert s[1..] == rest;
    } else {
      StripRightAfterWord(sp, w[1..], rest);
    }
  }

  // ----- collapsing -----

  lemma {:induction false} CollapseShape(sp: Spaces, s: string)
    requires sp(' ')
    ensures Single(sp, Collapse(sp, s))
    ensures Starts(sp, Collapse(sp, s)) <==> Starts(sp, s)
    ensures Ends(sp, Collapse(sp, s)) <==> Ends(sp, s)
    ensures Collapse(sp, s) == "" <==> s == ""
    decreases |s|
  {
    if s != "" {
      if sp(s[0]) {
        StripLeftShape(sp, s);
        var rest := StripLeft(sp, s);
        CollapseShape(sp, rest);
        assert Collapse(sp, s) == " " + Collapse(sp, rest);
        if rest == "" { assert s[|s| - 1] in s; }
      } else {
        CollapseShape(sp, s[1..]);
        assert Collapse(sp, s) == [s[0]] + Collapse(sp, s[1..]);
      }
    }
  }

  /** Texts in normal form are left alone. */
  lemma {:induction false} SingleCollapsed(sp: Spaces, s: string)
    requires Single(sp, s)
    ensures Collapse(sp, s) == s
    decreases |s|
  {
    if s != "" {
      assert Single(sp, s[1..]) by {
        assert forall i | 0 <= i < |s| - 1 :: s[1..][i] == s[i + 1];
      }
      SingleCollapsed(sp, s[1..]);
      if sp(s[0]) { assert StripLeft(sp, s) == s[1..]; }
    }
  }

  lemma StripNormal(sp: Spaces, s: string)
    requires !Starts(sp, s) && !Ends(sp, s)
    ensures Strip(sp, s) == s
  {
    StripRightShape(sp, s);
  }

  lemma {:induction false} CollapseAfterWord(sp: Spaces, w: string, rest: string)
    requires forall c | c in w :: !sp(c)
    ensures Collapse(sp, w + rest) == w + Collapse(sp, rest)
  {
    if w == "" {
      assert w + rest == rest;
    } else {
      assert w[0] in w && (w + rest)[1..] == w[1..] + rest;
      CollapseAfterWord(sp, w[1..], rest);
    }
  }

  // ----- splitting and joining -----

  lemma {:induction false} WordShape(sp: Spaces, s: string)
    ensures forall c | c in s[..WordLength(sp, s)] :: !sp(c)
    ensures WordLength(sp, s) < |s| ==> Starts(sp, s[WordLength(sp, s)..])
    ensures s != "" && !Starts(sp, s) ==> WordLength(sp, s) > 0
  {
    if s != "" && !sp(s[0]) {
      WordShape(sp, s[1..]);
      var n := WordLength(sp, s[1..]);
      assert s[..n + 1] == [s[0]] + s[1..][..n];
      assert s[n + 1..] == s[1..][n..];
    }
  }

  /** Splitting at whitespace and joining with blanks is stripping and collapsing. */
  lemma {:induction false} JoinedWords(sp: Spaces, s: string)
    ensures JoinWords(Words(sp, s)) == Collapse(sp, Strip(sp, s))
    decreases |s|
  {
    StripLeftShape(sp, s);
    var t := StripLeft(sp, s);
    if t != "" {
      var n := WordLength(sp, t);
      var w, rest := t[..n], t[n..];
      WordShape(sp, t);
      JoinedWords(sp, rest);
      assert t == w + rest;
      StripRightAfterWord(sp, w, rest);
      CollapseAfterWord(sp, w, StripRight(sp, rest));
      assert Words(sp, s) == [w] + Words(sp, rest);
      RestJoined(sp, w, rest);
    }
  }

  lemma RestJoined(sp: Spaces, w: string, rest: string)
    requires rest == "" || Starts(sp, rest)
    requires JoinWords(Words(sp, rest)) == Collapse(sp, Strip(sp, rest))
    ensures JoinWords([w] + Words(sp, rest)) == w + Collapse(sp, StripRight(sp, rest))
  {
    StripLeftShape(sp, rest);
    StripRightShape(sp, rest);
    if AllSpaces(sp, rest) {
      assert Words(sp, rest) == [];
    } else {
      StripsCommute(sp, rest);
      assert Words(sp, rest) != [] && ([w] + Words(sp, rest))[1..] == Words(sp, rest);
    }
  }

  /** What splitting and joining makes is in normal form. */
  lemma JoinedWordsNormal(sp: Spaces, s: string)
    requires sp(' ')
    ensures Normal(sp, JoinWords(Words(sp, s)))
  {
    JoinedWords(sp, s);
    StripShape(sp, s);
    CollapseShape(sp, Strip(sp, s));
  }

  // ----- what the words of a text are -----

  /** Stripping takes whitespace away at the two ends, and all of it. */
  lemma StripMeaning(sp: Spaces, s: string) returns (u: string, v: string)
    ensures s == u + Strip(sp, s) + v && AllSpaces(sp, u) && AllSpaces(sp, v)
    ensures !Starts(sp, Strip(sp, s)) && !Ends(sp, Strip(sp, s))
  {
    StripShape(sp, s);
    u := StripLeftMeaning(sp, s);
    v := StripRightMeaning(sp, StripLeft(sp, s));
  }

  lemma {:induction false} StripLeftMeaning(sp: Spaces, s: string) returns (u: string)
    ensures s == u + StripLeft(sp, s) && AllSpaces(sp, u)
  {
    if s != "" && sp(s[0]) {
      var rest := StripLeftMeaning(sp, s[1..]);
      u := [s[0]] + rest;
    } else {
      u := "";
    }
  }

  lemma {:induction false} StripRightMeaning(sp: Spaces, s: string) returns (v: string)
    ensures s == StripRight(sp, s) + v && AllSpaces(sp, v)
  {
    if AllSpaces(sp, s) {
      v := s;
    } else {
      v := StripRightMeaning(sp, s[1..]);
      assert s == [s[0]] + s[1..];
    }
  }

  lemma StripLeftTwice(sp: Spaces, s: string)
    ensures StripLeft(sp, StripLeft(sp, s)) == StripLeft(sp, s)
    ensures Words(sp, StripLeft(sp, s)) == Words(sp, s)
  {
    StripLeftShape(sp, s);
  }

  lemma {:induction false} StripLeftJoin(sp: Spaces, a: string, b: string)
    ensures StripLeft(sp, a + b) == if AllSpaces(sp, a) then StripLeft(sp, b) else StripLeft(sp, a) + b
  {
    if a == "" {
      assert a + b == b;
    } else {
      assert (a + b)[1..] == a[1..] + b;
      assert forall c :: c in a <==> c == a[0] || c in a[1..];
      if sp(a[0]) { StripLeftJoin(sp, a[1..], b); }
    }
  }

  lemma {:induction false} WordLengthJoin(sp: Spaces, a: string, b: string)
    requires Starts(sp, b)
    ensures WordLength(sp, a + b) == WordLength(sp, a)
  {
    if a == "" {
      assert a + b == b;
    } else {
      assert (a + b)[1..] == a[1..] + b;
      if !sp(a[0]) { WordLengthJoin(sp, a[1..], b); }
    }
  }

  /** Splitting off the first word. */
  lemma FirstWord(sp: Spaces, a: string, b: string)
    requires Starts(sp, b) && !AllSpaces(sp, a)
    ensures var t := StripLeft(sp, a);
            var n := WordLength(sp, t);
            && 0 < n <= |t| <= |a|
            && Words(sp, a) == [t[..n]] + Words(sp, t[n..])
            && Words(sp, a + b) == [t[..n]] + Words(sp, t[n..] + b)
  {
    StripLeftShape(sp, a);
    StripLeftJoin(sp, a, b);
    var t := StripLeft(sp, a);
    WordLengthJoin(sp, t, b);
    WordShape(sp, t);
    var n := WordLength(sp, t);
    assert (t + b)[..n] == t[..n] && (t + b)[n..] == t[n..] + b;
  }

  lemma WordsAfterBlanks(sp: Spaces, a: string, b: string)
    requires AllSpaces(sp, a)
    ensures Words(sp, a) == [] && Words(sp, a + b) == Words(sp, b)
  {
    StripLeftShape(sp, a);
    StripLeftJoin(sp, a, b);
    StripLeftTwice(sp, a + b);
    StripLeftTwice(sp, b);
  }

  /** Whitespace separates: the words of two texts with whitespace between them are the words of the one and
      then those of the other. */
  lemma {:induction false} WordsJoin(sp: Spaces, a: string, c: char, b: string)
    requires sp(c)
    ensures Words(sp, a + [c] + b) == Words(sp, a) + Words(sp, b)
    decreases |a|
  {
    hide Words, WordLength, StripLeft;
    if AllSpaces(sp, a) {
      WordsAfterBlanks(sp, a, [c] + b);
      WordsAfterBlanks(sp, [c], b);
      assert a + [c] + b == a + ([c] + b);
    } else {
      var t := StripLeft(sp, a);
      var n := WordLength(sp, t);
      FirstWord(sp, a, [c] + b);
      WordsJoin(sp, t[n..], c, b);
      assert a + [c] + b == a + ([c] + b) && t[n..] + [c] + b == t[n..] + ([c] + b);
    }
  }

  lemma WordsBeforeBlanks(sp: Spaces, a: string, b: string)
    requires AllSpaces(sp, b)
    ensures Words(sp, a + b) == Words(sp, a)
  {
    hide Words;
    if b == "" {
      assert a + b == a;
    } else {
      assert b[0] in b && forall c | c in b[1..] :: c in b;
      assert a + [b[0]] + b[1..] == a + b;
      WordsJoin(sp, a, b[0], b[1..]);
      WordsAfterBlanks(sp, b[1..], "");
    }
  }

  /** A text without whitespace is one word, and the empty text has none. */
  lemma WordsOfWord(sp: Spaces, w: string)
    requires forall c | c in w :: !sp(c)
    ensures Words(sp, w) == if w == "" then [] else [w]
  {
    WordShape(sp, w);
    StripLeftShape(sp, w);
    var n := WordLength(sp, w);
    assert w[..|w|] == w && w[|w|..] == "";
  }

  /** Words as splitting gives them. */
  ghost predicate AreWords(sp: Spaces, words: seq<string>) {
    forall w | w in words :: w != "" && forall c | c in w :: !sp(c)
  }

  lemma {:induction false} WordsAre(sp: Spaces, s: string)
    ensures AreWords(sp, Words(sp, s))
    decreases |s|
  {
    StripLeftShape(sp, s);
    var t := StripLeft(sp, s);
    if t != "" {
      WordShape(sp, t);
      WordsAre(sp, t[WordLength(sp, t)..]);
    }
  }

  /** Joining loses nothing: the words of the joined text are the words that were joined. */
  lemma {:induction false} WordsOfJoined(sp: Spaces, words: seq<string>)
    requires sp(' ') && AreWords(sp, words)
    ensures Words(sp, JoinWords(words)) == words
  {
    if words != [] {
      assert words[0] in words;
      WordsOfWord(sp, words[0]);
      if |words| > 1 {
        assert forall w | w in words[1..] :: w in words;
        WordsOfJoined(sp, words[1..]);
        WordsJoin(sp, words[0], ' ', JoinWords(words[1..]));
        assert words == [words[0]] + words[1..];
      }
    }
  }

  /** Two texts have the same joined words exactly when they have the same words. */
  lemma JoinedSameIff(sp: Spaces, s: string, t: string)
    requires sp(' ')
    ensures JoinWords(Words(sp, s)) == JoinWords(Words(sp, t)) <==> Words(sp, s) == Words(sp, t)
  {
    WordsAre(sp, s);
    WordsAre(sp, t);
    WordsOfJoined(sp, Words(sp, s));
    WordsOfJoined(sp, Words(sp, t));
    hide Words, JoinWords;
  }
}
