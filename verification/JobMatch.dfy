/** The exact cross-provider match of public job postings. */
module JobMatch {
  import opened Options
  import opened Whitespace
  import opened PipeTexts

  // ----- normalisation -----

  /** Case folding character by character. */
  type Fold = char -> string

  function FoldAll(fold: Fold, s: string): string {
    if s == "" then "" else fold(s[0]) + FoldAll(fold, s[1..])
  }

  /** Folding leaves whitespace alone, makes none, loses no character, and folded text is folded already. */
  ghost predicate Proper(sp: Spaces, fold: Fold) {
    && sp(' ')
    && (forall c | sp(c) :: fold(c) == [c])
    && (forall c | !sp(c) :: fold(c) != "" && FoldAll(fold, fold(c)) == fold(c))
    && (forall c, d | !sp(c) && d in fold(c) :: !sp(d))
  }

  function Normalize(sp: Spaces, fold: Fold, s: string): string {
    Collapse(sp, FoldAll(fold, Strip(sp, s)))
  }

  lemma {:induction false} FoldJoin(fold: Fold, a: string, b: string)
    ensures FoldAll(fold, a + b) == FoldAll(fold, a) + FoldAll(fold, b)
  {
    if a == "" {
      assert a + b == b;
    } else {
      assert (a + b)[1..] == a[1..] + b;
      FoldJoin(fold, a[1..], b);
    }
  }

  lemma FoldedChar(sp: Spaces, fold: Fold, c: char)
    requires Proper(sp, fold)
    ensures fold(c) != "" && (sp(fold(c)[0]) <==> sp(c)) && (sp(fold(c)[|fold(c)| - 1]) <==> sp(c))
  {
    if !sp(c) { assert fold(c)[0] in fold(c) && fold(c)[|fold(c)| - 1] in fold(c); }
  }

  lemma EndsOfJoined(sp: Spaces, a: string, b: string)
    requires a != ""
    ensures Starts(sp, a + b) <==> sp(a[0])
    ensures Ends(sp, a + b) <==> if b == "" then sp(a[|a| - 1]) else Ends(sp, b)
  {}

  lemma {:induction false} FoldEnds(sp: Spaces, fold: Fold, s: string)
    requires Proper(sp, fold)
    ensures Starts(sp, FoldAll(fold, s)) <==> Starts(sp, s)
    ensures Ends(sp, FoldAll(fold, s)) <==> Ends(sp, s)
    ensures FoldAll(fold, s) == "" <==> s == ""
  {
    hide Proper;
    if s != "" {
      FoldEnds(sp, fold, s[1..]);
      FoldedChar(sp, fold, s[0]);
      EndsOfJoined(sp, fold(s[0]), FoldAll(fold, s[1..]));
    }
  }

  lemma {:induction false} FoldTwice(sp: Spaces, fold: Fold, s: string)
    requires Proper(sp, fold)
    ensures FoldAll(fold, FoldAll(fold, s)) == FoldAll(fold, s)
  {
    if s != "" {
      FoldTwice(sp, fold, s[1..]);
      FoldJoin(fold, fold(s[0]), FoldAll(fold, s[1..]));
      if sp(s[0]) { assert FoldAll(fold, [s[0]]) == fold(s[0]) + FoldAll(fold, [s[0]][1..]) == [s[0]]; }
    }
  }

  /** Collapsing folded text gives folded text. */
  lemma {:induction false} CollapseFolded(sp: Spaces, fold: Fold, s: string)
    requires Proper(sp, fold)
    ensures FoldAll(fold, Collapse(sp, s)) == Collapse(sp, FoldAll(fold, s))
    decreases |s|
  {
    if s != "" {
      if sp(s[0]) {
        StripLeftShape(sp, s);
        CollapseFolded(sp, fold, StripLeft(sp, s));
        StripLeftFolded(sp, fold, s);
        assert (" " + Collapse(sp, StripLeft(sp, s)))[1..] == Collapse(sp, StripLeft(sp, s));
      } else {
        CollapseFolded(sp, fold, s[1..]);
        CollapseAfterWord(sp, fold(s[0]), FoldAll(fold, s[1..]));
        assert ([s[0]] + Collapse(sp, s[1..]))[1..] == Collapse(sp, s[1..]);
      }
    }
  }

  lemma {:induction false} StripLeftFolded(sp: Spaces, fold: Fold, s: string)
    requires Proper(sp, fold)
    ensures StripLeft(sp, FoldAll(fold, s)) == FoldAll(fold, StripLeft(sp, s))
  {
    FoldEnds(sp, fold, s);
    if Starts(sp, s) {
      StripLeftFolded(sp, fold, s[1..]);
      assert FoldAll(fold, s)[1..] == FoldAll(fold, s[1..]);
    }
  }

  /** The result has single inner blanks and none at the ends, and normalising it again changes nothing. */
  lemma NormalizeIdempotent(sp: Spaces, fold: Fold, s: string)
    requires Proper(sp, fold)
    ensures Normal(sp, Normalize(sp, fold, s))
    ensures Normalize(sp, fold, Normalize(sp, fold, s)) == Normalize(sp, fold, s)
  {
    var t := Strip(sp, s);
    var n := Normalize(sp, fold, s);
    StripShape(sp, s);
    FoldEnds(sp, fold, t);
    CollapseShape(sp, FoldAll(fold, t));
    StripNormal(sp, n);
    CollapseFolded(sp, fold, FoldAll(fold, t));
    FoldTwice(sp, fold, t);
    SingleCollapsed(sp, n);
  }

  lemma {:induction false} FoldBlanks(sp: Spaces, fold: Fold, s: string)
    requires Proper(sp, fold) && AllSpaces(sp, s)
    ensures FoldAll(fold, s) == s
  {
    if s != "" {
      assert s[0] in s && forall c | c in s[1..] :: c in s;
      FoldBlanks(sp, fold, s[1..]);
      assert s == [s[0]] + s[1..];
    }
  }

  /** Whitespace at the ends makes no difference to the words. */
  lemma StrippedWords(sp: Spaces, fold: Fold, s: string)
    requires Proper(sp, fold)
    ensures Words(sp, FoldAll(fold, Strip(sp, s))) == Words(sp, FoldAll(fold, s))
  {
    hide Words, Strip, FoldAll, Proper, Starts, Ends;
    var t := Strip(sp, s);
    var u, v := StripMeaning(sp, s);
    FoldBlanks(sp, fold, u);
    FoldBlanks(sp, fold, v);
    FoldJoin(fold, u + t, v);
    FoldJoin(fold, u, t);
    WordsBeforeBlanks(sp, u + FoldAll(fold, t), v);
    WordsAfterBlanks(sp, u, FoldAll(fold, t));
  }

  /** A normalised component is the folded words with single blanks between them. */
  lemma NormalizedWords(sp: Spaces, fold: Fold, s: string)
    requires Proper(sp, fold)
    ensures Normalize(sp, fold, s) == JoinWords(Words(sp, FoldAll(fold, s)))
  {
    var t := Strip(sp, s);
    var u := FoldAll(fold, t);
    hide Words, JoinWords, Strip, StripLeft, FoldAll, Proper, Collapse;
    StripShape(sp, s);
    FoldEnds(sp, fold, t);
    StripNormal(sp, u);
    JoinedWords(sp, u);
    StrippedWords(sp, fold, s);
  }

  /** Two components are the same after normalisation exactly when they have the same words but for case. */
  lemma NormalizedSameIff(sp: Spaces, fold: Fold, s: string, t: string)
    requires Proper(sp, fold)
    ensures Normalize(sp, fold, s) == Normalize(sp, fold, t) <==>
            Words(sp, FoldAll(fold, s)) == Words(sp, FoldAll(fold, t))
  {
    assert sp(' ');
    hide Normalize, Words, JoinWords, FoldAll, Proper;
    NormalizedWords(sp, fold, s);
    NormalizedWords(sp, fold, t);
    JoinedSameIff(sp, FoldAll(fold, s), FoldAll(fold, t));
  }

  // ----- keys -----

  datatype Job = Job(
    sourceId: string, organizationKey: string, title: string, location: string,
    department: Option<string>, employmentType: Option<string>)

  function OrEmpty(v: Option<string>): string { if v.None? then "" else v.value }

  function Fields(j: Job): (fields: seq<string>)
    ensures |fields| == 5
  {
    [j.organizationKey, j.title, j.location, OrEmpty(j.department), OrEmpty(j.employmentType)]
  }

  /** The five normalised components. */
  function Components(sp: Spaces, fold: Fold, j: Job): seq<string> {
    [Normalize(sp, fold, j.organizationKey), Normalize(sp, fold, j.title), Normalize(sp, fold, j.location),
     Normalize(sp, fold, OrEmpty(j.department)), Normalize(sp, fold, OrEmpty(j.employmentType))]
  }

  function KeyText(sp: Spaces, fold: Fold, j: Job): string
  {
    From(Components(sp, fold, j), 0)
  }

  predicate Required(sp: Spaces, s: string) { s != "" && Strip(sp, s) == s }

  /** What the constructor of a job leaves: the required fields stripped and not empty. */
  predicate Constructed(sp: Spaces, j: Job) {
    Required(sp, j.sourceId) && Required(sp, j.organizationKey) && Required(sp, j.title) && Required(sp, j.location)
  }

  // ----- the match -----

  type Hash = string -> string

  /** Where the hash has no collisions, equal match keys are equal key texts. */
  ghost predicate CollisionFree(hash: Hash) { forall s, t :: hash(s) == hash(t) ==> s == t }

  predicate Match(sp: Spaces, fold: Fold, hash: Hash, left: Job, right: Job) {
    if left.sourceId == right.sourceId then false
    else hash(KeyText(sp, fold, left)) == hash(KeyText(sp, fold, right))
  }

  /** The five parts the two jobs have to agree on. */
  predicate Agree(sp: Spaces, fold: Fold, left: Job, right: Job) {
    && Normalize(sp, fold, left.organizationKey) == Normalize(sp, fold, right.organizationKey)
    && Normalize(sp, fold, left.title) == Normalize(sp, fold, right.title)
    && Normalize(sp, fold, left.location) == Normalize(sp, fold, right.location)
    && Normalize(sp, fold, OrEmpty(left.department)) == Normalize(sp, fold, OrEmpty(right.department))
    && Normalize(sp, fold, OrEmpty(left.employmentType)) == Normalize(sp, fold, OrEmpty(right.employmentType))
  }

  lemma ComponentsAgree(sp: Spaces, fold: Fold, left: Job, right: Job)
    ensures Components(sp, fold, left) == Components(sp, fold, right) <==> Agree(sp, fold, left, right)
  {
    hide Normalize;
    var a, b := Components(sp, fold, left), Components(sp, fold, right);
    assert a == b ==> a[0] == b[0] && a[1] == b[1] && a[2] == b[2] && a[3] == b[3] && a[4] == b[4];
  }

  /** The words of a field, but for case. */
  function FieldWords(sp: Spaces, fold: Fold, s: string): seq<string> { Words(sp, FoldAll(fold, s)) }

  /** Agreement is word by word, but for case, in each of the five fields; a missing department or employment
      type counts as one without words. */
  lemma AgreeMeaning(sp: Spaces, fold: Fold, left: Job, right: Job)
    requires Proper(sp, fold)
    ensures Agree(sp, fold, left, right) <==>
            && FieldWords(sp, fold, left.organizationKey) == FieldWords(sp, fold, right.organizationKey)
            && FieldWords(sp, fold, left.title) == FieldWords(sp, fold, right.title)
            && FieldWords(sp, fold, left.location) == FieldWords(sp, fold, right.location)
            && (match left.department case None => [] case Some(v) => FieldWords(sp, fold, v)) ==
               (match right.department case None => [] case Some(v) => FieldWords(sp, fold, v))
            && (match left.employmentType case None => [] case Some(v) => FieldWords(sp, fold, v)) ==
               (match right.employmentType case None => [] case Some(v) => FieldWords(sp, fold, v))
  {
    assert FoldAll(fold, "") == "" && Words(sp, "") == [];
    hide Normalize, Words, FoldAll, Proper;
    NormalizedSameIff(sp, fold, left.organizationKey, right.organizationKey);
    NormalizedSameIff(sp, fold, left.title, right.title);
    NormalizedSameIff(sp, fold, left.location, right.location);
    NormalizedSameIff(sp, fold, OrEmpty(left.department), OrEmpty(right.department));
    NormalizedSameIff(sp, fold, OrEmpty(left.employmentType), OrEmpty(right.employmentType));
  }

  /** The text that is hashed: the folded words of the five fields in their order, with pipes between them. */
  lemma KeyTextMeaning(sp: Spaces, fold: Fold, j: Job)
    requires Proper(sp, fold)
    ensures KeyText(sp, fold, j) ==
            JoinWords(FieldWords(sp, fold, j.organizationKey)) + "|" + JoinWords(FieldWords(sp, fold, j.title)) + "|" +
            JoinWords(FieldWords(sp, fold, j.location)) + "|" +
            JoinWords(match j.department case None => [] case Some(v) => FieldWords(sp, fold, v)) + "|" +
            JoinWords(match j.employmentType case None => [] case Some(v) => FieldWords(sp, fold, v))
  {
    NothingNormalized(sp, fold);
    hide Normalize, Words, FoldAll, Proper, JoinWords;
    NormalizedWords(sp, fold, j.organizationKey);
    NormalizedWords(sp, fold, j.title);
    NormalizedWords(sp, fold, j.location);
    NormalizedWords(sp, fold, OrEmpty(j.department));
    NormalizedWords(sp, fold, OrEmpty(j.employmentType));
    FiveJoined(sp, fold, j);
  }

  lemma NothingNormalized(sp: Spaces, fold: Fold)
    requires Proper(sp, fold)
    ensures Normalize(sp, fold, "") == "" == JoinWords([])
  {
    NormalizedWords(sp, fold, "");
  }

  lemma FiveJoined(sp: Spaces, fold: Fold, j: Job)
    ensures KeyText(sp, fold, j) ==
            Normalize(sp, fold, j.organizationKey) + "|" + Normalize(sp, fold, j.title) + "|" +
            Normalize(sp, fold, j.location) + "|" + Normalize(sp, fold, OrEmpty(j.department)) + "|" +
            Normalize(sp, fold, OrEmpty(j.employmentType))
  {
    hide Normalize;
    var p := Components(sp, fold, j);
    assert From(p, 4) == p[4];
    assert From(p, 3) == p[3] + "|" + p[4];
    assert From(p, 2) == p[2] + "|" + p[3] + "|" + p[4];
    assert From(p, 1) == p[1] + "|" + p[2] + "|" + p[3] + "|" + p[4];
  }

  // ----- when the match is right -----

  /** In normal form and folded: what normalising gives and leaves alone. */
  ghost predicate Fixed(sp: Spaces, fold: Fold, s: string) { Normal(sp, s) && FoldAll(fold, s) == s }

  lemma NormalizedFixed(sp: Spaces, fold: Fold, s: string)
    requires Proper(sp, fold)
    ensures Fixed(sp, fold, Normalize(sp, fold, s))
    ensures Required(sp, s) ==> Normalize(sp, fold, s) != ""
  {
    var t := Strip(sp, s);
    NormalizeIdempotent(sp, fold, s);
    CollapseFolded(sp, fold, FoldAll(fold, t));
    FoldTwice(sp, fold, t);
    FoldEnds(sp, fold, t);
    CollapseShape(sp, FoldAll(fold, t));
  }

  lemma FixedNormalized(sp: Spaces, fold: Fold, s: string)
    requires Fixed(sp, fold, s)
    ensures Normalize(sp, fold, s) == s && Strip(sp, s) == s
  {
    StripNormal(sp, s);
    SingleCollapsed(sp, s);
  }

  lemma ComponentsAt(sp: Spaces, fold: Fold, j: Job)
    ensures var parts := Components(sp, fold, j);
            |parts| == 5 && forall m | 0 <= m < 5 :: parts[m] == Normalize(sp, fold, Fields(j)[m])
  {
    hide Normalize;
  }

  lemma ComponentsFixed(sp: Spaces, fold: Fold, j: Job)
    requires Proper(sp, fold)
    ensures forall m | 0 <= m < 5 :: Fixed(sp, fold, Components(sp, fold, j)[m])
    ensures forall m | 0 <= m < 5 && Required(sp, Fields(j)[m]) :: Components(sp, fold, j)[m] != ""
  {
    ComponentsAt(sp, fold, j);
    hide Normalize, Proper, Fixed, Required, Components;
    forall m | 0 <= m < 5
      ensures Fixed(sp, fold, Components(sp, fold, j)[m])
      ensures Required(sp, Fields(j)[m]) ==> Components(sp, fold, j)[m] != ""
    {
      NormalizedFixed(sp, fold, Fields(j)[m]);
    }
  }

  lemma ComponentsPlausible(sp: Spaces, fold: Fold, j: Job)
    requires Proper(sp, fold) && Constructed(sp, j)
    ensures Plausible(sp, Components(sp, fold, j))
  {
    hide Components, Required, Proper, Fixed, Edged;
    ComponentsAt(sp, fold, j);
    ComponentsFixed(sp, fold, j);
    var parts := Components(sp, fold, j);
    forall m | 0 <= m < 5 ensures Edged(sp, parts[m]) { FixedEdged(sp, fold, parts[m]); }
    var fields := Fields(j);
    assert Required(sp, fields[0]) && Required(sp, fields[1]) && Required(sp, fields[2]);
  }

  lemma FixedEdged(sp: Spaces, fold: Fold, s: string)
    requires Fixed(sp, fold, s)
    ensures Edged(sp, s)
  {}

  /** A job whose components have no movable pipe matches another exactly when the sources differ and
      organization, title, location, department and employment type agree but for case and spacing. */
  lemma MatchIff(sp: Spaces, fold: Fold, hash: Hash, left: Job, right: Job)
    requires Proper(sp, fold) && !sp('|') && CollisionFree(hash) && Constructed(sp, left) && Constructed(sp, right)
    requires !Ambiguous(sp, Components(sp, fold, left))
    ensures Match(sp, fold, hash, left, right) <==>
            left.sourceId != right.sourceId && Agree(sp, fold, left, right)
  {
    ComponentsAgree(sp, fold, left, right);
    ComponentsPlausible(sp, fold, left);
    ComponentsPlausible(sp, fold, right);
    hide Proper, Constructed, Ambiguous, Plausible, Components, Agree;
    Determined(sp, Components(sp, fold, left), Components(sp, fold, right));
  }

  predicate SpacedAt(sp: Spaces, s: string, i: int)
    requires 0 <= i < |s|
  {
    (i > 0 && sp(s[i - 1])) || (i < |s| - 1 && sp(s[i + 1]))
  }

  predicate Spaced(sp: Spaces, s: string) {
    forall i | 0 <= i < |s| && s[i] == '|' :: SpacedAt(sp, s, i)
  }

  /** Pipes that have whitespace on at least one side, as in "SOC Analyst | Madrid", are never movable. */
  lemma SpacedPipesUnambiguous(sp: Spaces, parts: seq<string>)
    requires forall k | 0 <= k < |parts| :: Spaced(sp, parts[k])
    ensures !Ambiguous(sp, parts)
  {
    forall k, i | 0 <= k < |parts| && 0 <= i < |parts[k]| ensures !Tight(sp, parts[k], i) {
      assert Spaced(sp, parts[k]);
      SpacedNotTight(sp, parts[k], i);
    }
    hide Spaced, Tight;
  }

  /** Nor is there anything to move where no component has a pipe. */
  lemma PipeFreeUnambiguous(sp: Spaces, parts: seq<string>)
    requires forall k | 0 <= k < |parts| :: '|' !in parts[k]
    ensures !Ambiguous(sp, parts)
  {
    forall k | 0 <= k < |parts| ensures Spaced(sp, parts[k]) {}
    SpacedPipesUnambiguous(sp, parts);
  }

  lemma SpacedNotTight(sp: Spaces, s: string, i: nat)
    requires Spaced(sp, s)
    ensures !Tight(sp, s, i)
  {
    assert i < |s| && s[i] == '|' ==> SpacedAt(sp, s, i);
  }

  lemma {:induction false} FoldLonger(sp: Spaces, fold: Fold, s: string)
    requires Proper(sp, fold)
    ensures |FoldAll(fold, s)| >= |s|
  {
    if s != "" {
      FoldLonger(sp, fold, s[1..]);
      assert fold(s[0]) != "";
    }
  }

  lemma FoldedParts(sp: Spaces, fold: Fold, a: string, b: string)
    requires Proper(sp, fold) && FoldAll(fold, a + b) == a + b
    ensures FoldAll(fold, a) == a && FoldAll(fold, b) == b
  {
    FoldJoin(fold, a, b);
    FoldLonger(sp, fold, a);
    FoldLonger(sp, fold, b);
    assert |FoldAll(fold, a)| == |a|;
    assert (FoldAll(fold, a) + FoldAll(fold, b))[..|a|] == FoldAll(fold, a) && (a + b)[..|a|] == a;
    assert (FoldAll(fold, a) + FoldAll(fold, b))[|a|..] == FoldAll(fold, b) && (a + b)[|a|..] == b;
  }

  lemma FixedSplit(sp: Spaces, fold: Fold, s: string, i: nat)
    requires Proper(sp, fold) && Fixed(sp, fold, s) && Tight(sp, s, i)
    ensures Fixed(sp, fold, s[..i]) && Fixed(sp, fold, s[i + 1..]) && FoldAll(fold, "|") == "|"
  {
    SplitEdges(sp, s, i);
    SplitNormal(sp, s, i);
    FoldedSplit(sp, fold, s[..i], s[i + 1..]);
    hide FoldAll, Normal, Proper, Tight, Edged;
  }

  lemma FoldedSplit(sp: Spaces, fold: Fold, x: string, y: string)
    requires Proper(sp, fold) && FoldAll(fold, x + "|" + y) == x + "|" + y
    ensures FoldAll(fold, x) == x && FoldAll(fold, y) == y && FoldAll(fold, "|") == "|"
  {
    hide FoldAll, Proper;
    assert x + "|" + y == x + ("|" + y);
    FoldedParts(sp, fold, x, "|" + y);
    FoldedParts(sp, fold, "|", y);
  }

  lemma FixedJoin(sp: Spaces, fold: Fold, a: string, b: string)
    requires Proper(sp, fold) && !sp('|') && FoldAll(fold, "|") == "|" && Fixed(sp, fold, a) && Fixed(sp, fold, b)
    ensures Fixed(sp, fold, a + "|" + b)
  {
    hide FoldAll, Normal, Proper;
    JoinNormal(sp, a, b);
    FoldJoin(fold, a + "|", b);
    FoldJoin(fold, a, "|");
  }

  lemma MovedFixed(sp: Spaces, fold: Fold, parts: seq<string>, k: nat, i: nat)
    requires Proper(sp, fold) && !sp('|') && |parts| == 5 && Movable(sp, parts, k, i)
    requires forall m | 0 <= m < 5 :: Fixed(sp, fold, parts[m])
    ensures forall m | 0 <= m < 5 :: Fixed(sp, fold, Moved(parts, k, i)[m])
  {
    var x, y := parts[k][..i], parts[k][i + 1..];
    FixedSplit(sp, fold, parts[k], i);
    hide Fixed, Proper, Tight, FoldAll;
    if k < 4 && (k == 3 || i > 0) {
      FixedJoin(sp, fold, y, parts[k + 1]);
      TwoReplaced(sp, fold, parts, k, x, y + "|" + parts[k + 1]);
    } else {
      FixedJoin(sp, fold, parts[k - 1], x);
      TwoReplaced(sp, fold, parts, k - 1, parts[k - 1] + "|" + x, y);
    }
    hide Movable;
  }

  lemma TwoReplaced(sp: Spaces, fold: Fold, parts: seq<string>, k: nat, x: string, y: string)
    requires |parts| == 5 && k < 4 && Fixed(sp, fold, x) && Fixed(sp, fold, y)
    requires forall m | 0 <= m < 5 :: Fixed(sp, fold, parts[m])
    ensures var b := parts[k := x][k + 1 := y]; forall m | 0 <= m < 5 :: Fixed(sp, fold, b[m])
  {
    hide Fixed;
  }

  /** The job with the given components. */
  function JobOf(source: string, parts: seq<string>): Job
    requires |parts| == 5
  {
    Job(source, parts[0], parts[1], parts[2], Some(parts[3]), Some(parts[4]))
  }

  lemma ComponentsOf(sp: Spaces, fold: Fold, source: string, parts: seq<string>)
    requires |parts| == 5 && forall m | 0 <= m < 5 :: Fixed(sp, fold, parts[m])
    ensures Components(sp, fold, JobOf(source, parts)) == parts
    ensures forall m | 0 <= m < 5 && parts[m] != "" :: Required(sp, parts[m])
  {
    forall m | 0 <= m < 5 ensures Normalize(sp, fold, parts[m]) == parts[m] && Strip(sp, parts[m]) == parts[m] {
      FixedNormalized(sp, fold, parts[m]);
    }
    hide Fixed, Normalize, Strip;
  }

  /** A job with a movable pipe in a component has, in every other source, a job that it matches under every
      hash although the two do not agree. */
  lemma AmbiguousDouble(sp: Spaces, fold: Fold, hash: Hash, left: Job, source: string) returns (right: Job)
    requires Proper(sp, fold) && !sp('|') && Constructed(sp, left) && Ambiguous(sp, Components(sp, fold, left))
    requires Required(sp, source) && source != left.sourceId
    ensures Constructed(sp, right) && right.sourceId == source
    ensures Match(sp, fold, hash, left, right) && !Agree(sp, fold, left, right)
  {
    var parts := Components(sp, fold, left);
    ComponentsPlausible(sp, fold, left);
    ComponentsFixed(sp, fold, left);
    hide Components, Fixed, Proper, Required, Movable, Moved, From, Agree, Edged, FoldAll;
    var k, i :| 0 <= k < |parts| && 0 <= i < |parts[k]| && Movable(sp, parts, k, i);
    right := DoubleOf(sp, fold, parts, k, i, source);
    ComponentsAgree(sp, fold, left, right);
    SameTextMatches(sp, fold, hash, left, right);
    hide Match, Ambiguous, Plausible, Constructed;
  }

  lemma SameTextMatches(sp: Spaces, fold: Fold, hash: Hash, left: Job, right: Job)
    requires left.sourceId != right.sourceId
    requires From(Components(sp, fold, left), 0) == From(Components(sp, fold, right), 0)
    ensures Match(sp, fold, hash, left, right)
  {
    hide Components, From;
  }

  lemma DoubleOf(sp: Spaces, fold: Fold, parts: seq<string>, k: nat, i: nat, source: string) returns (right: Job)
    requires Proper(sp, fold) && !sp('|') && Plausible(sp, parts) && Movable(sp, parts, k, i)
    requires forall m | 0 <= m < 5 :: Fixed(sp, fold, parts[m])
    requires Required(sp, source)
    ensures Constructed(sp, right) && right.sourceId == source
    ensures var b := Components(sp, fold, right); b != parts && |b| == 5 && From(b, 0) == From(parts, 0)
  {
    MovedSame(sp, parts, k, i);
    MovedFixed(sp, fold, parts, k, i);
    var b := Moved(parts, k, i);
    hide Components, Fixed, Proper, Required, Movable, Moved, From, Edged, FoldAll;
    ComponentsOf(sp, fold, source, b);
    right := JobOf(source, b);
  }

  /** The match of a job is right for all partners exactly when no component has a movable pipe. */
  lemma MatchRightIff(sp: Spaces, fold: Fold, hash: Hash, left: Job)
    requires Proper(sp, fold) && !sp('|') && CollisionFree(hash) && Constructed(sp, left)
    ensures (forall right | Constructed(sp, right) ::
               Match(sp, fold, hash, left, right) <==>
               left.sourceId != right.sourceId && Agree(sp, fold, left, right))
            <==> !Ambiguous(sp, Components(sp, fold, left))
  {
    var source := left.sourceId + left.sourceId;
    assert Required(sp, source) && source != left.sourceId by { Doubled(sp, left.sourceId); }
    hide Proper, Constructed, Match, Agree, Ambiguous, Components, Required;
    if Ambiguous(sp, Components(sp, fold, left)) {
      var right := AmbiguousDouble(sp, fold, hash, left, source);
    } else {
      forall right | Constructed(sp, right)
        ensures Match(sp, fold, hash, left, right) <==>
                left.sourceId != right.sourceId && Agree(sp, fold, left, right)
      {
        MatchIff(sp, fold, hash, left, right);
      }
    }
  }

  lemma Doubled(sp: Spaces, s: string)
    requires Required(sp, s)
    ensures Required(sp, s + s) && s + s != s
  {
    StripShape(sp, s);
    assert |s + s| > |s|;
    StripNormal(sp, s + s);
  }

  /** Letters that are neither whitespace nor changed by folding. */
  ghost predicate PlainLetters(sp: Spaces, fold: Fold, s: string) {
    forall c | c in s :: !sp(c) && fold(c) == [c]
  }

  lemma {:induction false} PlainFixed(sp: Spaces, fold: Fold, s: string)
    requires PlainLetters(sp, fold, s)
    ensures Fixed(sp, fold, s)
  {
    if s != "" { PlainFixed(sp, fold, s[1..]); }
  }

  /** Two postings that the constructor accepts, that match under every hash, and that differ in title and
      location. */
  lemma PipesConfuse(sp: Spaces, fold: Fold, hash: Hash)
    requires PlainLetters(sp, fold, "abcdo|")
    ensures var left, right := Job("a", "o", "b|c", "d", None, None), Job("b", "o", "b", "c|d", None, None);
            && Constructed(sp, left) && Constructed(sp, right)
            && Match(sp, fold, hash, left, right) && !Agree(sp, fold, left, right)
  {
    var left, right := Job("a", "o", "b|c", "d", None, None), Job("b", "o", "b", "c|d", None, None);
    var a, b := ["o", "b|c", "d", "", ""], ["o", "b", "c|d", "", ""];
    hide Components, Normalize, Strip, From, Agree;
    PlainJob(sp, fold, left, a);
    PlainJob(sp, fold, right, b);
    ComponentsAgree(sp, fold, left, right);
    assert a[1] + "|" + a[2] == b[1] + "|" + b[2];
    ShiftedSame(a, b, 1, 0);
    assert |a[1]| != |b[1]|;
    assert left.sourceId[0] != right.sourceId[0];
  }

  lemma PlainJob(sp: Spaces, fold: Fold, j: Job, parts: seq<string>)
    requires |parts| == 5 && j.organizationKey == parts[0] && j.title == parts[1] && j.location == parts[2]
    requires OrEmpty(j.department) == parts[3] && OrEmpty(j.employmentType) == parts[4]
    requires PlainLetters(sp, fold, j.sourceId) && forall m | 0 <= m < 5 :: PlainLetters(sp, fold, parts[m])
    requires j.sourceId != "" && parts[0] != "" && parts[1] != "" && parts[2] != ""
    ensures Components(sp, fold, j) == parts && Constructed(sp, j)
  {
    forall m | 0 <= m < 5 ensures Fixed(sp, fold, parts[m]) { PlainFixed(sp, fold, parts[m]); }
    ComponentsOf(sp, fold, j.sourceId, parts);
    PlainFixed(sp, fold, j.sourceId);
    FixedNormalized(sp, fold, j.sourceId);
    hide Fixed, Normalize, Strip, PlainLetters;
  }

  /** Presentation does not matter: jobs that differ in case and spacing only have the same components. */
  lemma NormalizedJobSame(sp: Spaces, fold: Fold, j: Job)
    requires Proper(sp, fold)
    ensures var n := Job(
              j.sourceId, Normalize(sp, fold, j.organizationKey), Normalize(sp, fold, j.title),
              Normalize(sp, fold, j.location), Some(Normalize(sp, fold, OrEmpty(j.department))),
              Some(Normalize(sp, fold, OrEmpty(j.employmentType))));
            Components(sp, fold, n) == Components(sp, fold, j)
  {
    NormalizeIdempotent(sp, fold, j.organizationKey);
    NormalizeIdempotent(sp, fold, j.title);
    NormalizeIdempotent(sp, fold, j.location);
    NormalizeIdempotent(sp, fold, OrEmpty(j.department));
    NormalizeIdempotent(sp, fold, OrEmpty(j.employmentType));
    hide Normalize;
  }

  lemma MatchNotReflexive(sp: Spaces, fold: Fold, hash: Hash, j: Job)
    ensures !Match(sp, fold, hash, j, j)
  {}

  lemma MatchSymmetric(sp: Spaces, fold: Fold, hash: Hash, j: Job, k: Job)
    ensures Match(sp, fold, hash, j, k) == Match(sp, fold, hash, k, j)
  {
    hide KeyText;
  }

  /** Three postings of the same vacancy, two of them from one source: the third matches both, and they do
      not match each other. */
  lemma MatchNotTransitive(sp: Spaces, fold: Fold, hash: Hash, title: string)
    ensures var j := Job("a", "o", title, "d", None, None);
            var (k, l) := (j.(sourceId := "b"), j);
            Match(sp, fold, hash, j, k) && Match(sp, fold, hash, k, l) && !Match(sp, fold, hash, j, l)
  {
    var j := Job("a", "o", title, "d", None, None);
    assert "a"[0] != "b"[0];
    assert Components(sp, fold, j) == Components(sp, fold, j.(sourceId := "b"));
    hide Components;
  }

  // ----- reachability -----

  /** A path of at least one match between jobs of the set. */
  ghost predicate Path(sp: Spaces, fold: Fold, hash: Hash, jobs: set<Job>, path: seq<Job>) {
    && |path| >= 2
    && (forall i | 0 <= i < |path| :: path[i] in jobs)
    && (forall i | 0 <= i < |path| - 1 :: Match(sp, fold, hash, path[i], path[i + 1]))
  }

  ghost predicate Reachable(sp: Spaces, fold: Fold, hash: Hash, jobs: set<Job>, from: Job, to: Job) {
    exists path :: Path(sp, fold, hash, jobs, path) && path[0] == from && path[|path| - 1] == to
  }

  /** The jobs with a given key come from at least two sources. */
  ghost predicate Spans(sp: Spaces, fold: Fold, hash: Hash, jobs: set<Job>, key: string) {
    exists j, k | j in jobs && k in jobs ::
      && j.sourceId != k.sourceId
      && hash(KeyText(sp, fold, j)) == key && hash(KeyText(sp, fold, k)) == key
  }

  lemma {:induction false} PathKeepsKey(
      sp: Spaces, fold: Fold, hash: Hash, jobs: set<Job>, path: seq<Job>, i: nat)
    requires Path(sp, fold, hash, jobs, path) && i < |path|
    ensures hash(KeyText(sp, fold, path[i])) == hash(KeyText(sp, fold, path[0]))
  {
    hide KeyText;
    if i > 0 {
      PathKeepsKey(sp, fold, hash, jobs, path, i - 1);
      assert Match(sp, fold, hash, path[i - 1], path[i - 1 + 1]);
    }
  }

  lemma ReachableHasKey(sp: Spaces, fold: Fold, hash: Hash, jobs: set<Job>, from: Job, to: Job)
    requires Reachable(sp, fold, hash, jobs, from, to)
    ensures hash(KeyText(sp, fold, from)) == hash(KeyText(sp, fold, to))
    ensures Spans(sp, fold, hash, jobs, hash(KeyText(sp, fold, from)))
  {
    hide KeyText;
    var path :| Path(sp, fold, hash, jobs, path) && path[0] == from && path[|path| - 1] == to;
    PathKeepsKey(sp, fold, hash, jobs, path, |path| - 1);
    PathKeepsKey(sp, fold, hash, jobs, path, 1);
    assert Match(sp, fold, hash, path[0], path[0 + 1]);
  }

  lemma SpanningKeyReaches(sp: Spaces, fold: Fold, hash: Hash, jobs: set<Job>, from: Job, to: Job)
    requires from in jobs && to in jobs && hash(KeyText(sp, fold, from)) == hash(KeyText(sp, fold, to))
    requires Spans(sp, fold, hash, jobs, hash(KeyText(sp, fold, from)))
    ensures Reachable(sp, fold, hash, jobs, from, to)
  {
    hide KeyText;
    var key := hash(KeyText(sp, fold, from));
    var j, k :| j in jobs && k in jobs && j.sourceId != k.sourceId &&
                hash(KeyText(sp, fold, j)) == key && hash(KeyText(sp, fold, k)) == key;
    var via := if j.sourceId != from.sourceId then j else k;
    var path := if from.sourceId != to.sourceId then [from, to] else [from, via, to];
    assert Path(sp, fold, hash, jobs, path);
  }

  /** Over any set of jobs, one job can be reached from another by matches exactly when their match keys are
      equal and the jobs with that key span at least two sources. */
  lemma ReachableIff(sp: Spaces, fold: Fold, hash: Hash, jobs: set<Job>, from: Job, to: Job)
    requires from in jobs && to in jobs
    ensures Reachable(sp, fold, hash, jobs, from, to) <==>
            hash(KeyText(sp, fold, from)) == hash(KeyText(sp, fold, to)) &&
            Spans(sp, fold, hash, jobs, hash(KeyText(sp, fold, from)))
  {
    hide KeyText, Reachable, Spans;
    var key := hash(KeyText(sp, fold, from));
    if Reachable(sp, fold, hash, jobs, from, to) { ReachableHasKey(sp, fold, hash, jobs, from, to); }
    if hash(KeyText(sp, fold, to)) == key && Spans(sp, fold, hash, jobs, key) {
      SpanningKeyReaches(sp, fold, hash, jobs, from, to);
    }
  }
}
