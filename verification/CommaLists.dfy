/** The comma lists of the approval form: printed into a text field and parsed from the submitted field. */
module CommaLists {
  import opened Options
  import opened Whitespace

  /** The lists the form can hold: different, non-empty, trimmed items without commas. */
  ghost predicate Clean(sp: Spaces, items: seq<string>) {
    && Different(items)
    && forall x | x in items :: x != "" && Strip(sp, x) == x && ',' !in x
  }

  predicate Different(items: seq<string>) {
    forall i, j | 0 <= i < j < |items| :: items[i] != items[j]
  }

  // ----- printing -----

  /** `join(", ")`. */
  function Print(items: seq<string>): string {
    if items == [] then "" else if |items| == 1 then items[0] else items[0] + ", " + Print(items[1..])
  }

  // ----- parsing -----

  /** `split(",")`: the segments between the commas, at least one. */
  function Split(s: string): (parts: seq<string>)
    ensures parts != []
  {
    if s == "" then [""]
    else if s[0] == ',' then [""] + Split(s[1..])
    else
      var rest := Split(s[1..]);
      [[s[0]] + rest[0]] + rest[1..]
  }

  /** Every segment trimmed, the empty ones left out. */
  function Items(sp: Spaces, parts: seq<string>): seq<string> {
    if parts == [] then []
    else
      var x := Strip(sp, parts[0]);
      (if x == "" then [] else [x]) + Items(sp, parts[1..])
  }

  /** `[...new Set(items)]`: every item where it occurs first. */
  function Unique(items: seq<string>): seq<string> {
    if items == [] then []
    else
      var seen, last := Unique(items[..|items| - 1]), items[|items| - 1];
      if last in seen then seen else seen + [last]
  }

  /** None stands for a missing field or one that is no text. */
  function OptionalText(sp: Spaces, value: Option<string>): Option<string> {
    if value.Some? && Strip(sp, value.value) != "" then Some(Strip(sp, value.value)) else None
  }

  function Csv(sp: Spaces, value: Option<string>): seq<string> {
    match OptionalText(sp, value)
    case None => []
    case Some(text) => Unique(Items(sp, Split(text)))
  }

  // ----- what parsing gives -----

  lemma {:induction false} StripTwice(sp: Spaces, s: string)
    ensures Strip(sp, Strip(sp, s)) == Strip(sp, s)
  {
    StripShape(sp, s);
    StripNormal(sp, Strip(sp, s));
  }

  lemma {:induction false} StripLeftPart(sp: Spaces, s: string)
    ensures forall c | c in StripLeft(sp, s) :: c in s
  {
    if s != "" && sp(s[0]) { StripLeftPart(sp, s[1..]); }
  }

  lemma {:induction false} StripRightPart(sp: Spaces, s: string)
    ensures forall c | c in StripRight(sp, s) :: c in s
  {
    if !AllSpaces(sp, s) { StripRightPart(sp, s[1..]); }
  }

  lemma {:induction false} SplitCommaFree(s: string)
    ensures forall x | x in Split(s) :: ',' !in x
  {
    if s != "" {
      SplitCommaFree(s[1..]);
      assert Split(s[1..])[0] in Split(s[1..]);
    }
  }

  lemma {:induction false} ItemsClean(sp: Spaces, parts: seq<string>)
    requires forall x | x in parts :: ',' !in x
    ensures forall x | x in Items(sp, parts) :: x != "" && Strip(sp, x) == x && ',' !in x
  {
    if parts != [] {
      assert parts[0] in parts;
      ItemsClean(sp, parts[1..]);
      StripTwice(sp, parts[0]);
      StripLeftPart(sp, parts[0]);
      StripRightPart(sp, StripLeft(sp, parts[0]));
    }
  }

  lemma {:induction false} UniqueContents(items: seq<string>)
    ensures Different(Unique(items))
    ensures forall x :: x in Unique(items) <==> x in items
  {
    if items != [] {
      UniqueContents(items[..|items| - 1]);
      assert items == items[..|items| - 1] + [items[|items| - 1]];
    }
  }

  function FirstIndex(items: seq<string>, x: string): (i: nat)
    requires x in items
    ensures i < |items| && items[i] == x && x !in items[..i]
  {
    if items[0] == x then 0
    else
      assert items[1..][..FirstIndex(items[1..], x)] == items[1..FirstIndex(items[1..], x) + 1];
      1 + FirstIndex(items[1..], x)
  }

  /** The items come in the order in which they first occur. */
  lemma {:induction false} UniqueInOrder(items: seq<string>, i: nat, j: nat)
    requires i < j < |Unique(items)|
    ensures Unique(items)[i] in items && Unique(items)[j] in items
    ensures FirstIndex(items, Unique(items)[i]) < FirstIndex(items, Unique(items)[j])
  {
    UniqueContents(items);
    var before := items[..|items| - 1];
    UniqueContents(before);
    var x, y := Unique(items)[i], Unique(items)[j];
    assert items == before + [items[|items| - 1]];
    if j < |Unique(before)| {
      UniqueInOrder(before, i, j);
      SameFirst(items, x);
      SameFirst(items, y);
    } else {
      assert x in before && y !in before;
      SameFirst(items, x);
      assert FirstIndex(items, y) >= |before| by { assert items[FirstIndex(items, y)] == y; }
    }
  }

  lemma SameFirst(items: seq<string>, x: string)
    requires items != [] && x in items[..|items| - 1]
    ensures x in items && FirstIndex(items, x) == FirstIndex(items[..|items| - 1], x)
  {
    var before := items[..|items| - 1];
    var i := FirstIndex(before, x);
    assert items[..i] == before[..i];
    FirstIndexOnly(items, x, i);
  }

  lemma {:induction false} FirstIndexOnly(items: seq<string>, x: string, i: nat)
    requires i < |items| && items[i] == x && x !in items[..i]
    ensures FirstIndex(items, x) == i
  {
    if i > 0 {
      assert items[0] in items[..i];
      assert forall y | y in items[1..][..i - 1] :: y in items[..i];
      FirstIndexOnly(items[1..], x, i - 1);
    }
  }

  /** Whatever is submitted, parsing gives a list the form can hold. */
  lemma CsvClean(sp: Spaces, value: Option<string>)
    ensures Clean(sp, Csv(sp, value))
  {
    hide Strip;
    if OptionalText(sp, value).Some? {
      var text := OptionalText(sp, value).value;
      SplitCommaFree(text);
      ItemsClean(sp, Split(text));
      UniqueContents(Items(sp, Split(text)));
    }
  }

  // ----- parsing what was printed -----

  lemma {:induction false} SplitNoComma(x: string)
    requires ',' !in x
    ensures Split(x) == [x]
  {
    if x != "" {
      assert x[0] in x;
      SplitNoComma(x[1..]);
      assert x == [x[0]] + x[1..];
    }
  }

  lemma {:induction false} SplitAtComma(x: string, y: string)
    requires ',' !in x
    ensures Split(x + "," + y) == [x] + Split(y)
  {
    if x == "" {
      assert (x + "," + y)[1..] == y;
    } else {
      assert x[0] in x && (x + "," + y)[1..] == x[1..] + "," + y;
      SplitAtComma(x[1..], y);
      assert x == [x[0]] + x[1..];
    }
  }

  lemma {:induction false} ItemsOfPrinted(sp: Spaces, items: seq<string>)
    requires sp(' ') && items != [] && forall x | x in items :: x != "" && Strip(sp, x) == x && ',' !in x
    ensures Items(sp, Split(Print(items))) == items
  {
    hide Strip, Split, Items;
    var x := items[0];
    assert x in items;
    ItemsOfOne(sp, x);
    if |items| > 1 {
      assert forall y | y in items[1..] :: y in items;
      var rest := Print(items[1..]);
      assert Print(items) == x + "," + ([' '] + rest);
      SplitAtComma(x, [' '] + rest);
      ItemsBlankFront(sp, rest, ' ');
      ItemsOfPrinted(sp, items[1..]);
      ItemsJoin(sp, [x], Split([' '] + rest));
    }
  }

  lemma ItemsOfOne(sp: Spaces, x: string)
    requires x != "" && Strip(sp, x) == x && ',' !in x
    ensures Items(sp, [x]) == [x] && Split(x) == [x]
  {
    hide Strip;
    SplitNoComma(x);
    assert Items(sp, [x]) == [x] + Items(sp, [x][1..]);
  }

  lemma {:induction false} UniqueDifferent(items: seq<string>)
    requires Different(items)
    ensures Unique(items) == items
  {
    if items != [] {
      UniqueDifferent(items[..|items| - 1]);
      assert items == items[..|items| - 1] + [items[|items| - 1]];
    }
  }

  lemma StrippedEnds(sp: Spaces, s: string)
    requires Strip(sp, s) == s
    ensures !Starts(sp, s) && !Ends(sp, s)
  {
    StripShape(sp, s);
  }

  lemma {:induction false} PrintedEnds(sp: Spaces, items: seq<string>)
    requires items != [] && forall x | x in items :: x != "" && Strip(sp, x) == x
    ensures Print(items) != "" && !Starts(sp, Print(items)) && !Ends(sp, Print(items))
  {
    hide Strip;
    assert items[0] in items;
    StrippedEnds(sp, items[0]);
    if |items| > 1 {
      assert forall x | x in items[1..] :: x in items;
      PrintedEnds(sp, items[1..]);
      var s := Print(items);
      assert s[|s| - 1] == Print(items[1..])[|Print(items[1..])| - 1];
    }
  }

  /** Parsing the printed list gives it back exactly when the form can hold it. */
  lemma PrintParse(sp: Spaces, items: seq<string>)
    requires sp(' ')
    ensures Csv(sp, Some(Print(items))) == items <==> Clean(sp, items)
  {
    CsvClean(sp, Some(Print(items)));
    if Clean(sp, items) && items != [] {
      PrintedEnds(sp, items);
      StripNormal(sp, Print(items));
      ItemsOfPrinted(sp, items);
      UniqueDifferent(items);
    }
  }

  /** On every submitted field, printing what was parsed and parsing it again changes nothing. */
  lemma ParsePrintParse(sp: Spaces, value: Option<string>)
    requires sp(' ')
    ensures Csv(sp, Some(Print(Csv(sp, value)))) == Csv(sp, value)
  {
    CsvClean(sp, value);
    PrintParse(sp, Csv(sp, value));
  }

  // ----- which items a field has -----

  /** The segments with a comma between each two. */
  function Rejoin(parts: seq<string>): string {
    if parts == [] then "" else if |parts| == 1 then parts[0] else parts[0] + "," + Rejoin(parts[1..])
  }

  /** What one more character in front, or at the end, does to the segments. */
  function PutFirst(c: char, parts: seq<string>): (out: seq<string>)
    requires parts != []
    ensures out != []
  {
    if c == ',' then [""] + parts else [[c] + parts[0]] + parts[1..]
  }

  function PutLast(parts: seq<string>, c: char): (out: seq<string>)
    requires parts != []
    ensures out != []
  {
    var n := |parts| - 1;
    if c == ',' then parts + [""] else parts[..n] + [parts[n] + [c]]
  }

  /** The segments are what stands between the commas. */
  lemma {:induction false} SplitMeaning(s: string)
    ensures Rejoin(Split(s)) == s
    ensures forall p | p in Split(s) :: ',' !in p
  {
    SplitCommaFree(s);
    if s != "" {
      SplitMeaning(s[1..]);
      RejoinPut(s[0], Split(s[1..]));
      assert Split(s) == PutFirst(s[0], Split(s[1..]));
      assert s == [s[0]] + s[1..];
      hide PutFirst, Rejoin;
    }
  }

  lemma RejoinPut(c: char, parts: seq<string>)
    requires parts != []
    ensures Rejoin(PutFirst(c, parts)) == [c] + Rejoin(parts)
  {
    var out := PutFirst(c, parts);
    if c == ',' {
      assert out[1..] == parts;
      assert Rejoin(out) == "" + "," + Rejoin(parts);
    } else {
      assert out[1..] == parts[1..];
    }
  }

  lemma {:induction false} ItemsJoin(sp: Spaces, a: seq<string>, b: seq<string>)
    ensures Items(sp, a + b) == Items(sp, a) + Items(sp, b)
  {
    if a == [] {
      assert a + b == b;
    } else {
      assert (a + b)[1..] == a[1..] + b;
      ItemsJoin(sp, a[1..], b);
    }
  }

  /** Exactly the trimmed segments that are not empty. */
  lemma {:induction false} ItemsContents(sp: Spaces, parts: seq<string>, x: string)
    ensures x in Items(sp, parts) <==> x != "" && exists p :: p in parts && Strip(sp, p) == x
  {
    hide Strip;
    if parts != [] {
      ItemsContents(sp, parts[1..], x);
      assert forall p :: p in parts <==> p == parts[0] || p in parts[1..];
    }
  }

  lemma {:induction false} StripRightSnoc(sp: Spaces, s: string, c: char)
    requires sp(c)
    ensures StripRight(sp, s + [c]) == StripRight(sp, s)
  {
    assert forall d :: d in s + [c] <==> d in s || d == c;
    if !AllSpaces(sp, s) {
      StripRightSnoc(sp, s[1..], c);
      assert (s + [c])[1..] == s[1..] + [c];
    }
  }

  /** Whitespace at either end is trimmed away. */
  lemma StripBlank(sp: Spaces, s: string, c: char)
    requires sp(c)
    ensures Strip(sp, [c] + s) == Strip(sp, s) && Strip(sp, s + [c]) == Strip(sp, s)
  {
    assert ([c] + s)[1..] == s;
    StripLeftJoin(sp, s, [c]);
    if AllSpaces(sp, s) {
      StripLeftShape(sp, s);
      StripLeftShape(sp, [c]);
    } else {
      StripRightSnoc(sp, StripLeft(sp, s), c);
    }
  }

  lemma PutBoth(c: char, parts: seq<string>, d: char)
    requires parts != []
    ensures PutFirst(c, PutLast(parts, d)) == PutLast(PutFirst(c, parts), d)
  {
    assert [c] + (parts[0] + [d]) == [c] + parts[0] + [d];
    var a, b := PutFirst(c, PutLast(parts, d)), PutLast(PutFirst(c, parts), d);
    assert |a| == |b| && forall i | 0 <= i < |a| :: a[i] == b[i];
  }

  lemma PutOnly(c: char)
    ensures Split("" + [c]) == PutLast(Split(""), c)
  {
    assert "" + [c] == [c] && [c][1..] == "";
    assert Split("") == [""];
    assert Split([c]) == PutFirst(c, [""]);
    assert [c] + "" == [c] == "" + [c];
    assert PutFirst(c, [""]) == PutLast([""], c);
  }

  lemma {:induction false} SplitSnoc(s: string, c: char)
    ensures Split(s + [c]) == PutLast(Split(s), c)
  {
    if s == "" {
      PutOnly(c);
    } else {
      SplitSnoc(s[1..], c);
      assert (s + [c])[1..] == s[1..] + [c];
      PutBoth(s[0], Split(s[1..]), c);
      assert Split(s + [c]) == PutFirst(s[0], Split(s[1..] + [c])) && Split(s) == PutFirst(s[0], Split(s[1..]));
      hide PutFirst, PutLast;
    }
  }

  lemma ItemsBlankFront(sp: Spaces, s: string, c: char)
    requires sp(c)
    ensures Items(sp, Split([c] + s)) == Items(sp, Split(s))
  {
    assert ([c] + s)[1..] == s;
    if c == ',' {
      assert Strip(sp, "") == "";
      assert ([""] + Split(s))[1..] == Split(s);
    } else {
      var rest := Split(s);
      assert Split([c] + s) == [[c] + rest[0]] + rest[1..];
      StripBlank(sp, rest[0], c);
    }
  }

  lemma ItemsBlankEnd(sp: Spaces, s: string, c: char)
    requires sp(c)
    ensures Items(sp, Split(s + [c])) == Items(sp, Split(s))
  {
    var parts := Split(s);
    var n := |parts| - 1;
    SplitSnoc(s, c);
    assert Strip(sp, "") == "";
    hide Split, Strip;
    if c == ',' {
      ItemsJoin(sp, parts, [""]);
    } else {
      assert parts == parts[..n] + [parts[n]];
      ItemsJoin(sp, parts[..n], [parts[n]]);
      ItemsJoin(sp, parts[..n], [parts[n] + [c]]);
      StripBlank(sp, parts[n], c);
    }
  }

  lemma {:induction false} ItemsInBlanks(sp: Spaces, u: string, t: string, v: string)
    requires AllSpaces(sp, u) && AllSpaces(sp, v)
    ensures Items(sp, Split(u + t + v)) == Items(sp, Split(t))
    decreases |u| + |v|
  {
    hide Items, Split;
    if u != "" {
      assert u[0] in u && forall c | c in u[1..] :: c in u;
      assert u + t + v == [u[0]] + (u[1..] + t + v);
      ItemsBlankFront(sp, u[1..] + t + v, u[0]);
      ItemsInBlanks(sp, u[1..], t, v);
    } else if v != "" {
      var n := |v| - 1;
      assert v[n] in v && forall c | c in v[..n] :: c in v;
      assert u + t + v == (u + t + v[..n]) + [v[n]];
      ItemsBlankEnd(sp, u + t + v[..n], v[n]);
      ItemsInBlanks(sp, u, t, v[..n]);
    } else {
      assert u + t + v == t;
    }
  }

  /** Whatever is submitted, parsing gives every segment that is not blank, trimmed, once, in the order of first
      occurrence; trimming the whole field first makes no difference.  A missing field has no items. */
  lemma CsvSegments(sp: Spaces, s: string)
    ensures Csv(sp, Some(s)) == Unique(Items(sp, Split(s)))
    ensures forall x :: x in Csv(sp, Some(s)) <==> x != "" && exists p :: p in Split(s) && Strip(sp, p) == x
    ensures Csv(sp, None) == []
  {
    var u, v := StripMeaning(sp, s);
    var t := Strip(sp, s);
    ItemsInBlanks(sp, u, t, v);
    assert Items(sp, Split("")) == [] by { assert Strip(sp, "") == ""; assert [""][1..] == []; }
    hide Strip, Split, Items, Unique;
    UniqueContents(Items(sp, Split(s)));
    assert Unique([]) == [] by { UniqueDifferent([]); }
    forall x ensures x in Csv(sp, Some(s)) <==> x != "" && exists p :: p in Split(s) && Strip(sp, p) == x {
      ItemsContents(sp, Split(s), x);
    }
  }

  /** Printing puts a comma and a blank between each two items. */
  lemma {:induction false} PrintJoin(a: seq<string>, b: seq<string>)
    requires a != [] && b != []
    ensures Print(a + b) == Print(a) + ", " + Print(b)
  {
    if |a| == 1 {
      assert (a + b)[1..] == b;
    } else {
      assert (a + b)[1..] == a[1..] + b;
      PrintJoin(a[1..], b);
    }
  }
}
