/** The HTML text extractor: handlers over the events of the tokenizer, and the normalisation after it. */
module JobText {
  import opened Options
  import opened Whitespace

  const MAX_LENGTH: nat := 20000

  datatype Event = StartTag(tag: string) | EndTag(tag: string) | Data(data: string)

  predicate Ignoring(tag: string) { tag == "script" || tag == "style" }

  predicate Block(tag: string) {
    tag == "p" || tag == "div" || tag == "li" || tag == "h1" || tag == "h2" || tag == "h3" || tag == "h4"
  }

  datatype State = State(parts: seq<string>, depth: nat)

  function Handle(s: State, e: Event): State {
    match e
    case StartTag(tag) =>
      if Ignoring(tag) then s.(depth := s.depth + 1)
      else if tag == "br" || Block(tag) then s.(parts := s.parts + [" "])
      else s
    case EndTag(tag) =>
      if Ignoring(tag) && s.depth > 0 then s.(depth := s.depth - 1)
      else if Block(tag) then s.(parts := s.parts + [" "])
      else s
    case Data(data) => if s.depth == 0 then s.(parts := s.parts + [data]) else s
  }

  /** The state after the first i events. */
  function After(events: seq<Event>, i: nat): State
    requires i <= |events|
  {
    if i == 0 then State([], 0) else Handle(After(events, i - 1), events[i - 1])
  }

  function Concat(parts: seq<string>): string {
    if parts == [] then "" else parts[0] + Concat(parts[1..])
  }

  class TextExtractor {
    var parts: seq<string>
    var ignoredDepth: nat

    function View(): State
      reads this
    {
      State(parts, ignoredDepth)
    }

    constructor ()
      ensures View() == State([], 0)
    {
      parts, ignoredDepth := [], 0;
    }

    method HandleStartTag(tag: string)
      modifies this
      ensures View() == Handle(old(View()), StartTag(tag))
    {
      hide Block, Ignoring;
      if Ignoring(tag) {
        ignoredDepth := ignoredDepth + 1;
      } else if tag == "br" || Block(tag) {
        parts := parts + [" "];
      }
    }

    method HandleEndTag(tag: string)
      modifies this
      ensures View() == Handle(old(View()), EndTag(tag))
    {
      hide Block, Ignoring;
      if Ignoring(tag) && ignoredDepth > 0 {
        ignoredDepth := ignoredDepth - 1;
      } else if Block(tag) {
        parts := parts + [" "];
      }
    }

    method HandleData(data: string)
      modifies this
      ensures View() == Handle(old(View()), Data(data))
    {
      if ignoredDepth == 0 { parts := parts + [data]; }
    }

    /** The tokenizer calls the handlers one event after the other. */
    method Feed(events: seq<Event>)
      requires View() == State([], 0)
      modifies this
      ensures View() == After(events, |events|)
    {
      hide Handle;
      for i := 0 to |events|
        invariant View() == After(events, i)
      {
        match events[i]
        case StartTag(tag) => HandleStartTag(tag);
        case EndTag(tag) => HandleEndTag(tag);
        case Data(data) => HandleData(data);
      }
    }
  }

  // ----- the depth -----

  /** Opened minus closed script and style tags; an unmatched closing tag makes it negative. */
  function Balance(events: seq<Event>, i: nat): int
    requires i <= |events|
  {
    if i == 0 then 0
    else
      Balance(events, i - 1) +
      match events[i - 1]
      case StartTag(tag) => if Ignoring(tag) then 1 else 0
      case EndTag(tag) => if Ignoring(tag) then -1 else 0
      case Data(_) => 0
  }

  /** The least balance over all prefixes up to i, the empty one included. */
  function Lowest(events: seq<Event>, i: nat): int
    requires i <= |events|
  {
    if i == 0 then 0
    else
      var m, b := Lowest(events, i - 1), Balance(events, i);
      if b < m then b else m
  }

  lemma {:induction false} LowestMeaning(events: seq<Event>, i: nat)
    requires i <= |events|
    ensures forall j | 0 <= j <= i :: Lowest(events, i) <= Balance(events, j)
    ensures exists j | 0 <= j <= i :: Lowest(events, i) == Balance(events, j)
  {
    hide Ignoring;
    if i == 0 {
      assert Lowest(events, 0) == Balance(events, 0);
    } else {
      LowestMeaning(events, i - 1);
      hide Balance;
      if Lowest(events, i) == Lowest(events, i - 1) {
        var j :| 0 <= j <= i - 1 && Lowest(events, i - 1) == Balance(events, j);
      }
    }
  }

  /** After any events the depth is the balance minus the least balance so far. */
  lemma {:induction false} DepthIsBalance(events: seq<Event>, i: nat)
    requires i <= |events|
    ensures After(events, i).depth == Balance(events, i) - Lowest(events, i)
  {
    hide Ignoring, Block;
    if i > 0 { DepthIsBalance(events, i - 1); }
  }

  // ----- ignored data -----

  /** The two event lists differ at most in data that the first sees at positive depth. */
  ghost predicate SameButIgnored(a: seq<Event>, b: seq<Event>) {
    && |a| == |b|
    && forall i | 0 <= i < |a| :: a[i] == b[i] || (a[i].Data? && b[i].Data? && After(a, i).depth > 0)
  }

  /** Altering ignored data changes nothing. */
  lemma {:induction false} IgnoredDataUnseen(a: seq<Event>, b: seq<Event>, i: nat)
    requires SameButIgnored(a, b) && i <= |a|
    ensures After(b, i) == After(a, i)
  {
    hide Ignoring, Block;
    if i > 0 {
      IgnoredDataUnseen(a, b, i - 1);
      assert a[i - 1] == b[i - 1] || (a[i - 1].Data? && b[i - 1].Data? && After(a, i - 1).depth > 0);
    }
  }

  lemma {:induction false} ConcatJoin(a: seq<string>, b: seq<string>)
    ensures Concat(a + b) == Concat(a) + Concat(b)
  {
    if a == [] {
      assert a + b == b;
    } else {
      assert (a + b)[1..] == a[1..] + b;
      ConcatJoin(a[1..], b);
    }
  }

  /** Data at depth zero, on the other hand, all reaches the text: different data make different texts. */
  lemma VisibleDataSeen(events: seq<Event>, i: nat, x: string, y: string)
    requires i < |events| && events[i].Data? && After(events, i).depth == 0 && x != y
    ensures Concat(After(events[i := Data(x)], i + 1).parts) != Concat(After(events[i := Data(y)], i + 1).parts)
  {
    hide Ignoring, Block;
    var parts := After(events, i).parts;
    SamePrefix(events, events[i := Data(x)], i);
    SamePrefix(events, events[i := Data(y)], i);
    ConcatJoin(parts, [x]);
    ConcatJoin(parts, [y]);
    assert Concat([x]) == x + Concat([x][1..]) == x;
    assert Concat([y]) == y + Concat([y][1..]) == y;
    assert (Concat(parts) + x)[|Concat(parts)|..] == x && (Concat(parts) + y)[|Concat(parts)|..] == y;
  }

  lemma {:induction false} SamePrefix(a: seq<Event>, b: seq<Event>, i: nat)
    requires i <= |a| && i <= |b| && a[..i] == b[..i]
    ensures After(a, i) == After(b, i)
  {
    hide Handle;
    if i > 0 {
      assert a[..i][..i - 1] == b[..i][..i - 1] && a[..i][i - 1] == b[..i][i - 1];
      SamePrefix(a, b, i - 1);
    }
  }

  // ----- the order of the text -----

  /** The elements that stand between words; an opening br does so too. */
  predicate Separates(e: Event) {
    match e
    case StartTag(tag) =>
      tag == "br" || tag == "p" || tag == "div" || tag == "li" || tag == "h1" || tag == "h2" || tag == "h3" ||
      tag == "h4"
    case EndTag(tag) =>
      tag == "p" || tag == "div" || tag == "li" || tag == "h1" || tag == "h2" || tag == "h3" || tag == "h4"
    case Data(_) => false
  }

  lemma TagAdds(s: State, e: Event)
    requires !e.Data?
    ensures Handle(s, e).parts == if Separates(e) then s.parts + [" "] else s.parts
  {
    if Ignoring(e.tag) { assert |e.tag| > 4; }
  }

  /** Each event adds to the end of the text collected so far: data at depth zero adds itself, a tag of the
      seven block elements and an opening br add one blank, and nothing else adds anything. */
  lemma EventAdds(events: seq<Event>, i: nat)
    requires i < |events|
    ensures Concat(After(events, i + 1).parts) == Concat(After(events, i).parts) +
            if Separates(events[i]) then " "
            else if events[i].Data? && After(events, i).depth == 0 then events[i].data
            else ""
  {
    var parts := After(events, i).parts;
    ConcatOne(parts, " ");
    if events[i].Data? {
      ConcatOne(parts, events[i].data);
    } else {
      TagAdds(After(events, i), events[i]);
    }
    hide Concat, Block, Ignoring;
    assert Concat(parts) + "" == Concat(parts);
  }

  lemma ConcatOne(parts: seq<string>, x: string)
    ensures Concat(parts + [x]) == Concat(parts) + x
  {
    ConcatJoin(parts, [x]);
    assert Concat([x]) == x + Concat([x][1..]) == x;
  }

  /** Exactly the tags of script and style elements change the depth. */
  lemma EventNests(events: seq<Event>, i: nat)
    requires i < |events|
    ensures After(events, i + 1).depth == After(events, i).depth +
            match events[i]
            case StartTag(tag) => if tag == "script" || tag == "style" then 1 else 0
            case EndTag(tag) => if (tag == "script" || tag == "style") && After(events, i).depth > 0 then -1 else 0
            case Data(_) => 0
  {
    hide Block;
  }

  /** Nothing collected is ever changed or moved. */
  lemma {:induction false} TextGrows(events: seq<Event>, i: nat, j: nat)
    requires i <= j <= |events|
    ensures Concat(After(events, i).parts) <= Concat(After(events, j).parts)
    decreases j - i
  {
    hide After, Concat;
    if i < j {
      EventAdds(events, i);
      TextGrows(events, i + 1, j);
    }
  }

  // ----- html_to_text -----

  /** `tokenize` stands for the tokenizer and `unescape` for the character references. */
  function HtmlToText(
    sp: Spaces, unescape: string -> string, tokenize: string -> seq<Event>, value: Option<string>): string
  {
    if value == None || value == Some("") then ""
    else
      var events := tokenize(value.value);
      var text := JoinWords(Words(sp, unescape(Concat(After(events, |events|).parts))));
      if |text| <= MAX_LENGTH then text else text[..MAX_LENGTH]
  }

  method ToText(sp: Spaces, unescape: string -> string, tokenize: string -> seq<Event>, value: Option<string>)
    returns (text: string)
    ensures text == HtmlToText(sp, unescape, tokenize, value)
    ensures value == None || value == Some("") ==> text == ""
  {
    if value == None || value == Some("") { return ""; }
    var parser := new TextExtractor();
    parser.Feed(tokenize(value.value));
    text := JoinWords(Words(sp, unescape(Concat(parser.parts))));
    if |text| > MAX_LENGTH { text := text[..MAX_LENGTH]; }
  }

  lemma CutNormal(sp: Spaces, text: string, n: nat)
    requires Normal(sp, text) && n < |text|
    ensures Single(sp, text[..n]) && !Starts(sp, text[..n])
    ensures Normal(sp, text[..n]) <==> n == 0 || !sp(text[n - 1])
  {
    assert forall i | 0 <= i < n :: text[..n][i] == text[i];
  }

  /** The result never exceeds the limit, starts with no blank, and has single blanks inside; it is in
      normal form exactly when the cut does not fall right behind a blank. */
  lemma HtmlToTextNormal(sp: Spaces, unescape: string -> string, tokenize: string -> seq<Event>, value: Option<string>)
    requires sp(' ') && value.Some? && value.value != ""
    ensures var events := tokenize(value.value);
            var whole := Collapse(sp, Strip(sp, unescape(Concat(After(events, |events|).parts))));
            var text := HtmlToText(sp, unescape, tokenize, value);
            && |text| <= 20000 && text <= whole && (text == whole <==> |whole| <= 20000)
            && Single(sp, text) && !Starts(sp, text)
            && (Normal(sp, text) <==> |whole| <= MAX_LENGTH || whole[MAX_LENGTH - 1] != ' ')
  {
    var events := tokenize(value.value);
    var s := unescape(Concat(After(events, |events|).parts));
    JoinedWords(sp, s);
    JoinedWordsNormal(sp, s);
    var whole := JoinWords(Words(sp, s));
    hide After, Concat, Words, JoinWords, Strip, Collapse;
    if |whole| > MAX_LENGTH { CutNormal(sp, whole, MAX_LENGTH); }
  }

  lemma LettersNormal(sp: Spaces, letters: string, tail: string)
    requires letters != "" && tail != "" && !Ends(sp, tail) && Single(sp, tail)
    requires forall i | 0 <= i < |letters| :: !sp(letters[i])
    ensures Normal(sp, letters + tail)
  {
    var s := letters + tail;
    assert forall i | 0 <= i < |letters| :: s[i] == letters[i];
    assert forall i | |letters| <= i < |s| :: s[i] == tail[i - |letters|];
  }

  lemma OnePiece(text: string)
    ensures Concat(After([Data(text)], 1).parts) == text
  {
    assert After([Data(text)], 0) == State([], 0);
    assert After([Data(text)], 1).parts == [text];
    assert Concat([text]) == text + Concat([text][1..]) == text;
  }

  lemma NormalKept(sp: Spaces, text: string)
    requires Normal(sp, text)
    ensures JoinWords(Words(sp, text)) == text
  {
    StripNormal(sp, text);
    SingleCollapsed(sp, text);
    JoinedWords(sp, text);
  }

  /** A document of 19999 letters, a blank and a letter, read as one piece of text without references. */
  lemma CutLeavesBlank(sp: Spaces)
    requires sp(' ') && !sp('a')
    ensures var document := seq(MAX_LENGTH - 1, _ => 'a') + " a";
            var text := HtmlToText(sp, s => s, s => [Data(s)], Some(document));
            |text| == MAX_LENGTH && Ends(sp, text) && text == document[..MAX_LENGTH]
  {
    hide Words, JoinWords, Strip, Collapse, After, Concat, Normal;
    var letters := seq(MAX_LENGTH - 1, _ => 'a');
    var document := letters + " a";
    assert Single(sp, " a");
    LettersNormal(sp, letters, " a");
    NormalKept(sp, document);
    OnePiece(document);
    assert document[MAX_LENGTH - 1] == ' ';
  }

  /** Altering data inside script and style elements does not change the result. */
  lemma IgnoredDataUnseenInText(
      sp: Spaces, unescape: string -> string, tokenize: string -> seq<Event>, a: string, b: string)
    requires a != "" && b != "" && SameButIgnored(tokenize(a), tokenize(b))
    ensures HtmlToText(sp, unescape, tokenize, Some(a)) == HtmlToText(sp, unescape, tokenize, Some(b))
  {
    IgnoredDataUnseen(tokenize(a), tokenize(b), |tokenize(a)|);
    hide After, Concat, Words, JoinWords;
  }

  /** The character references are found piece by piece: none reaches across a blank. */
  ghost predicate Local(unescape: string -> string) {
    forall a, b :: unescape(a + " " + b) == unescape(a) + " " + unescape(b)
  }

  /** A block tag separates words: the result has the words of the text before it and then those of the text
      after it, cut at the limit. */
  lemma BlockSeparates(
      sp: Spaces, unescape: string -> string, tokenize: string -> seq<Event>, value: string, i: nat)
    requires sp(' ') && Local(unescape) && value != "" && i < |tokenize(value)|
    requires Separates(tokenize(value)[i])
    ensures var events := tokenize(value);
            var before, all := Concat(After(events, i).parts), Concat(After(events, |events|).parts);
            && before + " " <= all
            && var rest := all[|before| + 1..];
               var whole := JoinWords(Words(sp, unescape(before)) + Words(sp, unescape(rest)));
               HtmlToText(sp, unescape, tokenize, Some(value)) ==
               if |whole| <= MAX_LENGTH then whole else whole[..MAX_LENGTH]
  {
    hide After, Concat, Words, JoinWords, Separates, Local, Single, Normal;
    var events := tokenize(value);
    var before, all := Concat(After(events, i).parts), Concat(After(events, |events|).parts);
    EventAdds(events, i);
    TextGrows(events, i + 1, |events|);
    SplitWords(sp, unescape, before, all);
  }

  lemma SplitWords(sp: Spaces, unescape: string -> string, before: string, all: string)
    requires sp(' ') && Local(unescape) && before + " " <= all
    ensures Words(sp, unescape(all)) ==
            Words(sp, unescape(before)) + Words(sp, unescape(all[|before| + 1..]))
  {
    hide Words;
    var rest := all[|before| + 1..];
    assert all == before + " " + rest;
    WordsJoin(sp, unescape(before), ' ', unescape(rest));
  }
}
