/** Index names compared as texts: what the names of the model stand for in a database. */
module StartTexts {
  import opened Options
  import opened Names
  import opened Schema
  import opened TableSpecs
  import opened Positions
  import opened IndexTexts
  import opened ChainTheory
  import opened Chain
  import opened Renaming
  import opened FamilyRewrite
  import opened Migrations
  import Revision0024

  type Spelling = ColumnName -> string

  // ----- the two names of 0024 -----

  lemma SignalTextApart(u: TableName, d: ColumnName, spell: Spelling, rest: string)
    requires u < LENGTH
    ensures "ix_" + ("commercial_" + rest) != NameText(Indexed(u, d), spell)
  {
    var tail := "commercial_" + rest;
    assert At(Prefix(Decode(tail)) + "_", 1) != 'o';
    TailDistinct(tail, 1, u, d, spell);
  }

  lemma HypothesisTextApart(u: TableName, d: ColumnName, spell: Spelling, rest: string)
    requires u < LENGTH
    ensures "ix_" + ("need_" + rest) != NameText(Indexed(u, d), spell)
  {
    var tail := "need_" + rest;
    assert At(Prefix(Decode(tail)) + "_", 0) != 'n';
    TailDistinct(tail, 0, u, d, spell);
  }

  lemma SignalText()
    ensures Revision0024.SIGNAL_INDEX.text == "ix_" + ("commercial_" + "signals_independence")
    ensures |Revision0024.SIGNAL_INDEX.text| == 34
  {}

  lemma HypothesisText()
    ensures Revision0024.HYPOTHESIS_INDEX.text == "ix_" + ("need_" + "hypotheses_org_class")
    ensures |Revision0024.HYPOTHESIS_INDEX.text| == 28
  {}

  lemma WrittenLengths(n: IndexName, spell: Spelling)
    requires IndexPosition(n) < LENGTH && !n.Indexed?
    ensures |NameText(n, spell)| in {32, 46, 29}
  {}

  /** Neither name of 0024 is written like a name of the earlier revisions. */
  lemma NewTextsApart(n: IndexName, spell: Spelling)
    requires IndexPosition(n) < LENGTH
    ensures NameText(n, spell) != NameText(Revision0024.SIGNAL_INDEX, spell)
    ensures NameText(n, spell) != NameText(Revision0024.HYPOTHESIS_INDEX, spell)
  {
    SignalText();
    HypothesisText();
    if n.Indexed? {
      hide Revision0024.SIGNAL_INDEX, Revision0024.HYPOTHESIS_INDEX, Prefix;
      SignalTextApart(n.on, n.column, spell, "signals_independence");
      HypothesisTextApart(n.on, n.column, spell, "hypotheses_org_class");
      WrittenAsIs(spell);
      hide NameText;
    } else {
      hide Revision0024.SIGNAL_INDEX, Revision0024.HYPOTHESIS_INDEX, Prefix;
      WrittenLengths(n, spell);
      WrittenAsIs(spell);
      hide NameText;
    }
  }

  lemma WrittenAsIs(spell: Spelling)
    ensures NameText(Revision0024.SIGNAL_INDEX, spell) == Revision0024.SIGNAL_INDEX.text
    ensures NameText(Revision0024.HYPOTHESIS_INDEX, spell) == Revision0024.HYPOTHESIS_INDEX.text
  {}

  // ----- texts in a database -----

  /** Different names are written differently. */
  ghost predicate Apart(names: set<IndexName>, spell: Spelling) {
    forall n, m | n in names && m in names && NameText(n, spell) == NameText(m, spell) :: n == m
  }

  /** A name the segment creates. */
  predicate Creates(p: nat, q: nat, n: IndexName)
    requires p <= q <= COUNT
  {
    if q <= REVISIONS then Start(p) <= IndexPosition(n) < Start(q)
    else
      p < q &&
      (Start(p) <= IndexPosition(n) < LENGTH || n == Revision0024.SIGNAL_INDEX || n == Revision0024.HYPOTHESIS_INDEX)
  }

  /** The starting condition on index names, compared as texts: those that are there are written differently
      from each other and from those the segment creates. */
  ghost predicate TextsFree(db: Database, p: nat, q: nat, spell: Spelling)
    requires p <= q <= COUNT
  {
    && Apart(db.indexes.Keys, spell)
    && forall n, m | n in db.indexes && Creates(p, q, m) :: NameText(n, spell) != NameText(m, spell)
  }

  lemma CreatedApart(p: nat, q: nat, n: IndexName, m: IndexName, spell: Spelling)
    requires p <= q <= COUNT && Creates(p, q, n) && Creates(p, q, m) && Injective(spell)
    requires NameText(n, spell) == NameText(m, spell)
    ensures n == m
  {
    StartBounds(p, q);
    hide NameText, Start, IndexPosition;
    if IndexPosition(n) < LENGTH && IndexPosition(m) < LENGTH {
      TextsDistinct(n, m, spell);
    } else if IndexPosition(n) < LENGTH {
      NewTextsApart(n, spell);
    } else if IndexPosition(m) < LENGTH {
      NewTextsApart(m, spell);
    } else {
      WrittenTexts(spell);
    }
  }

  lemma StartBounds(p: nat, q: nat)
    requires p <= q <= COUNT
    ensures forall r: nat | r <= REVISIONS :: Start(r) <= LENGTH
  {}

  lemma WrittenTexts(spell: Spelling)
    ensures NameText(Revision0024.SIGNAL_INDEX, spell) != NameText(Revision0024.HYPOTHESIS_INDEX, spell)
  {
    Revision0024.IndexNamesDiffer();
  }

  /** The indexes after the upgrades of a segment are those from before and some that it creates. */
  lemma SegmentIndexes(db: Database, p: nat, q: nat, order: seq<Entry>, back: seq<Entry>)
    requires p <= q <= COUNT && Wf(db) && SegmentReady(Tables(), db, p, q)
    requires Lists(order, Revision0024.LEGACY_TO_CANONICAL)
    requires Run(UpSegment(Tables(), p, q, order), db).Some?
    ensures forall n | n in Run(UpSegment(Tables(), p, q, order), db).value.indexes ::
              n in db.indexes || Creates(p, q, n)
  {
    TablesFormChain();
    MappingsDeclared();
    hide Revision0024.LEGACY_TO_CANONICAL, Tables, IsChain, Wf, Lists, Run, UpSegment, DownSegment, UpRange, DownRange;
    hide IndexPosition, Revision0024.Upgrade, Revision0024.SIGNAL_INDEX, Revision0024.HYPOTHESIS_INDEX;
    if q <= REVISIONS {
      StartsGrow(p, q);
      SegmentIsRange(Tables(), p, q, order, back);
      hide Start;
      RangeRuns(Tables(), db, Start(p), Start(q));
    } else if p == q {
      EmptySegment(Tables(), p, order, back);
      RunNothing(db);
    } else {
      FirstHalf(Tables(), db, p, order, back);
      FirstHalfRange(Tables(), p, order, back);
      SegmentEndsWith0024(Tables(), p, order, back);
      hide Start;
      RangeRuns(Tables(), db, Start(p), LENGTH);
      var mid := Run(UpSegment(Tables(), p, REVISIONS, order), db).value;
      RunAppend(UpSegment(Tables(), p, REVISIONS, order), Revision0024.Upgrade(order), db);
      LastIndexes(order, mid);
    }
  }

  lemma LastIndexes(order: seq<Entry>, mid: Database)
    requires Wf(mid) && Revision0024.Ready(mid) && Lists(order, Revision0024.LEGACY_TO_CANONICAL)
    requires Run(Revision0024.Upgrade(order), mid).Some?
    ensures forall n | n in Run(Revision0024.Upgrade(order), mid).value.indexes ::
              n in mid.indexes || n == Revision0024.SIGNAL_INDEX || n == Revision0024.HYPOTHESIS_INDEX
  {
    hide Wf, Lists, Run, Revision0024.Upgrade, Revision0024.LEGACY_TO_CANONICAL, Clashes, RenameTable;
    hide Revision0024.Completed, Revision0024.SIGNAL_INDEX, Revision0024.HYPOTHESIS_INDEX;
    Revision0024.UpgradeRuns(order, mid);
  }

  /** Where the starting condition holds of the texts, no two indexes are ever written alike: names stand for
      texts throughout the upgrades of the segment, which drop none. */
  lemma TextsStayApart(db: Database, p: nat, q: nat, order: seq<Entry>, back: seq<Entry>, spell: Spelling)
    requires p <= q <= COUNT && Wf(db) && SegmentReady(Tables(), db, p, q)
    requires Lists(order, Revision0024.LEGACY_TO_CANONICAL)
    requires Run(UpSegment(Tables(), p, q, order), db).Some?
    requires Injective(spell) && TextsFree(db, p, q, spell)
    ensures Apart(Run(UpSegment(Tables(), p, q, order), db).value.indexes.Keys, spell)
  {
    hide Tables, Wf, SegmentReady, Lists, Run, UpSegment, Creates, NameText, Injective;
    hide Revision0024.LEGACY_TO_CANONICAL;
    SegmentIndexes(db, p, q, order, back);
    var out := Run(UpSegment(Tables(), p, q, order), db).value;
    forall n, m | n in out.indexes && m in out.indexes && NameText(n, spell) == NameText(m, spell) ensures n == m {
      if Creates(p, q, n) && Creates(p, q, m) { CreatedApart(p, q, n, m, spell); }
    }
  }

  /** The condition on texts implies the one on names that the segment theorems ask for. */
  lemma TextsFreeNamesFree(db: Database, p: nat, q: nat, spell: Spelling)
    requires p <= q <= COUNT && TextsFree(db, p, q, spell)
    ensures forall n | n in db.indexes :: !Creates(p, q, n)
  {
    hide NameText, Creates;
    forall n | n in db.indexes ensures !Creates(p, q, n) {
      assert NameText(n, spell) == NameText(n, spell);
    }
  }
}
