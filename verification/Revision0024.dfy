/** Revision 0024: columns with server defaults for two tables, an index on each, and the rewrite of
    service family ids. */
module Revision0024 {
  import opened Options
  import opened Names
  import opened Schema
  import opened TableSpecs
  import opened Renaming
  import opened FamilyRewrite

  const LEGACY_TO_CANONICAL: Dictionary := map[
    STRATEGY_VCISO := SECURITY_STRATEGY_VCISO,
    AUDIT_RISK_ASSESSMENT := RISK_ASSESSMENT_AUDIT,
    RED_PURPLE_TEAMING := RED_TEAM_PURPLE_TEAM,
    VULNERABILITY_ATTACK_SURFACE := VULNERABILITY_MANAGEMENT_ASM,
    SOC_SIEM_MDR_XDR_SOAR := SOC_SIEM_MDR_DETECTION,
    RESILIENCE_CRISIS_READINESS := RESILIENCE_BCP_DRP,
    IAM_IGA_PAM_ZERO_TRUST := IAM_PAM_ZERO_TRUST,
    CLOUD_CONTAINER_SECURITY := CLOUD_SECURITY,
    APPSEC_DEVSECOPS := APPLICATION_SECURITY_DEVSECOPS,
    NETWORK_SASE_SECURITY := NETWORK_SECURITY_SASE,
    DATA_PROTECTION := DATA_SECURITY_PRIVACY,
    AWARENESS_TRAINING := SECURITY_AWARENESS_TRAINING]

  /** No canonical id is a legacy id and no two legacy ids share one. */
  lemma VocabulariesSeparate()
    ensures Separate(LEGACY_TO_CANONICAL)
  {
    DictionaryNumbers();
    hide LEGACY_TO_CANONICAL;
  }

  /** The order in which the loop visits the entries: as they are written. */
  const WRITTEN_ORDER: seq<Entry> := [
    Entry(STRATEGY_VCISO, SECURITY_STRATEGY_VCISO),
    Entry(AUDIT_RISK_ASSESSMENT, RISK_ASSESSMENT_AUDIT),
    Entry(RED_PURPLE_TEAMING, RED_TEAM_PURPLE_TEAM),
    Entry(VULNERABILITY_ATTACK_SURFACE, VULNERABILITY_MANAGEMENT_ASM),
    Entry(SOC_SIEM_MDR_XDR_SOAR, SOC_SIEM_MDR_DETECTION),
    Entry(RESILIENCE_CRISIS_READINESS, RESILIENCE_BCP_DRP),
    Entry(IAM_IGA_PAM_ZERO_TRUST, IAM_PAM_ZERO_TRUST),
    Entry(CLOUD_CONTAINER_SECURITY, CLOUD_SECURITY),
    Entry(APPSEC_DEVSECOPS, APPLICATION_SECURITY_DEVSECOPS),
    Entry(NETWORK_SASE_SECURITY, NETWORK_SECURITY_SASE),
    Entry(DATA_PROTECTION, DATA_SECURITY_PRIVACY),
    Entry(AWARENESS_TRAINING, SECURITY_AWARENESS_TRAINING)]

  lemma WrittenOrderNumbers()
    ensures |WRITTEN_ORDER| == 12 && forall i | 0 <= i < 12 :: WRITTEN_ORDER[i] == Entry(i, i + 12)
  {}

  lemma DictionaryNumbers()
    ensures forall f: FamilyId :: f in LEGACY_TO_CANONICAL <==> f < 12
    ensures forall f: FamilyId | f < 12 :: LEGACY_TO_CANONICAL[f] == f + 12
  {}

  lemma WrittenOrderLists()
    ensures Lists(WRITTEN_ORDER, LEGACY_TO_CANONICAL)
  {
    WrittenOrderNumbers();
    DictionaryNumbers();
    hide WRITTEN_ORDER, LEGACY_TO_CANONICAL;
    forall f | f in LEGACY_TO_CANONICAL ensures Entry(f, LEGACY_TO_CANONICAL[f]) in WRITTEN_ORDER {
      assert WRITTEN_ORDER[f] == Entry(f, f + 12);
    }
  }

  /** The dictionary of the downgrade. */
  function CanonicalToLegacy(): Dictionary {
    VocabulariesSeparate();
    Inverse(LEGACY_TO_CANONICAL)
  }

  lemma CanonicalToLegacyInverts()
    ensures Separate(LEGACY_TO_CANONICAL) && Separate(CanonicalToLegacy())
    ensures CanonicalToLegacy() == Inverse(LEGACY_TO_CANONICAL)
    ensures Inverse(CanonicalToLegacy()) == LEGACY_TO_CANONICAL
  {
    VocabulariesSeparate();
    InverseSeparate(LEGACY_TO_CANONICAL);
  }

  // ----- columns -----

  /** A column with the server default that fills it in existing rows; without a default that is NULL. */
  datatype NewColumn = NewColumn(name: ColumnName, kind: Column, fill: Value)

  const SIGNAL_COLUMNS: seq<NewColumn> := [
    NewColumn(SERVICE_FAMILIES, NotNull, Json("[]")),
    NewColumn(HYPOTHESIS_CLASSES, NotNull, Json("[]")),
    NewColumn(INDEPENDENCE_KEY, Nullable, Null),
    NewColumn(CORROBORATION_GROUP_KEY, Nullable, Null),
    NewColumn(POLARITY, NotNull, Text("supporting")),
    NewColumn(IS_EXPLICIT, NotNull, Boolean(false)),
    NewColumn(HISTORICAL_ONLY, NotNull, Boolean(false)),
    NewColumn(MAPPING_RULE_ID, NotNull, Text("legacy-signal")),
    NewColumn(MAPPING_RULE_VERSION, NotNull, Text("1.0.0"))]

  const HYPOTHESIS_COLUMNS: seq<NewColumn> := [
    NewColumn(HYPOTHESIS_CLASS, NotNull, Text("research_only_weak_signal")),
    NewColumn(SERVICE_FAMILIES, NotNull, Json("[]")),
    NewColumn(CONFIDENCE, NotNull, Float(0.5)),
    NewColumn(URGENCY, NotNull, Text("low")),
    NewColumn(HORIZON, NotNull, Text("long_term")),
    NewColumn(APPLICABLE_OFFERS, NotNull, Json("[]")),
    NewColumn(CONFLICTING_SIGNAL_IDS, NotNull, Json("[]")),
    NewColumn(NEGATIVE_SIGNAL_IDS, NotNull, Json("[]")),
    NewColumn(SOURCE_CONTRIBUTIONS, NotNull, Json("[]")),
    NewColumn(TAXONOMY_VERSION, NotNull, Text("2026.08"))]

  /** The column lists that the downgrade loops over backwards. */
  const SIGNAL_DROPS: seq<ColumnName> := [
    SERVICE_FAMILIES, HYPOTHESIS_CLASSES, INDEPENDENCE_KEY, CORROBORATION_GROUP_KEY, POLARITY,
    IS_EXPLICIT, HISTORICAL_ONLY, MAPPING_RULE_ID, MAPPING_RULE_VERSION]

  const HYPOTHESIS_DROPS: seq<ColumnName> := [
    HYPOTHESIS_CLASS, SERVICE_FAMILIES, CONFIDENCE, URGENCY, HORIZON, APPLICABLE_OFFERS,
    CONFLICTING_SIGNAL_IDS, NEGATIVE_SIGNAL_IDS, SOURCE_CONTRIBUTIONS, TAXONOMY_VERSION]

  const SIGNAL_INDEX := Written("ix_commercial_signals_independence")
  const SIGNAL_INDEXED := [ORGANIZATION_ID, INDEPENDENCE_KEY]
  const HYPOTHESIS_INDEX := Written("ix_need_hypotheses_org_class")
  const HYPOTHESIS_INDEXED := [ORGANIZATION_ID, HYPOTHESIS_CLASS]

  function AddOps(on: TableName, columns: seq<NewColumn>): seq<Op> {
    if columns == [] then []
    else [AddColumn(on, columns[0].name, columns[0].kind, columns[0].fill)] + AddOps(on, columns[1..])
  }

  /** The loop over `reversed(...)`. */
  function DropOps(on: TableName, names: seq<ColumnName>): seq<Op> {
    if names == [] then [] else DropOps(on, names[1..]) + [DropColumn(on, names[0])]
  }

  function WidenOps(on: TableName, columns: seq<NewColumn>, name: IndexName, indexed: seq<ColumnName>): seq<Op> {
    AddOps(on, columns) + [CreateIndex(name, Index(on, indexed))]
  }

  function NarrowOps(on: TableName, names: seq<ColumnName>, name: IndexName): seq<Op> {
    [DropIndex(name, on)] + DropOps(on, names)
  }

  function ColumnsUp(): seq<Op> {
    WidenOps(COMMERCIAL_SIGNALS, SIGNAL_COLUMNS, SIGNAL_INDEX, SIGNAL_INDEXED) +
    WidenOps(NEED_HYPOTHESES, HYPOTHESIS_COLUMNS, HYPOTHESIS_INDEX, HYPOTHESIS_INDEXED)
  }

  function ColumnsDown(): seq<Op> {
    NarrowOps(NEED_HYPOTHESES, HYPOTHESIS_DROPS, HYPOTHESIS_INDEX) +
    NarrowOps(COMMERCIAL_SIGNALS, SIGNAL_DROPS, SIGNAL_INDEX)
  }

  function Upgrade(order: seq<Entry>): seq<Op> { ColumnsUp() + RewriteOps(order) }

  function Downgrade(order: seq<Entry>): seq<Op> { RewriteOps(order) + ColumnsDown() }

  // ----- the downgrade undoes the columns -----

  lemma {:induction false} DropsUndoAdds(on: TableName, columns: seq<NewColumn>, names: seq<ColumnName>)
    requires |names| == |columns| && forall i | 0 <= i < |names| :: names[i] == columns[i].name
    ensures forall op | op in AddOps(on, columns) :: Reversible(op)
    ensures UndoAll(AddOps(on, columns)) == DropOps(on, names)
  {
    if columns != [] {
      DropsUndoAdds(on, columns[1..], names[1..]);
      assert AddOps(on, columns)[1..] == AddOps(on, columns[1..]);
    }
  }

  lemma NarrowUndoesWiden(
      on: TableName, columns: seq<NewColumn>, names: seq<ColumnName>, name: IndexName, indexed: seq<ColumnName>)
    requires |names| == |columns| && forall i | 0 <= i < |names| :: names[i] == columns[i].name
    ensures forall op | op in WidenOps(on, columns, name, indexed) :: Reversible(op)
    ensures UndoAll(WidenOps(on, columns, name, indexed)) == NarrowOps(on, names, name)
  {
    DropsUndoAdds(on, columns, names);
    var last := [CreateIndex(name, Index(on, indexed))];
    UndoAllAppend(AddOps(on, columns), last);
    assert UndoAll(last) == [DropIndex(name, on)] by { assert last[1..] == []; }
  }

  lemma ColumnsDownUndoes()
    ensures forall op | op in ColumnsUp() :: Reversible(op)
    ensures UndoAll(ColumnsUp()) == ColumnsDown()
  {
    var signals := WidenOps(COMMERCIAL_SIGNALS, SIGNAL_COLUMNS, SIGNAL_INDEX, SIGNAL_INDEXED);
    var hypotheses :=
      WidenOps(NEED_HYPOTHESES, HYPOTHESIS_COLUMNS, HYPOTHESIS_INDEX, HYPOTHESIS_INDEXED);
    NarrowUndoesWiden(
      COMMERCIAL_SIGNALS, SIGNAL_COLUMNS, SIGNAL_DROPS, SIGNAL_INDEX, SIGNAL_INDEXED);
    NarrowUndoesWiden(
      NEED_HYPOTHESES, HYPOTHESIS_COLUMNS, HYPOTHESIS_DROPS, HYPOTHESIS_INDEX, HYPOTHESIS_INDEXED);
    hide WidenOps, NarrowOps;
    UndoAllAppend(signals, hypotheses);
  }

  // ----- what the columns hold afterwards -----

  function Fills(columns: seq<NewColumn>): Row {
    if columns == [] then map[] else map[columns[0].name := columns[0].fill] + Fills(columns[1..])
  }

  function Kinds(columns: seq<NewColumn>): map<ColumnName, Column> {
    if columns == [] then map[] else map[columns[0].name := columns[0].kind] + Kinds(columns[1..])
  }

  /** The row kept whole and completed by the defaults. */
  function CompleteRow(r: Row, columns: seq<NewColumn>): Row { r + Fills(columns) }

  /** The table with the new columns, every old row completed. */
  function Completed(t: Table, columns: seq<NewColumn>): Table {
    t.(columns := t.columns + Kinds(columns),
       rows := seq(|t.rows|, i requires 0 <= i < |t.rows| => CompleteRow(t.rows[i], columns)))
  }

  /** The new columns of a table are named differently, and the NOT NULL ones have a default. */
  ghost predicate Sensible(columns: seq<NewColumn>) {
    && (forall i | 0 <= i < |columns| :: columns[i].kind == NotNull ==> columns[i].fill != Null)
    && (forall i, j | 0 <= i < j < |columns| :: columns[i].name != columns[j].name)
  }

  lemma SignalColumnsSensible()
    ensures Sensible(SIGNAL_COLUMNS)
  {}

  lemma HypothesisColumnsSensible()
    ensures Sensible(HYPOTHESIS_COLUMNS)
  {}

  ghost predicate Addable(t: Table, columns: seq<NewColumn>) {
    Sensible(columns) && forall i | 0 <= i < |columns| :: columns[i].name !in t.columns
  }

  lemma PutThenMerge<K, V>(m: map<K, V>, k: K, v: V, rest: map<K, V>)
    ensures m[k := v] + rest == m + (map[k := v] + rest)
  {}

  lemma {:induction false} CompletedStep(t: Table, columns: seq<NewColumn>)
    requires columns != [] && Addable(t, columns)
    ensures var w := Widen(t, columns[0].name, columns[0].kind, columns[0].fill);
            Addable(w, columns[1..]) && Completed(w, columns[1..]) == Completed(t, columns)
  {
    var w := Widen(t, columns[0].name, columns[0].kind, columns[0].fill);
    assert forall i | 0 <= i < |columns| - 1 :: columns[1..][i] == columns[i + 1];
    PutThenMerge(t.columns, columns[0].name, columns[0].kind, Kinds(columns[1..]));
    forall i | 0 <= i < |t.rows| ensures Completed(w, columns[1..]).rows[i] == Completed(t, columns).rows[i] {
      PutThenMerge(t.rows[i], columns[0].name, columns[0].fill, Fills(columns[1..]));
      assert CompleteRow(w.rows[i], columns[1..]) == CompleteRow(t.rows[i], columns);
    }
    assert Completed(w, columns[1..]).rows == Completed(t, columns).rows;
  }

  lemma CompletedByNothing(t: Table)
    ensures Completed(t, []) == t
  {
    var u := Completed(t, []);
    assert u.columns == t.columns;
    assert forall i | 0 <= i < |t.rows| :: CompleteRow(t.rows[i], []) == t.rows[i];
    assert u.rows == t.rows;
  }

  lemma FirstAdded(on: TableName, columns: seq<NewColumn>, db: Database)
    requires columns != [] && Wf(db) && on in db.tables && Addable(db.tables[on], columns)
    ensures var add := AddColumn(on, columns[0].name, columns[0].kind, columns[0].fill);
            var w := Widen(db.tables[on], columns[0].name, columns[0].kind, columns[0].fill);
            && Apply(add, db) == Some(db.(tables := db.tables[on := w])) && Wf(db.(tables := db.tables[on := w]))
            && AddOps(on, columns) == [add] + AddOps(on, columns[1..])
  {
    hide Widen;
    AddColumnUndone(on, columns[0].name, columns[0].kind, columns[0].fill, db);
    hide Wf;
  }

  /** Adding the columns never raises and fills every new NOT NULL column of every row. */
  lemma {:induction false} AddsRun(on: TableName, columns: seq<NewColumn>, db: Database)
    requires Wf(db) && on in db.tables && Addable(db.tables[on], columns)
    ensures var out := Run(AddOps(on, columns), db);
            out == Some(db.(tables := db.tables[on := Completed(db.tables[on], columns)])) && Wf(out.value)
  {
    if columns == [] {
      CompletedByNothing(db.tables[on]);
      assert db.tables[on := db.tables[on]] == db.tables;
    } else {
      hide Completed, Widen, Wf, Addable, Legal, Effect, AddOps;
      FirstAdded(on, columns, db);
      CompletedStep(db.tables[on], columns);
      var next := Apply(AddColumn(on, columns[0].name, columns[0].kind, columns[0].fill), db).value;
      AddsRun(on, columns[1..], next);
      assert AddOps(on, columns)[1..] == AddOps(on, columns[1..]);
      assert next.tables[on := Completed(next.tables[on], columns[1..])] ==
             db.tables[on := Completed(db.tables[on], columns)];
    }
  }

  lemma WidenRuns(on: TableName, columns: seq<NewColumn>, name: IndexName, indexed: seq<ColumnName>, db: Database)
    requires Wf(db) && on in db.tables && Addable(db.tables[on], columns) && name !in db.indexes && indexed != []
    requires forall c | c in indexed :: c in db.tables[on].columns || c in Kinds(columns)
    ensures var out := Run(WidenOps(on, columns, name, indexed), db);
            && out == Some(Database(
                 db.tables[on := Completed(db.tables[on], columns)], db.indexes[name := Index(on, indexed)]))
            && Wf(out.value)
  {
    AddsRun(on, columns, db);
    var create := CreateIndex(name, Index(on, indexed));
    var next := Run(AddOps(on, columns), db).value;
    RunAppend(AddOps(on, columns), [create], db);
    RunOne(create, next);
    assert Legal(create, next);
    CreateIndexUndone(name, Index(on, indexed), next);
  }

  // ----- the whole revision -----

  /** The tables 0024 widens are there, and the names it adds are free. */
  ghost predicate Widenable(db: Database) {
    && COMMERCIAL_SIGNALS in db.tables && ORGANIZATION_ID in db.tables[COMMERCIAL_SIGNALS].columns
    && NEED_HYPOTHESES in db.tables && ORGANIZATION_ID in db.tables[NEED_HYPOTHESES].columns
    && (forall i | 0 <= i < |SIGNAL_COLUMNS| :: SIGNAL_COLUMNS[i].name !in db.tables[COMMERCIAL_SIGNALS].columns)
    && (forall i | 0 <= i < |HYPOTHESIS_COLUMNS| :: HYPOTHESIS_COLUMNS[i].name !in db.tables[NEED_HYPOTHESES].columns)
    && SIGNAL_INDEX !in db.indexes && HYPOTHESIS_INDEX !in db.indexes
  }

  ghost predicate Ready(db: Database) { Widenable(db) && Rewritable(db) }

  function Widened(db: Database): Database
    requires COMMERCIAL_SIGNALS in db.tables && NEED_HYPOTHESES in db.tables
  {
    Database(
      db.tables[COMMERCIAL_SIGNALS := Completed(db.tables[COMMERCIAL_SIGNALS], SIGNAL_COLUMNS)]
               [NEED_HYPOTHESES := Completed(db.tables[NEED_HYPOTHESES], HYPOTHESIS_COLUMNS)],
      db.indexes[SIGNAL_INDEX := Index(COMMERCIAL_SIGNALS, SIGNAL_INDEXED)]
                [HYPOTHESIS_INDEX := Index(NEED_HYPOTHESES, HYPOTHESIS_INDEXED)])
  }

  lemma IndexNamesDiffer()
    ensures SIGNAL_INDEX != HYPOTHESIS_INDEX
  {
    assert |SIGNAL_INDEX.text| != |HYPOTHESIS_INDEX.text|;
  }

  lemma {:induction false} KindsHas(columns: seq<NewColumn>, k: nat)
    requires k < |columns|
    ensures columns[k].name in Kinds(columns)
  {
    if k > 0 { KindsHas(columns[1..], k - 1); }
  }

  lemma SignalsRun(db: Database)
    requires Wf(db) && Ready(db)
    ensures var up := WidenOps(COMMERCIAL_SIGNALS, SIGNAL_COLUMNS, SIGNAL_INDEX, SIGNAL_INDEXED);
            var out := Run(up, db);
            && out == Some(Database(
                 db.tables[COMMERCIAL_SIGNALS := Completed(db.tables[COMMERCIAL_SIGNALS], SIGNAL_COLUMNS)],
                 db.indexes[SIGNAL_INDEX := Index(COMMERCIAL_SIGNALS, SIGNAL_INDEXED)]))
            && Wf(out.value)
  {
    SignalColumnsSensible();
    KindsHas(SIGNAL_COLUMNS, 2);
    assert SIGNAL_COLUMNS[2].name == INDEPENDENCE_KEY;
    hide Wf, Completed, Kinds, Sensible, SIGNAL_COLUMNS, SIGNAL_INDEX, WidenOps, Run;
    WidenRuns(COMMERCIAL_SIGNALS, SIGNAL_COLUMNS, SIGNAL_INDEX, SIGNAL_INDEXED, db);
  }

  lemma HypothesesRun(db: Database, next: Database)
    requires Wf(next) && Ready(db)
    requires NEED_HYPOTHESES in next.tables && next.tables[NEED_HYPOTHESES] == db.tables[NEED_HYPOTHESES]
    requires HYPOTHESIS_INDEX !in next.indexes
    ensures var up := WidenOps(NEED_HYPOTHESES, HYPOTHESIS_COLUMNS, HYPOTHESIS_INDEX, HYPOTHESIS_INDEXED);
            var out := Run(up, next);
            && out == Some(Database(
                 next.tables[NEED_HYPOTHESES := Completed(db.tables[NEED_HYPOTHESES], HYPOTHESIS_COLUMNS)],
                 next.indexes[HYPOTHESIS_INDEX := Index(NEED_HYPOTHESES, HYPOTHESIS_INDEXED)]))
            && Wf(out.value)
  {
    HypothesisColumnsSensible();
    KindsHas(HYPOTHESIS_COLUMNS, 0);
    assert HYPOTHESIS_COLUMNS[0].name == HYPOTHESIS_CLASS;
    hide Wf, Completed, Kinds, Sensible, HYPOTHESIS_COLUMNS, HYPOTHESIS_INDEX, WidenOps, Run;
    WidenRuns(NEED_HYPOTHESES, HYPOTHESIS_COLUMNS, HYPOTHESIS_INDEX, HYPOTHESIS_INDEXED, next);
  }

  /** On arbitrary existing rows the column half never raises, completes every row of both tables with
      the defaults and changes nothing else, and the downgrade restores every row and index. */
  lemma ColumnsRoundTrip(db: Database)
    requires Wf(db) && Ready(db)
    ensures Run(ColumnsUp(), db) == Some(Widened(db)) && Wf(Widened(db)) && Rewritable(Widened(db))
    ensures Run(ColumnsDown(), Widened(db)) == Some(db)
  {
    IndexNamesDiffer();
    ColumnsDownUndoes();
    hide Wf, Completed, Run, WidenOps, SIGNAL_COLUMNS, HYPOTHESIS_COLUMNS, SIGNAL_INDEX, HYPOTHESIS_INDEX;
    var signals := WidenOps(COMMERCIAL_SIGNALS, SIGNAL_COLUMNS, SIGNAL_INDEX, SIGNAL_INDEXED);
    var hypotheses := WidenOps(NEED_HYPOTHESES, HYPOTHESIS_COLUMNS, HYPOTHESIS_INDEX, HYPOTHESIS_INDEXED);
    SignalsRun(db);
    HypothesesRun(db, Run(signals, db).value);
    RunAppend(signals, hypotheses, db);
    RoundTrip(ColumnsUp(), db);
  }

  /** Every NOT NULL column among the new ones is filled in every row, and the old columns keep their values. */
  lemma {:induction false} CompletedRow(r: Row, columns: seq<NewColumn>)
    requires forall k | 0 <= k < |columns| :: columns[k].name !in r
    requires Sensible(columns)
    ensures forall c | c in r :: c in CompleteRow(r, columns) && CompleteRow(r, columns)[c] == r[c]
    ensures forall k | 0 <= k < |columns| ::
              && columns[k].name in CompleteRow(r, columns)
              && CompleteRow(r, columns)[columns[k].name] == columns[k].fill
              && (columns[k].kind == NotNull ==> CompleteRow(r, columns)[columns[k].name] != Null)
    decreases |columns|
  {
    if columns != [] {
      var first, rest := columns[0], columns[1..];
      assert forall k | 0 <= k < |rest| :: rest[k] == columns[k + 1];
      var s := r[first.name := first.fill];
      CompletedRow(s, rest);
      PutThenMerge(r, first.name, first.fill, Fills(rest));
      assert CompleteRow(s, rest) == CompleteRow(r, columns);
      forall k | 0 <= k < |columns|
        ensures columns[k].name in CompleteRow(s, rest)
        ensures CompleteRow(s, rest)[columns[k].name] == columns[k].fill
      {
        if k > 0 { assert columns[k] == rest[k - 1]; } else { assert first.name in s; }
      }
    }
  }

  // ----- columns and rewrite together -----

  /** The column half and the rewrite touch different tables. */
  lemma WidenedRenamed(d: Dictionary, db: Database)
    requires Ready(db)
    ensures Ready(Renamed(d, db)) && Rewritable(Widened(db))
    ensures Widened(Renamed(d, db)) == Renamed(d, Widened(db))
    ensures Clashes(d, Widened(db)) <==> Clashes(d, db)
    ensures HoldsTargets(d, Widened(db)) <==> HoldsTargets(d, db)
  {
    assert Rewritable(Renamed(d, db));
    hide Completed, RenameTable, Clash, HoldsTarget;
    hide SIGNAL_COLUMNS, HYPOTHESIS_COLUMNS, SIGNAL_INDEX, HYPOTHESIS_INDEX;
    assert Widened(Renamed(d, db)).tables == Renamed(d, Widened(db)).tables;
  }

  /** The whole upgrade raises exactly when the rewrite alone would, and otherwise completes and renames. */
  lemma UpgradeRuns(order: seq<Entry>, db: Database)
    requires Wf(db) && Ready(db) && Lists(order, LEGACY_TO_CANONICAL)
    ensures Run(Upgrade(order), db).Some? <==> !Clashes(LEGACY_TO_CANONICAL, db)
    ensures !Clashes(LEGACY_TO_CANONICAL, db) ==>
              && Run(Upgrade(order), db) == Some(Widened(Renamed(LEGACY_TO_CANONICAL, db)))
              && Wf(Renamed(LEGACY_TO_CANONICAL, db)) && Ready(Renamed(LEGACY_TO_CANONICAL, db))
  {
    var d, w := LEGACY_TO_CANONICAL, Widened(db);
    VocabulariesSeparate();
    hide LEGACY_TO_CANONICAL, Separate, Lists, Wf, Ready, Run, Widened, Renamed, Clashes, ColumnsUp, RewriteOps;
    ColumnsRoundTrip(db);
    WidenedRenamed(d, db);
    RewriteRuns(order, d, w);
    ReadyRewritable(db);
    RewriteRuns(order, d, db);
    RunAppend(ColumnsUp(), RewriteOps(order), db);
  }

  lemma ReadyRewritable(db: Database)
    requires Ready(db)
    ensures Rewritable(db)
  {}

  /** The downgrade of a database the upgrade has just completed raises exactly when the inverse rewrite alone
      would, and otherwise renames back and takes the new columns and indexes away. */
  lemma DowngradeOfWidened(back: seq<Entry>, db: Database)
    requires Wf(db) && Ready(db) && Lists(back, CanonicalToLegacy())
    ensures var d := CanonicalToLegacy();
            && (Run(Downgrade(back), Widened(db)).Some? <==> !Clashes(d, db))
            && (!Clashes(d, db) ==>
                  && Run(Downgrade(back), Widened(db)) == Some(Renamed(d, db))
                  && Wf(Renamed(d, db)) && Ready(Renamed(d, db)))
  {
    var d, w := CanonicalToLegacy(), Widened(db);
    CanonicalToLegacyInverts();
    hide CanonicalToLegacy, LEGACY_TO_CANONICAL, Inverse, Separate, Lists, Wf, Ready, Run, Widened, Renamed, Clashes,
         ColumnsDown, RewriteOps;
    ColumnsRoundTrip(db);
    WidenedRenamed(d, db);
    RewriteRuns(back, d, w);
    ReadyRewritable(db);
    RewriteRuns(back, d, db);
    RunAppend(RewriteOps(back), ColumnsDown(), w);
    if !Clashes(d, db) { ColumnsRoundTrip(Renamed(d, db)); }
  }

  /** Where the upgrade succeeds the downgrade succeeds after it, and together they restore the database
      exactly when no row held one of the twelve canonical ids beforehand. */
  lemma UpgradeThenDowngrade(order: seq<Entry>, back: seq<Entry>, db: Database)
    requires Wf(db) && Ready(db)
    requires Lists(order, LEGACY_TO_CANONICAL) && Lists(back, CanonicalToLegacy())
    ensures Run(Upgrade(order), db).Some? ==> Bind(Run(Upgrade(order), db), Downgrade(back)).Some?
    ensures Bind(Run(Upgrade(order), db), Downgrade(back)) == Some(db) <==> !HoldsTargets(LEGACY_TO_CANONICAL, db)
  {
    var d := LEGACY_TO_CANONICAL;
    CanonicalToLegacyInverts();
    hide CanonicalToLegacy, LEGACY_TO_CANONICAL, Inverse, Separate, Lists, Wf, Ready, Run, Widened, Renamed, Clashes,
         HoldsTargets, Upgrade, Downgrade;
    ReadyRewritable(db);
    UpgradeRuns(order, db);
    if !HoldsTargets(d, db) { NoTargetsNoClashes(d, db); }
    if !Clashes(d, db) {
      RenamedRoundTrip(d, db);
      NoTargetsNoClashes(CanonicalToLegacy(), Renamed(d, db));
      DowngradeOfWidened(back, Renamed(d, db));
    }
  }
}
