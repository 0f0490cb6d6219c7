/** Renaming the values of one column by a dictionary: as a sequence of UPDATE statements, one per
    entry, and as one simultaneous substitution. */
module Renaming {
  import opened Names
  import opened Schema

  type Dictionary = map<FamilyId, FamilyId>

  datatype Entry = Entry(before: FamilyId, after: FamilyId)

  /** An order in which a loop may visit the entries of a dictionary. */
  ghost predicate Lists(m: seq<Entry>, d: Dictionary) {
    && (forall i, j | 0 <= i < j < |m| :: m[i].before != m[j].before)
    && (forall e | e in m :: e.before in d && d[e.before] == e.after)
    && (forall f | f in d :: Entry(f, d[f]) in m)
  }

  /** No two entries share a target and no target is a source. */
  ghost predicate Separate(d: Dictionary) {
    && (forall f, g | f in d && g in d && f != g :: d[f] != d[g])
    && (forall f | f in d :: d[f] !in d)
  }

  function Inverse(d: Dictionary): Dictionary
    requires Separate(d)
  {
    map f | f in d :: d[f] := f
  }

  lemma InverseSeparate(d: Dictionary)
    requires Separate(d)
    ensures Separate(Inverse(d)) && Inverse(Inverse(d)) == d
  {
    assert forall f | f in d :: d[f] in Inverse(d) && Inverse(d)[d[f]] == f;
  }

  // ----- values -----

  function RenameValue(d: Dictionary, v: Value): Value {
    if v.Label? && v.family in d then Label(d[v.family]) else v
  }

  predicate IsTarget(d: Dictionary, v: Value) { v.Label? && v.family in d.Values }

  /** Renaming and renaming back gives the value back exactly when it was no target to begin with. */
  lemma ValueRoundTrip(d: Dictionary, v: Value)
    requires Separate(d)
    ensures RenameValue(Inverse(d), RenameValue(d, v)) == v <==> !IsTarget(d, v)
  {
    assert forall f | f in d :: d[f] in Inverse(d) && Inverse(d)[d[f]] == f;
  }

  // ----- tables -----

  function RenameRow(d: Dictionary, c: ColumnName, r: Row): Row {
    if c in r then r[c := RenameValue(d, r[c])] else r
  }

  function RenameTable(d: Dictionary, c: ColumnName, t: Table): Table {
    t.(rows := seq(|t.rows|, i requires 0 <= i < |t.rows| => RenameRow(d, c, t.rows[i])))
  }

  /** A row of the table already holds a target id. */
  predicate HoldsTarget(d: Dictionary, c: ColumnName, t: Table) {
    exists r | r in t.rows :: c in r && IsTarget(d, r[c])
  }

  /** The two rows agree on the key but for column c. */
  predicate AgreeBut(r: Row, s: Row, key: seq<ColumnName>, c: ColumnName) {
    forall x | x in key && x != c :: x in r && x in s && r[x] == s[x] && r[x] != Null
  }

  predicate Collide(key: seq<ColumnName>, c: ColumnName, r: Row, s: Row, before: FamilyId, after: FamilyId) {
    c in key && c in r && c in s && r[c] == Label(before) && s[c] == Label(after) && AgreeBut(r, s, key, c)
  }

  /** Two rows with the same other key columns hold a source id and its target. */
  ghost predicate Clash(d: Dictionary, c: ColumnName, t: Table) {
    exists key, r, s, f |
      key in t.keys && r in t.rows && s in t.rows && f in d :: Collide(key, c, r, s, f, d[f])
  }

  lemma NoTargetNoClash(d: Dictionary, c: ColumnName, t: Table)
    requires !HoldsTarget(d, c, t)
    ensures !Clash(d, c, t)
  {}

  // ----- one UPDATE -----

  ghost predicate ClashOne(c: ColumnName, t: Table, before: FamilyId, after: FamilyId) {
    exists key, r, s | key in t.keys && r in t.rows && s in t.rows :: Collide(key, c, r, s, before, after)
  }

  lemma SameKeySplit(r: Row, s: Row, key: seq<ColumnName>, c: ColumnName)
    requires c in key ==> c in r && c in s
    ensures SameKey(r, s, key) <==> AgreeBut(r, s, key, c) && (c in key ==> r[c] == s[c] && r[c] != Null)
  {}

  lemma AgreeButReplaced(r: Row, s: Row, key: seq<ColumnName>, c: ColumnName, before: FamilyId, after: FamilyId)
    ensures AgreeBut(ReplaceIn(r, c, before, after), ReplaceIn(s, c, before, after), key, c) <==>
            AgreeBut(r, s, key, c)
  {
    var r', s' := ReplaceIn(r, c, before, after), ReplaceIn(s, c, before, after);
    assert forall x | x != c :: (x in r' <==> x in r) && (x in s' <==> x in s);
    assert forall x | x != c && x in r :: r'[x] == r[x];
    assert forall x | x != c && x in s :: s'[x] == s[x];
  }

  lemma KeyAfterUpdate(key: seq<ColumnName>, c: ColumnName, r: Row, s: Row, before: FamilyId, after: FamilyId)
    requires before != after && (c in key ==> c in r && c in s)
    ensures SameKey(ReplaceIn(r, c, before, after), ReplaceIn(s, c, before, after), key) <==>
            SameKey(r, s, key) || Collide(key, c, r, s, before, after) || Collide(key, c, s, r, before, after)
  {
    SameKeySplit(r, s, key, c);
    SameKeySplit(ReplaceIn(r, c, before, after), ReplaceIn(s, c, before, after), key, c);
    AgreeButReplaced(r, s, key, c, before, after);
    AgreeButSymmetric(r, s, key, c);
    hide SameKey, AgreeBut;
  }

  lemma AgreeButSymmetric(r: Row, s: Row, key: seq<ColumnName>, c: ColumnName)
    ensures AgreeBut(r, s, key, c) <==> AgreeBut(s, r, key, c)
  {}

  lemma RowsAfterUpdate(
      t: Table, key: seq<ColumnName>, c: ColumnName, i: nat, j: nat, before: FamilyId, after: FamilyId)
    requires TableOk(t) && before != after && key in t.keys && i < |t.rows| && j < |t.rows|
    ensures var u, r, s := UpdateRows(t, c, before, after), t.rows[i], t.rows[j];
            SameKey(u.rows[i], u.rows[j], key) <==>
            SameKey(r, s, key) || Collide(key, c, r, s, before, after) || Collide(key, c, s, r, before, after)
  {
    assert RowFits(t.rows[i], t.columns) && RowFits(t.rows[j], t.columns);
    KeyAfterUpdate(key, c, t.rows[i], t.rows[j], before, after);
  }

  lemma ClashRaises(t: Table, c: ColumnName, before: FamilyId, after: FamilyId)
    requires TableOk(t) && before != after && ClashOne(c, t, before, after)
    ensures !KeysHold(UpdateRows(t, c, before, after))
  {
    var u := UpdateRows(t, c, before, after);
    var key, r, s :| key in t.keys && r in t.rows && s in t.rows && Collide(key, c, r, s, before, after);
    var i :| 0 <= i < |t.rows| && t.rows[i] == r;
    var j :| 0 <= j < |t.rows| && t.rows[j] == s;
    assert i != j;
    RowsAfterUpdate(t, key, c, i, j, before, after);
    RowsAfterUpdate(t, key, c, j, i, before, after);
    hide SameKey, UpdateRows;
    assert !SameKey(u.rows[i], u.rows[j], key) || !SameKey(u.rows[j], u.rows[i], key) || !KeysHold(u);
  }

  lemma NoClashPasses(t: Table, c: ColumnName, before: FamilyId, after: FamilyId)
    requires TableOk(t) && before != after && !ClashOne(c, t, before, after)
    ensures KeysHold(UpdateRows(t, c, before, after))
  {
    hide SameKey, Collide, ReplaceIn;
    var u := UpdateRows(t, c, before, after);
    forall key, i, j | key in t.keys && 0 <= i < j < |t.rows| ensures !SameKey(u.rows[i], u.rows[j], key) {
      RowsAfterUpdate(t, key, c, i, j, before, after);
      assert t.rows[i] in t.rows && t.rows[j] in t.rows;
    }
  }

  /** An UPDATE raises exactly when it would make two rows equal on a key. */
  lemma UpdateLegalIff(t: Table, c: ColumnName, before: FamilyId, after: FamilyId)
    requires TableOk(t) && before != after
    ensures KeysHold(UpdateRows(t, c, before, after)) <==> !ClashOne(c, t, before, after)
  {
    hide KeysHold, UpdateRows, TableOk;
    if ClashOne(c, t, before, after) {
      ClashRaises(t, c, before, after);
    } else {
      NoClashPasses(t, c, before, after);
    }
  }

  /** The table in the middle of an UPDATE, with only the rows at the given positions replaced. */
  function UpdateSome(t: Table, c: ColumnName, before: FamilyId, after: FamilyId, done: set<nat>): Table {
    t.(rows := seq(|t.rows|, i requires 0 <= i < |t.rows| =>
                     if i in done then ReplaceIn(t.rows[i], c, before, after) else t.rows[i]))
  }

  lemma HalfReplaced(r: Row, s: Row, key: seq<ColumnName>, c: ColumnName, before: FamilyId, after: FamilyId)
    requires before != after && SameKey(ReplaceIn(r, c, before, after), s, key) && !SameKey(r, s, key)
    ensures SameKey(ReplaceIn(r, c, before, after), ReplaceIn(s, c, before, after), key)
  {
    var r' := ReplaceIn(r, c, before, after);
    assert forall x | x in key && x != c :: x in r && r[x] == r'[x];
    assert c in key;
    assert ReplaceIn(s, c, before, after) == s;
  }

  lemma SameKeySymmetric(r: Row, s: Row, key: seq<ColumnName>)
    ensures SameKey(r, s, key) <==> SameKey(s, r, key)
  {}

  /** A database that checks keys after every single row raises in an UPDATE exactly where one that checks
      them at the end of the statement does: where the end is good, every moment before it is. */
  lemma RowByRow(t: Table, c: ColumnName, before: FamilyId, after: FamilyId, done: set<nat>)
    requires TableOk(t) && before != after && KeysHold(UpdateRows(t, c, before, after))
    ensures KeysHold(UpdateSome(t, c, before, after, done))
  {
    hide SameKey, ReplaceIn;
    var u, v := UpdateRows(t, c, before, after), UpdateSome(t, c, before, after, done);
    forall key, i, j | key in t.keys && 0 <= i < j < |t.rows| ensures !SameKey(v.rows[i], v.rows[j], key) {
      var r, s := t.rows[i], t.rows[j];
      assert !SameKey(r, s, key) && !SameKey(u.rows[i], u.rows[j], key);
      SameKeySymmetric(r, s, key);
      SameKeySymmetric(v.rows[i], v.rows[j], key);
      SameKeySymmetric(u.rows[i], u.rows[j], key);
      if SameKey(v.rows[i], v.rows[j], key) {
        if i in done && j !in done { HalfReplaced(r, s, key, c, before, after); }
        if j in done && i !in done { HalfReplaced(s, r, key, c, before, after); }
      }
    }
  }

  lemma UpdateKeepsTable(t: Table, c: ColumnName, before: FamilyId, after: FamilyId)
    requires TableOk(t) && KeysHold(UpdateRows(t, c, before, after))
    ensures TableOk(UpdateRows(t, c, before, after))
  {
    var u := UpdateRows(t, c, before, after);
    forall i | 0 <= i < |u.rows| ensures RowFits(u.rows[i], u.columns) { assert RowFits(t.rows[i], t.columns); }
  }

  // ----- one UPDATE, then the rest -----

  lemma RenameRowAfterUpdate(d: Dictionary, c: ColumnName, r: Row, before: FamilyId)
    requires Separate(d) && before in d
    ensures RenameRow(d - {before}, c, ReplaceIn(r, c, before, d[before])) == RenameRow(d, c, r)
  {}

  lemma RenameAfterUpdate(d: Dictionary, c: ColumnName, t: Table, before: FamilyId)
    requires Separate(d) && before in d
    ensures RenameTable(d - {before}, c, UpdateRows(t, c, before, d[before])) == RenameTable(d, c, t)
  {
    hide RenameRow, ReplaceIn, Separate;
    var u := UpdateRows(t, c, before, d[before]);
    forall i | 0 <= i < |t.rows| ensures RenameRow(d - {before}, c, u.rows[i]) == RenameRow(d, c, t.rows[i]) {
      RenameRowAfterUpdate(d, c, t.rows[i], before);
    }
    assert RenameTable(d - {before}, c, u).rows == RenameTable(d, c, t).rows;
  }

  lemma CollideAfterUpdate(
      d: Dictionary, key: seq<ColumnName>, c: ColumnName, r: Row, s: Row, before: FamilyId, f: FamilyId)
    requires Separate(d) && before in d && f in d && f != before
    ensures Collide(key, c, ReplaceIn(r, c, before, d[before]), ReplaceIn(s, c, before, d[before]), f, d[f]) <==>
            Collide(key, c, r, s, f, d[f])
  {}

  lemma ClashSurvivesUpdate(d: Dictionary, c: ColumnName, t: Table, before: FamilyId)
    requires Separate(d) && before in d && Clash(d, c, t) && !ClashOne(c, t, before, d[before])
    ensures Clash(d - {before}, c, UpdateRows(t, c, before, d[before]))
  {
    hide Collide, ReplaceIn;
    var u := UpdateRows(t, c, before, d[before]);
    var key, r, s, f :| key in t.keys && r in t.rows && s in t.rows && f in d && Collide(key, c, r, s, f, d[f]);
    var i :| 0 <= i < |t.rows| && t.rows[i] == r;
    var j :| 0 <= j < |t.rows| && t.rows[j] == s;
    assert f != before;
    CollideAfterUpdate(d, key, c, r, s, before, f);
    assert u.rows[i] in u.rows && u.rows[j] in u.rows && f in d - {before};
  }

  lemma ClashWasThere(d: Dictionary, c: ColumnName, t: Table, before: FamilyId)
    requires Separate(d) && before in d && Clash(d - {before}, c, UpdateRows(t, c, before, d[before]))
    ensures Clash(d, c, t)
  {
    hide Collide, ReplaceIn;
    var u := UpdateRows(t, c, before, d[before]);
    var key, r, s, f :|
      key in u.keys && r in u.rows && s in u.rows && f in d - {before} && Collide(key, c, r, s, f, d[f]);
    var i :| 0 <= i < |u.rows| && u.rows[i] == r;
    var j :| 0 <= j < |u.rows| && u.rows[j] == s;
    CollideAfterUpdate(d, key, c, t.rows[i], t.rows[j], before, f);
    assert t.rows[i] in t.rows && t.rows[j] in t.rows;
  }

  lemma ClashAfterUpdate(d: Dictionary, c: ColumnName, t: Table, before: FamilyId)
    requires Separate(d) && before in d
    ensures Clash(d, c, t) <==>
            ClashOne(c, t, before, d[before]) || Clash(d - {before}, c, UpdateRows(t, c, before, d[before]))
  {
    hide Collide, UpdateRows, Separate;
    if Clash(d, c, t) && !ClashOne(c, t, before, d[before]) { ClashSurvivesUpdate(d, c, t, before); }
    if Clash(d - {before}, c, UpdateRows(t, c, before, d[before])) { ClashWasThere(d, c, t, before); }
  }

  // ----- what a renaming leaves -----

  /** After a renaming no row holds a source any more, so the inverse renaming meets no target. */
  lemma RenamedHoldsNoSource(d: Dictionary, c: ColumnName, t: Table)
    requires Separate(d)
    ensures !HoldsTarget(Inverse(d), c, RenameTable(d, c, t))
  {
    var u := RenameTable(d, c, t);
    forall i | 0 <= i < |u.rows| && c in u.rows[i] ensures !IsTarget(Inverse(d), u.rows[i][c]) {
      assert c in t.rows[i];
    }
  }

  lemma RowRoundTrip(d: Dictionary, c: ColumnName, r: Row)
    requires Separate(d)
    ensures RenameRow(Inverse(d), c, RenameRow(d, c, r)) == r <==> !(c in r && IsTarget(d, r[c]))
  {
    hide RenameValue, IsTarget, Separate;
    if c in r { ValueRoundTrip(d, r[c]); }
  }

  /** Renaming and renaming back restores the table exactly when no row held a target beforehand. */
  lemma TableRoundTrip(d: Dictionary, c: ColumnName, t: Table)
    requires Separate(d)
    ensures RenameTable(Inverse(d), c, RenameTable(d, c, t)) == t <==> !HoldsTarget(d, c, t)
  {
    hide RenameRow, IsTarget, Separate, Inverse;
    var back := RenameTable(Inverse(d), c, RenameTable(d, c, t));
    forall i | 0 <= i < |t.rows|
      ensures back.rows[i] == t.rows[i] <==> !(c in t.rows[i] && IsTarget(d, t.rows[i][c]))
    {
      RowRoundTrip(d, c, t.rows[i]);
    }
    if HoldsTarget(d, c, t) {
      var r :| r in t.rows && c in r && IsTarget(d, r[c]);
      var i :| 0 <= i < |t.rows| && t.rows[i] == r;
      assert back.rows[i] != t.rows[i];
    } else {
      forall i | 0 <= i < |t.rows| ensures back.rows[i] == t.rows[i] { assert t.rows[i] in t.rows; }
      assert back.rows == t.rows;
    }
  }
}
