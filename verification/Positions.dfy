/** What is known of every table of revisions 0017 to 0023 in the order of creation. */
module Positions {
  import opened Names
  import opened Schema
  import opened TableSpecs

  /** Where in the chain an index is created. */
  function IndexPosition(n: IndexName): nat {
    match n
    case Indexed(t, _) => t
    case AdvisorySourceRecord => VENDOR_ADVISORY_REVISIONS
    case AssessmentsSnapshotId => VULNERABILITY_APPLICABILITY_ASSESSMENTS
    case ClaimSourceRecord => CORPORATE_CHANGE_CLAIM_SNAPSHOTS
    case Written(_) => LENGTH
  }

  /** A column of a chain table that other tables may reference. */
  predicate Referable(n: TableName, c: ColumnName) { c == ID || (n == CORPORATE_GRAPH_NODES && c == NODE_KEY) }

  /** The tables of older revisions that foreign keys of the chain point at, always at their id. */
  predicate Older(n: TableName) { ORGANIZATIONS <= n <= PASSIVE_OBSERVATION_SNAPSHOTS }

  predicate PointsBack(f: ForeignKey, k: nat) {
    if f.table < LENGTH then f.table <= k && Referable(f.table, f.target) else Older(f.table) && f.target == ID
  }

  /** The declaration makes sense on its own, claims no name of another position, and its foreign keys
      point at the id of an older table or at a unique column created no later than itself. */
  ghost predicate Placed(t: TableSpec, k: nat) {
    && t.Coherent()
    && t.name == k
    && (forall x | x in t.composite :: IndexPosition(x.name) == k)
    && (forall c | c in t.overrides :: IndexPosition(t.overrides[c]) == k)
    && (forall f | f in t.references :: PointsBack(f, k))
    && [ID] in t.keys && (t.name == CORPORATE_GRAPH_NODES ==> [NODE_KEY] in t.keys)
  }

  lemma IndexPlaced(t: TableSpec, k: nat, n: IndexName)
    requires Placed(t, k) && n in t.IndexNames()
    ensures IndexPosition(n) == k
  {
    NamedContents(t, t.indexed);
    var i :| 0 <= i < |t.Indexes()| && t.Indexes()[i].name == n;
    if i < |t.indexed| { assert t.indexed[i] in t.indexed; } else { assert t.Indexes()[i] in t.composite; }
  }
}
