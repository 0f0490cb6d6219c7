/** The migration scripts as they run: every statement changes the connected database or raises. */
module MigrationContext {
  import opened Options
  import opened Names
  import opened Schema
  import opened TableSpecs
  import opened ChainTheory
  import opened Chain
  import opened Renaming
  import opened FamilyRewrite
  import opened Migrations
  import Revision0024

  lemma BindNothing(start: Option<Database>)
    ensures Bind(start, []) == start
  {}

  lemma BindFirst(start: Option<Database>, op: Op, rest: seq<Op>)
    ensures Bind(start, [op] + rest) == Bind(Bind(start, [op]), rest)
  {
    BindAppend(start, [op], rest);
  }

  lemma IndexesCreated(table: TableName, xs: seq<NamedIndex>, start: Option<Database>)
    ensures var out := Bind(start, CreateIndexOps(table, xs));
            start.Some? && IndexesFit(table, xs, start.value) ==>
              out.Some? &&
              forall n, x :: Stands(out.value, n, x) <==> Stands(start.value, n, x) || Listed(table, xs, n, x)
  {
    hide Stands, Listed;
    if start.Some? && IndexesFit(table, xs, start.value) { IndexesRun(table, xs, start.value); }
  }

  class Context {
    /** None once an operation has raised; then nothing after it is carried out. */
    var database: Option<Database>

    constructor (db: Database)
      ensures database == Some(db)
    {
      database := Some(db);
    }

    method Execute(op: Op)
      modifies this
      ensures database == Bind(old(database), [op])
    {
      match database
      case None =>
      case Some(db) =>
        RunOne(op, db);
        database := Apply(op, db);
    }

    // ----- tables with their indexes -----

    method CreateIndexes(table: TableName, xs: seq<NamedIndex>)
      modifies this
      ensures database == Bind(old(database), CreateIndexOps(table, xs))
      ensures old(database).Some? && IndexesFit(table, xs, old(database).value) ==>
                database.Some? &&
                forall n, x :: Stands(database.value, n, x) <==>
                  Stands(old(database).value, n, x) || Listed(table, xs, n, x)
    {
      for i := 0 to |xs|
        invariant Bind(database, CreateIndexOps(table, xs[i..])) == Bind(old(database), CreateIndexOps(table, xs))
      {
        hide Bind;
        var create := CreateIndex(xs[i].name, Index(table, xs[i].columns));
        BindFirst(database, create, CreateIndexOps(table, xs[i + 1..]));
        assert xs[i..][1..] == xs[i + 1..];
        Execute(create);
      }
      BindNothing(database);
      IndexesCreated(table, xs, old(database));
    }

    /** The loops over reversed lists of indexes. */
    method DropIndexes(table: TableName, xs: seq<NamedIndex>)
      modifies this
      ensures database == Bind(old(database), DropIndexOps(table, xs))
    {
      BindNothing(database);
      for i := |xs| downto 0
        invariant database == Bind(old(database), DropIndexOps(table, xs[i..]))
      {
        hide Bind;
        var drop := DropIndex(xs[i].name, table);
        BindAppend(old(database), DropIndexOps(table, xs[i + 1..]), [drop]);
        assert xs[i..][1..] == xs[i + 1..];
        Execute(drop);
      }
    }

    method CreateIndexedTable(t: TableSpec)
      modifies this
      ensures database == Bind(old(database), t.Up())
    {
      hide Bind, TableSpec.ToTable, TableSpec.Indexes, CreateIndexOps;
      BindFirst(database, CreateTable(t.name, t.ToTable()), CreateIndexOps(t.name, t.Indexes()));
      Execute(CreateTable(t.name, t.ToTable()));
      CreateIndexes(t.name, t.Indexes());
    }

    method DropIndexedTable(t: TableSpec)
      modifies this
      ensures database == Bind(old(database), t.Down())
    {
      hide Bind, TableSpec.Named, DropIndexOps;
      var xs := t.Named(t.dropped) + t.composite;
      BindAppend(database, DropIndexOps(t.name, xs), [DropTable(t.name)]);
      DropIndexes(t.name, xs);
      Execute(DropTable(t.name));
    }

    method CreateTables(chain: seq<TableSpec>, a: nat, b: nat)
      requires a <= b <= |chain|
      modifies this
      ensures database == Bind(old(database), UpRange(chain, a, b))
    {
      hide Bind, TableSpec.Up;
      for k := a to b
        invariant Bind(database, UpRange(chain, k, b)) == Bind(old(database), UpRange(chain, a, b))
      {
        BindAppend(database, chain[k].Up(), UpRange(chain, k + 1, b));
        CreateIndexedTable(chain[k]);
      }
      BindNothing(database);
    }

    /** The loops over the listed table names. */
    method DropListed(chain: seq<TableSpec>, names: seq<TableName>)
      requires forall n | n in names :: n < |chain|
      modifies this
      ensures database == Bind(old(database), DropTables(chain, names))
    {
      hide Bind, TableSpec.Down;
      for i := 0 to |names|
        invariant forall n | n in names[i..] :: n < |chain|
        invariant Bind(database, DropTables(chain, names[i..])) == Bind(old(database), DropTables(chain, names))
      {
        ghost var rest := names[i..];
        assert rest[1..] == names[i + 1..] && names[i] in names;
        assert forall n | n in rest[1..] :: n in rest;
        BindAppend(database, chain[names[i]].Down(), DropTables(chain, rest[1..]));
        DropIndexedTable(chain[names[i]]);
      }
      BindNothing(database);
    }

    // ----- revision 0024 -----

    method AddColumns(on: TableName, columns: seq<Revision0024.NewColumn>)
      modifies this
      ensures database == Bind(old(database), Revision0024.AddOps(on, columns))
    {
      hide Bind;
      for i := 0 to |columns|
        invariant Bind(database, Revision0024.AddOps(on, columns[i..])) ==
                  Bind(old(database), Revision0024.AddOps(on, columns))
      {
        var add := AddColumn(on, columns[i].name, columns[i].kind, columns[i].fill);
        assert columns[i..][1..] == columns[i + 1..];
        BindFirst(database, add, Revision0024.AddOps(on, columns[i + 1..]));
        Execute(add);
      }
      BindNothing(database);
    }

    /** The loops over reversed tuples of column names. */
    method DropColumns(on: TableName, names: seq<ColumnName>)
      modifies this
      ensures database == Bind(old(database), Revision0024.DropOps(on, names))
    {
      hide Bind;
      BindNothing(database);
      for i := |names| downto 0
        invariant database == Bind(old(database), Revision0024.DropOps(on, names[i..]))
      {
        assert names[i..][1..] == names[i + 1..];
        BindAppend(old(database), Revision0024.DropOps(on, names[i + 1..]), [DropColumn(on, names[i])]);
        Execute(DropColumn(on, names[i]));
      }
    }

    method WidenTable(on: TableName, columns: seq<Revision0024.NewColumn>, name: IndexName, indexed: seq<ColumnName>)
      modifies this
      ensures database == Bind(old(database), Revision0024.WidenOps(on, columns, name, indexed))
    {
      hide Bind, Revision0024.AddOps;
      BindAppend(database, Revision0024.AddOps(on, columns), [CreateIndex(name, Index(on, indexed))]);
      AddColumns(on, columns);
      Execute(CreateIndex(name, Index(on, indexed)));
    }

    method NarrowTable(on: TableName, names: seq<ColumnName>, name: IndexName)
      modifies this
      ensures database == Bind(old(database), Revision0024.NarrowOps(on, names, name))
    {
      hide Bind, Revision0024.DropOps;
      BindFirst(database, DropIndex(name, on), Revision0024.DropOps(on, names));
      Execute(DropIndex(name, on));
      DropColumns(on, names);
    }

    /** `_rewrite_service_family_ids`: for every entry, for both tables. */
    method RewriteServiceFamilyIds(mapping: seq<Entry>)
      modifies this
      ensures database == Bind(old(database), RewriteOps(mapping))
    {
      hide Bind;
      var targets := [(CLASSIFICATIONS, FAMILY), (MAPPINGS, SERVICE_FAMILY)];
      for i := 0 to |mapping|
        invariant Bind(database, RewriteOps(mapping[i..])) == Bind(old(database), RewriteOps(mapping))
      {
        var e := mapping[i];
        ghost var before, ops := database, RewriteOne(e);
        assert mapping[i..][1..] == mapping[i + 1..];
        BindAppend(before, ops, RewriteOps(mapping[i + 1..]));
        BindNothing(before);
        assert |ops| == 2 && ops[..2] == ops;
        for j := 0 to |targets|
          invariant database == Bind(before, ops[..j])
        {
          var update := Update(targets[j].0, targets[j].1, e.before, e.after);
          assert ops[j] == update && ops[..j + 1] == ops[..j] + [update];
          BindAppend(before, ops[..j], [update]);
          Execute(update);
        }
      }
      BindNothing(database);
    }

    method Upgrade0024(order: seq<Entry>)
      modifies this
      ensures database == Bind(old(database), Revision0024.Upgrade(order))
    {
      hide Bind, Revision0024.WidenOps, RewriteOps;
      hide Revision0024.SIGNAL_COLUMNS, Revision0024.HYPOTHESIS_COLUMNS;
      hide Revision0024.SIGNAL_INDEX, Revision0024.HYPOTHESIS_INDEX;
      ghost var signals := Revision0024.WidenOps(
        COMMERCIAL_SIGNALS, Revision0024.SIGNAL_COLUMNS, Revision0024.SIGNAL_INDEX, Revision0024.SIGNAL_INDEXED);
      ghost var hypotheses := Revision0024.WidenOps(
        NEED_HYPOTHESES, Revision0024.HYPOTHESIS_COLUMNS, Revision0024.HYPOTHESIS_INDEX,
        Revision0024.HYPOTHESIS_INDEXED);
      BindAppend(database, signals, hypotheses);
      BindAppend(database, Revision0024.ColumnsUp(), RewriteOps(order));
      WidenTable(
        COMMERCIAL_SIGNALS, Revision0024.SIGNAL_COLUMNS, Revision0024.SIGNAL_INDEX, Revision0024.SIGNAL_INDEXED);
      WidenTable(
        NEED_HYPOTHESES, Revision0024.HYPOTHESIS_COLUMNS, Revision0024.HYPOTHESIS_INDEX,
        Revision0024.HYPOTHESIS_INDEXED);
      RewriteServiceFamilyIds(order);
    }

    method Downgrade0024(back: seq<Entry>)
      modifies this
      ensures database == Bind(old(database), Revision0024.Downgrade(back))
    {
      hide Bind, Revision0024.NarrowOps, RewriteOps;
      hide Revision0024.SIGNAL_DROPS, Revision0024.HYPOTHESIS_DROPS;
      hide Revision0024.SIGNAL_INDEX, Revision0024.HYPOTHESIS_INDEX;
      ghost var hypotheses :=
        Revision0024.NarrowOps(NEED_HYPOTHESES, Revision0024.HYPOTHESIS_DROPS, Revision0024.HYPOTHESIS_INDEX);
      ghost var signals :=
        Revision0024.NarrowOps(COMMERCIAL_SIGNALS, Revision0024.SIGNAL_DROPS, Revision0024.SIGNAL_INDEX);
      BindAppend(database, RewriteOps(back), Revision0024.ColumnsDown());
      BindAppend(Bind(database, RewriteOps(back)), hypotheses, signals);
      RewriteServiceFamilyIds(back);
      NarrowTable(NEED_HYPOTHESES, Revision0024.HYPOTHESIS_DROPS, Revision0024.HYPOTHESIS_INDEX);
      NarrowTable(COMMERCIAL_SIGNALS, Revision0024.SIGNAL_DROPS, Revision0024.SIGNAL_INDEX);
    }

    // ----- the chain -----

    method UpgradeRevision(chain: seq<TableSpec>, r: nat, order: seq<Entry>)
      requires |chain| == LENGTH && r < COUNT
      modifies this
      ensures database == Bind(old(database), Upgrade(chain, r, order))
    {
      hide Bind, UpRange, Revision0024.Upgrade;
      if r < REVISIONS {
        StartsGrow(r, r + 1);
        CreateTables(chain, Start(r), Start(r + 1));
      } else {
        Upgrade0024(order);
      }
    }

    method DowngradeRevision(chain: seq<TableSpec>, r: nat, back: seq<Entry>)
      requires |chain| == LENGTH && r < COUNT
      modifies this
      ensures database == Bind(old(database), Downgrade(chain, r, back))
    {
      hide Bind, DropTables, Revision0024.Downgrade;
      if r < REVISIONS {
        DropOrderReverses(r);
        DropListed(chain, DropOrder(r));
      } else {
        Downgrade0024(back);
      }
    }

    method UpgradeThrough(chain: seq<TableSpec>, p: nat, q: nat, order: seq<Entry>)
      requires |chain| == LENGTH && p <= q <= COUNT
      modifies this
      ensures database == Bind(old(database), UpSegment(chain, p, q, order))
    {
      hide Bind, Upgrade;
      for r := p to q
        invariant Bind(database, UpSegment(chain, r, q, order)) == Bind(old(database), UpSegment(chain, p, q, order))
      {
        BindAppend(database, Upgrade(chain, r, order), UpSegment(chain, r + 1, q, order));
        UpgradeRevision(chain, r, order);
      }
      BindNothing(database);
    }

    method DowngradeThrough(chain: seq<TableSpec>, p: nat, q: nat, back: seq<Entry>)
      requires |chain| == LENGTH && p <= q <= COUNT
      modifies this
      ensures database == Bind(old(database), DownSegment(chain, p, q, back))
    {
      hide Bind, Downgrade;
      BindNothing(database);
      for r := q downto p
        invariant database == Bind(old(database), DownSegment(chain, r, q, back))
      {
        BindAppend(old(database), DownSegment(chain, r + 1, q, back), Downgrade(chain, r, back));
        DowngradeRevision(chain, r, back);
      }
    }
  }

  /** The validation commands: upgrade a segment, downgrade it, and upgrade it again. */
  method UpgradeDowngradeUpgrade(db: Database, p: nat, q: nat, order: seq<Entry>, back: seq<Entry>)
    returns (first: Option<Database>, down: Option<Database>, second: Option<Database>)
    requires p <= q <= COUNT && Wf(db) && SegmentReady(Tables(), db, p, q)
    requires Lists(order, Revision0024.LEGACY_TO_CANONICAL) && Lists(back, Revision0024.CanonicalToLegacy())
    ensures first == Run(UpSegment(Tables(), p, q, order), db)
    ensures first.Some? <==> !(p < q == COUNT && ClashesIn(Revision0024.LEGACY_TO_CANONICAL, db))
    ensures down.Some? <==> first.Some?
    ensures down == Some(db) <==> !(p < q == COUNT && HoldsTargetsIn(Revision0024.LEGACY_TO_CANONICAL, db))
    ensures second == first
  {
    SegmentRoundTrip(db, p, q, order, back);
    SegmentUpAgain(db, p, q, order, back);
    hide Revision0024.LEGACY_TO_CANONICAL, Revision0024.CanonicalToLegacy, Tables, Wf, Lists, SegmentReady;
    hide UpSegment, DownSegment, ClashesIn, HoldsTargetsIn, Run;
    var context := new Context(db);
    context.UpgradeThrough(Tables(), p, q, order);
    first := context.database;
    context.DowngradeThrough(Tables(), p, q, back);
    down := context.database;
    context.UpgradeThrough(Tables(), p, q, order);
    second := context.database;
  }
}
