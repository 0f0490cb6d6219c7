# Verified model of the platform's reversible migrations and fixture protocols

This project models, in Dafny, the parts of the repository whose correctness spans several functions or whole
runs, and proves them.

* **Migrations 0017 to 0024.** `Schema` is a relational database as the migrations see it: tables with columns,
  unique keys, foreign keys and rows, and named indexes; every operation takes effect or raises. `TableSpecs`,
  `Positions` and `Revision0017` to `Revision0023` declare the forty-two tables, the lists the upgrades loop
  over and the separately written lists the downgrades loop over; `ChainTheory` and `Chain` treat them as one
  chain. `Renaming` and `FamilyRewrite` are the in-place rewrite of 0024, `Revision0024` the whole revision,
  `Integrity` what every single statement keeps, `Migrations` the segments of the chain, `Upgraded` the tables,
  indexes and rows an upgrade leaves, `InUse` and `Usage` downgrades of a database that has been used since,
  `EarlierTables` the tables of 0004 and 0010 that 0024 works on, `Witnesses` databases for which its round trip
  fails, and `MigrationContext` the scripts as they run, each loop proved against the program it stands for.
  `IndexTexts`, `StartTexts` and `FamilyTexts` show that names and ids modelled as numbers are different texts.
* **Threaded counters.** `ActiveRequests` and `PostCounts` are state machines over single loads, stores, acquires
  and releases of any number of handler threads.
* **HTTP fixtures.** `OAuthFixture` (sections 4.1 of RFC 6749, 4.2 and 4.6 of RFC 7636), `ConditionalGet`
  (sections 13.1.2 and 15.4.5 of RFC 9110) and `LoginCookies` (sections 5.2.2, 5.3 and 5.4 of RFC 6265) are
  classes with the fixtures' fields, and theorems over all request sequences of their clients.
* **Texts and identities.** `Whitespace`, `JobText`, `PipeTexts`, `JobMatch` and `CommaLists`.
* **Transactions.** `SessionScope`, over arbitrary bodies.

Properties that are false of the code are kept as results, each with an input the code can receive and the exact
condition. A round trip through 0024 changes rows that already held a canonical id and raises where a contract or an
event has both ids of a pair, against the unconditional `alembic downgrade base` of README.md:248-250 (`Witnesses`;
`Migrations.SegmentRoundTrip`). Downgrading a database in use and upgrading it again loses what the new columns held
(`InUse.DowngradeThenUpgrade`). The login fixture accepts a cookie of another name (`LoginCookies.OtherCookieServed`,
`LoginCookies.PrivateOnlyIff`). A pipe makes different jobs match where it could as well separate two components
(`JobMatch.PipesConfuse`, `JobMatch.MatchRightIff`). Zeroing the maximum under load can leave it too small or too large
(`ActiveRequests.TooSmall`, `ActiveRequests.ZeroedTooLarge`, `ActiveRequests.HarmlessIff`). A cut at 20000 characters
can leave a blank at the end (`JobText.CutLeavesBlank`, `JobText.HtmlToTextNormal`).

Parameters stand for what the code calls but does not define: the PKCE hash (it may raise, and no challenge is
empty), the HTML tokenizer and `unescape` (where it matters, no reference reaches across a blank), whitespace and
case folding (a blank is whitespace and a pipe is not; folding keeps whitespace, makes none and is idempotent), the
hash of a match key (free of collisions where that is needed), the page bodies, the secret from the environment, and
the order in which a loop visits a dictionary.

`dafny verify dfyconfig.toml` checks the whole project.

## Model

| member | source | states |
|---|---|---|
| `Migrations.SegmentRoundTrip` | README.md:248-250 | for every contiguous segment of 0017..0024 and every starting schema with the referenced tables and none of the new names: the upgrades raise exactly when 0024 is among them and two rows clash, the downgrades after them never raise, and both together are the identity exactly when 0024 is not among them or no row held a canonical id |
| `Migrations.SegmentUpAgain` | README.md:248-250 | for every contiguous segment, upgrading, downgrading and upgrading again gives exactly what the first upgrade gave, whatever ids the rows held |
| `Upgraded.TableSegmentBuilds` | README.md:248-248 | a segment that stops before 0024 leaves exactly the tables and indexes its revisions declare, each index on its declared columns, and everything else as it was |
| `Upgraded.SegmentBuilds` | README.md:248-248 | a segment that ends with 0024 and does not raise leaves the same up to 0023 and then what 0024 does |
| `Upgraded.Revision0024Does` | infra/migrations/versions/20260810_0024_signal_fusion_hypotheses.py:35-195 | what 0024 does, row by row: the two widened tables keep every value and hold the defaults in the new columns, the two rewritten tables hold the canonical id wherever there was a legacy id and are otherwise unchanged, two indexes are new on the written columns, and no other table or index changes |
| `Upgraded.NoLegacyLeft` | infra/migrations/versions/20260810_0024_signal_fusion_hypotheses.py:187-195 | after that no row of the two rewritten tables holds a legacy id |
| `Chain.RevisionCreatesItsTables` | infra/migrations/versions/20260808_0020_corporate_graph.py:20-27 | each revision creates its own tables, in the order of its script |
| `Migrations.SegmentWith0024` | infra/migrations/versions/20260810_0024_signal_fusion_hypotheses.py:35-46 | the exact database that the upgrades up to 0024 and the downgrades after them leave: the start with its family ids renamed there and back, in whichever of the two tables existed beforehand |
| `Migrations.TableSegment` | infra/migrations/versions/20260809_0023_governed_research.py:20-33 | a segment that stops before 0024 never raises and is undone exactly |
| `Migrations.SegmentIsRange` | infra/migrations/versions/20260808_0020_corporate_graph.py:20-41 | running the revisions of a segment is creating a consecutive range of tables, and running the downgrades is undoing that range backwards |
| `Migrations.RunElsewhere` | infra/migrations/versions/20260809_0021_professional_context.py:35-38 | creating or dropping other tables and indexes gives the same result, and raises in the same places, whatever ids the rows of a table hold |
| `Usage.AfterUse` | README.md:248-250 | for every contiguous segment and any rows written since the upgrade: the downgrades raise exactly when 0024 is among them and a row pair clashes by then; otherwise the schema is the old one again and its tables hold the rows they had by then, with the ids renamed back and the new columns taken away where 0024 is among them |
| `Usage.TableSegmentAfterUse` | infra/migrations/versions/20260808_0020_corporate_graph.py:30-41 | a segment that stops before 0024 is downgraded whatever rows have been written since, and the older tables keep the rows they have by then |
| `Usage.SegmentAfterUse` | infra/migrations/versions/20260810_0024_signal_fusion_hypotheses.py:41-46 | a segment that ends with 0024 is downgraded after use exactly when no two rows by then clash, with the same statement of schema and rows |
| `Usage.DropsAlike` | infra/migrations/versions/20260810_0024_signal_fusion_hypotheses.py:147-183 | dropping tables, indexes and columns raises in the same places and leaves the same schema whatever the rows are |
| `ChainTheory.RangeRuns` | infra/migrations/versions/20260808_0020_corporate_graph.py:20-27 | upgrading a range of tables never raises; it adds exactly the declared tables, without rows, and leaves every other table alone |
| `ChainTheory.RangeBuilds` | infra/migrations/versions/20260808_0020_corporate_graph.py:20-27 | upgrading a range of tables leaves every declared table with its columns, keys and foreign keys and every declared index on its declared columns, and no index besides those and the old ones |
| `ChainTheory.RangeRoundTrip` | infra/migrations/versions/20260808_0020_corporate_graph.py:30-41 | upgrading a range of tables and dropping it again gives back the starting database exactly |
| `ChainTheory.DropTablesIsDownRange` | infra/migrations/versions/20260808_0020_corporate_graph.py:30-41 | dropping a list of tables that runs backwards through a range is undoing the range |
| `Chain.DropOrderReverses` | infra/migrations/versions/20260809_0021_professional_context.py:35-38 | in every revision the list the downgrade loops over is the reverse of the order of creation |
| `Chain.TablesFormChain` | infra/migrations/versions/20260809_0021_professional_context.py:41-58 | all forty-two declarations are coherent, and every foreign key points at the id of one of four older tables or at a unique column of a table created no later |
| `Chain.MappingsDeclared` | infra/migrations/versions/20260807_0018_corporate_change_signals.py:110-123 | the mapping table has the column service_family and the key (event_id, service_family) |
| `Revision0017.TablePlaced` | infra/migrations/versions/20260807_0017_vulnerability_applicability.py:27-50 | every table of revision 0017: keys, foreign keys and indexes use declared columns, the separately written drop list equals the create list, no index name repeats or belongs to another table, and foreign keys can be resolved |
| `Revision0018.TablePlaced` | infra/migrations/versions/20260807_0018_corporate_change_signals.py:20-33 | every table of revision 0018: keys, foreign keys and indexes use declared columns, the separately written drop list equals the create list, no index name repeats or belongs to another table, and foreign keys can be resolved |
| `Revision0019.TablePlaced` | infra/migrations/versions/20260807_0019_relationship_intelligence.py:20-32 | every table of revision 0019: keys, foreign keys and indexes use declared columns, the separately written drop list equals the create list, no index name repeats or belongs to another table, and foreign keys can be resolved |
| `Revision0020.TablePlaced` | infra/migrations/versions/20260808_0020_corporate_graph.py:44-286 | every table of revision 0020: keys, foreign keys and indexes use declared columns, the separately written drop list equals the create list, no index name repeats or belongs to another table, and foreign keys can be resolved |
| `Revision0021.TablePlaced` | infra/migrations/versions/20260809_0021_professional_context.py:41-387 | every table of revision 0021: keys, foreign keys and indexes use declared columns, the separately written drop list equals the create list, no index name repeats or belongs to another table, and foreign keys can be resolved |
| `Revision0022.TablePlaced` | infra/migrations/versions/20260809_0022_conditional_integrations.py:34-184 | every table of revision 0022: keys, foreign keys and indexes use declared columns, the separately written drop list equals the create list, no index name repeats or belongs to another table, and foreign keys can be resolved |
| `Revision0023.TablePlaced` | infra/migrations/versions/20260809_0023_governed_research.py:36-196 | every table of revision 0023: keys, foreign keys and indexes use declared columns, the separately written drop list equals the create list, no index name repeats or belongs to another table, and foreign keys can be resolved |
| `TableSpecs.SpecRuns` | infra/migrations/versions/20260807_0017_vulnerability_applicability.py:301-316 | creating a table and its indexes never raises where its names are free; it adds the table with exactly the declared columns, nullability, keys and foreign keys, exactly one index on each listed column and the composite ones, each under its name and on its own columns, and leaves every other table and index alone |
| `TableSpecs.DownUndoesUp` | infra/migrations/versions/20260807_0017_vulnerability_applicability.py:313-316 | dropping the indexes backwards and then the table undoes the creation operation by operation |
| `IndexTexts.TextsDistinct` | infra/migrations/versions/20260809_0021_professional_context.py:511-545 | no two indexes of the chain get the same name as a text, whatever distinct spellings the columns have |
| `StartTexts.TextsStayApart` | infra/migrations/versions/20260809_0021_professional_context.py:501-512 | where the indexes of the starting schema are written differently from each other and from those the segment creates, no two indexes are ever written alike, those of 0024 included |
| `StartTexts.NewTextsApart` | infra/migrations/versions/20260810_0024_signal_fusion_hypotheses.py:87-91 | neither index name of 0024 is written like one of the earlier revisions |
| `Schema.RoundTrip` | README.md:248-250 | whatever a program of creations built on a database with arbitrary rows, undoing it backwards never raises and restores tables, columns, rows and indexes |
| `Schema.AddColumnUndone` | infra/migrations/versions/20260810_0024_signal_fusion_hypotheses.py:49-92 | adding a column with a default keeps every key and row valid, and dropping it restores the table |
| `Schema.CreateTableUndone` | infra/migrations/versions/20260808_0020_corporate_graph.py:44-66 | a created table can be dropped again at once, with nothing else changed |
| `Schema.CreateIndexUndone` | infra/migrations/versions/20260808_0020_corporate_graph.py:289-291 | a created index can be dropped again at once, with nothing else changed |
| `Integrity.EveryStatementKeepsWf` | infra/migrations/versions/20260810_0024_signal_fusion_hypotheses.py:186-195 | after every single statement of every program over these operations that has not raised: rows fit their columns, unique keys hold, every foreign key points at a unique column and every index is on columns that exist |
| `Integrity.StepKeepsWf` | infra/migrations/versions/20260808_0020_corporate_graph.py:30-41 | each of the seven operations keeps that, dropped tables and columns taking their indexes with them |
| `FamilyRewrite.RewriteRuns` | infra/migrations/versions/20260810_0024_signal_fusion_hypotheses.py:186-195 | in every iteration order the sequential UPDATEs succeed exactly when no two rows with the same other key columns hold a source id and its target, and then equal one simultaneous substitution |
| `FamilyRewrite.RewriteThenBack` | infra/migrations/versions/20260810_0024_signal_fusion_hypotheses.py:41-46 | the inverse rewrite succeeds after every successful rewrite, and both together restore every value exactly when no row held a target id |
| `FamilyRewrite.KeysHoldThroughout` | infra/migrations/versions/20260810_0024_signal_fusion_hypotheses.py:186-195 | where no row starts with a target id no statement raises and every unique key of every table holds after each of them, both ways |
| `FamilyRewrite.OneEntry` | infra/migrations/versions/20260810_0024_signal_fusion_hypotheses.py:186-195 | one pass of the inner loop raises exactly when one of the two tables would get two rows equal on a key |
| `Renaming.UpdateLegalIff` | infra/migrations/versions/20260810_0024_signal_fusion_hypotheses.py:191-195 | an UPDATE raises exactly when a row with the old id agrees on the rest of a key with a row that has the new id |
| `Renaming.RowByRow` | infra/migrations/versions/20260810_0024_signal_fusion_hypotheses.py:191-195 | an UPDATE that is good at its end is good after every single row, so checking keys row by row or at the end makes no difference |
| `Renaming.TableRoundTrip` | infra/migrations/versions/20260810_0024_signal_fusion_hypotheses.py:35-46 | substituting and substituting back restores a table exactly when no row held a target id |
| `Renaming.RenameAfterUpdate` | infra/migrations/versions/20260810_0024_signal_fusion_hypotheses.py:187-195 | one UPDATE followed by the substitution of the remaining entries is the substitution of all entries |
| `Renaming.ClashAfterUpdate` | infra/migrations/versions/20260810_0024_signal_fusion_hypotheses.py:187-195 | an UPDATE neither hides nor creates a clash of the remaining entries |
| `FamilyTexts.TextsDistinct` | infra/migrations/versions/20260810_0024_signal_fusion_hypotheses.py:19-32 | the twenty-four family ids are pairwise different texts |
| `Revision0024.VocabulariesSeparate` | infra/migrations/versions/20260810_0024_signal_fusion_hypotheses.py:19-32 | no canonical id is a legacy id and no two legacy ids share a canonical id |
| `Revision0024.WrittenOrderLists` | infra/migrations/versions/20260810_0024_signal_fusion_hypotheses.py:19-32 | the order in which the entries are written is one of the orders the theorems speak of |
| `Revision0024.ColumnsRoundTrip` | infra/migrations/versions/20260810_0024_signal_fusion_hypotheses.py:49-183 | on arbitrary rows the column half never raises, completes every row of both tables with the defaults, changes nothing else, and is undone exactly by the column half of the downgrade |
| `Revision0024.CompletedRow` | infra/migrations/versions/20260810_0024_signal_fusion_hypotheses.py:49-132 | a completed row keeps all its old values and holds the default in every new column, so no new NOT NULL column is NULL |
| `Revision0024.ColumnsDownUndoes` | infra/migrations/versions/20260810_0024_signal_fusion_hypotheses.py:147-183 | the separately written drop lists undo the additions one by one in reverse |
| `Revision0024.UpgradeRuns` | infra/migrations/versions/20260810_0024_signal_fusion_hypotheses.py:35-38 | the upgrade raises exactly when the rewrite alone would; otherwise it completes the rows and renames all ids at once |
| `InUse.DowngradeRuns` | infra/migrations/versions/20260810_0024_signal_fusion_hypotheses.py:41-46 | on the completed schema, whatever the rows, the downgrade raises exactly where the inverse rewrite meets a clash, and otherwise renames the ids back and takes the new columns and indexes away |
| `Revision0024.UpgradeThenDowngrade` | infra/migrations/versions/20260810_0024_signal_fusion_hypotheses.py:35-46 | the downgrade succeeds after every successful upgrade, and both restore the database exactly when no row held a canonical id |
| `InUse.DowngradeThenUpgrade` | infra/migrations/versions/20260810_0024_signal_fusion_hypotheses.py:35-46 | the mirrored statement for every database in use: downgrading and upgrading again raises exactly on a clash; the family ids come back exactly when no row held a legacy id, and the whole database exactly when in addition every row holds the defaults in the new columns |
| `InUse.WidenedComplete` | infra/migrations/versions/20260810_0024_signal_fusion_hypotheses.py:49-132 | the upgrade leaves the schema those two statements speak of |
| `InUse.ColumnsDownRun` | infra/migrations/versions/20260810_0024_signal_fusion_hypotheses.py:147-183 | the column half of the downgrade never raises on that schema and takes away exactly the new columns and indexes, whatever the rows |
| `InUse.RefilledTable` | infra/migrations/versions/20260810_0024_signal_fusion_hypotheses.py:49-183 | taking the new columns away and adding them again gives a table back exactly when all its rows hold the defaults |
| `Witnesses.ClassificationNotRestored` | infra/migrations/versions/20260810_0024_signal_fusion_hypotheses.py:35-46 | in a schema of the repository a contract already classified under a canonical id does not come back from the whole chain |
| `Witnesses.ClassificationsStopUpgrade` | infra/migrations/versions/20260810_0024_signal_fusion_hypotheses.py:35-46 | in a schema of the repository a contract classified under a legacy id and its canonical id makes the chain raise |
| `Witnesses.MappingNotRestored` | infra/migrations/versions/20260810_0024_signal_fusion_hypotheses.py:35-46 | after 0017 to 0023 an event already mapped to a canonical id does not come back from 0024 |
| `Witnesses.MappingsStopUpgrade` | infra/migrations/versions/20260810_0024_signal_fusion_hypotheses.py:35-46 | after 0017 to 0023 an event mapped to a legacy id and its canonical id makes 0024 raise |
| `EarlierTables.PairsStayUnique` | infra/migrations/versions/20260805_0010_procurement_history.py:161-173 | the pairs (contract_id, family) and (event_id, service_family) stay free of duplicates after every single UPDATE of the upgrade and of the downgrade that follows, where no row starts with a canonical id |
| `EarlierTables.NewColumnsFree` | infra/migrations/versions/20260803_0004_live_opportunities.py:29-96 | no column that 0024 adds is among those 0004 declared for the two tables |
| `EarlierTables.DeclaredTablesReady` | infra/migrations/versions/20260803_0004_live_opportunities.py:29-96 | where the tables are as 0004 and 0010 declare them and the two index names are free, 0024 can start |
| `EarlierTables.PreparedReady` | infra/migrations/versions/20260807_0017_vulnerability_applicability.py:206-227 | the starting condition of a range of tables follows from the tables that are there: the older ones its foreign keys point at, and the earlier tables of the chain, with their unique columns |
| `EarlierTables.SmallestReady` | infra/migrations/versions/20260805_0010_procurement_history.py:161-173 | a concrete schema with the tables of 0004 and 0010 as declared meets every starting condition of the whole chain |
| `MigrationContext.Context.CreateIndexes` | infra/migrations/versions/20260807_0017_vulnerability_applicability.py:308-310 | the loop issues one create_index per column, in order, stopping at the first that raises; where the names are free each index is there afterwards on its own columns, and the others stay |
| `MigrationContext.Context.DropIndexes` | infra/migrations/versions/20260807_0017_vulnerability_applicability.py:313-315 | the loop over the reversed list issues one drop_index per column |
| `MigrationContext.Context.CreateIndexedTable` | infra/migrations/versions/20260807_0017_vulnerability_applicability.py:53-72 | the table and its indexes, as the program of its declaration |
| `MigrationContext.Context.DropIndexedTable` | infra/migrations/versions/20260807_0017_vulnerability_applicability.py:313-316 | the indexes backwards and then the table |
| `MigrationContext.Context.DropListed` | infra/migrations/versions/20260808_0020_corporate_graph.py:30-41 | the loop over the listed tables drops the indexes and then the table of each |
| `MigrationContext.Context.AddColumns` | infra/migrations/versions/20260810_0024_signal_fusion_hypotheses.py:49-86 | the additions in order |
| `MigrationContext.Context.DropColumns` | infra/migrations/versions/20260810_0024_signal_fusion_hypotheses.py:150-164 | the loop over the reversed tuple |
| `MigrationContext.Context.WidenTable` | infra/migrations/versions/20260810_0024_signal_fusion_hypotheses.py:49-90 | the columns and then the index on them |
| `MigrationContext.Context.NarrowTable` | infra/migrations/versions/20260810_0024_signal_fusion_hypotheses.py:147-164 | the index and then the columns backwards |
| `MigrationContext.Context.RewriteServiceFamilyIds` | infra/migrations/versions/20260810_0024_signal_fusion_hypotheses.py:186-195 | the nested loop issues its UPDATEs entry by entry, table by table |
| `MigrationContext.Context.Upgrade0024` | infra/migrations/versions/20260810_0024_signal_fusion_hypotheses.py:35-38 | both column halves and then the rewrite |
| `MigrationContext.Context.Downgrade0024` | infra/migrations/versions/20260810_0024_signal_fusion_hypotheses.py:41-46 | the inverse rewrite and then both column halves backwards |
| `MigrationContext.Context.UpgradeRevision` | infra/migrations/versions/20260808_0020_corporate_graph.py:20-27 | one revision up |
| `MigrationContext.Context.DowngradeRevision` | infra/migrations/versions/20260808_0020_corporate_graph.py:30-41 | one revision down |
| `MigrationContext.Context.UpgradeThrough` | README.md:248-248 | the revisions of a segment in order |
| `MigrationContext.Context.DowngradeThrough` | README.md:249-249 | the revisions of a segment in reverse |
| `MigrationContext.UpgradeDowngradeUpgrade` | README.md:248-250 | running a segment up, down and up again: the first upgrade raises exactly on a clash, the downgrade gives back the starting database exactly when 0024 is not in it or no row held a canonical id, and the second upgrade gives exactly what the first gave |
| `ActiveRequests.ActiveIsInside` | scripts/sa16_l12_crawl_runtime_live.py:92-101 | in every interleaving of single loads and stores of any number of handlers the counter equals the number of handlers inside the delay region |
| `ActiveRequests.HighestIsPeak` | scripts/sa16_l12_crawl_runtime_live.py:92-96 | while no handler is in the middle of updating it, the maximum is at least k exactly when k handlers were inside at once since it was zeroed, if that last zeroing met a benign state |
| `ActiveRequests.HarmlessIff` | scripts/sa16_l12_crawl_runtime_live.py:165-165 | zeroing the maximum does no harm, however the run goes on until the next zeroing, exactly when nobody is inside, or the handler that is updating it has yet to load it or has loaded none above the counter |
| `ActiveRequests.TooSmall` | scripts/sa16_l12_crawl_runtime_live.py:165-165 | with somebody inside and nobody updating, the maximum is too small at once |
| `ActiveRequests.ZeroedTooLarge` | scripts/sa16_l12_crawl_runtime_live.py:92-96 | a run from the start in which a handler stores the maximum it had loaded before the zeroing: it ends at two with one handler inside |
| `ActiveRequests.AllLeft` | scripts/sa16_l12_crawl_runtime_live.py:97-101 | the counter is 0 and the lock free once all have left, also where delays raised |
| `ActiveRequests.NobodyIsStuck` | scripts/sa16_l12_crawl_runtime_live.py:94-101 | while the lock is free every handler that has not left can take its next step, so also every one that waits to leave after its delay raised |
| `ActiveRequests.WayIn` | scripts/sa16_l12_crawl_runtime_live.py:92-96 | while the lock is free exactly the handlers that are new or have answered can come in; each then counts itself in, raises the maximum if need be, and gets to its delay |
| `ActiveRequests.BothWaysOut` | scripts/sa16_l12_crawl_runtime_live.py:97-101 | from every reachable state with the lock free, a handler in its delay can go on, whether the delay returns or raises, to having left, with the counter one lower and the lock free |
| `ActiveRequests.AllCanLeave` | scripts/sa16_l12_crawl_runtime_live.py:92-101 | from every reachable state the run can go on until all handlers have left and the counter is 0 |
| `ActiveRequests.HolderMovesOn` | scripts/sa16_l12_crawl_runtime_live.py:94-101 | whoever holds the lock can always take its next step, and each one brings the release closer by one |
| `ActiveRequests.NextKeepsInv` | scripts/sa16_l12_crawl_runtime_live.py:92-101 | every single step keeps: the lock has one holder, what the holder has loaded is current, and the counter is the number inside |
| `PostCounts.CountsAreTickets` | scripts/sa16_l13_browser_actions_live.py:70-82 | in every interleaving the counts returned for a counter are different and exactly 1..n for the n handlers that have passed the lock; n is the counter whenever the lock is free |
| `PostCounts.NextKeepsInv` | scripts/sa16_l13_browser_actions_live.py:79-81 | every single step keeps the numbering of both counters and the lock discipline |
| `PostCounts.AnswersStay` | scripts/sa16_l13_browser_actions_live.py:81-82 | a count once returned is never changed |
| `PostCounts.PathCounted` | scripts/sa16_l13_browser_actions_live.py:70-82 | from its request on, a handler of /public/post is given numbers of the one counter and a handler of /public/crash numbers of the other |
| `PostCounts.HandlerAsked` | scripts/sa16_l13_browser_actions_live.py:70-82 | nobody is given a number without a request for the path of its counter |
| `PostCounts.OtherPathIgnored` | scripts/sa16_l13_browser_actions_live.py:70-74 | a request for any other path changes nothing |
| `PostCounts.RequestAnswered` | scripts/sa16_l13_browser_actions_live.py:70-82 | a request for either path that comes while the lock is free can be answered at once with one more than its counter, and leaves the other counter alone |
| `PostCounts.AllCanAnswer` | scripts/sa16_l13_browser_actions_live.py:79-82 | from every reachable state the run can go on until every handler has answered |
| `OAuthFixture.HitIsEarned` | scripts/sa16_l17_controlled_oauth_fixture.py:62-137 | in every run of a client that sends only codes and tokens it has received, each private hit is preceded by a token, that by an approval, and that by an accepted authorization |
| `OAuthFixture.AuthorizedIff` | scripts/sa16_l17_controlled_oauth_fixture.py:132-137 | in every run, whatever its clients do, the private page is served exactly to a GET with the one right header; any other header, or none, is refused and changes nothing |
| `OAuthFixture.TokenOpens` | scripts/sa16_l17_controlled_oauth_fixture.py:62-137 | every issued token opens the private page from then on |
| `OAuthFixture.GrantedIff` | scripts/sa16_l17_controlled_oauth_fixture.py:62-89 | a token is issued exactly to a request with the right grant type, code, client and redirect URI whose verifier hashes to the challenge of the latest accepted authorization since the last reset, if none has been issued since |
| `OAuthFixture.RedirectIff` | scripts/sa16_l17_controlled_oauth_fixture.py:120-130 | an approval redirects exactly when an authorization has been accepted since the last reset |
| `OAuthFixture.ConsentIff` | scripts/sa16_l17_controlled_oauth_fixture.py:94-118 | an authorization request is accepted exactly with the seven values it has to have |
| `OAuthFixture.ProtocolServes` | scripts/sa16_l17_controlled_oauth_fixture.py:46-137 | after any events, a client that keeps to the protocol from a reset on gets consent, the code, a token and the private page |
| `OAuthFixture.OtherPages` | scripts/sa16_l17_controlled_oauth_fixture.py:46-65 | the callback page is always there, all paths but the five are missing, and neither changes anything |
| `OAuthFixture.GrantMatchesChallenge` | scripts/sa16_l17_controlled_oauth_fixture.py:66-80 | at issue time the verifier hashes to the challenge of the latest accepted authorization since the last reset, and grant type, code, client and redirect URI are the right ones |
| `OAuthFixture.ApprovalEchoesLatest` | scripts/sa16_l17_controlled_oauth_fixture.py:120-130 | every approval redirects to the registered callback with the state of the latest accepted authorization |
| `OAuthFixture.ContextIsLatest` | scripts/sa16_l17_controlled_oauth_fixture.py:94-112 | state, redirect URI and challenge are those of the latest accepted authorization since the last reset, or all empty |
| `OAuthFixture.ContextAllOrNothing` | scripts/sa16_l17_controlled_oauth_fixture.py:19-22 | the three context fields are all empty or all set |
| `OAuthFixture.OneTokenPerReset` | scripts/sa16_l17_controlled_oauth_fixture.py:66-80 | two issued tokens always have a reset between them |
| `OAuthFixture.CountersCount` | scripts/sa16_l17_controlled_oauth_fixture.py:19-36 | the flag holds exactly when one token was issued since the last reset, at most one ever is, and the three counters count what they are named after |
| `OAuthFixture.FixtureState.ResetFixture` | scripts/sa16_l17_controlled_oauth_fixture.py:29-36 | everything back to the start |
| `OAuthFixture.FixtureState.DoAuthorize` | scripts/sa16_l17_controlled_oauth_fixture.py:94-118 | stores the context exactly when the request is acceptable |
| `OAuthFixture.FixtureState.DoApprove` | scripts/sa16_l17_controlled_oauth_fixture.py:120-130 | redirects exactly when there is a context |
| `OAuthFixture.FixtureState.DoPrivate` | scripts/sa16_l17_controlled_oauth_fixture.py:132-137 | counts and serves exactly the right bearer token |
| `OAuthFixture.FixtureState.DoToken` | scripts/sa16_l17_controlled_oauth_fixture.py:66-89 | counts every request, raises where the hash does, and issues only on a full match |
| `OAuthFixture.FixtureState.DoGet` | scripts/sa16_l17_controlled_oauth_fixture.py:46-60 | the routing of GET requests |
| `OAuthFixture.FixtureState.DoPost` | scripts/sa16_l17_controlled_oauth_fixture.py:62-65 | the routing of POST requests |
| `ConditionalGet.CachingIsTransparent` | scripts/sa16_l18_public_fixture.py:99-145 | on every request sequence a client that stores body and ETag per URL and revalidates shows the same as one that never sends If-None-Match; not_modified is its versioned requests minus its distinct versioned URLs; the other counters agree |
| `ConditionalGet.RepliesIff` | scripts/sa16_l18_public_fixture.py:40-145 | not modified is answered exactly to a request for one of the five versioned paths with the current tag; gone, not found, tag and body for every path |
| `ConditionalGet.TaggedMeaning` | scripts/sa16_l18_public_fixture.py:99-127 | the versioned URLs are those of the five versioned paths |
| `ConditionalGet.CountersCount` | scripts/sa16_l18_public_fixture.py:40-105 | on every request sequence of either client each counter is the number of requests for its own path |
| `ConditionalGet.FixtureState.DoGet` | scripts/sa16_l18_public_fixture.py:40-127 | response and counters of every path, a conditional document request counting as a document hit too |
| `ConditionalGet.FixtureState.SendVersioned` | scripts/sa16_l18_public_fixture.py:136-145 | 304 exactly on an equal If-None-Match, counted |
| `ConditionalGet.FixtureState.Reset` | scripts/sa16_l18_public_fixture.py:26-34 | all counters zero |
| `LoginCookies.PrivateOnlyWhenLoggedIn` | scripts/sa16_l16_authorized_login_live.py:95-133 | in every run, from a jar with arbitrary cookies none of which contains the session text, the private page is served exactly between a successful login and the next logout |
| `LoginCookies.HeaderContains` | scripts/sa16_l16_authorized_login_live.py:151-153 | the search through the whole Cookie header finds the session text exactly when some single cookie contains it |
| `LoginCookies.ContainsMeaning` | scripts/sa16_l16_authorized_login_live.py:151-153 | containing the session text is having it somewhere, with anything before and after it |
| `LoginCookies.PrivateOnlyIff` | scripts/sa16_l16_authorized_login_live.py:95-161 | every request of every run is served right if and only if no cookie of the jar contains the session text beforehand |
| `LoginCookies.PassingCookieServed` | scripts/sa16_l16_authorized_login_live.py:151-161 | where some cookie contains it, the private page is served without a login |
| `LoginCookies.OtherCookieServed` | scripts/sa16_l16_authorized_login_live.py:151-153 | such a cookie can have another name |
| `LoginCookies.JarFollowsLogin` | scripts/sa16_l16_authorized_login_live.py:99-133 | the jar holds a session cookie exactly while logged in |
| `LoginCookies.OtherCookiesKept` | scripts/sa16_l16_authorized_login_live.py:95-133 | in every run the cookies of other names stay as they are, and the jar never holds two session cookies |
| `LoginCookies.SuccessesCounted` | scripts/sa16_l16_authorized_login_live.py:114-133 | successful logins never exceed the counted submissions |
| `LoginCookies.PagesIff` | scripts/sa16_l16_authorized_login_live.py:88-161 | which request gets which page: a login succeeds exactly with the right name and the secret |
| `Forms.FirstMeaning` | scripts/sa16_l16_authorized_login_live.py:119-120 | of several values of a field the first counts, and a missing one is empty |
| `LoginCookies.CookiesIff` | scripts/sa16_l16_authorized_login_live.py:96-133 | exactly the successful login sets the session cookie and exactly the logout expires it |
| `LoginCookies.LoggedInMeaning` | scripts/sa16_l16_authorized_login_live.py:88-133 | being logged in is having submitted the right name and password with no logout since |
| `LoginCookies.CountersCount` | scripts/sa16_l16_authorized_login_live.py:88-161 | in every run from a jar without the session text the counters are the submissions, the private pages served while logged in, and the logouts |
| `LoginCookies.FixtureState.DoGet` | scripts/sa16_l16_authorized_login_live.py:90-108 | response, cookie and counters of every GET path |
| `LoginCookies.FixtureState.DoPost` | scripts/sa16_l16_authorized_login_live.py:110-133 | counts every submission; sets the cookie exactly on the right credentials |
| `LoginCookies.FixtureState.PrivatePage` | scripts/sa16_l16_authorized_login_live.py:151-161 | serves and counts exactly when the header contains the session text |
| `JobText.DepthIsBalance` | src/cip/adapters/sources/job_text.py:15-26 | after any events the depth is opened minus closed tags minus the least such difference over all prefixes |
| `JobText.LowestMeaning` | src/cip/adapters/sources/job_text.py:22-24 | that least difference is a lower bound of all prefixes and is reached |
| `JobText.IgnoredDataUnseen` | src/cip/adapters/sources/job_text.py:28-30 | altering data seen at positive depth changes nothing |
| `JobText.VisibleDataSeen` | src/cip/adapters/sources/job_text.py:28-30 | altering data seen at depth zero always changes the collected text |
| `JobText.EventAdds` | src/cip/adapters/sources/job_text.py:15-30 | each event adds to the end of the text: data at depth zero itself, a tag of the seven block elements and an opening br one blank, all else nothing |
| `JobText.EventNests` | src/cip/adapters/sources/job_text.py:15-26 | exactly the script and style tags change the depth |
| `JobText.TextGrows` | src/cip/adapters/sources/job_text.py:15-39 | the text collected so far is a prefix of all that is collected later |
| `JobText.BlockSeparates` | src/cip/adapters/sources/job_text.py:15-40 | a block tag separates words: the result has the words of the text before it and then those of the text after it, cut at the limit |
| `JobText.HtmlToTextNormal` | src/cip/adapters/sources/job_text.py:33-40 | the result is the collapsed, stripped text cut at the limit: no blank in front, single blanks inside, and a blank at the end exactly when the cut falls right behind one |
| `JobText.CutLeavesBlank` | src/cip/adapters/sources/job_text.py:39-40 | a document of 19999 letters, a blank and a letter gives a result that ends with the blank |
| `JobText.IgnoredDataUnseenInText` | src/cip/adapters/sources/job_text.py:33-40 | two documents whose events differ in ignored data only give the same text |
| `JobText.TextExtractor.HandleStartTag` | src/cip/adapters/sources/job_text.py:15-20 | opens an ignored element, adds a blank, or does nothing |
| `JobText.TextExtractor.HandleEndTag` | src/cip/adapters/sources/job_text.py:22-26 | the depth never falls below zero |
| `JobText.TextExtractor.HandleData` | src/cip/adapters/sources/job_text.py:28-30 | kept at depth zero only |
| `JobText.TextExtractor.Feed` | src/cip/adapters/sources/job_text.py:36-37 | all events in order |
| `JobText.ToText` | src/cip/adapters/sources/job_text.py:33-40 | missing and empty values give the empty text, all others the cut normal form |
| `Whitespace.JoinedWords` | src/cip/adapters/sources/job_text.py:39-39 | splitting at whitespace and joining with blanks equals stripping and collapsing |
| `Whitespace.JoinedWordsNormal` | src/cip/adapters/sources/job_text.py:39-39 | what splitting and joining makes has no whitespace at its ends and single blanks inside |
| `Whitespace.WordsJoin` | src/cip/adapters/sources/job_text.py:39-39 | the words of two texts with whitespace between them are the words of the one and then those of the other |
| `Whitespace.WordsOfJoined` | src/cip/adapters/sources/job_text.py:39-39 | splitting what was joined gives the same words back |
| `Whitespace.StripMeaning` | apps/web/src/app/conditional-integrations/actions.ts:91-94 | stripping takes away whitespace at the two ends, all of it and nothing else |
| `JobMatch.NormalizeIdempotent` | src/cip/adapters/sources/canonical_jobs.py:246-247 | a normalised component has single inner blanks and none at its ends, and normalising it again changes nothing |
| `JobMatch.NormalizedWords` | src/cip/adapters/sources/canonical_jobs.py:246-247 | a normalised component is the case-folded words of the value with single blanks between them |
| `JobMatch.KeyTextMeaning` | src/cip/adapters/sources/canonical_jobs.py:90-99 | the text that is hashed is the folded words of the five fields in their order, with pipes between them |
| `PipeTexts.Determined` | src/cip/adapters/sources/canonical_jobs.py:98-98 | a list of five components without a movable pipe is the only one with its joined text |
| `PipeTexts.MovedSame` | src/cip/adapters/sources/canonical_jobs.py:98-98 | a list with a movable pipe has another with the same joined text |
| `JobMatch.MatchRightIff` | src/cip/adapters/sources/canonical_jobs.py:90-99 | the match of a job is right for all partners exactly when no component has a movable pipe |
| `JobMatch.AmbiguousDouble` | src/cip/adapters/sources/canonical_jobs.py:90-99 | a job with a movable pipe has in every other source a job the constructor accepts that matches it under every hash and does not agree |
| `JobMatch.SpacedPipesUnambiguous` | src/cip/adapters/sources/canonical_jobs.py:98-98 | pipes with whitespace on at least one side are never movable |
| `JobMatch.PipesConfuse` | src/cip/adapters/sources/canonical_jobs.py:98-98 | two postings the constructor accepts that match under every hash and differ in title and location |
| `JobMatch.MatchIff` | src/cip/adapters/sources/canonical_jobs.py:223-229 | a job without a movable pipe matches another exactly when their sources differ and organization, title, location, department and employment type agree after normalisation |
| `JobMatch.AgreeMeaning` | src/cip/adapters/sources/canonical_jobs.py:90-99 | agreement is word by word, but for case, in each of the five fields, a missing department or employment type counting as one without words |
| `JobMatch.NormalizedJobSame` | src/cip/adapters/sources/canonical_jobs.py:90-99 | a job and its normalised form have the same key |
| `JobMatch.ReachableIff` | src/cip/adapters/sources/canonical_jobs.py:223-229 | over any set of jobs, one is reachable from another by matches exactly when their keys are equal and the jobs with that key span two sources |
| `JobMatch.MatchNotReflexive` | src/cip/adapters/sources/canonical_jobs.py:227-228 | no posting matches itself |
| `JobMatch.MatchSymmetric` | src/cip/adapters/sources/canonical_jobs.py:227-229 | the order of the two postings does not matter |
| `JobMatch.MatchNotTransitive` | src/cip/adapters/sources/canonical_jobs.py:227-228 | three postings, two of one source: the third matches both, and they do not match each other |
| `CommaLists.PrintParse` | apps/web/src/features/conditional-integrations/approval-form.tsx:57-64 | parsing a printed list gives it back exactly when its items are different, non-empty, trimmed and free of commas |
| `CommaLists.ParsePrintParse` | apps/web/src/app/conditional-integrations/actions.ts:86-96 | on every submitted field printing the parsed list and parsing it again changes nothing |
| `CommaLists.CsvClean` | apps/web/src/app/conditional-integrations/actions.ts:91-96 | every parsed list has different, non-empty, trimmed items without commas |
| `CommaLists.UniqueContents` | apps/web/src/app/conditional-integrations/actions.ts:94-94 | removing repetitions keeps exactly the items that occur, once each |
| `CommaLists.UniqueInOrder` | apps/web/src/app/conditional-integrations/actions.ts:94-94 | the items stay in the order of their first occurrence |
| `CommaLists.CsvSegments` | apps/web/src/app/conditional-integrations/actions.ts:86-96 | parsing keeps every segment that is not blank, trimmed, once, in the order of first occurrence, and nothing else |
| `CommaLists.SplitMeaning` | apps/web/src/app/conditional-integrations/actions.ts:94-94 | the segments are what stands between the commas |
| `CommaLists.PrintJoin` | apps/web/src/features/conditional-integrations/approval-form.tsx:57-64 | printing puts a comma and a blank between each two items |
| `SessionScope.SessionScope` | src/cip/shared/persistence/session.py:20-30 | for any body: the session is closed exactly once and rolled back exactly on an Exception; the scope returns exactly when the body returns and the final commit succeeds, and then the durable rows grow by all writes; otherwise they grow by those up to the last commit, and the caller sees the exception |
| `SessionScope.GetDatabaseSession` | src/cip/shared/persistence/dependencies.py:17-27 | the same result as the other scope |
| `SessionScope.RunScopes` | src/cip/shared/persistence/session.py:20-30 | a sequence of scopes of both kinds adds up their results |
| `SessionScope.SurvivesFailure` | src/cip/shared/persistence/session.py:25-27 | a row survives a scope that raises exactly when a commit comes after its write |
| `SessionScope.KeptOnReturn` | src/cip/shared/persistence/session.py:24-25 | on normal exit exactly the rows written are kept, one for each write, in the order of the writes |
| `SessionScope.KeptOtherwise` | src/cip/shared/persistence/session.py:25-30 | otherwise the rows kept are the first of the writes |
| `SessionScope.CrashKeepsEarlier` | scripts/sa16_l13_browser_actions_live.py:307-332 | exactly the checkpoints before the crash are durable, even if there was none or the commit at the end of the scope fails, and the caller sees an exception in just these two cases |
| `SessionScope.RunSteps` | src/cip/shared/persistence/session.py:22-24 | after any steps the durable rows are the writes up to the last commit and the pending ones the rest |

## Left out

- Column types, lengths, `ondelete` rules and the names of keys and foreign keys: no operation of the chain depends on them; foreign keys restrict only what may be dropped.
- Foreign-key values: rows are checked against NOT NULL and unique keys, not against the rows of other tables.
- Tables, columns and families are numbers with named constants; a table and an index are never confused, because every index text starts with `ix_` and no table does.
- The 63-character limit of identifiers, which the index name overrides of 0017 exist for.
- The order in which PostgreSQL returns rows: UPDATE keeps the sequence of rows, which no statement of the chain observes.
- Revisions earlier than 0017 are not modelled, apart from the three of their tables that 0024 touches.
- DropColumn of a constrained column raises in the model, where the database would drop the constraint with it; the chain never does this.
- Sockets, HTTP parsing, header order, time and Chromium; one HTTP request is one step in the three protocol fixtures, whose state has no lock or is updated in single increments.
- The challenge banner of the login page, which changes no state.
- Cookies all have the path `/`, as the fixture sets it; domains, expiry dates and the end of a browser session are not modelled.
- A browser that normalises line breaks in a submitted text field: `CommaLists` parses what the form sends.
- The `lru_cache` of session factories and failures of `rollback` or `close` themselves.
- Python's `\s`, `str.split`, `str.strip` and JavaScript's `trim` each get one whitespace predicate; that the Python ones agree with each other is assumed.
- The checks of a job posting other than those of its required fields (URL, country code), its summary, and the other readers of the approval form: settled by one branch each.
- Collectors, the browser action executor and the reconciliation code, whose sources are not among the modelled files, and the finite assertions of the live scripts.
