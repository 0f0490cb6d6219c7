/** Revisions 0017 to 0023 as one chain of table declarations. */
module Chain {
  import opened Names
  import opened Schema
  import opened TableSpecs
  import opened Positions
  import opened ChainTheory
  import Revision0017
  import Revision0018
  import Revision0019
  import Revision0020
  import Revision0021
  import Revision0022
  import Revision0023

  function Tables(): (chain: seq<TableSpec>)
    ensures |chain| == LENGTH
  {
    Revision0017.Tables() + Revision0018.Tables() + Revision0019.Tables() + Revision0020.Tables() +
    Revision0021.Tables() + Revision0022.Tables() + Revision0023.Tables()
  }

  /** The names and foreign keys of all forty-two tables are in place. */
  lemma TablePlaced(k: nat)
    requires k < LENGTH
    ensures Placed(Tables()[k], k)
  {
    hide Placed;
    if k < 5 { Revision0017.TablePlaced(k); }
    else if k < 8 { Revision0018.TablePlaced(k - 5); }
    else if k < 11 { Revision0019.TablePlaced(k - 8); }
    else if k < 18 { Revision0020.TablePlaced(k - 11); }
    else if k < 30 { Revision0021.TablePlaced(k - 18); }
    else if k < 35 { Revision0022.TablePlaced(k - 30); }
    else { Revision0023.TablePlaced(k - 35); }
  }

  lemma TablesFormChain()
    ensures IsChain(Tables())
  {
    hide Placed;
    forall k: nat | k < LENGTH ensures Placed(Tables()[k], k) { TablePlaced(k); }
  }

  /** Revision 0018 makes the pair (event_id, service_family) a key of the mapping table. */
  lemma MappingsDeclared()
    ensures var t := Tables()[CORPORATE_CHANGE_SERVICE_MAPPINGS];
            t.Has(SERVICE_FAMILY) && [EVENT_ID, SERVICE_FAMILY] in t.keys
  {
    var t := Tables()[CORPORATE_CHANGE_SERVICE_MAPPINGS];
    assert t == Revision0018.CorporateChangeServiceMappingsTable();
  }

  /** The number of revisions 0017 to 0023. */
  const REVISIONS := 7

  /** The first table of a revision; revision r creates the tables from Start(r) up to Start(r + 1). */
  function Start(r: nat): (k: nat)
    requires r <= REVISIONS
    ensures k <= LENGTH
  {
    if r == 0 then VENDOR_PRODUCTS
    else if r == 1 then CORPORATE_CHANGE_EVENTS
    else if r == 2 then BUSINESS_RELATIONSHIPS
    else if r == 3 then CORPORATE_GRAPH_NODES
    else if r == 4 then PROFESSIONAL_PEOPLE
    else if r == 5 then CONDITIONAL_PROVIDER_APPROVALS
    else if r == 6 then RESEARCH_PLANS
    else LENGTH
  }

  lemma StartsGrow(p: nat, q: nat)
    requires p <= q <= REVISIONS
    ensures Start(p) <= Start(q)
  {}

  function DropOrder(r: nat): seq<TableName>
    requires r < REVISIONS
  {
    if r == 0 then Revision0017.DROP_ORDER
    else if r == 1 then Revision0018.DROP_ORDER
    else if r == 2 then Revision0019.DROP_ORDER
    else if r == 3 then Revision0020.DROP_ORDER
    else if r == 4 then Revision0021.DROP_ORDER
    else if r == 5 then Revision0022.DROP_ORDER
    else Revision0023.DROP_ORDER
  }

  /** Every downgrade lists its tables in the reverse order of creation. */
  lemma DropOrderReverses(r: nat)
    requires r < REVISIONS
    ensures Start(r) <= Start(r + 1)
    ensures |DropOrder(r)| == Start(r + 1) - Start(r)
    ensures forall i | 0 <= i < |DropOrder(r)| :: DropOrder(r)[i] == Start(r + 1) - 1 - i
  {}

  /** Each revision creates its own tables and no others, in the order of its script. */
  lemma RevisionCreatesItsTables(r: nat)
    requires r < REVISIONS
    ensures Start(r) <= Start(r + 1) && Start(0) == 0 && Start(REVISIONS) == |Tables()|
    ensures Tables()[Start(r)..Start(r + 1)] ==
            if r == 0 then Revision0017.Tables()
            else if r == 1 then Revision0018.Tables()
            else if r == 2 then Revision0019.Tables()
            else if r == 3 then Revision0020.Tables()
            else if r == 4 then Revision0021.Tables()
            else if r == 5 then Revision0022.Tables()
            else Revision0023.Tables()
  {
    TableCounts();
    hide Revision0017.Tables, Revision0018.Tables, Revision0019.Tables, Revision0020.Tables;
    hide Revision0021.Tables, Revision0022.Tables, Revision0023.Tables;
    StartsGrow(r, r + 1);
  }

  lemma TableCounts()
    ensures |Revision0017.Tables()| == 5 && |Revision0018.Tables()| == 3 && |Revision0019.Tables()| == 3
    ensures |Revision0020.Tables()| == 7 && |Revision0021.Tables()| == 12 && |Revision0022.Tables()| == 5
    ensures |Revision0023.Tables()| == 7
  {}
}
