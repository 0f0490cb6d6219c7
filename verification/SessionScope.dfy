/** The two transaction scopes around a session, over arbitrary bodies. */
module SessionScope {
  import opened Counting

  type Row = string

  datatype Step = Write(row: Row) | Commit

  /** A body returns or raises; `Interrupt` is an exception that `except Exception` does not catch. */
  datatype Ending = Return | Failure | Interrupt

  /** What the code inside the scope does; a commit that fails raises and so ends the body. */
  datatype Body = Body(steps: seq<Step>, ending: Ending)

  // ----- what a scope leaves behind -----

  function Writes(steps: seq<Step>): seq<Row> {
    if steps == [] then []
    else Writes(steps[..|steps| - 1]) + if steps[|steps| - 1].Write? then [steps[|steps| - 1].row] else []
  }

  /** The number of steps up to and including the last commit. */
  function LastCommit(steps: seq<Step>): (k: nat)
    ensures k <= |steps|
    ensures k > 0 ==> steps[k - 1] == Commit
    ensures forall i | k <= i < |steps| :: steps[i].Write?
  {
    if steps == [] then 0
    else if steps[|steps| - 1] == Commit then |steps|
    else LastCommit(steps[..|steps| - 1])
  }

  /** The writes up to the last commit and those after it. */
  function Committed(steps: seq<Step>): seq<Row> { Writes(steps[..LastCommit(steps)]) }

  function Uncommitted(steps: seq<Step>): seq<Row> { Writes(steps[LastCommit(steps)..]) }

  /** All writes on normal exit, otherwise exactly those up to the last commit; `commits` says whether the
      commit at the end of the scope succeeds. */
  function Kept(body: Body, commits: bool): seq<Row> {
    if body.ending == Return && commits then Writes(body.steps)
    else Committed(body.steps)
  }

  /** What the caller sees: a failing final commit is a failure like any other. */
  function Outcome(body: Body, commits: bool): Ending {
    if body.ending == Return && !commits then Failure else body.ending
  }

  // ----- sessions -----

  class Database {
    var rows: seq<Row>

    constructor ()
      ensures rows == []
    {
      rows := [];
    }
  }

  class Session {
    const database: Database
    var pending: seq<Row>
    var rolledBack: nat
    var closed: nat

    constructor (database: Database)
      ensures this.database == database && pending == [] && rolledBack == 0 && closed == 0
    {
      this.database := database;
      pending, rolledBack, closed := [], 0, 0;
    }

    method Add(row: Row)
      modifies this`pending
      ensures pending == old(pending) + [row]
    {
      pending := pending + [row];
    }

    /** Atomic: all pending rows become durable, or the call raises and none does. */
    method CommitAll(succeeds: bool) returns (raised: bool)
      modifies this`pending, database
      ensures raised == !succeeds
      ensures if succeeds then database.rows == old(database.rows) + old(pending) && pending == []
              else database.rows == old(database.rows) && pending == old(pending)
    {
      if !succeeds { return true; }
      database.rows := database.rows + pending;
      pending := [];
      raised := false;
    }

    method Rollback()
      modifies this`pending, this`rolledBack
      ensures pending == [] && rolledBack == old(rolledBack) + 1
    {
      pending := [];
      rolledBack := rolledBack + 1;
    }

    /** Closing discards what was not committed. */
    method Close()
      modifies this`pending, this`closed
      ensures pending == [] && closed == old(closed) + 1
    {
      pending := [];
      closed := closed + 1;
    }
  }

  lemma WritesStep(steps: seq<Step>, i: nat)
    requires i < |steps|
    ensures Writes(steps[..i + 1]) == Writes(steps[..i]) + if steps[i].Write? then [steps[i].row] else []
    ensures LastCommit(steps[..i + 1]) == if steps[i] == Commit then i + 1 else LastCommit(steps[..i])
  {
    assert steps[..i + 1][..i] == steps[..i];
  }

  lemma {:induction false} WritesSplit(steps: seq<Step>, k: nat)
    requires k <= |steps|
    ensures Writes(steps) == Writes(steps[..k]) + Writes(steps[k..])
  {
    if k == |steps| {
      assert steps[..k] == steps && steps[k..] == [];
    } else {
      var before := steps[..|steps| - 1];
      WritesSplit(before, k);
      assert before[..k] == steps[..k] && steps[k..][..|steps| - 1 - k] == before[k..];
    }
  }

  lemma WritesAre(steps: seq<Step>)
    ensures Writes(steps) == Committed(steps) + Uncommitted(steps)
  {
    WritesSplit(steps, LastCommit(steps));
  }

  lemma UncommittedStep(steps: seq<Step>, i: nat)
    requires i < |steps|
    ensures var (before, now) := (steps[..i], steps[..i + 1]);
            if steps[i] == Commit then
              && Committed(now) == Committed(before) + Uncommitted(before)
              && Uncommitted(now) == []
            else
              && Committed(now) == Committed(before)
              && Uncommitted(now) == Uncommitted(before) + [steps[i].row]
  {
    var before, now := steps[..i], steps[..i + 1];
    WritesStep(steps, i);
    WritesAre(before);
    var k := LastCommit(before);
    if steps[i] == Commit {
      assert now[..i + 1] == now && now[i + 1..] == [];
      hide LastCommit;
    } else {
      var tail := now[k..];
      hide LastCommit;
      WritesStep(tail, i - k);
      assert now[..k] == before[..k];
      assert tail[..i - k] == before[k..] && tail[..i - k + 1] == tail && tail[i - k] == steps[i];
    }
  }

  lemma NothingWritten()
    ensures Committed([]) == [] && Uncommitted([]) == []
  {}

  /** The body's steps on an open session, up to where it returns or raises. */
  method RunSteps(session: Session, steps: seq<Step>)
    requires session.pending == []
    modifies session`pending, session.database
    ensures session.database.rows == old(session.database.rows) + Committed(steps)
    ensures session.pending == Uncommitted(steps)
  {
    hide Committed, Uncommitted, Writes, LastCommit;
    NothingWritten();
    assert steps[..0] == [] && steps[..|steps|] == steps;
    for i := 0 to |steps|
      invariant session.database.rows == old(session.database.rows) + Committed(steps[..i])
      invariant session.pending == Uncommitted(steps[..i])
    {
      UncommittedStep(steps, i);
      match steps[i]
      case Write(row) => session.Add(row);
      case Commit => var _ := session.CommitAll(true);
    }
  }

  // ----- the scopes -----

  /** `session_scope`. */
  method SessionScope(database: Database, body: Body, commits: bool) returns (session: Session, ending: Ending)
    modifies database
    ensures fresh(session) && session.closed == 1 && session.pending == []
    ensures session.rolledBack == One(ending == Failure)
    ensures database.rows == old(database.rows) + Kept(body, commits)
    ensures ending == Outcome(body, commits)
    ensures ending == Return <==> body.ending == Return && commits
    ensures ending == Interrupt <==> body.ending == Interrupt
    ensures database.rows == old(database.rows) +
            if ending == Return then Writes(body.steps) else Committed(body.steps)
  {
    hide Writes, LastCommit, Committed, Uncommitted;
    session := new Session(database);
    RunSteps(session, body.steps);
    WritesAre(body.steps);
    ending := body.ending;
    if ending == Return {
      var raised := session.CommitAll(commits);
      if raised { ending := Failure; }
    }
    if ending == Failure { session.Rollback(); }
    session.Close();
  }

  /** `get_database_session`: the web framework resumes or closes the generator with the body's ending. */
  method GetDatabaseSession(database: Database, body: Body, commits: bool) returns (session: Session, ending: Ending)
    modifies database
    ensures fresh(session) && session.closed == 1 && session.pending == []
    ensures session.rolledBack == One(ending == Failure)
    ensures database.rows == old(database.rows) + Kept(body, commits)
    ensures ending == Outcome(body, commits)
    ensures ending == Return <==> body.ending == Return && commits
    ensures ending == Interrupt <==> body.ending == Interrupt
    ensures database.rows == old(database.rows) +
            if ending == Return then Writes(body.steps) else Committed(body.steps)
  {
    hide Writes, LastCommit, Committed, Uncommitted;
    session := new Session(database);
    RunSteps(session, body.steps);
    WritesAre(body.steps);
    ending := body.ending;
    if ending == Return {
      var raised := session.CommitAll(commits);
      if raised { ending := Failure; }
    }
    if ending == Failure { session.Rollback(); }
    session.Close();
  }

  /** One use of a scope; `request` tells the two apart. */
  datatype Use = Use(body: Body, commits: bool, request: bool)

  function KeptByAll(uses: seq<Use>): seq<Row> {
    if uses == [] then []
    else KeptByAll(uses[..|uses| - 1]) + Kept(uses[|uses| - 1].body, uses[|uses| - 1].commits)
  }

  lemma KeptByAllStep(uses: seq<Use>, i: nat)
    requires i < |uses|
    ensures KeptByAll(uses[..i + 1]) == KeptByAll(uses[..i]) + Kept(uses[i].body, uses[i].commits)
  {
    assert uses[..i + 1][..i] == uses[..i];
  }

  /** One scope after the other, whether or not the earlier ones raised. */
  method RunScopes(database: Database, uses: seq<Use>)
    modifies database
    ensures database.rows == old(database.rows) + KeptByAll(uses)
  {
    hide Kept, Outcome;
    assert uses[..0] == [] && uses[..|uses|] == uses;
    for i := 0 to |uses|
      invariant database.rows == old(database.rows) + KeptByAll(uses[..i])
    {
      KeptByAllStep(uses, i);
      hide KeptByAll;
      if uses[i].request {
        var _, _ := GetDatabaseSession(database, uses[i].body, uses[i].commits);
      } else {
        var _, _ := SessionScope(database, uses[i].body, uses[i].commits);
      }
    }
  }

  // ----- what is kept -----

  lemma {:induction false} WritesMeaning(steps: seq<Step>, row: Row)
    ensures row in Writes(steps) <==> Write(row) in steps
  {
    if steps != [] {
      WritesMeaning(steps[..|steps| - 1], row);
      assert steps == steps[..|steps| - 1] + [steps[|steps| - 1]];
    }
  }

  function WrittenBefore(steps: seq<Step>, n: nat): set<nat>
    requires n <= |steps|
  {
    set j: nat | 0 <= j < n && steps[j].Write?
  }

  /** The writes stand in the order in which they were made: one that k others come before is number k, and
      there are no more of them. */
  lemma {:induction false} WritesInOrder(steps: seq<Step>, i: nat)
    requires i < |steps|
    ensures |Writes(steps)| == |WrittenBefore(steps, |steps|)|
    ensures steps[i].Write? ==>
              var k := |WrittenBefore(steps, i)|; k < |Writes(steps)| && Writes(steps)[k] == steps[i].row
  {
    var n := |steps| - 1;
    var before := steps[..n];
    assert WrittenBefore(steps, n + 1) == WrittenBefore(steps, n) + if steps[n].Write? then {n} else {};
    assert WrittenBefore(before, n) == WrittenBefore(steps, n);
    if i < n {
      WritesInOrder(before, i);
      assert WrittenBefore(before, i) == WrittenBefore(steps, i);
    } else if n > 0 {
      WritesInOrder(before, n - 1);
    }
  }

  /** On normal exit exactly the rows written are kept, one for each write, in the order of the writes. */
  lemma KeptOnReturn(body: Body, commits: bool)
    requires Outcome(body, commits) == Return
    ensures forall row :: row in Kept(body, commits) <==> Write(row) in body.steps
    ensures |Kept(body, commits)| == |WrittenBefore(body.steps, |body.steps|)|
    ensures forall i | 0 <= i < |body.steps| && body.steps[i].Write? ::
              var k := |WrittenBefore(body.steps, i)|;
              k < |Kept(body, commits)| && Kept(body, commits)[k] == body.steps[i].row
  {
    var steps := body.steps;
    hide Writes, WrittenBefore;
    forall row ensures row in Writes(steps) <==> Write(row) in steps { WritesMeaning(steps, row); }
    forall i | 0 <= i < |steps| && steps[i].Write?
      ensures var k := |WrittenBefore(steps, i)|; k < |Writes(steps)| && Writes(steps)[k] == steps[i].row
    {
      WritesInOrder(steps, i);
    }
    if steps == [] { NoWrites(steps); } else { WritesInOrder(steps, 0); }
  }

  lemma NoWrites(steps: seq<Step>)
    requires steps == []
    ensures |Writes(steps)| == |WrittenBefore(steps, |steps|)|
  {
    assert WrittenBefore(steps, 0) == {};
  }

  /** Otherwise what is kept are the first of the writes. */
  lemma KeptOtherwise(body: Body, commits: bool)
    requires body.ending != Return || !commits
    ensures Kept(body, commits) <= Writes(body.steps)
  {
    WritesAre(body.steps);
  }

  /** A row survives a scope that raises exactly when some commit comes after its write. */
  lemma SurvivesFailure(body: Body, commits: bool, row: Row)
    requires Outcome(body, commits) != Return
    ensures row in Kept(body, commits) <==>
            exists i, j | 0 <= i < j < |body.steps| :: body.steps[i] == Write(row) && body.steps[j] == Commit
  {
    var steps := body.steps;
    var k := LastCommit(steps);
    WritesMeaning(steps[..k], row);
    hide Writes, LastCommit;
    if Write(row) in steps[..k] {
      var i :| 0 <= i < k && steps[..k][i] == Write(row);
      assert steps[i] == Write(row) && steps[k - 1] == Commit;
    }
    if i, j :| 0 <= i < j < |steps| && steps[i] == Write(row) && steps[j] == Commit {
      assert steps[..k][i] == Write(row);
    }
  }

  // ----- a body that commits midway -----

  datatype Checkpoint = Checkpoint(row: Row, completed: bool)

  /** `crash_writer` saves and commits every checkpoint until it gets a completed one, where it raises. */
  function CrashSteps(checkpoints: seq<Checkpoint>): seq<Step> {
    if checkpoints == [] || checkpoints[0].completed then []
    else [Write(checkpoints[0].row), Commit] + CrashSteps(checkpoints[1..])
  }

  predicate Crashes(checkpoints: seq<Checkpoint>) { exists c :: c in checkpoints && c.completed }

  /** The body catches that exception and returns; where none came, it raises one itself. */
  function CrashBody(checkpoints: seq<Checkpoint>): Body {
    Body(CrashSteps(checkpoints), if Crashes(checkpoints) then Return else Failure)
  }

  function BeforeCrash(checkpoints: seq<Checkpoint>): seq<Row> {
    if checkpoints == [] || checkpoints[0].completed then []
    else [checkpoints[0].row] + BeforeCrash(checkpoints[1..])
  }

  /** Exactly the checkpoints before the crash are durable, even if there was none or the scope's own commit
      fails; the caller sees an exception in just these two cases. */
  lemma {:induction false} CrashKeepsEarlier(checkpoints: seq<Checkpoint>, commits: bool)
    ensures Kept(CrashBody(checkpoints), commits) == BeforeCrash(checkpoints)
    ensures Outcome(CrashBody(checkpoints), commits) ==
            if commits && exists c :: c in checkpoints && c.completed then Return else Failure
  {
    CrashWrites(checkpoints);
    assert CrashSteps(checkpoints)[..|CrashSteps(checkpoints)|] == CrashSteps(checkpoints);
  }

  lemma {:induction false} CrashWrites(checkpoints: seq<Checkpoint>)
    ensures Writes(CrashSteps(checkpoints)) == BeforeCrash(checkpoints)
    ensures LastCommit(CrashSteps(checkpoints)) == |CrashSteps(checkpoints)|
  {
    var steps := CrashSteps(checkpoints);
    if steps != [] {
      CrashWrites(checkpoints[1..]);
      WritesSplit(steps, 2);
      assert steps[..2] == [Write(checkpoints[0].row), Commit] && steps[2..] == CrashSteps(checkpoints[1..]);
      WritesStep(steps, 0);
      WritesStep(steps, 1);
      assert steps[|steps| - 1] == Commit;
    }
  }
}
