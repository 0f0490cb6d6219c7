/** The overlap detector of the threaded crawl fixture in single loads and stores: any number of handler
    threads run `_tracked_delay`, in any interleaving. */
module ActiveRequests {
  import opened Counting
  import opened Options

  /** Where a handler is in `_tracked_delay`; the arguments are what it has loaded so far, and whether its
      delay raised. */
  datatype Place =
    | Entering
    | LoadActive | StoreActive(loaded: int)
    | LoadHighest | LoadAgain(highest: int) | StoreHighest(highest: int, active: int)
    | EntryDone
    | Delayed
    | Leaving(raised: bool)
    | LoadLast(raised: bool) | StoreLast(raised: bool, loaded: int)
    | ExitDone(raised: bool)
    | Left(raised: bool)

  datatype State = State(lock: Option<nat>, active: int, highest: int, places: map<nat, Place>)

  datatype Action = Arrive(thread: nat) | Step(thread: nat) | Raise(thread: nat) | Zero

  const INIT := State(None, 0, 0, map[])

  predicate HoldsLock(p: Place) {
    p.LoadActive? || p.StoreActive? || p.LoadHighest? || p.LoadAgain? || p.StoreHighest? || p.EntryDone? ||
    p.LoadLast? || p.StoreLast? || p.ExitDone?
  }

  /** Between counting itself in and counting itself out. */
  predicate InRegion(p: Place) {
    Updating(p) || p.EntryDone? || p.Delayed? || p.Leaving? || p.LoadLast? || p.StoreLast?
  }

  /** Counted in, but the maximum does not know it yet. */
  predicate Updating(p: Place) { p.LoadHighest? || p.LoadAgain? || p.StoreHighest? }

  function Inside(s: State): set<nat> { set t | t in s.places && InRegion(s.places[t]) }

  // ----- steps -----

  function At(s: State, t: nat, p: Place): State { s.(places := s.places[t := p]) }

  /** The next load, store, acquire or release of a handler; None while it waits for the lock or has
      nothing to do. */
  function Move(s: State, t: nat): Option<State>
    requires t in s.places
  {
    match s.places[t]
    case Entering => if s.lock == None then Some(At(s, t, LoadActive).(lock := Some(t))) else None
    case LoadActive => Some(At(s, t, StoreActive(s.active)))
    case StoreActive(loaded) => Some(At(s, t, LoadHighest).(active := loaded + 1))
    case LoadHighest => Some(At(s, t, LoadAgain(s.highest)))
    case LoadAgain(highest) => Some(At(s, t, StoreHighest(highest, s.active)))
    case StoreHighest(highest, active) =>
      Some(At(s, t, EntryDone).(highest := if highest < active then active else highest))
    case EntryDone => Some(At(s, t, Delayed).(lock := None))
    case Delayed => Some(At(s, t, Leaving(false)))
    case Leaving(raised) => if s.lock == None then Some(At(s, t, LoadLast(raised)).(lock := Some(t))) else None
    case LoadLast(raised) => Some(At(s, t, StoreLast(raised, s.active)))
    case StoreLast(raised, loaded) => Some(At(s, t, ExitDone(raised)).(active := loaded - 1))
    case ExitDone(raised) => Some(At(s, t, Left(raised)).(lock := None))
    case Left(_) => None
  }

  /** `Zero` is the main thread's assignment to the maximum, which takes no lock. */
  function Next(s: State, a: Action): Option<State> {
    match a
    case Arrive(t) =>
      if t !in s.places || s.places[t] == Left(false) then Some(At(s, t, Entering)) else None
    case Step(t) => if t in s.places then Move(s, t) else None
    case Raise(t) => if t in s.places && s.places[t].Delayed? then Some(At(s, t, Leaving(true))) else None
    case Zero => Some(s.(highest := 0))
  }

  /** A stretch of a run: its states, one more than its actions. */
  ghost predicate Stretch(trace: seq<State>, actions: seq<Action>) {
    && |trace| == |actions| + 1
    && forall i | 0 <= i < |actions| :: Next(trace[i], actions[i]) == Some(trace[i + 1])
  }

  /** A run from the start. */
  ghost predicate Behaviour(trace: seq<State>, actions: seq<Action>) {
    Stretch(trace, actions) && trace[0] == INIT
  }

  // ----- what every step keeps -----

  /** What a handler has loaded of the counter is still what is stored, because it holds the lock. */
  predicate Fresh(s: State, p: Place) {
    match p
    case StoreActive(loaded) => loaded == s.active
    case StoreHighest(_, active) => active == s.active
    case StoreLast(_, loaded) => loaded == s.active
    case _ => true
  }

  ghost predicate LockInv(s: State) {
    && (forall t | t in s.places :: HoldsLock(s.places[t]) <==> s.lock == Some(t))
    && (s.lock.Some? ==> s.lock.value in s.places)
    && (forall t | t in s.places :: Fresh(s, s.places[t]))
  }

  ghost predicate Inv(s: State) { LockInv(s) && s.active == |Inside(s)| }

  lemma InsideAt(s: State, t: nat, p: Place)
    ensures Inside(At(s, t, p)) == if InRegion(p) then Inside(s) + {t} else Inside(s) - {t}
  {}

  /** The counters do not say who is inside. */
  lemma InsideSame(s: State, n: State)
    requires s.places == n.places
    ensures Inside(s) == Inside(n)
  {}

  lemma MoveKeepsLock(s: State, t: nat)
    requires LockInv(s) && t in s.places && Move(s, t).Some?
    ensures LockInv(Move(s, t).value)
  {}

  /** The counter moves with the handler, and nobody else does. */
  lemma MoveCounts(s: State, t: nat)
    requires LockInv(s) && t in s.places && Move(s, t).Some?
    ensures var n := Move(s, t).value;
            && t in n.places && n.places == s.places[t := n.places[t]]
            && n.active == s.active + One(InRegion(n.places[t])) - One(InRegion(s.places[t]))
  {}

  lemma MoveKeepsCount(s: State, t: nat)
    requires Inv(s) && t in s.places && Move(s, t).Some?
    ensures Move(s, t).value.active == |Inside(Move(s, t).value)|
  {
    MoveCounts(s, t);
    hide Move, LockInv, InRegion;
    var n := Move(s, t).value;
    InsideAt(s, t, n.places[t]);
    InsideSame(n, At(s, t, n.places[t]));
    assert t in Inside(s) <==> InRegion(s.places[t]);
    hide Inside;
  }

  lemma ArrivalKeepsInv(s: State, t: nat)
    requires Inv(s) && Next(s, Arrive(t)).Some?
    ensures Inv(Next(s, Arrive(t)).value) && Inside(Next(s, Arrive(t)).value) == Inside(s)
  {
    ArrivalKeepsLock(s, t);
    ArrivalKeepsInside(s, t);
    hide Inside, LockInv;
  }

  lemma ArrivalKeepsInside(s: State, t: nat)
    requires Next(s, Arrive(t)).Some?
    ensures Inside(Next(s, Arrive(t)).value) == Inside(s)
  {
    InsideAt(s, t, Entering);
    assert t !in Inside(s);
  }

  lemma ArrivalKeepsLock(s: State, t: nat)
    requires LockInv(s) && Next(s, Arrive(t)).Some?
    ensures LockInv(Next(s, Arrive(t)).value)
  {}

  lemma RaiseKeepsInv(s: State, t: nat)
    requires Inv(s) && Next(s, Raise(t)).Some?
    ensures Inv(Next(s, Raise(t)).value) && Inside(Next(s, Raise(t)).value) == Inside(s)
  {
    InsideAt(s, t, Leaving(true));
    assert t in Inside(s);
    assert Inside(s) + {t} == Inside(s);
    RaiseKeepsLock(s, t);
    hide Inside, LockInv;
  }

  lemma RaiseKeepsLock(s: State, t: nat)
    requires LockInv(s) && Next(s, Raise(t)).Some?
    ensures LockInv(Next(s, Raise(t)).value)
  {}

  lemma ZeroKeepsInv(s: State)
    requires Inv(s)
    ensures Inv(Next(s, Zero).value) && Inside(Next(s, Zero).value) == Inside(s)
  {
    InsideSame(s, Next(s, Zero).value);
    hide Inside;
  }

  lemma NextKeepsInv(s: State, a: Action)
    requires Inv(s) && Next(s, a).Some?
    ensures Inv(Next(s, a).value)
  {
    match a
    case Arrive(t) => ArrivalKeepsInv(s, t);
    case Step(t) => MoveKeepsLock(s, t); MoveKeepsCount(s, t);
    case Raise(t) => RaiseKeepsInv(s, t);
    case Zero => ZeroKeepsInv(s);
  }

  /** In every interleaving the counter is the number of handlers inside. */
  lemma {:induction false} ActiveIsInside(trace: seq<State>, actions: seq<Action>, i: nat)
    requires Behaviour(trace, actions) && i < |trace|
    ensures Inv(trace[i]) && trace[i].active == |Inside(trace[i])|
  {
    if i == 0 {
      assert Inside(INIT) == {};
    } else {
      ActiveIsInside(trace, actions, i - 1);
      assert Next(trace[i - 1], actions[i - 1]) == Some(trace[i - 1 + 1]);
      NextKeepsInv(trace[i - 1], actions[i - 1]);
    }
  }

  /** Once every handler has left, whether or not its delay raised, the counter is back at 0. */
  lemma AllLeft(trace: seq<State>, actions: seq<Action>, i: nat)
    requires Behaviour(trace, actions) && i < |trace|
    requires forall t | t in trace[i].places :: trace[i].places[t].Left?
    ensures trace[i].active == 0 && trace[i].lock == None
  {
    ActiveIsInside(trace, actions, i);
    assert Inside(trace[i]) == {};
  }

  // ----- the maximum -----

  predicate Settled(s: State) { forall t | t in s.places :: !Updating(s.places[t]) }

  /** The state right after the last assignment of zero before state i, or the first state. */
  function Zeroed(actions: seq<Action>, i: nat): (z: nat)
    requires i <= |actions|
    ensures z <= i
  {
    if i == 0 || actions[i - 1] == Zero then i else Zeroed(actions, i - 1)
  }

  lemma {:induction false} ZeroedMeaning(actions: seq<Action>, i: nat)
    requires i <= |actions|
    ensures var z := Zeroed(actions, i);
            (z > 0 ==> actions[z - 1] == Zero) && forall j | z <= j < i :: actions[j] != Zero
  {
    if i > 0 && actions[i - 1] != Zero { ZeroedMeaning(actions, i - 1); }
  }

  function Max(a: int, b: int): int { if a < b then b else a }

  function Peak(trace: seq<State>, z: nat, i: nat): int
    requires z <= i < |trace|
  {
    if i == z then |Inside(trace[i])| else Max(Peak(trace, z, i - 1), |Inside(trace[i])|)
  }

  lemma {:induction false} PeakMeaning(trace: seq<State>, z: nat, i: nat, k: int)
    requires z <= i < |trace|
    ensures Peak(trace, z, i) >= k <==> exists j | z <= j <= i :: |Inside(trace[j])| >= k
  {
    hide Inside;
    if i > z { PeakMeaning(trace, z, i - 1, k); }
  }

  /** The maximum, or what the handler that is updating it is going to make of it. */
  predicate Due(s: State, peak: int, p: Place) {
    match p
    case LoadHighest => Max(s.highest, s.active) == peak
    case LoadAgain(highest) => Max(highest, s.active) == peak
    case StoreHighest(highest, active) => Max(highest, active) == peak
    case _ => true
  }

  /** What is known of the maximum when at most `peak` handlers were inside at once. */
  ghost predicate PeakInv(s: State, peak: int) {
    && (Settled(s) ==> s.highest == peak)
    && forall t | t in s.places :: Due(s, peak, s.places[t])
  }

  lemma MoveKeepsPeak(s: State, t: nat, peak: int)
    requires LockInv(s) && PeakInv(s, peak) && t in s.places && Move(s, t).Some? && s.active <= peak
    ensures var n := Move(s, t).value; PeakInv(n, Max(peak, n.active))
  {
    var n := Move(s, t).value;
    assert n.places.Keys == s.places.Keys && forall u | u in s.places && u != t :: n.places[u] == s.places[u];
    assert Updating(s.places[t]) || Updating(n.places[t]) || n.active != s.active ==>
             forall u | u in s.places && u != t :: !Updating(s.places[u]);
  }

  lemma NextKeepsPeak(s: State, a: Action, peak: int)
    requires Inv(s) && PeakInv(s, peak) && Next(s, a).Some? && a != Zero && s.active <= peak
    ensures var n := Next(s, a).value; PeakInv(n, Max(peak, n.active))
  {
    if a.Step? {
      MoveKeepsPeak(s, a.thread, peak);
    } else {
      var n := Next(s, a).value;
      assert forall u | u in n.places :: Updating(n.places[u]) <==> u in s.places && Updating(s.places[u]);
    }
  }

  lemma {:induction false} PeakKept(trace: seq<State>, actions: seq<Action>, z: nat, i: nat)
    requires Stretch(trace, actions) && z <= i < |trace| && forall j | z <= j < i :: actions[j] != Zero
    requires Inv(trace[z]) && PeakInv(trace[z], |Inside(trace[z])|)
    ensures Inv(trace[i]) && PeakInv(trace[i], Peak(trace, z, i)) && trace[i].active <= Peak(trace, z, i)
  {
    if i > z {
      assert Next(trace[i - 1], actions[i - 1]) == Some(trace[i - 1 + 1]);
      PeakKept(trace, actions, z, i - 1);
      NextKeepsInv(trace[i - 1], actions[i - 1]);
      InvCounts(trace[i]);
      hide Inside, PeakInv, Inv;
      NextKeepsPeak(trace[i - 1], actions[i - 1], Peak(trace, z, i - 1));
    }
  }

  lemma InvCounts(s: State)
    requires Inv(s)
    ensures s.active == |Inside(s)|
  {}

  // ----- zeroing it -----

  /** What the handler that is updating the maximum has loaded does no harm. */
  predicate Mild(s: State, p: Place) {
    match p
    case LoadHighest => true
    case LoadAgain(highest) => highest <= s.active
    case StoreHighest(highest, _) => highest <= s.active
    case _ => false
  }

  /** Nobody is inside, or the handler that is updating the maximum has yet to load it or has loaded none above
      the counter. */
  predicate Benign(s: State) {
    Inside(s) == {} || exists t | t in s.places :: Mild(s, s.places[t])
  }

  lemma BenignStart(s: State)
    requires Inv(s) && Benign(s)
    ensures var n := s.(highest := 0); Inv(n) && PeakInv(n, |Inside(n)|)
  {
    var n := s.(highest := 0);
    ZeroKeepsInv(s);
    if Inside(s) == {} {
      forall t | t in s.places ensures !InRegion(s.places[t]) { assert t !in Inside(s); }
    } else {
      var t :| t in s.places && Mild(s, s.places[t]);
      assert forall u | u in s.places && Updating(s.places[u]) :: s.lock == Some(u);
    }
  }

  /** While no handler is in the middle of updating it, the maximum is at least k exactly when k handlers were
      inside at once since it was zeroed; only that last zeroing has to be benign. */
  lemma HighestIsPeak(trace: seq<State>, actions: seq<Action>, i: nat, k: int)
    requires Behaviour(trace, actions) && i < |trace| && Settled(trace[i])
    requires var z := Zeroed(actions, i); z > 0 ==> Benign(trace[z - 1])
    ensures trace[i].highest >= k <==> exists j | Zeroed(actions, i) <= j <= i :: |Inside(trace[j])| >= k
  {
    hide Inside, Inv, PeakInv, Benign, Settled;
    var z := Zeroed(actions, i);
    ZeroedMeaning(actions, i);
    StartsRight(trace, actions, z);
    PeakKept(trace, actions, z, i);
    PeakMeaning(trace, z, i, k);
    PeakSettled(trace[i], Peak(trace, z, i));
  }

  lemma StartsRight(trace: seq<State>, actions: seq<Action>, z: nat)
    requires Behaviour(trace, actions) && z < |trace|
    requires z > 0 ==> actions[z - 1] == Zero && Benign(trace[z - 1])
    ensures Inv(trace[z]) && PeakInv(trace[z], |Inside(trace[z])|)
  {
    if z > 0 {
      ActiveIsInside(trace, actions, z - 1);
      assert Next(trace[z - 1], actions[z - 1]) == Some(trace[z - 1 + 1]);
      BenignStart(trace[z - 1]);
    } else {
      ActiveIsInside(trace, actions, 0);
    }
  }

  lemma PeakSettled(s: State, peak: int)
    requires PeakInv(s, peak) && Settled(s)
    ensures s.highest == peak
  {}

  /** However the run goes on after a zeroing in state s, up to the next zeroing: in every state in which no
      handler is updating it, the maximum is the largest number inside at once since. */
  ghost predicate Harmless(s: State) {
    forall trace: seq<State>, actions: seq<Action>, i: nat |
      Stretch(trace, actions) && trace[0] == s.(highest := 0) && Zero !in actions &&
      i < |trace| && Settled(trace[i]) :: trace[i].highest == Peak(trace, 0, i)
  }

  lemma BenignHarmless(s: State)
    requires Inv(s) && Benign(s)
    ensures Harmless(s)
  {
    BenignStart(s);
    forall trace: seq<State>, actions: seq<Action>, i: nat |
      Stretch(trace, actions) && trace[0] == s.(highest := 0) && Zero !in actions &&
      i < |trace| && Settled(trace[i])
      ensures trace[i].highest == Peak(trace, 0, i)
    {
      PeakKept(trace, actions, 0, i);
    }
  }

  /** Where somebody is inside and nobody is updating, the maximum is too small at once. */
  lemma TooSmall(s: State)
    requires Inv(s) && Settled(s) && Inside(s) != {}
    ensures !Harmless(s)
  {
    var n := s.(highest := 0);
    InsideSame(s, n);
    assert Stretch([n], []) && Settled([n][0]) && [n][0].highest != Peak([n], 0, 0);
  }

  /** The two steps after which the updating handler has stored what it had loaded before the zeroing. */
  lemma TooLarge(s: State, t: nat)
    requires Inv(s) && t in s.places && s.places[t].StoreHighest? && s.places[t].highest > s.active
    ensures var n := Move(s, t).value;
            && Settled(n) && n.highest > |Inside(n)| && Inside(n) == Inside(s) && n.active == s.active
            && n.highest == s.places[t].highest
  {
    var n := Move(s, t).value;
    MoveKeepsLock(s, t);
    MoveKeepsCount(s, t);
    assert forall u | u in s.places && Updating(s.places[u]) :: s.lock == Some(u);
    InsideAt(s, t, EntryDone);
    InsideSame(n, At(s, t, EntryDone));
    assert t in Inside(s);
    assert Inside(s) + {t} == Inside(s);
  }

  lemma StaleStore(s: State, t: nat)
    requires Inv(s) && t in s.places && s.places[t].StoreHighest? && s.places[t].highest > s.active
    ensures !Harmless(s)
  {
    var m := s.(highest := 0);
    ZeroKeepsInv(s);
    TooLarge(m, t);
    var n := Move(m, t).value;
    var trace, actions := [m, n], [Step(t)];
    hide Inside, Move, Inv;
    assert Next(m, Step(t)) == Some(n);
    assert Stretch(trace, actions);
    assert Peak(trace, 0, 1) == Max(Peak(trace, 0, 0), |Inside(n)|) == |Inside(n)|;
    assert Zero !in actions && trace[1].highest != Peak(trace, 0, 1);
  }

  lemma StaleLoad(s: State, t: nat)
    requires Inv(s) && t in s.places && s.places[t].LoadAgain? && s.places[t].highest > s.active
    ensures !Harmless(s)
  {
    var m := s.(highest := 0);
    ZeroKeepsInv(s);
    var l := Move(m, t).value;
    MoveKeepsLock(m, t);
    MoveKeepsCount(m, t);
    TooLarge(l, t);
    var n := Move(l, t).value;
    assert Next(m, Step(t)) == Some(l) && Next(l, Step(t)) == Some(n);
    assert |Inside(l)| == m.active == |Inside(m)|;
    var trace, actions := [m, l, n], [Step(t), Step(t)];
    hide Inside, Move, Inv;
    assert Stretch(trace, actions);
    assert Peak(trace, 0, 1) == Max(Peak(trace, 0, 0), |Inside(l)|) == |Inside(n)|;
    assert Peak(trace, 0, 2) == Max(Peak(trace, 0, 1), |Inside(n)|) == |Inside(n)|;
    assert Zero !in actions && trace[2].highest != Peak(trace, 0, 2);
  }

  /** Zeroing the maximum does no harm, however the run goes on until the next zeroing, exactly in the benign
      states: with somebody inside and nobody updating it comes out too small, and with a stale larger maximum
      loaded it comes out too large. */
  lemma HarmlessIff(s: State)
    requires Inv(s)
    ensures Harmless(s) <==> Benign(s)
  {
    hide Inside, Inv, Harmless;
    if Benign(s) {
      BenignHarmless(s);
    } else if Settled(s) {
      TooSmall(s);
    } else {
      var t :| t in s.places && Updating(s.places[t]);
      assert !Mild(s, s.places[t]);
      if s.places[t].LoadAgain? { StaleLoad(s, t); } else { StaleStore(s, t); }
    }
  }

  // ----- a run in which it comes out too large -----

  ghost predicate Leads(s: State, n: State) {
    exists trace: seq<State>, actions: seq<Action> ::
      Stretch(trace, actions) && trace[0] == s && trace[|trace| - 1] == n
  }

  lemma LeadsOn(s: State, m: State, a: Action)
    requires Leads(s, m) && Next(m, a).Some?
    ensures Leads(s, Next(m, a).value)
  {
    var trace, actions :| Stretch(trace, actions) && trace[0] == s && trace[|trace| - 1] == m;
    assert Stretch(trace + [Next(m, a).value], actions + [a]);
  }

  lemma LeadsKeepsInv(s: State, n: State)
    requires Inv(s) && Leads(s, n)
    ensures Inv(n)
  {
    var trace, actions :| Stretch(trace, actions) && trace[0] == s && trace[|trace| - 1] == n;
    StretchKeepsInv(trace, actions, |actions|);
  }

  lemma {:induction false} StretchKeepsInv(trace: seq<State>, actions: seq<Action>, i: nat)
    requires Stretch(trace, actions) && i < |trace| && Inv(trace[0])
    ensures Inv(trace[i])
  {
    if i > 0 {
      StretchKeepsInv(trace, actions, i - 1);
      assert Next(trace[i - 1], actions[i - 1]) == Some(trace[i - 1 + 1]);
      NextKeepsInv(trace[i - 1], actions[i - 1]);
    }
  }

  lemma PutTwice(m: map<nat, Place>, t: nat, p: Place, q: Place)
    ensures m[t := p][t := q] == m[t := q]
  {}

  /** A handler comes in, up to its second load. */
  lemma ComesIn(s: State, m: State, t: nat)
    requires Leads(s, m) && m.lock == None && (t !in m.places || m.places[t] == Left(false))
    ensures Leads(s, State(Some(t), m.active + 1, m.highest, m.places[t := LoadAgain(m.highest)]))
  {
    hide Leads;
    LeadsOn(s, m, Arrive(t));
    GetsIn(s, At(m, t, Entering), t);
    PutTwice(m.places, t, Entering, LoadAgain(m.highest));
  }

  lemma GetsIn(s: State, m: State, t: nat)
    requires Leads(s, m) && m.lock == None && t in m.places && m.places[t] == Entering
    ensures Leads(s, State(Some(t), m.active + 1, m.highest, m.places[t := LoadAgain(m.highest)]))
  {
    hide Leads;
    var s1 := At(m, t, LoadActive).(lock := Some(t));
    LeadsOn(s, m, Step(t));
    assert Next(m, Step(t)) == Some(s1);
    var s2 := At(m, t, StoreActive(m.active)).(lock := Some(t));
    LeadsOn(s, s1, Step(t));
    PutTwice(m.places, t, LoadActive, StoreActive(m.active));
    assert Next(s1, Step(t)) == Some(s2);
    var s3 := At(m, t, LoadHighest).(lock := Some(t), active := m.active + 1);
    LeadsOn(s, s2, Step(t));
    PutTwice(m.places, t, StoreActive(m.active), LoadHighest);
    assert Next(s2, Step(t)) == Some(s3);
    LeadsOn(s, s3, Step(t));
    PutTwice(m.places, t, LoadHighest, LoadAgain(m.highest));
    assert Next(s3, Step(t)).value.places == m.places[t := LoadAgain(m.highest)];
  }

  /** It goes on to its delay. */
  lemma GoesOn(s: State, m: State, t: nat)
    requires Leads(s, m) && t in m.places && m.places[t].LoadAgain?
    ensures Leads(s, State(None, m.active, Max(m.places[t].highest, m.active), m.places[t := Delayed]))
  {
    hide Leads;
    var h := m.places[t].highest;
    var s0 := At(m, t, StoreHighest(h, m.active));
    LeadsOn(s, m, Step(t));
    var s1 := At(m, t, EntryDone).(highest := Max(h, m.active));
    LeadsOn(s, s0, Step(t));
    PutTwice(m.places, t, StoreHighest(h, m.active), EntryDone);
    assert Next(s0, Step(t)) == Some(s1);
    LeadsOn(s, s1, Step(t));
    PutTwice(m.places, t, EntryDone, Delayed);
    assert Next(s1, Step(t)).value.places == m.places[t := Delayed];
  }

  /** Steps of its own until a handler has left. */
  function Distance(p: Place): nat {
    match p
    case Entering => 12 case LoadActive => 11 case StoreActive(_) => 10 case LoadHighest => 9
    case LoadAgain(_) => 8 case StoreHighest(_, _) => 7 case EntryDone => 6 case Delayed => 5
    case Leaving(_) => 4 case LoadLast(_) => 3 case StoreLast(_, _) => 2 case ExitDone(_) => 1 case Left(_) => 0
  }

  /** Whether the delay of the handler has raised. */
  predicate Raised(p: Place) {
    match p
    case Leaving(raised) => raised case LoadLast(raised) => raised case StoreLast(raised, _) => raised
    case ExitDone(raised) => raised case Left(raised) => raised
    case _ => false
  }

  /** Whoever holds the lock, or anybody while it is free, can step, comes closer to having left, and remembers
      whether its delay raised. */
  lemma StepsOn(s: State, t: nat)
    requires LockInv(s) && t in s.places && !s.places[t].Left? && (s.lock == None || s.lock == Some(t))
    ensures Next(s, Step(t)).Some?
    ensures var n := Next(s, Step(t)).value;
            && (n.lock == None || n.lock == Some(t))
            && t in n.places && n.places == s.places[t := n.places[t]]
            && Distance(n.places[t]) == Distance(s.places[t]) - 1
            && Raised(n.places[t]) == Raised(s.places[t])
            && (Distance(s.places[t]) <= 6 ==> n.highest == s.highest)
  {}

  /** Such a handler can go all the way out, whether or not its delay raises, and leaves the lock free. */
  lemma {:induction false} GoesOut(s: State, m: State, t: nat) returns (n: State)
    requires Leads(s, m) && Inv(m) && t in m.places && (m.lock == None || m.lock == Some(t))
    ensures Leads(s, n) && Inv(n) && n.lock == None && n.places == m.places[t := Left(Raised(m.places[t]))]
    ensures n.active == m.active - One(InRegion(m.places[t]))
    ensures Distance(m.places[t]) <= 6 ==> n.highest == m.highest
    decreases Distance(m.places[t])
  {
    if m.places[t].Left? {
      n := m;
      assert m.places[t := m.places[t]] == m.places;
    } else {
      StepsOn(m, t);
      LeadsOn(s, m, Step(t));
      NextKeepsInv(m, Step(t));
      MoveCounts(m, t);
      hide Leads, Inside, Move, InRegion, Distance, Raised;
      var next := Next(m, Step(t)).value;
      n := GoesOut(s, next, t);
      PutTwice(m.places, t, next.places[t], Left(Raised(m.places[t])));
    }
  }

  lemma GoesAway(s: State, m: State, t: nat)
    requires Leads(s, m) && Inv(s) && t in m.places && m.places[t].Delayed? && m.lock == None
    ensures Leads(s, State(None, m.active - 1, m.highest, m.places[t := Left(false)]))
  {
    LeadsKeepsInv(s, m);
    hide Leads, Inv;
    var n := GoesOut(s, m, t);
    assert n == State(None, m.active - 1, m.highest, m.places[t := Left(false)]);
  }

  /** Two handlers come and go, a third comes in and has loaded the maximum of two when it is zeroed: it ends up
      at two although the third is alone. */
  lemma ZeroedTooLarge()
    ensures var s := State(Some(2), 1, 2, map[0 := Left(false), 1 := Left(false), 2 := LoadAgain(2)]);
            && Leads(INIT, s) && Inside(s) == {2} && !Harmless(s)
            && Leads(s.(highest := 0), State(None, 1, 2, s.places[2 := Delayed]))
  {
    assert Inside(INIT) == {};
    assert Inv(INIT);
    hide Leads, Inv, Inside, Harmless;
    LeadsNowhere(INIT);
    ComesIn(INIT, INIT, 0);
    var s0 := State(Some(0), 1, 0, INIT.places[0 := LoadAgain(0)]);
    GoesOn(INIT, s0, 0);
    var s1 := State(None, 1, 1, s0.places[0 := Delayed]);
    ComesIn(INIT, s1, 1);
    var s2 := State(Some(1), 2, 1, s1.places[1 := LoadAgain(1)]);
    GoesOn(INIT, s2, 1);
    var s3 := State(None, 2, 2, s2.places[1 := Delayed]);
    GoesAway(INIT, s3, 0);
    var s4 := State(None, 1, 2, s3.places[0 := Left(false)]);
    GoesAway(INIT, s4, 1);
    var s5 := State(None, 0, 2, s4.places[1 := Left(false)]);
    ComesIn(INIT, s5, 2);
    var s := State(Some(2), 1, 2, map[0 := Left(false), 1 := Left(false), 2 := LoadAgain(2)]);
    assert s.places == s5.places[2 := LoadAgain(2)];
    LeadsKeepsInv(INIT, s);
    OnlyInside(s, 2);
    StaleLoad(s, 2);
    LeadsNowhere(s.(highest := 0));
    GoesOn(s.(highest := 0), s.(highest := 0), 2);
  }

  lemma OnlyInside(s: State, t: nat)
    requires t in s.places && forall u | u in s.places :: InRegion(s.places[u]) <==> u == t
    ensures Inside(s) == {t}
  {}

  lemma LeadsNowhere(s: State)
    ensures Leads(s, s)
  {
    assert Stretch([s], []);
  }

  // ----- nobody is kept waiting for ever -----

  /** Whoever holds the lock can always go on, and after at most six steps of its own the lock is free. */
  function Remaining(p: Place): nat {
    match p
    case LoadActive => 6 case StoreActive(_) => 5 case LoadHighest => 4 case LoadAgain(_) => 3
    case StoreHighest(_, _) => 2 case EntryDone => 1
    case LoadLast(_) => 3 case StoreLast(_, _) => 2 case ExitDone(_) => 1
    case _ => 0
  }

  lemma HolderMovesOn(trace: seq<State>, actions: seq<Action>, i: nat)
    requires Behaviour(trace, actions) && i < |trace| && trace[i].lock.Some?
    ensures var t := trace[i].lock.value;
            && t in trace[i].places && Next(trace[i], Step(t)).Some?
            && var n := Next(trace[i], Step(t)).value;
               Remaining(n.places[t]) == Remaining(trace[i].places[t]) - 1 &&
               (n.lock == None <==> Remaining(n.places[t]) == 0)
  {
    ActiveIsInside(trace, actions, i);
  }

  /** While the lock is free, every handler that has not left can step, so in particular all that wait to enter
      and all that wait to leave, whether or not their delay raised. */
  lemma NobodyIsStuck(trace: seq<State>, actions: seq<Action>, i: nat, t: nat)
    requires Behaviour(trace, actions) && i < |trace| && trace[i].lock == None && t in trace[i].places
    ensures Next(trace[i], Step(t)).Some? <==> !trace[i].places[t].Left?
  {
    ActiveIsInside(trace, actions, i);
    if !trace[i].places[t].Left? { StepsOn(trace[i], t); }
  }

  /** Whether the delay of a handler returns or raises, the handler can then count itself out and be gone. */
  lemma BothWaysOut(trace: seq<State>, actions: seq<Action>, i: nat, t: nat)
    requires Behaviour(trace, actions) && i < |trace| && trace[i].lock == None
    requires t in trace[i].places && trace[i].places[t] == Delayed
    ensures var s := trace[i];
            var back, raised := Next(s, Step(t)), Next(s, Raise(t));
            && back.Some? && raised.Some?
            && Leads(back.value, State(None, s.active - 1, s.highest, s.places[t := Left(false)]))
            && Leads(raised.value, State(None, s.active - 1, s.highest, s.places[t := Left(true)]))
  {
    var s := trace[i];
    ActiveIsInside(trace, actions, i);
    StepsOn(s, t);
    WayOut(s, Step(t), t, false);
    WayOut(s, Raise(t), t, true);
  }

  lemma WayOut(s: State, a: Action, t: nat, raised: bool)
    requires Inv(s) && s.lock == None && Next(s, a) == Some(At(s, t, Leaving(raised)))
    requires t in s.places && s.places[t] == Delayed
    ensures Leads(At(s, t, Leaving(raised)), State(None, s.active - 1, s.highest, s.places[t := Left(raised)]))
  {
    var m := At(s, t, Leaving(raised));
    NextKeepsInv(s, a);
    LeadsNowhere(m);
    hide Leads, Inv;
    var n := GoesOut(m, m, t);
    PutTwice(s.places, t, Leaving(raised), Left(raised));
    assert n == State(None, s.active - 1, s.highest, s.places[t := Left(raised)]);
  }

  /** A new handler, and one whose last request has ended without its delay raising, can come in while the lock
      is free: it counts itself in, raises the maximum if need be, and gets to its delay.  No other can. */
  lemma WayIn(trace: seq<State>, actions: seq<Action>, i: nat, t: nat)
    requires Behaviour(trace, actions) && i < |trace| && trace[i].lock == None
    ensures var s := trace[i];
            var n := Next(s, Arrive(t));
            && (n.Some? <==> t !in s.places || s.places[t] == Left(false))
            && (n.Some? ==>
                  Leads(n.value, State(None, s.active + 1, Max(s.highest, s.active + 1), s.places[t := Delayed])))
  {
    var s := trace[i];
    var n := Next(s, Arrive(t));
    if n.Some? {
      var m := At(s, t, Entering);
      LeadsNowhere(m);
      hide Leads;
      GetsIn(m, m, t);
      PutTwice(s.places, t, Entering, LoadAgain(s.highest));
      GoesOn(m, State(Some(t), s.active + 1, s.highest, s.places[t := LoadAgain(s.highest)]), t);
      PutTwice(s.places, t, LoadAgain(s.highest), Delayed);
    }
  }

  function Staying(s: State): set<nat> { set t | t in s.places && !s.places[t].Left? }

  /** From every reachable state, wherever its handlers are, the run can go on until all of them have left; then
      the counter is zero. */
  lemma AllCanLeave(trace: seq<State>, actions: seq<Action>, i: nat) returns (n: State)
    requires Behaviour(trace, actions) && i < |trace|
    ensures Leads(trace[i], n) && n.places.Keys == trace[i].places.Keys
    ensures n.lock == None && n.active == 0 && forall t | t in n.places :: n.places[t].Left?
  {
    var s := trace[i];
    ActiveIsInside(trace, actions, i);
    LeadsNowhere(s);
    n := s;
    if s.lock.Some? { n := GoesOut(s, s, s.lock.value); }
    n := TheRestLeave(s, n);
  }

  lemma {:induction false} TheRestLeave(s: State, m: State) returns (n: State)
    requires Leads(s, m) && Inv(m) && m.lock == None
    ensures Leads(s, n) && n.places.Keys == m.places.Keys
    ensures n.lock == None && n.active == 0 && forall t | t in n.places :: n.places[t].Left?
    decreases |Staying(m)|
  {
    if t :| t in Staying(m) {
      n := GoesOut(s, m, t);
      assert Staying(n) == Staying(m) - {t};
      hide Leads, Inv;
      n := TheRestLeave(s, n);
    } else {
      n := m;
      forall t | t in m.places ensures m.places[t].Left? { assert t !in Staying(m); }
      assert Inside(m) == {};
    }
  }
}
