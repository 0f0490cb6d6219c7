/** The POST counters of the browser action fixture in single loads and stores: any number of handlers, in
    any interleaving, each returning the count it read back under the lock. */
module PostCounts {
  import opened Options

  datatype Counter = Post | Crash

  /** Where a handler of a counted path is in `do_POST`. */
  datatype Place =
    | Waiting(counter: Counter)
    | Load(counter: Counter)
    | Store(counter: Counter, loaded: int)
    | ReadBack(counter: Counter)
    | Release(counter: Counter, count: int)
    | Answered(counter: Counter, count: int)

  datatype Counts = Counts(post: int, crash: int)
  {
    function Of(c: Counter): int { if c.Post? then post else crash }

    function With(c: Counter, n: int): Counts { if c.Post? then this.(post := n) else this.(crash := n) }
  }

  datatype State = State(lock: Option<nat>, counts: Counts, places: map<nat, Place>)

  /** A handler is one request, to any path. */
  datatype Action = Request(handler: nat, path: string) | Step(handler: nat)

  const INIT := State(None, Counts(0, 0), map[])

  function CounterOf(path: string): Option<Counter> {
    if path == "/public/post" then Some(Post) else if path == "/public/crash" then Some(Crash) else None
  }

  function At(s: State, h: nat, p: Place): State { s.(places := s.places[h := p]) }

  function Move(s: State, h: nat): Option<State>
    requires h in s.places
  {
    match s.places[h]
    case Waiting(c) => if s.lock == None then Some(At(s, h, Load(c)).(lock := Some(h))) else None
    case Load(c) => Some(At(s, h, Store(c, s.counts.Of(c))))
    case Store(c, loaded) => Some(At(s, h, ReadBack(c)).(counts := s.counts.With(c, loaded + 1)))
    case ReadBack(c) => Some(At(s, h, Release(c, s.counts.Of(c))))
    case Release(c, count) => Some(At(s, h, Answered(c, count)).(lock := None))
    case Answered(_, _) => None
  }

  /** A request for another path is answered with 404 and leaves the state alone. */
  function Next(s: State, a: Action): Option<State> {
    match a
    case Request(h, path) =>
      if h in s.places then None
      else
        (match CounterOf(path)
         case None => Some(s)
         case Some(c) => Some(At(s, h, Waiting(c))))
    case Step(h) => if h in s.places then Move(s, h) else None
  }

  /** A stretch of a run: its states, one more than its actions. */
  ghost predicate Stretch(trace: seq<State>, actions: seq<Action>) {
    && |trace| == |actions| + 1
    && forall i | 0 <= i < |actions| :: Next(trace[i], actions[i]) == Some(trace[i + 1])
  }

  /** A run from the start. */
  ghost predicate Behaviour(trace: seq<State>, actions: seq<Action>) {
    Stretch(trace, actions) && trace[0] == INIT
  }

  // ----- what every step keeps -----

  predicate HoldsLock(p: Place) { p.Load? || p.Store? || p.ReadBack? || p.Release? }

  /** Handler h has been given number v of counter c. */
  predicate Got(s: State, c: Counter, h: nat, v: int) {
    h in s.places && (s.places[h] == Release(c, v) || s.places[h] == Answered(c, v))
  }

  function Holders(s: State, c: Counter): set<nat> {
    set h | h in s.places && s.places[h].counter == c && (s.places[h].Release? || s.places[h].Answered?)
  }

  /** The counter is one ahead of the numbers given out while its last handler has yet to read it back. */
  predicate Pending(s: State, c: Counter) {
    s.lock.Some? && s.lock.value in s.places && s.places[s.lock.value] == ReadBack(c)
  }

  function Given(s: State, c: Counter): int { s.counts.Of(c) - if Pending(s, c) then 1 else 0 }

  ghost predicate LockInv(s: State) {
    && (forall h | h in s.places :: HoldsLock(s.places[h]) <==> s.lock == Some(h))
    && (s.lock.Some? ==> s.lock.value in s.places)
    && (forall h | h in s.places && s.places[h].Store? :: s.places[h].loaded == s.counts.Of(s.places[h].counter))
  }

  ghost predicate Taken(s: State, c: Counter, v: int) { exists h :: Got(s, c, h, v) }

  /** The numbers given out for a counter are exactly 1 to n, each to one of n handlers. */
  ghost predicate Numbered(s: State, c: Counter, n: int) {
    && |Holders(s, c)| == n
    && (forall h, v | Got(s, c, h, v) :: 1 <= v <= n)
    && (forall g, h, v | Got(s, c, g, v) && Got(s, c, h, v) :: g == h)
    && (forall v | 1 <= v <= n :: Taken(s, c, v))
  }

  ghost predicate Inv(s: State) { LockInv(s) && forall c :: Numbered(s, c, Given(s, c)) }

  lemma MoveKeepsLock(s: State, h: nat)
    requires LockInv(s) && h in s.places && Move(s, h).Some?
    ensures LockInv(Move(s, h).value)
  {}

  /** A step that gives no handler a number. */
  lemma SameNumbers(s: State, n: State, c: Counter)
    requires Numbered(s, c, Given(s, c)) && Given(s, c) == Given(n, c)
    requires Holders(n, c) == Holders(s, c) && forall h, v :: Got(n, c, h, v) <==> Got(s, c, h, v)
    ensures Numbered(n, c, Given(n, c))
  {
    hide Got, Holders, Given;
    forall v | 1 <= v <= Given(n, c) ensures Taken(n, c, v) {
      assert Taken(s, c, v);
      var h :| Got(s, c, h, v);
      assert Got(n, c, h, v);
    }
  }

  /** The step that reads the counter back gives the handler the next number. */
  lemma NextNumber(s: State, n: State, c: Counter, h: nat)
    requires Numbered(s, c, Given(s, c)) && Given(n, c) == Given(s, c) + 1
    requires h !in Holders(s, c) && Holders(n, c) == Holders(s, c) + {h}
    requires forall g, v :: Got(n, c, g, v) <==> Got(s, c, g, v) || (g == h && v == Given(n, c))
    ensures Numbered(n, c, Given(n, c))
  {
    hide Got, Holders, Given;
    forall v | 1 <= v <= Given(n, c) ensures Taken(n, c, v) {
      if v == Given(n, c) {
        assert Got(n, c, h, v);
      } else {
        assert Taken(s, c, v);
        var g :| Got(s, c, g, v);
        assert Got(n, c, g, v);
      }
    }
  }

  lemma MoveGot(s: State, h: nat, c: Counter)
    requires h in s.places && Move(s, h).Some?
    ensures var n := Move(s, h).value;
            forall g, v :: Got(n, c, g, v) <==>
              Got(s, c, g, v) || (g == h && s.places[h] == ReadBack(c) && v == s.counts.Of(c))
  {}

  lemma MoveHolders(s: State, h: nat, c: Counter)
    requires h in s.places && Move(s, h).Some?
    ensures var n := Move(s, h).value;
            if s.places[h] == ReadBack(c) then h !in Holders(s, c) && Holders(n, c) == Holders(s, c) + {h}
            else Holders(n, c) == Holders(s, c)
  {
    var n := Move(s, h).value;
    assert forall g | g in s.places && g != h :: n.places[g] == s.places[g];
  }

  lemma MoveGiven(s: State, h: nat, c: Counter)
    requires LockInv(s) && h in s.places && Move(s, h).Some?
    ensures var n := Move(s, h).value;
            if s.places[h] == ReadBack(c) then Given(n, c) == Given(s, c) + 1 && Given(n, c) == s.counts.Of(c)
            else Given(n, c) == Given(s, c)
  {}

  lemma MoveKeepsNumbers(s: State, h: nat, c: Counter)
    requires Inv(s) && h in s.places && Move(s, h).Some?
    ensures var n := Move(s, h).value; Numbered(n, c, Given(n, c))
  {
    var n := Move(s, h).value;
    MoveGot(s, h, c);
    MoveHolders(s, h, c);
    MoveGiven(s, h, c);
    assert Numbered(s, c, Given(s, c));
    hide Numbered, Holders, Got, Given, LockInv, Move;
    if s.places[h] == ReadBack(c) {
      NextNumber(s, n, c, h);
    } else {
      SameNumbers(s, n, c);
    }
  }

  lemma RequestKeepsInv(s: State, h: nat, path: string)
    requires Inv(s) && h !in s.places
    ensures Inv(Next(s, Request(h, path)).value)
  {
    var n := Next(s, Request(h, path)).value;
    hide CounterOf;
    forall c ensures Numbered(n, c, Given(n, c)) {
      assert Numbered(s, c, Given(s, c));
      hide Numbered;
      assert Holders(n, c) == Holders(s, c);
      SameNumbers(s, n, c);
    }
  }

  lemma NextKeepsInv(s: State, a: Action)
    requires Inv(s) && Next(s, a).Some?
    ensures Inv(Next(s, a).value)
  {
    match a
    case Request(h, path) => RequestKeepsInv(s, h, path);
    case Step(h) =>
      MoveKeepsLock(s, h);
      forall c ensures Numbered(Move(s, h).value, c, Given(Move(s, h).value, c)) { MoveKeepsNumbers(s, h, c); }
  }

  lemma {:induction false} InvKept(trace: seq<State>, actions: seq<Action>, i: nat)
    requires Behaviour(trace, actions) && i < |trace|
    ensures Inv(trace[i])
  {
    if i == 0 {
      assert forall c :: Holders(INIT, c) == {};
    } else {
      InvKept(trace, actions, i - 1);
      assert Next(trace[i - 1], actions[i - 1]) == Some(trace[i - 1 + 1]);
      NextKeepsInv(trace[i - 1], actions[i - 1]);
    }
  }

  /** In every interleaving the counts returned for a counter are different and are exactly 1 to n for the
      n handlers that have passed the lock; n is the counter whenever the lock is free. */
  lemma CountsAreTickets(trace: seq<State>, actions: seq<Action>, i: nat, c: Counter)
    requires Behaviour(trace, actions) && i < |trace|
    ensures Numbered(trace[i], c, |Holders(trace[i], c)|)
    ensures trace[i].lock == None ==> trace[i].counts.Of(c) == |Holders(trace[i], c)|
  {
    InvKept(trace, actions, i);
    assert Numbered(trace[i], c, Given(trace[i], c));
  }

  /** A count once given stays given. */
  lemma {:induction false} AnswersStay(
      trace: seq<State>, actions: seq<Action>, i: nat, j: nat, c: Counter, h: nat, v: int)
    requires Behaviour(trace, actions) && i <= j < |trace| && Got(trace[i], c, h, v)
    ensures Got(trace[j], c, h, v)
    decreases j - i
  {
    if i < j {
      assert Next(trace[i], actions[i]) == Some(trace[i + 1]);
      AnswersStay(trace, actions, i + 1, j, c, h, v);
    }
  }

  // ----- which requests are counted, and that they are -----

  /** A request for another path is answered at once and changes nothing. */
  lemma OtherPathIgnored(s: State, h: nat, path: string)
    requires h !in s.places && path != "/public/post" && path != "/public/crash"
    ensures Next(s, Request(h, path)) == Some(s)
  {}

  lemma {:induction false} CounterStays(trace: seq<State>, actions: seq<Action>, i: nat, j: nat, h: nat)
    requires Behaviour(trace, actions) && i <= j < |trace| && h in trace[i].places
    ensures h in trace[j].places && trace[j].places[h].counter == trace[i].places[h].counter
    decreases j - i
  {
    if i < j {
      assert Next(trace[i], actions[i]) == Some(trace[i + 1]);
      hide CounterOf;
      CounterStays(trace, actions, i + 1, j, h);
    }
  }

  /** Each path has its counter: from its request on, a handler of "/public/post" is given numbers of the one and
      a handler of "/public/crash" numbers of the other. */
  lemma PathCounted(trace: seq<State>, actions: seq<Action>, i: nat, j: nat, h: nat, path: string)
    requires Behaviour(trace, actions) && i < j < |trace| && actions[i] == Request(h, path)
    ensures path == "/public/post" ==> h in trace[j].places && trace[j].places[h].counter == Post
    ensures path == "/public/crash" ==> h in trace[j].places && trace[j].places[h].counter == Crash
  {
    assert Next(trace[i], actions[i]) == Some(trace[i + 1]);
    if path == "/public/post" || path == "/public/crash" {
      assert CounterOf(path) == Some(if path == "/public/post" then Post else Crash);
      CounterStays(trace, actions, i + 1, j, h);
    }
  }

  /** And nobody else is given any: behind every handler there is a request for the path of its counter. */
  lemma {:induction false} HandlerAsked(trace: seq<State>, actions: seq<Action>, j: nat, h: nat) returns (i: nat)
    requires Behaviour(trace, actions) && j < |trace| && h in trace[j].places
    ensures i < j
    ensures actions[i] == Request(h, if trace[j].places[h].counter == Post then "/public/post" else "/public/crash")
  {
    assert Next(trace[j - 1], actions[j - 1]) == Some(trace[j - 1 + 1]);
    if h in trace[j - 1].places {
      i := HandlerAsked(trace, actions, j - 1, h);
      CounterStays(trace, actions, j - 1, j, h);
    } else {
      i := j - 1;
    }
  }

  /** How the run can go on. */
  ghost predicate Leads(s: State, n: State) {
    exists trace: seq<State>, actions: seq<Action> ::
      Stretch(trace, actions) && trace[0] == s && trace[|trace| - 1] == n
  }

  lemma LeadsOn(s: State, m: State, a: Action)
    requires Leads(s, m) && Next(m, a).Some?
    ensures Leads(s, Next(m, a).value)
  {
    hide Move, CounterOf;
    var trace, actions :| Stretch(trace, actions) && trace[0] == s && trace[|trace| - 1] == m;
    assert Stretch(trace + [Next(m, a).value], actions + [a]);
  }

  lemma LeadsNowhere(s: State)
    ensures Leads(s, s)
  {
    assert Stretch([s], []);
  }

  /** Steps of its own until a handler has answered. */
  function Distance(p: Place): nat {
    match p
    case Waiting(_) => 5 case Load(_) => 4 case Store(_, _) => 3 case ReadBack(_) => 2 case Release(_, _) => 1
    case Answered(_, _) => 0
  }

  /** What a handler is going to answer, when nobody else gets the lock before it. */
  function Due(s: State, p: Place): int {
    match p
    case Waiting(c) => s.counts.Of(c) + 1
    case Load(c) => s.counts.Of(c) + 1
    case Store(_, loaded) => loaded + 1
    case ReadBack(c) => s.counts.Of(c)
    case Release(_, count) => count
    case Answered(_, count) => count
  }

  lemma StepsOn(s: State, h: nat)
    requires LockInv(s) && h in s.places && !s.places[h].Answered? && (s.lock == None || s.lock == Some(h))
    ensures Next(s, Step(h)).Some?
    ensures var n := Next(s, Step(h)).value;
            && LockInv(n) && (n.lock == None || n.lock == Some(h))
            && h in n.places && n.places == s.places[h := n.places[h]]
            && n.places[h].counter == s.places[h].counter
            && Distance(n.places[h]) == Distance(s.places[h]) - 1
            && Due(n, n.places[h]) == Due(s, s.places[h])
            && n.counts == if s.places[h].Store? then s.counts.With(s.places[h].counter, Due(s, s.places[h]))
                           else s.counts
  {
    MoveKeepsLock(s, h);
  }

  /** Whoever holds the lock, or anybody while it is free, can go on until it has answered and the lock is
      free; on its way it raises its counter to what it answers, if it has not yet done so. */
  lemma {:induction false} GoesOut(s: State, m: State, h: nat) returns (n: State)
    requires Leads(s, m) && LockInv(m) && h in m.places && (m.lock == None || m.lock == Some(h))
    ensures Leads(s, n) && LockInv(n) && n.lock == None
    ensures n.places == m.places[h := Answered(m.places[h].counter, Due(m, m.places[h]))]
    ensures n.counts == if Distance(m.places[h]) >= 3 then m.counts.With(m.places[h].counter, Due(m, m.places[h]))
                        else m.counts
    decreases Distance(m.places[h])
  {
    if m.places[h].Answered? {
      n := m;
      assert m.places[h := m.places[h]] == m.places;
    } else {
      StepsOn(m, h);
      LeadsOn(s, m, Step(h));
      var next := Next(m, Step(h)).value;
      hide Leads, Next, Due, LockInv;
      n := GoesOut(s, next, h);
      assert n.places == m.places[h := n.places[h]];
    }
  }

  /** A request for "/public/post" or "/public/crash" that comes while the lock is free can be answered at once
      with one more than its counter, and leaves the other counter alone. */
  lemma RequestAnswered(trace: seq<State>, actions: seq<Action>, i: nat, h: nat)
    requires Behaviour(trace, actions) && i < |trace| && trace[i].lock == None && h !in trace[i].places
    ensures var s := trace[i];
            var post, crash := s.counts.post, s.counts.crash;
            && Next(s, Request(h, "/public/post")).Some? && Next(s, Request(h, "/public/crash")).Some?
            && Leads(Next(s, Request(h, "/public/post")).value,
                 State(None, Counts(post + 1, crash), s.places[h := Answered(Post, post + 1)]))
            && Leads(Next(s, Request(h, "/public/crash")).value,
                 State(None, Counts(post, crash + 1), s.places[h := Answered(Crash, crash + 1)]))
  {
    InvKept(trace, actions, i);
    RequestServed(trace[i], h, "/public/post", Post);
    RequestServed(trace[i], h, "/public/crash", Crash);
  }

  lemma RequestServed(s: State, h: nat, path: string, c: Counter)
    requires Inv(s) && s.lock == None && h !in s.places && CounterOf(path) == Some(c)
    ensures var v := s.counts.Of(c) + 1;
            Leads(Next(s, Request(h, path)).value, State(None, s.counts.With(c, v), s.places[h := Answered(c, v)]))
  {
    var m := Next(s, Request(h, path)).value;
    RequestKeepsInv(s, h, path);
    LeadsNowhere(m);
    hide Leads, Inv;
    var n := GoesOut(m, m, h);
    assert n.places == s.places[h := n.places[h]];
  }

  function Unanswered(s: State): set<nat> { set h | h in s.places && !s.places[h].Answered? }

  /** From every reachable state the run can go on until every handler has answered. */
  lemma AllCanAnswer(trace: seq<State>, actions: seq<Action>, i: nat) returns (n: State)
    requires Behaviour(trace, actions) && i < |trace|
    ensures Leads(trace[i], n) && n.places.Keys == trace[i].places.Keys
    ensures n.lock == None && forall h | h in n.places :: n.places[h].Answered?
  {
    var s := trace[i];
    InvKept(trace, actions, i);
    LeadsNowhere(s);
    n := s;
    if s.lock.Some? { n := GoesOut(s, s, s.lock.value); }
    n := TheRestAnswer(s, n);
  }

  lemma {:induction false} TheRestAnswer(s: State, m: State) returns (n: State)
    requires Leads(s, m) && LockInv(m) && m.lock == None
    ensures Leads(s, n) && n.places.Keys == m.places.Keys
    ensures n.lock == None && forall h | h in n.places :: n.places[h].Answered?
    decreases |Unanswered(m)|
  {
    if h :| h in Unanswered(m) {
      n := GoesOut(s, m, h);
      assert Unanswered(n) == Unanswered(m) - {h};
      hide Leads, LockInv;
      n := TheRestAnswer(s, n);
    } else {
      n := m;
      forall h | h in m.places ensures m.places[h].Answered? { assert h !in Unanswered(m); }
    }
  }
}
