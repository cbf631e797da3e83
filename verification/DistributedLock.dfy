/** The Redis lock (database.py, `redis_distributed_lock`): SET NX EX with a unique value,
    retried until it is set, and a release that deletes the key only if it still holds
    that value. Clients are named by their unique lock value. */
module DistributedLock {
  import opened Basics

  type ClientId = nat

  // The value stored under the lock key, and when Redis drops it.
  datatype Lease = Lease(owner: ClientId, expiry: int)

  // Retrying SET; in the critical section since its SET ran; out of it, release to come;
  // over (released, failed or crashed).
  datatype Client = Trying | Holding(since: int) | Leaving | Over

  // `hold`: every client is out of its critical section before `hold` has passed since its
  // SET. `timeout`: the EX of the key.
  datatype State = State(timeout: int, hold: int, now: int, key: Option<Lease>, clients: map<ClientId, Client>)

  /** `heard`: the reply reaches the client (otherwise the call raises). `reached`: the
      release script runs. A crash may strike at any point. */
  datatype Event =
    | Tick(to: int)
    | Enter(id: ClientId)
    | TrySet(id: ClientId, heard: bool)
    | Finish(id: ClientId)
    | Release(id: ClientId, reached: bool)
    | Crash(id: ClientId)

  function Live(s: State): Option<Lease> {
    if s.key.Some? && s.now < s.key.value.expiry then s.key else None
  }

  predicate Is(s: State, id: ClientId, c: Client) {
    id in s.clients && s.clients[id] == c
  }

  predicate InCriticalSection(s: State, id: ClientId) {
    id in s.clients && s.clients[id].Holding?
  }

  predicate Enabled(s: State, e: Event) {
    match e
    case Tick(to) =>
      s.now <= to && forall id <- s.clients :: s.clients[id].Holding? ==> to < s.clients[id].since + s.hold
    case Enter(id) => id !in s.clients
    case TrySet(id, _) => Is(s, id, Trying)
    case Finish(id) => InCriticalSection(s, id)
    case Release(id, _) => Is(s, id, Leaving)
    case Crash(id) => id in s.clients
  }

  function Apply(s: State, e: Event): State
    requires Enabled(s, e)
  {
    match e
    case Tick(to) => s.(now := to)
    case Enter(id) => s.(clients := s.clients[id := Trying])
    case TrySet(id, heard) =>
      if Live(s).Some? then (if heard then s else s.(clients := s.clients[id := Over]))
      else s.(key := Some(Lease(id, s.now + s.timeout)),
              clients := s.clients[id := if heard then Holding(s.now) else Over])
    case Finish(id) => s.(clients := s.clients[id := Leaving])
    case Release(id, reached) =>
      s.(key := if reached && Live(s).Some? && s.key.value.owner == id then None else s.key,
         clients := s.clients[id := Over])
    case Crash(id) => s.(clients := s.clients[id := Over])
  }

  predicate Legal(s: State, run: seq<Event>)
    decreases |run|
  {
    run == [] || (Enabled(s, run[0]) && Legal(Apply(s, run[0]), run[1..]))
  }

  function Exec(s: State, run: seq<Event>): State
    requires Legal(s, run)
    decreases |run|
  {
    if run == [] then s else Exec(Apply(s, run[0]), run[1..])
  }

  function Start(timeout: int, hold: int, now: int): State {
    State(timeout, hold, now, None, map[])
  }

  // ---- mutual exclusion --------------------------------------------------------------------

  ghost predicate Exclusive(s: State) {
    forall a, b :: InCriticalSection(s, a) && InCriticalSection(s, b) ==> a == b
  }

  // Whoever is inside still owns the key.
  predicate HolderOk(s: State, id: ClientId) {
    InCriticalSection(s, id) ==>
      && s.now < s.clients[id].since + s.hold
      && s.key == Some(Lease(id, s.clients[id].since + s.timeout))
  }

  ghost predicate Inv(s: State) {
    0 < s.hold <= s.timeout && forall id :: HolderOk(s, id)
  }

  lemma StepKeeps(s: State, e: Event)
    requires Inv(s) && Enabled(s, e)
    ensures Inv(Apply(s, e))
  {
    var t := Apply(s, e);
    forall id ensures HolderOk(t, id) {
      assert HolderOk(s, id);
      if e.TrySet? || e.Release? {
        assert HolderOk(s, e.id);
      }
    }
  }

  lemma {:induction false} RunKeeps(s: State, run: seq<Event>)
    requires Inv(s) && Legal(s, run)
    ensures Inv(Exec(s, run))
    decreases |run|
  {
    if run != [] {
      StepKeeps(s, run[0]);
      RunKeeps(Apply(s, run[0]), run[1..]);
    }
  }

  lemma HolderIsAlone(s: State)
    requires Inv(s)
    ensures Exclusive(s)
  {
    forall a, b | InCriticalSection(s, a) && InCriticalSection(s, b) ensures a == b {
      assert HolderOk(s, a) && HolderOk(s, b);
    }
  }

  // The lock excludes in every run if and only if no critical section outlasts the timeout.
  lemma ExcludesExactlyWhenShortEnough(timeout: int, hold: int, now: int)
    requires 0 < timeout && 0 < hold
    ensures (forall run :: Legal(Start(timeout, hold, now), run) ==> Exclusive(Exec(Start(timeout, hold, now), run)))
            <==> hold <= timeout
  {
    var s := Start(timeout, hold, now);
    if hold <= timeout {
      forall run | Legal(s, run) ensures Exclusive(Exec(s, run)) {
        RunKeeps(s, run);
        HolderIsAlone(Exec(s, run));
      }
    } else {
      Overstay(s);
      assert !Exclusive(Exec(s, OverstayRun(s)));
    }
  }

  // The first client is still inside when its key expires; the second one gets in.
  function OverstayRun(s: State): seq<Event> {
    [Enter(1)] + ([TrySet(1, true)] + ([Tick(s.now + s.timeout)] + ([Enter(2)] + ([TrySet(2, true)] + []))))
  }

  lemma Cons(s: State, e: Event, rest: seq<Event>)
    requires Enabled(s, e) && Legal(Apply(s, e), rest)
    ensures Legal(s, [e] + rest) && Exec(s, [e] + rest) == Exec(Apply(s, e), rest)
  {
    assert ([e] + rest)[1..] == rest;
  }

  lemma Overstay(s: State)
    requires 0 < s.timeout < s.hold && s == Start(s.timeout, s.hold, s.now)
    ensures Legal(s, OverstayRun(s))
    ensures InCriticalSection(Exec(s, OverstayRun(s)), 1) && InCriticalSection(Exec(s, OverstayRun(s)), 2)
  {
    var due := s.now + s.timeout;
    var s2 := s.(key := Some(Lease(1, due)), clients := map[1 := Holding(s.now)]);
    var s3 := s2.(now := due);
    SecondGetsIn(s3);
    var rest := [Enter(2)] + ([TrySet(2, true)] + []);
    Cons(s2, Tick(due), rest);
    FirstGetsIn(s, s2, [Tick(due)] + rest);
  }

  lemma FirstGetsIn(s: State, s2: State, rest: seq<Event>)
    requires s == Start(s.timeout, s.hold, s.now)
    requires s2 == s.(key := Some(Lease(1, s.now + s.timeout)), clients := map[1 := Holding(s.now)]) && Legal(s2, rest)
    ensures var run := [Enter(1)] + ([TrySet(1, true)] + rest); Legal(s, run) && Exec(s, run) == Exec(s2, rest)
  {
    var s1 := Apply(s, Enter(1));
    assert s1.clients[1 := Holding(s.now)] == map[1 := Holding(s.now)];
    assert Apply(s1, TrySet(1, true)) == s2;
    Cons(s1, TrySet(1, true), rest);
    Cons(s, Enter(1), [TrySet(1, true)] + rest);
  }

  lemma SecondGetsIn(s: State)
    requires Live(s).None? && InCriticalSection(s, 1) && 2 !in s.clients
    ensures var run := [Enter(2)] + ([TrySet(2, true)] + []);
            Legal(s, run) && InCriticalSection(Exec(s, run), 1) && InCriticalSection(Exec(s, run), 2)
  {
    var s1 := Apply(s, Enter(2));
    Cons(s1, TrySet(2, true), []);
    Cons(s, Enter(2), [TrySet(2, true)] + []);
  }

  // ---- without any assumption on how long clients take -------------------------------------------

  // Not the owner's own release.
  predicate Others(run: seq<Event>, owner: ClientId) {
    forall e <- run :: e.Release? ==> e.id != owner
  }

  // A lease ends only by its own expiry or its own owner's release: whatever stale holders,
  // crashed clients and late releases do, a live lease is still there and unchanged.
  lemma {:induction false} OthersCannotEndALease(s: State, run: seq<Event>)
    requires Legal(s, run) && Live(s).Some? && Others(run, s.key.value.owner)
    ensures var t := Exec(s, run); t.now < s.key.value.expiry ==> t.key == s.key
    decreases |run|
  {
    if run != [] {
      var s1 := Apply(s, run[0]);
      assert run[0] in run;
      TimeGoesOn(s1, run[1..]);
      if s1.now < s.key.value.expiry {
        assert Live(s1) == s.key;
        OthersCannotEndALease(s1, run[1..]);
      }
    }
  }

  lemma {:induction false} TimeGoesOn(s: State, run: seq<Event>)
    requires Legal(s, run)
    ensures s.now <= Exec(s, run).now && Exec(s, run).timeout == s.timeout
    decreases |run|
  {
    if run != [] {
      TimeGoesOn(Apply(s, run[0]), run[1..]);
    }
  }

  // No lease reaches further than one timeout from now.
  predicate LeaseIsShort(s: State) {
    s.key.Some? ==> s.key.value.expiry <= s.now + s.timeout
  }

  lemma {:induction false} LeasesStayShort(s: State, run: seq<Event>)
    requires Legal(s, run) && LeaseIsShort(s)
    ensures LeaseIsShort(Exec(s, run))
    decreases |run|
  {
    if run != [] {
      LeasesStayShort(Apply(s, run[0]), run[1..]);
    }
  }

  // Nobody's SET succeeds.
  predicate NoGrant(s: State, run: seq<Event>)
    requires Legal(s, run)
    decreases |run|
  {
    run == [] || ((run[0].TrySet? ==> Live(s).Some?) && NoGrant(Apply(s, run[0]), run[1..]))
  }

  lemma {:induction false} KeyOnlyEndsWithoutGrant(s: State, run: seq<Event>)
    requires Legal(s, run) && NoGrant(s, run)
    ensures Exec(s, run).key == s.key || Exec(s, run).key == None
    decreases |run|
  {
    if run != [] {
      KeyOnlyEndsWithoutGrant(Apply(s, run[0]), run[1..]);
    }
  }

  // A holder that crashed, overstayed or lost its reply keeps the others out for at most one
  // timeout: from any reachable state, once that has passed with nobody else granted, the
  // next SET gets the lock.
  lemma BlockedForAtMostOneTimeout(timeout: int, hold: int, now: int, before: seq<Event>, during: seq<Event>,
                                   id: ClientId)
    requires 0 < timeout && Legal(Start(timeout, hold, now), before)
    requires var s := Exec(Start(timeout, hold, now), before);
             Legal(s, during) && NoGrant(s, during) && s.now + timeout <= Exec(s, during).now
    requires Is(Exec(Exec(Start(timeout, hold, now), before), during), id, Trying)
    ensures var s := Exec(Exec(Start(timeout, hold, now), before), during);
            InCriticalSection(Apply(s, TrySet(id, true)), id)
  {
    var s := Exec(Start(timeout, hold, now), before);
    LeasesStayShort(Start(timeout, hold, now), before);
    TimeGoesOn(Start(timeout, hold, now), before);
    KeyOnlyEndsWithoutGrant(s, during);
  }

  // ---- the context manager, as written ----------------------------------------------------------------

  // What happens before one of a client's calls: steps of the other clients and of the clock,
  // and whether the reply then reaches it.
  datatype Weather = Weather(others: seq<Event>, heard: bool)

  predicate IsForeign(e: Event, id: ClientId) {
    e.Tick? || e.id != id
  }

  // The steps of `others` that are possible when their turn comes.
  function Meanwhile(s: State, id: ClientId, others: seq<Event>): (run: seq<Event>)
    ensures Legal(s, run)
    decreases |others|
  {
    if others == [] then []
    else if Enabled(s, others[0]) && IsForeign(others[0], id) then
      var rest := Meanwhile(Apply(s, others[0]), id, others[1..]);
      Cons(s, others[0], rest);
      [others[0]] + rest
    else Meanwhile(s, id, others[1..])
  }

  lemma {:induction false} LegalAppend(s: State, a: seq<Event>, b: seq<Event>)
    requires Legal(s, a) && Legal(Exec(s, a), b)
    ensures Legal(s, a + b) && Exec(s, a + b) == Exec(Exec(s, a), b)
    decreases |a|
  {
    if a == [] {
      assert a + b == b;
    } else {
      assert (a + b)[0] == a[0] && (a + b)[1..] == a[1..] + b;
      LegalAppend(Apply(s, a[0]), a[1..], b);
    }
  }

  predicate SameClient(s: State, t: State, id: ClientId) {
    (id in t.clients <==> id in s.clients) && (id in s.clients ==> t.clients[id] == s.clients[id])
  }

  lemma {:induction false} MeanwhileLeavesClient(s: State, id: ClientId, others: seq<Event>)
    ensures SameClient(s, Exec(s, Meanwhile(s, id, others)), id)
    decreases |others|
  {
    if others != [] {
      if Enabled(s, others[0]) && IsForeign(others[0], id) {
        MeanwhileLeavesClient(Apply(s, others[0]), id, others[1..]);
        Cons(s, others[0], Meanwhile(Apply(s, others[0]), id, others[1..]));
      } else {
        MeanwhileLeavesClient(s, id, others[1..]);
      }
    }
  }

  /** A call of the acquisition so far: where it started, the run since then, and the number
      of SETs it has sent. */
  datatype Trace = Trace(start: State, run: seq<Event>, sets: nat)

  // The run is the client's entry and its SETs, each after what was possible of its weather.
  ghost predicate IsWoven(t: Trace, id: ClientId, weather: nat -> Weather)
    decreases t.sets
  {
    Legal(t.start, t.run)
    && if t.sets == 0 then t.run == [Enter(id)]
       else exists before: seq<Event> :: IsExtended(t, before, id, weather)
  }

  ghost predicate IsExtended(t: Trace, before: seq<Event>, id: ClientId, weather: nat -> Weather)
    requires t.sets > 0
    decreases t.sets, 0
  {
    var now := weather(t.sets - 1);
    && Legal(t.start, before) && IsWoven(Trace(t.start, before, t.sets - 1), id, weather)
    && t.run == before + (Meanwhile(Exec(t.start, before), id, now.others) + [TrySet(id, now.heard)])
  }

  // The trace accounts for the present state.
  ghost predicate Follows(t: Trace, id: ClientId, weather: nat -> Weather, s: State) {
    IsWoven(t, id, weather) && s == Exec(t.start, t.run)
  }

  function Longer(t: Trace, s: State, id: ClientId, now: Weather): Trace {
    Trace(t.start, t.run + (Meanwhile(s, id, now.others) + [TrySet(id, now.heard)]), t.sets + 1)
  }

  lemma FollowsOn(t: Trace, id: ClientId, weather: nat -> Weather, s: State)
    requires Follows(t, id, weather, s) && Is(s, id, Trying)
    ensures var now := weather(t.sets);
            var m := Exec(s, Meanwhile(s, id, now.others));
            Is(m, id, Trying) && Follows(Longer(t, s, id, now), id, weather, Apply(m, TrySet(id, now.heard)))
  {
    var now := weather(t.sets);
    var a := Meanwhile(s, id, now.others);
    var u := Longer(t, s, id, now);
    MeanwhileLeavesClient(s, id, now.others);
    Cons(Exec(s, a), TrySet(id, now.heard), []);
    assert [TrySet(id, now.heard)] + [] == [TrySet(id, now.heard)];
    LegalAppend(s, a, [TrySet(id, now.heard)]);
    LegalAppend(t.start, t.run, a + [TrySet(id, now.heard)]);
    assert Trace(u.start, t.run, u.sets - 1) == t;
    assert IsExtended(u, t.run, id, weather);
  }

  class Locks {
    var st: State

    constructor (s: State)
      ensures st == s
    {
      st := s;
    }

    // The other clients run; steps that are not possible just do not happen.
    method Interfere(id: ClientId, others: seq<Event>)
      requires Inv(st)
      modifies this
      ensures Inv(st) && st == Exec(old(st), Meanwhile(old(st), id, others))
    {
      ghost var s0 := st;
      for i := 0 to |others|
        invariant Inv(st) && Exec(st, Meanwhile(st, id, others[i..])) == Exec(s0, Meanwhile(s0, id, others))
      {
        assert others[i..][1..] == others[i + 1..];
        if Enabled(st, others[i]) && IsForeign(others[i], id) {
          Cons(st, others[i], Meanwhile(Apply(st, others[i]), id, others[i + 1..]));
          StepKeeps(st, others[i]);
          st := Apply(st, others[i]);
        }
      }
    }

    // One SET NX EX, after whatever the others did meanwhile.
    method TryOnce(id: ClientId, weather: nat -> Weather, i: nat, ghost t: Trace) returns (ghost u: Trace)
      requires Inv(st) && Follows(t, id, weather, st) && t.sets == i && Is(st, id, Trying)
      modifies this
      ensures Inv(st) && Follows(u, id, weather, st) && u.start == t.start && u.sets == i + 1
      ensures id in st.clients && (weather(i).heard ==> st.clients[id] in {Trying, Holding(st.now)})
      ensures !weather(i).heard ==> st.clients[id].Over?
    {
      ghost var s := st;
      FollowsOn(t, id, weather, s);
      Interfere(id, weather(i).others);
      u := Longer(t, s, id, weather(i));
      StepKeeps(st, TrySet(id, weather(i).heard));
      st := Apply(st, TrySet(id, weather(i).heard));
    }

    /** The acquisition loop, for at most `tries` rounds. True: `id` is inside, alone, and its
        key lives on until the timeout; false: it is still trying, or a call has raised. The
        state afterwards is that of a run in which its own steps are its entry and these
        SETs, and all other steps come from the weather. */
    method Acquire(id: ClientId, tries: nat, weather: nat -> Weather) returns (acquired: bool, ghost t: Trace)
      requires Inv(st) && id !in st.clients
      modifies this
      ensures Inv(st) && t.start == old(st) && Follows(t, id, weather, st) && t.sets <= tries
      ensures acquired ==>
                && InCriticalSection(st, id) && st.key == Some(Lease(id, st.now + st.timeout))
                && Exclusive(st)
      ensures !acquired ==>
                (Is(st, id, Trying) && t.sets == tries)
                  || (Is(st, id, Over) && t.sets > 0 && !weather(t.sets - 1).heard)
    {
      t := Trace(st, [Enter(id)], 0);
      Cons(st, Enter(id), []);
      assert [Enter(id)] + [] == [Enter(id)];
      StepKeeps(st, Enter(id));
      st := Apply(st, Enter(id));
      acquired := false;
      var i := 0;
      while i < tries && !acquired
        invariant i <= tries && Inv(st) && t.start == old(st) && Follows(t, id, weather, st) && t.sets == i
        invariant Is(st, id, if acquired then Holding(st.now) else Trying)
      {
        t := TryOnce(id, weather, i, t);
        i := i + 1;
        if !weather(i - 1).heard { return; }
        acquired := InCriticalSection(st, id);
      }
      if acquired {
        assert HolderOk(st, id);
        HolderIsAlone(st);
      }
    }

    // The `finally` part: check the value and delete, in one step.
    method ReleaseLock(id: ClientId, reached: bool) returns (released: bool)
      requires Inv(st) && Is(st, id, Leaving)
      modifies this
      ensures Inv(st) && st == Apply(old(st), Release(id, reached))
      ensures released <==> reached && Live(old(st)).Some? && old(st).key.value.owner == id
      ensures if released then st.key == None else st.key == old(st).key
    {
      released := reached && Live(st).Some? && st.key.value.owner == id;
      StepKeeps(st, Release(id, reached));
      st := Apply(st, Release(id, reached));
    }
  }
}
