/** The heartbeat thread of one socket worker (socket_manager.py, `_heartbeat_thread_run`).

    A worker proves that its process is alive by re-writing an expiring Redis key.
    The publisher of a force-disconnect command reads "key gone" as "process gone",
    so the whole protocol rests on one timing fact: a process never outlives its key.
    This module proves exactly when that fact holds. All times are in milliseconds. */
module Heartbeat {
  import opened Basics

  // _HB_MAX_FAILS: consecutive failed refreshes after which the process exits.
  const MAX_FAILS := 3

  /** `boot`: from the registration SET to the start of the thread's first attempt.
      `refresh`: the pause between two attempts (_WORKER_HB_REFRESH).
      `attempt`: the longest time one attempt may take, connect included.
      `ttl`: life of the key after each write (_WORKER_HB_TTL). */
  datatype Timing = Timing(boot: int, refresh: int, attempt: int, ttl: int) {
    predicate Valid() {
      0 <= boot && 0 <= refresh && 0 <= attempt && 0 < ttl
    }

    // Longest time from a write that is known to have landed to the next attempt.
    function Slack(): int {
      Max(boot, refresh + attempt)
    }

    // Longest life of a process after its last stored refresh.
    function Survival(): int {
      Slack() + 2 * refresh + 3 * attempt
    }

    predicate Safe() {
      Valid() && Survival() < ttl
    }
  }

  // Between two attempts (the next one starts by `wake`), or inside one that
  // began at `begun`; `landed` says whether its SET has reached Redis.
  datatype Thread = Waiting(wake: int) | Attempting(begun: int, landed: bool)

  // The thread, its failure counter, and the time its key was last written.
  datatype Beat = Beat(thread: Thread, fails: nat, stored: int) {

    // The latest instant the thread can stay in its current state.
    function Limit(t: Timing): int {
      match thread
      case Waiting(wake) => wake
      case Attempting(begun, _) => begun + t.attempt
    }

    // The age budget used up by the failures counted so far.
    function Budget(t: Timing): int {
      stored + t.Slack() + fails * (t.refresh + t.attempt)
    }

    predicate Bounded(t: Timing) {
      && fails < MAX_FAILS
      && match thread
         case Waiting(wake) => wake <= Budget(t)
         case Attempting(begun, landed) => begun <= Budget(t) && (landed ==> begun <= stored)
    }

    // Within budget, within the current state's limit, and not ahead of the clock.
    predicate OnTime(t: Timing, now: int) {
      && Bounded(t) && stored <= now <= Limit(t)
      && (thread.Attempting? ==> thread.begun <= now)
    }
  }

  // The registration write, before the thread runs.
  function Registered(now: int, t: Timing): Beat {
    Beat(Waiting(now + t.boot), 0, now)
  }

  datatype BeatEvent =
    | Pass(to: int)    // time passes
    | Begin            // the thread starts a SET
    | Land             // Redis executes that SET
    | End(ok: bool)    // the client call returns or raises

  predicate CanBeat(b: Beat, e: BeatEvent, t: Timing, now: int) {
    match e
    case Pass(to) => now <= to <= b.Limit(t)
    case Begin => b.thread.Waiting?
    case Land => b.thread.Attempting?
    case End(ok) => b.thread.Attempting? && (ok ==> b.thread.landed)
  }

  // None: the third failure in a row, the process exits.
  datatype After = Running(beat: Beat) | Exits

  function Step(b: Beat, e: BeatEvent, t: Timing, now: int): (r: After)
    requires CanBeat(b, e, t, now)
  {
    match e
    case Pass(_) => Running(b)
    case Begin => Running(b.(thread := Attempting(now, false)))
    case Land => Running(Beat(Attempting(b.thread.begun, true), b.fails, now))
    case End(ok) =>
      if ok then Running(Beat(Waiting(now + t.refresh), 0, b.stored))
      else if b.fails + 1 >= MAX_FAILS then Exits
      else Running(Beat(Waiting(now + t.refresh), b.fails + 1, b.stored))
  }

  function Clock(now: int, e: BeatEvent): int {
    if e.Pass? then e.to else now
  }

  // One step keeps the budget: the only place where the arithmetic is done.
  lemma StepKeepsOnTime(b: Beat, e: BeatEvent, t: Timing, now: int)
    requires t.Valid() && b.OnTime(t, now) && CanBeat(b, e, t, now)
    ensures var r := Step(b, e, t, now); r.Running? ==> r.beat.OnTime(t, Clock(now, e))
  {
    var more := t.refresh + t.attempt;
    assert (b.fails + 1) * more == b.fails * more + more;
    assert b.fails * more >= 0;
  }

  // A thread that is on time is younger than its survival bound.
  lemma OnTimeIsYoung(b: Beat, t: Timing, now: int)
    requires t.Valid() && b.OnTime(t, now)
    ensures now <= b.stored + t.Survival()
  {
    var more := t.refresh + t.attempt;
    assert b.fails * more <= 2 * more;
  }

  // ---- whole runs of one process --------------------------------------------

  // A process that has registered: alive with its thread, or exited.
  datatype Process = Process(now: int, state: After)

  predicate Legal(p: Process, t: Timing, run: seq<BeatEvent>)
    decreases |run|
  {
    |run| == 0 ||
    (p.state.Running? && CanBeat(p.state.beat, run[0], t, p.now) && Legal(Next(p, t, run[0]), t, run[1..]))
  }

  function Next(p: Process, t: Timing, e: BeatEvent): Process
    requires p.state.Running? && CanBeat(p.state.beat, e, t, p.now)
  {
    Process(Clock(p.now, e), Step(p.state.beat, e, t, p.now))
  }

  function Exec(p: Process, t: Timing, run: seq<BeatEvent>): Process
    requires Legal(p, t, run)
    decreases |run|
  {
    if |run| == 0 then p else Exec(Next(p, t, run[0]), t, run[1..])
  }

  // The key was written at `stored` and expires `ttl` later; a dead process needs none.
  predicate KeyAlive(p: Process, t: Timing) {
    p.state.Running? ==> p.now < p.state.beat.stored + t.ttl
  }

  function Start(now: int, t: Timing): Process {
    Process(now, Running(Registered(now, t)))
  }

  predicate OnTime(p: Process, t: Timing) {
    p.state.Running? ==> p.state.beat.OnTime(t, p.now)
  }

  lemma {:induction false} RunsStayOnTime(p: Process, t: Timing, run: seq<BeatEvent>)
    requires t.Valid() && OnTime(p, t) && Legal(p, t, run)
    ensures OnTime(Exec(p, t, run), t)
    decreases |run|
  {
    if |run| > 0 {
      StepKeepsOnTime(p.state.beat, run[0], t, p.now);
      RunsStayOnTime(Next(p, t, run[0]), t, run[1..]);
    }
  }

  // "Heartbeat gone" implies "process gone" in every run, when the timing is safe.
  lemma KeyOutlivesProcess(now: int, t: Timing, run: seq<BeatEvent>)
    requires t.Safe() && Legal(Start(now, t), t, run)
    ensures KeyAlive(Exec(Start(now, t), t, run), t)
  {
    RunsStayOnTime(Start(now, t), t, run);
    var p := Exec(Start(now, t), t, run);
    if p.state.Running? {
      OnTimeIsYoung(p.state.beat, t, p.now);
    }
  }

  // ---- the slowest schedule: the bound is attained ---------------------------

  // Two failures, each taking the whole attempt time, then a third attempt that
  // has used up its time but has not raised yet. Starts at a Waiting state.
  function SlowFailures(wake: int, t: Timing): seq<BeatEvent> {
    var a1 := wake + t.attempt;
    var a2 := a1 + t.refresh + t.attempt;
    var a3 := a2 + t.refresh + t.attempt;
    [Pass(wake), Begin, Pass(a1), End(false),
     Pass(a1 + t.refresh), Begin, Pass(a2), End(false),
     Pass(a2 + t.refresh), Begin, Pass(a3)]
  }

  // A first attempt that stores at once and returns as late as it may.
  function SlowSuccess(now: int, t: Timing): seq<BeatEvent> {
    [Begin, Land, Pass(now + t.attempt), End(true)]
  }

  function WorstRun(now: int, t: Timing): seq<BeatEvent> {
    if t.boot >= t.refresh + t.attempt
    then SlowFailures(now + t.boot, t)
    else SlowSuccess(now, t) + SlowFailures(now + t.attempt + t.refresh, t)
  }

  lemma ExecAppend(p: Process, t: Timing, a: seq<BeatEvent>, b: seq<BeatEvent>)
    requires Legal(p, t, a) && Legal(Exec(p, t, a), t, b)
    ensures Legal(p, t, a + b)
    ensures Exec(p, t, a + b) == Exec(Exec(p, t, a), t, b)
    decreases |a|
  {
    if |a| == 0 {
      assert a + b == b;
    } else {
      assert (a + b)[0] == a[0] && (a + b)[1..] == a[1..] + b;
      ExecAppend(Next(p, t, a[0]), t, a[1..], b);
    }
  }

  lemma ExecCons(p: Process, t: Timing, e: BeatEvent, rest: seq<BeatEvent>)
    requires p.state.Running? && CanBeat(p.state.beat, e, t, p.now)
    requires Legal(Next(p, t, e), t, rest)
    ensures Legal(p, t, [e] + rest) && Exec(p, t, [e] + rest) == Exec(Next(p, t, e), t, rest)
  {
    assert ([e] + rest)[1..] == rest;
  }

  // One full-length failed attempt from a Waiting state.
  function OneFailure(wake: int, t: Timing): seq<BeatEvent> {
    [Pass(wake), Begin, Pass(wake + t.attempt), End(false)]
  }

  lemma OneFailureRuns(p: Process, t: Timing, wake: int)
    requires t.Valid() && p.state.Running? && p.state.beat.thread == Waiting(wake)
    requires p.now <= wake && p.state.beat.fails < 2
    ensures Legal(p, t, OneFailure(wake, t))
    ensures var b := p.state.beat;
            Exec(p, t, OneFailure(wake, t)) ==
              Process(wake + t.attempt,
                      Running(Beat(Waiting(wake + t.attempt + t.refresh), b.fails + 1, b.stored)))
  {
    var p1 := Next(p, t, Pass(wake));
    var p2 := Next(p1, t, Begin);
    var p3 := Next(p2, t, Pass(wake + t.attempt));
    var p4 := Next(p3, t, End(false));
    ExecCons(p3, t, End(false), []);
    ExecCons(p2, t, Pass(wake + t.attempt), [End(false)]);
    ExecCons(p1, t, Begin, [Pass(wake + t.attempt)] + [End(false)]);
    ExecCons(p, t, Pass(wake), [Begin] + ([Pass(wake + t.attempt)] + [End(false)]));
    assert OneFailure(wake, t) == [Pass(wake)] + ([Begin] + ([Pass(wake + t.attempt)] + [End(false)]));
    assert [] + [End(false)] == [End(false)];
  }

  lemma SlowFailuresRun(p: Process, t: Timing, wake: int)
    requires t.Valid() && p.state.Running? && p.state.beat.thread == Waiting(wake)
    requires p.now <= wake && p.state.beat.fails == 0
    ensures Legal(p, t, SlowFailures(wake, t))
    ensures var q := Exec(p, t, SlowFailures(wake, t));
            && q.state.Running? && q.state.beat.stored == p.state.beat.stored
            && q.now == wake + 2 * t.refresh + 3 * t.attempt
  {
    var w2 := wake + t.attempt + t.refresh;
    var w3 := w2 + t.attempt + t.refresh;
    var last := [Pass(w3), Begin, Pass(w3 + t.attempt)];
    OneFailureRuns(p, t, wake);
    var q1 := Exec(p, t, OneFailure(wake, t));
    OneFailureRuns(q1, t, w2);
    var q2 := Exec(q1, t, OneFailure(w2, t));
    var q3 := Next(q2, t, Pass(w3));
    var q4 := Next(q3, t, Begin);
    ExecCons(q4, t, Pass(w3 + t.attempt), []);
    ExecCons(q3, t, Begin, [Pass(w3 + t.attempt)]);
    ExecCons(q2, t, Pass(w3), [Begin, Pass(w3 + t.attempt)]);
    assert last == [Pass(w3)] + [Begin, Pass(w3 + t.attempt)];
    ExecAppend(q1, t, OneFailure(w2, t), last);
    ExecAppend(p, t, OneFailure(wake, t), OneFailure(w2, t) + last);
    assert SlowFailures(wake, t) == OneFailure(wake, t) + (OneFailure(w2, t) + last);
  }

  // The survival bound is reached, so no smaller bound on the key's age is true.
  lemma SurvivalIsAttained(now: int, t: Timing)
    requires t.Valid()
    ensures Legal(Start(now, t), t, WorstRun(now, t))
    ensures var p := Exec(Start(now, t), t, WorstRun(now, t));
            p.state.Running? && p.now == p.state.beat.stored + t.Survival()
  {
    var p := Start(now, t);
    if t.boot >= t.refresh + t.attempt {
      SlowFailuresRun(p, t, now + t.boot);
    } else {
      var p1 := Next(p, t, Begin);
      var p2 := Next(p1, t, Land);
      var p3 := Next(p2, t, Pass(now + t.attempt));
      var p4 := Next(p3, t, End(true));
      ExecCons(p3, t, End(true), []);
      ExecCons(p2, t, Pass(now + t.attempt), [End(true)]);
      ExecCons(p1, t, Land, [Pass(now + t.attempt), End(true)]);
      ExecCons(p, t, Begin, [Land, Pass(now + t.attempt), End(true)]);
      assert SlowSuccess(now, t) == [Begin] + [Land, Pass(now + t.attempt), End(true)];
      SlowFailuresRun(p4, t, now + t.attempt + t.refresh);
      ExecAppend(p, t, SlowSuccess(now, t), SlowFailures(now + t.attempt + t.refresh, t));
    }
  }

  // The exact condition: a key can be trusted as a proof of life in every run
  // if and only if a process cannot survive its last refresh for a whole TTL.
  lemma KeyIsProofOfLifeExactlyWhenSafe(now: int, t: Timing)
    requires t.Valid()
    ensures (forall run :: Legal(Start(now, t), t, run) ==> KeyAlive(Exec(Start(now, t), t, run), t)) <==> t.Safe()
  {
    if t.Safe() {
      forall run | Legal(Start(now, t), t, run)
        ensures KeyAlive(Exec(Start(now, t), t, run), t)
      {
        KeyOutlivesProcess(now, t, run);
      }
    } else {
      SurvivalIsAttained(now, t);
      assert !KeyAlive(Exec(Start(now, t), t, WorstRun(now, t)), t);
    }
  }

  // The deployed numbers: refresh 5 s, TTL 30 s, a boot no slower than a refresh.
  // Two-second attempts are safe; an attempt that may spend two seconds on the
  // connect and two more on the reply is not.
  lemma DeployedTiming(boot: int, attempt: int)
    requires 0 <= boot <= 5000 && 0 <= attempt
    ensures Timing(boot, 5000, attempt, 30000).Safe() <==> attempt < 3750
  {
  }

  // ---- the thread's loop ------------------------------------------------------

  // What the world does to one attempt: how long the client call takes, when
  // Redis executed the SET (if it did), and whether the call returned.
  datatype Attempt = Attempt(duration: int, landsAfter: int, landed: bool, ok: bool)

  predicate Possible(a: Attempt, t: Timing) {
    && 0 <= a.duration <= t.attempt
    && (a.landed ==> 0 <= a.landsAfter <= a.duration)
    && (a.ok ==> a.landed)
  }

  // When the attempt after these begins.
  function Begun(t: Timing, startedAt: int, attempts: seq<Attempt>): int {
    if attempts == [] then startedAt
    else var a := attempts[|attempts| - 1];
         Begun(t, startedAt, attempts[..|attempts| - 1]) + a.duration + t.refresh
  }

  // When the key was last written, once these are over.
  function Stored(t: Timing, registeredAt: int, startedAt: int, attempts: seq<Attempt>): int {
    if attempts == [] then registeredAt
    else var before, a := attempts[..|attempts| - 1], attempts[|attempts| - 1];
         if a.landed then Begun(t, startedAt, before) + a.landsAfter else Stored(t, registeredAt, startedAt, before)
  }

  // An instant, and when the key had last been written before it.
  datatype Instant = Instant(at: int, stored: int)

  // The instants at which the key is oldest: just before each write that lands, at the end of
  // each attempt and at the end of each pause; no pause follows the last one if the loop exits.
  function Oldest(t: Timing, registeredAt: int, startedAt: int, attempts: seq<Attempt>, exits: bool): seq<Instant> {
    if attempts == [] then []
    else var before, a := attempts[..|attempts| - 1], attempts[|attempts| - 1];
         Oldest(t, registeredAt, startedAt, before, false)
         + During(t, Begun(t, startedAt, before), Stored(t, registeredAt, startedAt, before), a, exits)
  }

  // Those of one attempt and of the pause after it.
  function During(t: Timing, begun: int, stored: int, a: Attempt, exits: bool): seq<Instant> {
    var stored' := if a.landed then begun + a.landsAfter else stored;
    (if a.landed then [Instant(stored', stored)] else []) + [Instant(begun + a.duration, stored')]
    + (if exits then [] else [Instant(begun + a.duration + t.refresh, stored')])
  }

  // How many attempts in a row have failed at the end.
  function Failing(attempts: seq<Attempt>): nat {
    if attempts == [] || attempts[|attempts| - 1].ok then 0 else Failing(attempts[..|attempts| - 1]) + 1
  }

  // The three attempts before the k-th all failed.
  predicate FailedRow(attempts: seq<Attempt>, k: int)
    requires MAX_FAILS <= k <= |attempts|
  {
    forall j :: k - MAX_FAILS <= j < k ==> !attempts[j].ok
  }

  lemma FailingNext(attempts: seq<Attempt>, k: nat)
    requires k < |attempts|
    ensures Failing(attempts[..k + 1]) == if attempts[k].ok then 0 else Failing(attempts[..k]) + 1
  {
    assert attempts[..k + 1][..k] == attempts[..k];
  }

  lemma FailingRow(attempts: seq<Attempt>, k: int)
    requires MAX_FAILS <= k <= |attempts|
    ensures FailedRow(attempts, k) <==> Failing(attempts[..k]) >= MAX_FAILS
  {
    FailingNext(attempts, k - 1);
    FailingNext(attempts, k - 2);
    FailingNext(attempts, k - 3);
  }

  lemma {:induction false} FailingIsFew(attempts: seq<Attempt>)
    ensures Failing(attempts) <= |attempts|
  {
    if attempts != [] {
      FailingIsFew(attempts[..|attempts| - 1]);
    }
  }

  predicate Counts(t: Timing, registeredAt: int, startedAt: int, attempts: seq<Attempt>) {
    t.Valid() && registeredAt <= startedAt <= registeredAt + t.boot && forall a <- attempts :: Possible(a, t)
  }

  // Each failure counted adds at most a pause and an attempt to the age of the key.
  lemma {:induction false} BegunInBudget(t: Timing, registeredAt: int, startedAt: int, attempts: seq<Attempt>)
    requires Counts(t, registeredAt, startedAt, attempts)
    ensures var stored := Stored(t, registeredAt, startedAt, attempts);
            stored <= Begun(t, startedAt, attempts) <= stored + t.Slack() + Failing(attempts) * (t.refresh + t.attempt)
  {
    if attempts != [] {
      var before, more := attempts[..|attempts| - 1], t.refresh + t.attempt;
      BegunInBudget(t, registeredAt, startedAt, before);
      assert Possible(attempts[|attempts| - 1], t);
      assert (Failing(before) + 1) * more == Failing(before) * more + more;
      assert Failing(before) * more >= 0;
    }
  }

  predicate IsYoung(i: Instant, t: Timing) {
    i.at <= i.stored + t.Survival()
  }

  // As long as fewer than three in a row have failed, the key is never older than the survival
  // bound; nor is it at the end of the third.
  lemma {:induction false} OldestAreYoung(t: Timing, registeredAt: int, startedAt: int, attempts: seq<Attempt>,
                                          exits: bool)
    requires Counts(t, registeredAt, startedAt, attempts)
    requires forall k :: 0 <= k < |attempts| ==> Failing(attempts[..k]) < MAX_FAILS
    requires exits || Failing(attempts) < MAX_FAILS
    ensures forall i <- Oldest(t, registeredAt, startedAt, attempts, exits) :: IsYoung(i, t)
  {
    if attempts != [] {
      var n := |attempts| - 1;
      var before := attempts[..n];
      assert Possible(attempts[n], t);
      assert forall k :: 0 <= k < n ==> before[..k] == attempts[..k];
      OldestAreYoung(t, registeredAt, startedAt, before, false);
      BegunInBudget(t, registeredAt, startedAt, before);
      DuringAreYoung(t, Begun(t, startedAt, before), Stored(t, registeredAt, startedAt, before), Failing(before),
                     attempts[n], exits);
    }
  }

  lemma DuringAreYoung(t: Timing, begun: int, stored: int, fails: nat, a: Attempt, exits: bool)
    requires t.Valid() && Possible(a, t) && fails < MAX_FAILS
    requires stored <= begun <= stored + t.Slack() + fails * (t.refresh + t.attempt)
    requires exits || a.ok || fails + 1 < MAX_FAILS
    ensures forall i <- During(t, begun, stored, a, exits) :: IsYoung(i, t)
  {
    assert fails * (t.refresh + t.attempt) <= 2 * (t.refresh + t.attempt);
    assert fails < 2 ==> fails * (t.refresh + t.attempt) <= t.refresh + t.attempt;
  }

  lemma OneMore(t: Timing, registeredAt: int, startedAt: int, attempts: seq<Attempt>, k: nat, exits: bool)
    requires k < |attempts|
    ensures var before, after, a := attempts[..k], attempts[..k + 1], attempts[k];
            var begun, stored := Begun(t, startedAt, before), Stored(t, registeredAt, startedAt, before);
            && Begun(t, startedAt, after) == begun + a.duration + t.refresh
            && Stored(t, registeredAt, startedAt, after) == (if a.landed then begun + a.landsAfter else stored)
            && Oldest(t, registeredAt, startedAt, after, exits) ==
                 Oldest(t, registeredAt, startedAt, before, false) + During(t, begun, stored, a, exits)
  {
    assert attempts[..k + 1][..k] == attempts[..k];
  }

  lemma Outcome(t: Timing, registeredAt: int, startedAt: int, attempts: seq<Attempt>, made: nat, exited: bool)
    requires Counts(t, registeredAt, startedAt, attempts) && made <= |attempts|
    requires forall k :: 0 <= k < made ==> Failing(attempts[..k]) < MAX_FAILS
    requires exited <==> Failing(attempts[..made]) >= MAX_FAILS
    ensures forall i <- Oldest(t, registeredAt, startedAt, attempts[..made], exited) :: IsYoung(i, t)
    ensures exited ==> MAX_FAILS <= made && FailedRow(attempts, made)
    ensures forall k :: MAX_FAILS <= k <= made && FailedRow(attempts, k) ==> exited && k == made
  {
    assert forall k :: 0 <= k < made ==> attempts[..made][..k] == attempts[..k];
    OldestAreYoung(t, registeredAt, startedAt, attempts[..made], exited);
    forall k | MAX_FAILS <= k <= made ensures FailedRow(attempts, k) <==> Failing(attempts[..k]) >= MAX_FAILS {
      FailingRow(attempts, k);
    }
    FailingIsFew(attempts[..made]);
  }

  /** The loop of `_heartbeat_thread_run`, over any behaviour of the client calls, until the
      stop event (the end of `attempts`) or the third failure in a row, after which there is
      no pause. */
  method Loop(t: Timing, registeredAt: int, startedAt: int, attempts: seq<Attempt>)
    returns (exited: bool, made: nat, oldest: seq<Instant>)
    requires Counts(t, registeredAt, startedAt, attempts)
    ensures made <= |attempts| && oldest == Oldest(t, registeredAt, startedAt, attempts[..made], exited)
    ensures forall i <- oldest :: IsYoung(i, t) && (t.Safe() ==> i.at < i.stored + t.ttl)
    ensures if exited then MAX_FAILS <= made && FailedRow(attempts, made) else made == |attempts|
    ensures forall k :: MAX_FAILS <= k <= made && FailedRow(attempts, k) ==> exited && k == made
  {
    oldest, exited, made := [], false, 0;
    var now, fails, stored := startedAt, 0, registeredAt;
    while made < |attempts| && !exited
      invariant made <= |attempts| && fails == Failing(attempts[..made]) && (exited <==> fails >= MAX_FAILS)
      invariant forall k :: 0 <= k < made ==> Failing(attempts[..k]) < MAX_FAILS
      invariant oldest == Oldest(t, registeredAt, startedAt, attempts[..made], exited)
      invariant !exited ==> now == Begun(t, startedAt, attempts[..made])
      invariant !exited ==> stored == Stored(t, registeredAt, startedAt, attempts[..made])
    {
      var a := attempts[made];
      FailingNext(attempts, made);
      OneMore(t, registeredAt, startedAt, attempts, made, !a.ok && fails + 1 >= MAX_FAILS);
      ghost var during := During(t, now, stored, a, !a.ok && fails + 1 >= MAX_FAILS);
      var seen: seq<Instant> := [];
      if a.landed {
        seen := [Instant(now + a.landsAfter, stored)];
        stored := now + a.landsAfter;
      }
      now := now + a.duration;
      seen := seen + [Instant(now, stored)];
      made, fails := made + 1, if a.ok then 0 else fails + 1;
      if fails >= MAX_FAILS {
        exited := true;
      } else {
        now := now + t.refresh;
        seen := seen + [Instant(now, stored)];
      }
      assert seen == during;
      oldest := oldest + seen;
    }
    Outcome(t, registeredAt, startedAt, attempts, made, exited);
  }
}
