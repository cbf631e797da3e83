/** The per-worker password-change watchdog (socket_manager.py, `password_change_watchdog`).

    Its promise: a user flagged at `f` loses every socket that was visible from `v` by
    max(f, v) + MAX_STALE + CUT_BUDGET, or the worker exits, whatever its passes do.
    Time is the event loop's clock; every await may in addition be resumed up to `lag`
    late, and the bound grows by four such delays (none for the documented bound). */
module PasswordWatchdog {

  datatype Timing = Timing(interval: real, maxStale: real, cutBudget: real, lag: real) {
    predicate Valid() {
      0.0 < interval && 0.0 < maxStale && 0.0 <= cutBudget && 0.0 <= lag < interval
    }

    // The side condition of the documented bound.
    predicate Enough() {
      2.0 * interval + cutBudget <= maxStale
    }

    function Bound(): real {
      maxStale + cutBudget + 4.0 * lag
    }
  }

  // _PWD_WATCHDOG_INTERVAL, _MAX_STALE, _CUT_BUDGET, resumed on time.
  const DEPLOYED := Timing(30.0, 110.0, 10.0, 0.0)

  // What an awaited coroutine does: finishes, raises, or is not done in time.
  datatype Outcome = Done(after: real) | Raises(after: real) | Hangs

  // One turn of the loop: the outcomes of its sweep and of its cut-all (used only if
  // they run) and how late each of its three awaits is resumed.
  datatype Turn = Turn(sweep: Outcome, cut: Outcome, wakeLag: real, sweepLag: real, cutLag: real)

  predicate Possible(o: Outcome) {
    o.Hangs? || 0.0 <= o.after
  }

  predicate Plausible(t: Timing, turn: Turn) {
    && Possible(turn.sweep) && Possible(turn.cut)
    && 0.0 <= turn.wakeLag <= t.lag && 0.0 <= turn.sweepLag <= t.lag && 0.0 <= turn.cutLag <= t.lag
  }

  /** A finished sweep or cut-all. A sweep reads its sockets and their flags after `start`,
      a cut-all takes every socket visible at `start`; both are over by `end`. */
  datatype Cut = Cut(all: bool, start: real, end: real)

  // The loop's variables, and the record of what it has cut.
  datatype State = State(now: real, lastOk: real, log: seq<Cut>, ended: bool)

  function Min(a: real, b: real): real {
    if a < b then a else b
  }

  function Max(a: real, b: real): real {
    if a < b then b else a
  }

  predicate InTime(o: Outcome, timeout: real) {
    !o.Hangs? && o.after <= Max(0.0, timeout)
  }

  // When `_within` returns or raises: never later than the timeout, plus the resume.
  function Resumed(start: real, o: Outcome, timeout: real, lag: real): real {
    start + (if InTime(o, timeout) then o.after else Max(0.0, timeout)) + lag
  }

  // ---- the specification of one turn ------------------------------------------------

  function WakeUp(t: Timing, s: State, turn: Turn): real {
    var deadline := s.lastOk + t.maxStale;
    s.now + (if s.now < deadline then Min(t.interval, deadline - s.now) else t.interval) + turn.wakeLag
  }

  function PassEnd(t: Timing, s: State, turn: Turn): real {
    if s.now < s.lastOk + t.maxStale then s.lastOk + t.maxStale else WakeUp(t, s, turn) + t.interval
  }

  function AfterTurn(t: Timing, s: State, turn: Turn): State {
    var start := WakeUp(t, s, turn);
    var budget := PassEnd(t, s, turn) - start;
    var swept := budget > 0.0 && turn.sweep.Done? && InTime(turn.sweep, budget);
    var at := if budget > 0.0 then Resumed(start, turn.sweep, budget, turn.sweepLag) else start;
    if swept then State(at, start, s.log + [Cut(false, start, at)], false)
    else if at < s.lastOk + t.maxStale then s.(now := at)
    else AfterCut(t, s.(now := at), turn)
  }

  function AfterCut(t: Timing, s: State, turn: Turn): State {
    var at := Resumed(s.now, turn.cut, t.cutBudget, turn.cutLag);
    if turn.cut.Done? && InTime(turn.cut, t.cutBudget)
    then s.(now := at, log := s.log + [Cut(true, s.now, at)])
    else s.(now := at, ended := true)
  }

  function After(t: Timing, s: State, turns: seq<Turn>): State
    decreases |turns|
  {
    if turns == [] || s.ended then s else After(t, AfterTurn(t, s, turns[0]), turns[1..])
  }

  predicate AllPlausible(t: Timing, turns: seq<Turn>) {
    forall turn <- turns :: Plausible(t, turn)
  }

  function Started(now: real): State {
    State(now, now, [], false)
  }

  // ---- the promise --------------------------------------------------------------------

  // Some cut that began at or after `m` was over by `m + bound`.
  predicate Covered(log: seq<Cut>, m: real, bound: real) {
    exists i :: 0 <= i < |log| && Covers(log[i], m, bound)
  }

  predicate Covers(c: Cut, m: real, bound: real) {
    m <= c.start && c.end <= m + bound
  }

  // Every instant since the start is covered in time, or its time is not up yet. When
  // the loop has ended, "not up yet" says that the worker exits in time.
  ghost predicate Kept(s: State, began: real, bound: real) {
    forall m :: began <= m <= s.now ==> Covered(s.log, m, bound) || s.now <= m + bound
  }

  // ---- the invariant of the loop ---------------------------------------------------------

  // Where the last finished sweep or cut-all began.
  function Horizon(s: State, began: real): real {
    if s.log == [] then began else s.log[|s.log| - 1].start
  }

  ghost predicate Inv(t: Timing, s: State, began: real) {
    var h := Horizon(s, began);
    && began <= h <= s.now && s.lastOk <= h
    && (s.now < s.lastOk + t.maxStale || s.now <= h + t.cutBudget + t.lag)
    && forall m :: began <= m < h ==> Covered(s.log, m, t.Bound())
  }

  // A new entry serves every instant from the old horizon to its own start.
  lemma NewCutCovers(t: Timing, s: State, began: real, c: Cut)
    requires forall m :: began <= m < Horizon(s, began) ==> Covered(s.log, m, t.Bound())
    requires c.end <= Horizon(s, began) + t.Bound()
    ensures forall m :: began <= m < c.start ==> Covered(s.log + [c], m, t.Bound())
  {
    var log := s.log + [c];
    forall m | began <= m < c.start ensures Covered(log, m, t.Bound()) {
      if m < Horizon(s, began) {
        assert Covered(s.log, m, t.Bound());
        var i :| 0 <= i < |s.log| && Covers(s.log[i], m, t.Bound());
        assert log[i] == s.log[i];
      } else {
        assert Covers(log[|s.log|], m, t.Bound());
      }
    }
  }

  lemma CutKeeps(t: Timing, s: State, began: real, turn: Turn)
    requires t.Valid() && Plausible(t, turn) && !s.ended
    requires began <= Horizon(s, began) <= s.now && s.lastOk <= Horizon(s, began)
    requires s.now + t.cutBudget + t.lag <= Horizon(s, began) + t.Bound()
    requires forall m :: began <= m < Horizon(s, began) ==> Covered(s.log, m, t.Bound())
    ensures var r := AfterCut(t, s, turn); Kept(r, began, t.Bound()) && (!r.ended ==> Inv(t, r, began))
  {
    var r := AfterCut(t, s, turn);
    if !r.ended {
      NewCutCovers(t, s, began, Cut(true, s.now, r.now));
      InvIsKept(t, r, began);
    } else {
      assert r.log == s.log;
      forall m | began <= m <= r.now ensures Covered(r.log, m, t.Bound()) || r.now <= m + t.Bound() {
        assert m < Horizon(s, began) ==> Covered(s.log, m, t.Bound());
      }
    }
  }

  lemma InvIsKept(t: Timing, s: State, began: real)
    requires t.Valid() && Inv(t, s, began)
    ensures Kept(s, began, t.Bound())
  {
  }

  lemma TurnKeeps(t: Timing, s: State, began: real, turn: Turn)
    requires t.Valid() && t.Enough() && Plausible(t, turn) && Inv(t, s, began) && !s.ended
    ensures var r := AfterTurn(t, s, turn); Kept(r, began, t.Bound()) && (!r.ended ==> Inv(t, r, began))
  {
    var h := Horizon(s, began);
    var start := WakeUp(t, s, turn);
    var budget := PassEnd(t, s, turn) - start;
    var at := if budget > 0.0 then Resumed(start, turn.sweep, budget, turn.sweepLag) else start;
    assert at <= Max(PassEnd(t, s, turn), start) + t.lag;
    if budget > 0.0 && turn.sweep.Done? && InTime(turn.sweep, budget) {
      // the pass completed: it began at least one interval after the last one did
      assert start >= s.lastOk + t.interval;
      NewCutCovers(t, s, began, Cut(false, start, at));
      InvIsKept(t, AfterTurn(t, s, turn), began);
    } else if at < s.lastOk + t.maxStale {
      InvIsKept(t, s.(now := at), began);
    } else {
      CutKeeps(t, s.(now := at), began, turn);
    }
  }

  // ---- the bound -------------------------------------------------------------------------

  lemma {:induction false} RunKeeps(t: Timing, s: State, began: real, turns: seq<Turn>)
    requires t.Valid() && t.Enough() && AllPlausible(t, turns)
    requires Kept(s, began, t.Bound()) && (!s.ended ==> Inv(t, s, began))
    ensures Kept(After(t, s, turns), began, t.Bound())
    decreases |turns|
  {
    if turns != [] && !s.ended {
      TurnKeeps(t, s, began, turns[0]);
      RunKeeps(t, AfterTurn(t, s, turns[0]), began, turns[1..]);
    }
  }

  // A socket visible from `v` whose user is flagged from `f` has been cut by `limit`.
  predicate SocketCut(log: seq<Cut>, v: real, f: real, limit: real) {
    exists i :: 0 <= i < |log| && v <= log[i].start && (log[i].all || f <= log[i].start) && log[i].end <= limit
  }

  // The documented bound, for every behaviour of every pass and cut: the socket is cut in
  // time, or its time is not up, and the loop (with the worker) may have ended before it is.
  lemma FlaggedSocketsAreCut(t: Timing, began: real, turns: seq<Turn>, v: real, f: real)
    requires t.Valid() && t.Enough() && AllPlausible(t, turns) && began <= Max(v, f)
    ensures var s := After(t, Started(began), turns);
            var limit := Max(v, f) + t.Bound();
            s.now <= limit || SocketCut(s.log, v, f, limit)
  {
    var s := After(t, Started(began), turns);
    RunKeeps(t, Started(began), began, turns);
    var m := Max(v, f);
    if m <= s.now && Covered(s.log, m, t.Bound()) {
      var i :| 0 <= i < |s.log| && Covers(s.log[i], m, t.Bound());
      assert v <= s.log[i].start && f <= s.log[i].start;
    }
  }

  // ---- when it cuts everybody, and when it ends ------------------------------------------------

  // When the last pass that completed began, or the loop itself.
  function LastPass(log: seq<Cut>, began: real): real
    decreases |log|
  {
    if log == [] then began
    else if log[|log| - 1].all then LastPass(log[..|log| - 1], began)
    else log[|log| - 1].start
  }

  // Nobody is cut wholesale, and the loop does not end, unless no pass that began within
  // MAX_STALE has completed; and it ends only if a cut-all raised or was not done in time.
  lemma OnlyWhenStale(t: Timing, s: State, began: real, turn: Turn)
    requires t.Valid() && Plausible(t, turn) && !s.ended && s.lastOk == LastPass(s.log, began)
    ensures var r := AfterTurn(t, s, turn);
            && r.lastOk == LastPass(r.log, began)
            && (r.log == s.log
                || (|r.log| == |s.log| + 1 && r.log[..|s.log|] == s.log && StaleIfAll(t, r.log, |s.log|, began)))
            && (r.ended ==> LastPass(s.log, began) + t.maxStale <= r.now
                            && !(turn.cut.Done? && InTime(turn.cut, t.cutBudget)))
  {
    var r := AfterTurn(t, s, turn);
    if r.log != s.log {
      assert r.log[..|s.log|] == s.log && r.log[|r.log| - 1] == r.log[|s.log|];
    }
  }

  predicate StaleIfAll(t: Timing, log: seq<Cut>, i: nat, began: real)
    requires i < |log|
  {
    log[i].all ==> LastPass(log[..i], began) + t.maxStale <= log[i].start
  }

  predicate CutsWhenStale(t: Timing, log: seq<Cut>, began: real) {
    forall i :: 0 <= i < |log| ==> StaleIfAll(t, log, i, began)
  }

  // So in every run.
  lemma {:induction false} CutsAllOnlyWhenStale(t: Timing, s: State, began: real, turns: seq<Turn>)
    requires t.Valid() && AllPlausible(t, turns) && (!s.ended ==> s.lastOk == LastPass(s.log, began))
    requires CutsWhenStale(t, s.log, began)
    ensures CutsWhenStale(t, After(t, s, turns).log, began)
    decreases |turns|
  {
    if turns != [] && !s.ended {
      var r := AfterTurn(t, s, turns[0]);
      assert Plausible(t, turns[0]);
      OnlyWhenStale(t, s, began, turns[0]);
      forall i | 0 <= i < |r.log| ensures StaleIfAll(t, r.log, i, began) {
        if i < |s.log| {
          assert StaleIfAll(t, s.log, i, began);
          assert r.log[..i] == r.log[..|s.log|][..i] == s.log[..i] && r.log[i] == r.log[..|s.log|][i];
        }
      }
      CutsAllOnlyWhenStale(t, r, began, turns[1..]);
    }
  }

  predicate Healthy(t: Timing, turns: seq<Turn>, most: real) {
    && 2.0 * most + t.interval + 2.0 * t.lag < t.maxStale
    && forall turn <- turns :: turn.sweep.Done? && turn.sweep.after <= most
  }

  // While its passes complete, and two of them and an interval fit into MAX_STALE, every turn
  // completes one, nobody is cut wholesale and the loop goes on.
  lemma {:induction false} HealthyLoopOnlySweeps(t: Timing, s: State, turns: seq<Turn>, most: real)
    requires t.Valid() && AllPlausible(t, turns) && Healthy(t, turns, most) && 0.0 <= most
    requires !s.ended && s.lastOk <= s.now <= s.lastOk + most + t.lag
    ensures var r := After(t, s, turns);
            !r.ended && |r.log| == |s.log| + |turns| && forall i :: |s.log| <= i < |r.log| ==> !r.log[i].all
    decreases |turns|
  {
    if turns != [] {
      assert turns[0] in turns && Plausible(t, turns[0]);
      var r := AfterTurn(t, s, turns[0]);
      HealthyLoopOnlySweeps(t, r, turns[1..], most);
      LogGrows(t, r, turns[1..]);
    }
  }

  lemma {:induction false} LogGrows(t: Timing, s: State, turns: seq<Turn>)
    ensures s.log <= After(t, s, turns).log
    decreases |turns|
  {
    if turns != [] && !s.ended {
      LogGrows(t, AfterTurn(t, s, turns[0]), turns[1..]);
    }
  }

  // ---- the side condition is exact -----------------------------------------------------------

  // Nothing answers, and every cut-all takes its whole budget.
  function WorstTurn(t: Timing): Turn {
    Turn(Hangs, Done(t.cutBudget), 0.0, 0.0, 0.0)
  }

  lemma WorstTurns(t: Timing, began: real)
    requires t.Valid()
    ensures After(t, Started(began), [WorstTurn(t), WorstTurn(t)]) ==
      State(began + t.maxStale + 2.0 * t.cutBudget + 2.0 * t.interval, began,
            [Cut(true, began + t.maxStale, began + t.maxStale + t.cutBudget),
             Cut(true, began + t.maxStale + t.cutBudget + 2.0 * t.interval,
                 began + t.maxStale + 2.0 * t.cutBudget + 2.0 * t.interval)],
            false)
  {
    var w := WorstTurn(t);
    var c1 := Cut(true, began + t.maxStale, began + t.maxStale + t.cutBudget);
    var s1 := AfterTurn(t, Started(began), w);
    assert s1 == State(began + t.maxStale + t.cutBudget, began, [c1], false);
    TwoTurns(t, Started(began), w, w);
  }

  // With a punctual loop the bound MAX_STALE + CUT_BUDGET holds for every run if and only
  // if two intervals and a cut fit into MAX_STALE.
  lemma BoundHoldsExactlyWhenEnough(t: Timing, began: real)
    requires t.Valid() && t.lag == 0.0
    ensures (forall turns :: AllPlausible(t, turns) ==> Kept(After(t, Started(began), turns), began, t.Bound()))
            <==> t.Enough()
  {
    if t.Enough() {
      forall turns | AllPlausible(t, turns)
        ensures Kept(After(t, Started(began), turns), began, t.Bound())
      {
        RunKeeps(t, Started(began), began, turns);
      }
    } else {
      var turns := [WorstTurn(t), WorstTurn(t)];
      var s := After(t, Started(began), turns);
      WorstTurns(t, began);
      // appears in the middle of the first cut-all, after its snapshot
      var m := began + t.maxStale + (2.0 * t.interval + t.cutBudget - t.maxStale) / 2.0;
      assert !Covers(s.log[0], m, t.Bound()) && !Covers(s.log[1], m, t.Bound());
      assert !Covered(s.log, m, t.Bound());
      assert !Kept(s, began, t.Bound());
      assert AllPlausible(t, turns);
    }
  }

  // Once stale, a socket that appears after the last cut is over is cut within two
  // intervals and a budget of that moment, or the loop has ended by then.
  lemma StaleTurnIsShort(t: Timing, s: State, turn: Turn, m: real)
    requires t.Valid() && Plausible(t, turn) && !s.ended
    requires s.lastOk + t.maxStale <= s.now && s.now <= m
    requires m <= WakeUp(t, s, turn)
    ensures var r := AfterTurn(t, s, turn);
            && r.now <= m + 2.0 * t.interval + t.cutBudget + 3.0 * t.lag
            && (r.ended || Covered(r.log, m, 2.0 * t.interval + t.cutBudget + 3.0 * t.lag))
  {
    var r := AfterTurn(t, s, turn);
    if !r.ended {
      assert Covers(r.log[|s.log|], m, 2.0 * t.interval + t.cutBudget + 3.0 * t.lag);
    }
  }

  // ---- when a stale loop keeps the figure of two intervals and a budget -------------------

  // What a stale loop is doing at an instant of its turn: nothing, with a sweep or a cut-all
  // still to begin; or one of them is under way.
  datatype Phase = Idle | Sweeping | Cutting

  function RecoveryBound(t: Timing): real {
    2.0 * t.interval + t.cutBudget
  }

  function SweepEnd(t: Timing, s: State, turn: Turn): real {
    Resumed(WakeUp(t, s, turn), turn.sweep, t.interval, turn.sweepLag)
  }

  predicate InPhase(t: Timing, s: State, turn: Turn, m: real, phase: Phase) {
    && s.now <= m < AfterTurn(t, s, turn).now
    && phase == if m <= WakeUp(t, s, turn) || m == SweepEnd(t, s, turn) then Idle
                else if m < SweepEnd(t, s, turn) then Sweeping else Cutting
  }

  // A loop without a completed pass for MAX_STALE, and no more logged than has happened.
  predicate Stale(t: Timing, s: State) {
    s.lastOk + t.maxStale <= s.now && !s.ended && forall c <- s.log :: c.start <= s.now
  }

  predicate InTimeFor(s: State, m: real, bound: real) {
    Covered(s.log, m, bound) || s.now <= m + bound
  }

  // A sweep that is under way may still complete, and then the loop is fresh from its start.
  predicate KeepsFigure(t: Timing, s: State, m: real, phase: Phase) {
    match phase
    case Idle => true
    case Sweeping => t.interval < t.maxStale && s.now + t.interval + t.maxStale <= m + 2.0 * t.interval
    case Cutting => false
  }

  // However a punctual stale loop goes on, a socket that appears at `m` is cut within two
  // intervals and a budget, or the loop ends within them, if and only if no cut-all is under
  // way at `m`, nor a sweep that began too recently.
  lemma FigureHoldsExactly(t: Timing, s: State, m: real, phase: Phase)
    requires t.Valid() && t.lag == 0.0 && Stale(t, s)
    requires exists turn :: Plausible(t, turn) && InPhase(t, s, turn, m, phase)
    ensures (forall turns :: AllPlausible(t, turns) && turns != [] && InPhase(t, s, turns[0], m, phase) ==>
               InTimeFor(After(t, s, turns), m, RecoveryBound(t)))
            <==> KeepsFigure(t, s, m, phase)
  {
    if KeepsFigure(t, s, m, phase) {
      forall turns | AllPlausible(t, turns) && turns != [] && InPhase(t, s, turns[0], m, phase)
        ensures InTimeFor(After(t, s, turns), m, RecoveryBound(t))
      {
        FigureKept(t, s, m, phase, turns);
      }
    } else {
      var turn :| Plausible(t, turn) && InPhase(t, s, turn, m, phase);
      var turns := [SlowTurn(t, turn, phase), WorstTurn(t)];
      FigureMissed(t, s, m, phase, turn);
      assert AllPlausible(t, turns) && InPhase(t, s, turns[0], m, phase);
    }
  }

  // What was to be done in the first turn, drawn out as long as possible.
  function SlowTurn(t: Timing, turn: Turn, phase: Phase): Turn {
    if phase == Sweeping then turn.(sweep := Done(t.interval)) else turn.(cut := Done(t.cutBudget))
  }

  lemma FigureMissed(t: Timing, s: State, m: real, phase: Phase, turn: Turn)
    requires t.Valid() && t.lag == 0.0 && Stale(t, s)
    requires Plausible(t, turn) && InPhase(t, s, turn, m, phase) && !KeepsFigure(t, s, m, phase)
    ensures InPhase(t, s, SlowTurn(t, turn, phase), m, phase)
    ensures !InTimeFor(After(t, s, [SlowTurn(t, turn, phase), WorstTurn(t)]), m, RecoveryBound(t))
  {
    SlowTurnIsSlow(t, s, m, phase, turn);
    TwoTurns(t, s, SlowTurn(t, turn, phase), WorstTurn(t));
    WorstIsCut(t, AfterTurn(t, s, SlowTurn(t, turn, phase)));
  }

  lemma TwoTurns(t: Timing, s: State, a: Turn, b: Turn)
    requires !s.ended && !AfterTurn(t, s, a).ended
    ensures After(t, s, [a, b]) == AfterTurn(t, AfterTurn(t, s, a), b)
  {
    var s1 := AfterTurn(t, s, a);
    assert [a, b][1..] == [b] && [b][1..] == [];
    assert After(t, s, [a, b]) == After(t, s1, [b]) == After(t, AfterTurn(t, s1, b), []);
  }

  // It spends the instant `m` on a sweep or a cut that began before, to its last moment.
  lemma SlowTurnIsSlow(t: Timing, s: State, m: real, phase: Phase, turn: Turn)
    requires t.Valid() && t.lag == 0.0 && Stale(t, s) && Plausible(t, turn) && InPhase(t, s, turn, m, phase)
    ensures var slow := SlowTurn(t, turn, phase);
            var r := AfterTurn(t, s, slow);
            && (phase != Idle ==> InPhase(t, s, slow, m, phase) && !r.ended && r.now > m > s.now)
            && (phase == Sweeping ==>
                  && r.log == s.log + [Cut(false, s.now + t.interval, r.now)] && s.now + t.interval < m
                  && r.now == s.now + 2.0 * t.interval && r.lastOk == s.now + t.interval)
            && (phase == Cutting ==>
                  && r.log == s.log + [Cut(true, r.now - t.cutBudget, r.now)] && r.now - t.cutBudget < m
                  && Stale(t, r))
  {
  }

  lemma WorstIsCut(t: Timing, s: State)
    requires t.Valid() && t.lag == 0.0 && !s.ended
    ensures var due := if s.now < s.lastOk + t.maxStale then s.lastOk + t.maxStale else s.now + 2.0 * t.interval;
            var r := AfterTurn(t, s, WorstTurn(t));
            r.log == s.log + [Cut(true, due, due + t.cutBudget)] && r.now == due + t.cutBudget
  {
  }

  lemma FigureKept(t: Timing, s: State, m: real, phase: Phase, turns: seq<Turn>)
    requires t.Valid() && t.lag == 0.0 && Stale(t, s) && AllPlausible(t, turns) && turns != []
    requires InPhase(t, s, turns[0], m, phase) && KeepsFigure(t, s, m, phase)
    ensures InTimeFor(After(t, s, turns), m, RecoveryBound(t))
  {
    var r := AfterTurn(t, s, turns[0]);
    var bound := RecoveryBound(t);
    assert Plausible(t, turns[0]);
    if r.ended {
      assert After(t, r, turns[1..]) == r;
    } else if phase == Sweeping && r.log[|s.log|].start < m {
      FreshIsInTime(t, r, m, bound, turns[1..]);
    } else {
      assert Covers(r.log[|s.log|], m, bound);
      CoveredStays(t, r, m, bound, turns[1..]);
    }
  }

  lemma {:induction false} CoveredStays(t: Timing, s: State, m: real, bound: real, turns: seq<Turn>)
    requires Covered(s.log, m, bound)
    ensures Covered(After(t, s, turns).log, m, bound)
    decreases |turns|
  {
    if turns != [] && !s.ended {
      var r := AfterTurn(t, s, turns[0]);
      var i :| 0 <= i < |s.log| && Covers(s.log[i], m, bound);
      assert r.log[i] == s.log[i];
      CoveredStays(t, r, m, bound, turns[1..]);
    }
  }

  // A fresh loop cuts, or completes a pass, before its deadline and a budget are over.
  lemma {:induction false} FreshIsInTime(t: Timing, s: State, m: real, bound: real, turns: seq<Turn>)
    requires t.Valid() && t.lag == 0.0 && AllPlausible(t, turns) && !s.ended
    requires m <= s.now < s.lastOk + t.maxStale && s.lastOk + t.maxStale + t.cutBudget <= m + bound
    ensures InTimeFor(After(t, s, turns), m, bound)
    decreases |turns|
  {
    if turns != [] {
      var r := AfterTurn(t, s, turns[0]);
      assert Plausible(t, turns[0]);
      if r.ended {
        assert After(t, r, turns[1..]) == r;
      } else if r.log == s.log {
        FreshIsInTime(t, r, m, bound, turns[1..]);
      } else {
        assert Covers(r.log[|s.log|], m, bound);
        CoveredStays(t, r, m, bound, turns[1..]);
      }
    }
  }

  // With the deployed numbers: if and only if neither is under way.
  lemma DeployedFigure(s: State, m: real, phase: Phase)
    requires Stale(DEPLOYED, s)
    requires exists turn :: Plausible(DEPLOYED, turn) && InPhase(DEPLOYED, s, turn, m, phase)
    ensures (forall turns ::
               AllPlausible(DEPLOYED, turns) && turns != [] && InPhase(DEPLOYED, s, turns[0], m, phase) ==>
               InTimeFor(After(DEPLOYED, s, turns), m, 70.0))
            <==> phase == Idle
  {
    FigureHoldsExactly(DEPLOYED, s, m, phase);
  }

  // A reachable instance: a socket that appears one second into a cut-all lives for 79 s,
  // nine more than two intervals and a budget.
  lemma MidCutSocketLivesLonger()
    ensures var s := After(DEPLOYED, Started(0.0), [WorstTurn(DEPLOYED), WorstTurn(DEPLOYED)]);
            && s.now == 190.0 && !Covered(s.log, 111.0, 2.0 * 30.0 + 10.0 + 8.0) && Covered(s.log, 111.0, 79.0)
  {
    var s := After(DEPLOYED, Started(0.0), [WorstTurn(DEPLOYED), WorstTurn(DEPLOYED)]);
    WorstTurns(DEPLOYED, 0.0);
    assert Covers(s.log[1], 111.0, 79.0);
  }

  lemma DeployedBound()
    ensures DEPLOYED.Valid() && DEPLOYED.Enough() && DEPLOYED.Bound() == 120.0
  {
  }

  // ---- the loop itself -------------------------------------------------------------------------

  class Watchdog {
    const t: Timing
    var now: real
    var lastOk: real
    var log: seq<Cut>

    constructor (t: Timing, now: real)
      ensures this.t == t && Snapshot(false) == Started(now)
    {
      this.t := t;
      this.now, this.lastOk, this.log := now, now, [];
    }

    function Snapshot(ended: bool): State
      reads this
    {
      State(now, lastOk, log, ended)
    }

    // asyncio.sleep
    method Sleep(seconds: real, lag: real)
      modifies this`now
      ensures now == old(now) + seconds + lag
    {
      now := now + seconds + lag;
    }

    // `_within`: true when the coroutine returned a result, false when it raised or
    // was not done in time.
    method Within(o: Outcome, timeout: real, lag: real) returns (ok: bool)
      modifies this`now
      ensures now == Resumed(old(now), o, timeout, lag)
      ensures ok <==> o.Done? && InTime(o, timeout)
    {
      var limit := if timeout < 0.0 then 0.0 else timeout;
      if o.Hangs? || limit < o.after {
        now := now + limit + lag;
        ok := false;
      } else {
        now := now + o.after + lag;
        ok := o.Done?;
      }
    }

    // One turn of `while True`; true when the loop ends with an exception.
    method OneTurn(turn: Turn) returns (ended: bool)
      modifies this
      ensures Snapshot(ended) == AfterTurn(t, old(Snapshot(false)), turn)
    {
      ended := false;
      var deadline := lastOk + t.maxStale;
      var passEnd;
      if now < deadline {
        Sleep(Min(t.interval, deadline - now), turn.wakeLag);
        passEnd := deadline;
      } else {
        Sleep(t.interval, turn.wakeLag);
        passEnd := now + t.interval;
      }
      var start := now;
      if start < passEnd {
        var swept := Within(turn.sweep, passEnd - start, turn.sweepLag);
        if swept {
          lastOk := start;
          log := log + [Cut(false, start, now)];
          return;
        }
      }
      if now >= deadline {
        var cutFrom := now;
        var cut := Within(turn.cut, t.cutBudget, turn.cutLag);
        if !cut { return true; }
        log := log + [Cut(true, cutFrom, now)];
      }
    }

    // `password_change_watchdog`, for as many turns as are given.
    method Run(turns: seq<Turn>) returns (ended: bool)
      requires t.Valid() && t.Enough() && AllPlausible(t, turns) && log == [] && lastOk == now
      modifies this
      ensures Kept(Snapshot(ended), old(now), t.Bound())
      ensures Snapshot(ended) == After(t, old(Snapshot(false)), turns)
    {
      ghost var began := now;
      ended := false;
      var i := 0;
      while i < |turns| && !ended
        invariant 0 <= i <= |turns|
        invariant After(t, Snapshot(ended), turns[i..]) == After(t, old(Snapshot(false)), turns)
        invariant Kept(Snapshot(ended), began, t.Bound())
        invariant !ended ==> Inv(t, Snapshot(false), began)
      {
        assert turns[i..][1..] == turns[i + 1..] && turns[i] in turns;
        TurnKeeps(t, Snapshot(false), began, turns[i]);
        ended := OneTurn(turns[i]);
        i := i + 1;
      }
    }
  }
}
