/** The fixed-window limiter of socket connections (socket_manager.py, RATE_LIMIT_SCRIPT
    and `check_rate_limit`). */
module ConnectionLimiter {
  import opened Basics
  import opened RedisKeys

  // ---- the script --------------------------------------------------------------------------

  // The counter after one INCR; None when INCR is refused.
  function Counted(slot: Slot, now: int): Option<int> {
    match Live(slot, now)
    case None => Some(1)
    case Some(e) => if e.text.Integer? then Some(e.text.n + 1) else None
  }

  predicate Admits(slot: Slot, now: int, limit: int) {
    Counted(slot, now).Some? && Counted(slot, now).value <= limit
  }

  // The window is set when the counter reaches one and never again.
  function AfterCall(slot: Slot, now: int, ttl: int): Slot {
    var n := Counted(slot, now);
    var live := Live(slot, now);
    if n.None? then slot
    else Some(Entry(Integer(n.value), if n.value == 1 then Some(now + ttl * SECOND) else live.value.expiry))
  }

  /** RATE_LIMIT_SCRIPT; Redis runs it as one step. None: the script failed. */
  method Script(key: Key, limit: int, ttl: int) returns (r: Option<int>)
    requires 0 < ttl
    modifies key`slot
    ensures key.slot == AfterCall(old(key.slot), key.now, ttl)
    ensures if Counted(old(key.slot), key.now).None? then r == None
            else r == Some(if Admits(old(key.slot), key.now, limit) then 1 else 0)
  {
    var current := key.Incr();
    if current.None? {
      return None;
    }
    if current.value == 1 {
      key.Expire(ttl);
    }
    if current.value > limit {
      return Some(0);
    } else {
      return Some(1);
    }
  }

  // What becomes of one evalsha: it answers, or raises before or after it ran.
  datatype Fate = Answers | RaisesBefore | RaisesAfter

  // How a connection came to be allowed or refused.
  datatype Verdict = Bypassed | Decided(allowed: bool) | FailedOpen

  function Tried(slot: Slot, now: int, ttl: int, fate: Fate): Slot {
    if fate.RaisesBefore? then slot else AfterCall(slot, now, ttl)
  }

  predicate Answered(slot: Slot, now: int, fate: Fate) {
    fate.Answers? && Counted(slot, now).Some?
  }

  /** `check_rate_limit`: a second try, after reloading the script, if the first raised, and
      then it fails open. Whether the reload helped is part of what the second try does. */
  method CheckRateLimit(key: Key, development: bool, ready: bool, limit: int, ttl: int, first: Fate, second: Fate)
    returns (v: Verdict)
    requires 0 < ttl
    modifies key`slot
    ensures development || !ready ==> v == Bypassed && key.slot == old(key.slot)
    ensures var s := old(key.slot);
            !development && ready && Answered(s, key.now, first) ==>
              v == Decided(Admits(s, key.now, limit)) && key.slot == AfterCall(s, key.now, ttl)
    ensures var s := Tried(old(key.slot), key.now, ttl, first);
            !development && ready && !Answered(old(key.slot), key.now, first) ==>
              && key.slot == Tried(s, key.now, ttl, second)
              && v == if Answered(s, key.now, second) then Decided(Admits(s, key.now, limit)) else FailedOpen
  {
    if development {
      return Bypassed;
    }
    if !ready {
      return Bypassed;
    }
    if !first.RaisesBefore? {
      var r := Script(key, limit, ttl);
      if first.Answers? && r.Some? {
        return Decided(r.value != 0);
      }
    }
    if !second.RaisesBefore? {
      var r := Script(key, limit, ttl);
      if second.Answers? && r.Some? {
        return Decided(r.value != 0);
      }
    }
    return FailedOpen;
  }

  // ---- runs -------------------------------------------------------------------------------------

  // Executions of the script on one client address, and losses of the key's expiry.
  datatype Event = Call(at: int) | LoseExpiry(at: int)

  predicate Legal(evs: seq<Event>) {
    forall i, j :: 0 <= i < j < |evs| ==> evs[i].at <= evs[j].at
  }

  function Next(slot: Slot, e: Event, ttl: int): Slot {
    match e
    case Call(at) => AfterCall(slot, at, ttl)
    case LoseExpiry(at) => if Live(slot, at).Some? then Some(slot.value.(expiry := None)) else slot
  }

  // Connections the script admitted at instants in [from, to).
  function Admitted(slot: Slot, evs: seq<Event>, limit: int, ttl: int, from: int, to: int): nat
    decreases |evs|
  {
    if evs == [] then 0
    else
      (if evs[0].Call? && Admits(slot, evs[0].at, limit) && from <= evs[0].at < to then 1 else 0)
      + Admitted(Next(slot, evs[0], ttl), evs[1..], limit, ttl, from, to)
  }

  // What the script itself leaves behind: no key, or a counter of at least one.
  predicate WellFormed(slot: Slot) {
    slot.Some? ==> slot.value.text.Integer? && slot.value.text.n >= 1
  }

  function Spare(slot: Slot, limit: int): int
    requires WellFormed(slot)
  {
    if slot.Some? && slot.value.text.n < limit then limit - slot.value.text.n else 0
  }

  predicate LivesUntil(slot: Slot, to: int) {
    slot.Some? && (slot.value.expiry.None? || to <= slot.value.expiry.value)
  }

  lemma {:induction false} LifetimeBound(slot: Slot, evs: seq<Event>, limit: int, ttl: int, from: int, to: int)
    requires WellFormed(slot) && LivesUntil(slot, to) && Legal(evs)
    ensures Admitted(slot, evs, limit, ttl, from, to) <= Spare(slot, limit)
    decreases |evs|
  {
    if evs != [] {
      var next := Next(slot, evs[0], ttl);
      if evs[0].at < to {
        LifetimeBound(next, evs[1..], limit, ttl, from, to);
      } else {
        NothingBefore(next, evs[1..], limit, ttl, from, to);
      }
    }
  }

  lemma {:induction false} NothingBefore(slot: Slot, evs: seq<Event>, limit: int, ttl: int, from: int, to: int)
    requires forall e <- evs :: to <= e.at
    ensures Admitted(slot, evs, limit, ttl, from, to) == 0
    decreases |evs|
  {
    if evs != [] {
      assert evs[0] in evs;
      NothingBefore(Next(slot, evs[0], ttl), evs[1..], limit, ttl, from, to);
    }
  }

  // From an instant inside the interval: the rest of the current life, then one new life
  // that lasts to the end of the interval.
  lemma {:induction false} TwoLives(slot: Slot, evs: seq<Event>, limit: int, ttl: int, from: int)
    requires WellFormed(slot) && Legal(evs) && forall e <- evs :: from <= e.at
    ensures Admitted(slot, evs, limit, ttl, from, from + ttl * SECOND) <= Spare(slot, limit) + Max(limit, 0)
    decreases |evs|
  {
    if evs != [] {
      var e := evs[0];
      assert e in evs;
      var next := Next(slot, e, ttl);
      if e.Call? && Live(slot, e.at).None? {
        LifetimeBound(next, evs[1..], limit, ttl, from, from + ttl * SECOND);
      } else {
        TwoLives(next, evs[1..], limit, ttl, from);
      }
    }
  }

  // The fixed-window theorem, one sharper than "twice the limit": whoever was counted in an
  // older life before the interval took one of that life's admissions.
  lemma {:induction false} FixedWindow(slot: Slot, evs: seq<Event>, limit: int, ttl: int, from: int)
    requires WellFormed(slot) && Legal(evs)
    ensures Admitted(slot, evs, limit, ttl, from, from + ttl * SECOND) <= Max(2 * limit - 1, 0)
    decreases |evs|
  {
    if evs != [] {
      if from <= evs[0].at {
        TwoLives(slot, evs, limit, ttl, from);
        assert Spare(slot, limit) <= Max(limit - 1, 0);
      } else {
        FixedWindow(Next(slot, evs[0], ttl), evs[1..], limit, ttl, from);
      }
    }
  }

  // ---- one life, exactly ---------------------------------------------------------------------------

  predicate OnlyCalls(evs: seq<Event>) {
    forall e <- evs :: e.Call?
  }

  // Calls during one life never move its end, denied ones included, and of k calls exactly
  // as many are admitted as the limit has left.
  lemma {:induction false} OneLife(n: int, until: int, evs: seq<Event>, limit: int, ttl: int, from: int, to: int)
    requires OnlyCalls(evs) && 1 <= n && forall e <- evs :: from <= e.at < to && e.at < until
    ensures AfterAll(Some(Entry(Integer(n), Some(until))), evs, ttl) == Some(Entry(Integer(n + |evs|), Some(until)))
    ensures Admitted(Some(Entry(Integer(n), Some(until))), evs, limit, ttl, from, to) == Min(|evs|, Max(limit - n, 0))
    decreases |evs|
  {
    if evs != [] {
      assert evs[0] in evs;
      OneLife(n + 1, until, evs[1..], limit, ttl, from, to);
    }
  }

  function AfterAll(slot: Slot, evs: seq<Event>, ttl: int): Slot
    decreases |evs|
  {
    if evs == [] then slot else AfterAll(Next(slot, evs[0], ttl), evs[1..], ttl)
  }

  lemma {:induction false} AdmittedAppend(slot: Slot, a: seq<Event>, b: seq<Event>, limit: int, ttl: int, from: int,
                                          to: int)
    ensures AfterAll(slot, a + b, ttl) == AfterAll(AfterAll(slot, a, ttl), b, ttl)
    ensures Admitted(slot, a + b, limit, ttl, from, to)
            == Admitted(slot, a, limit, ttl, from, to) + Admitted(AfterAll(slot, a, ttl), b, limit, ttl, from, to)
    decreases |a|
  {
    if a == [] {
      assert a + b == b;
    } else {
      assert (a + b)[0] == a[0] && (a + b)[1..] == a[1..] + b;
      AdmittedAppend(Next(slot, a[0], ttl), a[1..], b, limit, ttl, from, to);
    }
  }

  // ---- the bound is reached -------------------------------------------------------------------------

  function Calls(at: int, k: nat): seq<Event> {
    seq(k, _ => Call(at))
  }

  // One early call, `limit` more just before the window ends and as many when it has ended.
  function Burst(limit: nat, ttl: int): seq<Event> {
    ([Call(0)] + Calls(ttl * SECOND - 1, limit)) + ([Call(ttl * SECOND)] + Calls(ttl * SECOND, limit))
  }

  // A call that opens a window.
  lemma FirstCall(slot: Slot, at: int, limit: int, ttl: int, from: int, to: int)
    requires Live(slot, at).None? && 1 <= limit
    ensures AfterAll(slot, [Call(at)], ttl) == Some(Entry(Integer(1), Some(at + ttl * SECOND)))
    ensures Admitted(slot, [Call(at)], limit, ttl, from, to) == if from <= at < to then 1 else 0
  {
    var next := Some(Entry(Integer(1), Some(at + ttl * SECOND)));
    assert [Call(at)][1..] == [] && Next(slot, Call(at), ttl) == next;
    assert AfterAll(slot, [Call(at)], ttl) == AfterAll(next, [], ttl);
  }

  // One call opens a window, `k` more follow in it.
  lemma OpenAndFill(slot: Slot, at: int, later: int, k: nat, limit: int, ttl: int, from: int, to: int)
    requires Live(slot, at).None? && 1 <= limit && at <= later < at + ttl * SECOND && from <= later < to
    ensures var evs := [Call(at)] + Calls(later, k);
            && AfterAll(slot, evs, ttl) == Some(Entry(Integer(1 + k), Some(at + ttl * SECOND)))
            && Admitted(slot, evs, limit, ttl, from, to) == (if from <= at < to then 1 else 0) + Min(k, limit - 1)
  {
    var w := at + ttl * SECOND;
    FirstCall(slot, at, limit, ttl, from, to);
    AdmittedAppend(slot, [Call(at)], Calls(later, k), limit, ttl, from, to);
    OneLife(1, w, Calls(later, k), limit, ttl, from, to);
  }

  lemma FixedWindowIsTight(limit: nat, ttl: int)
    requires 1 <= limit && 1 <= ttl
    ensures Legal(Burst(limit, ttl))
    ensures var from := ttl * SECOND - 1;
            Admitted(None, Burst(limit, ttl), limit, ttl, from, from + ttl * SECOND) == 2 * limit - 1
  {
    var w := ttl * SECOND;
    var from, to := w - 1, w - 1 + w;
    var early, late := [Call(0)] + Calls(w - 1, limit), [Call(w)] + Calls(w, limit);
    OpenAndFill(None, 0, w - 1, limit, limit, ttl, from, to);
    AdmittedAppend(None, early, late, limit, ttl, from, to);
    OpenAndFill(AfterAll(None, early, ttl), w, w, limit, limit, ttl, from, to);
  }
}
