/** The MFA attempt limiter (database.py, `_LUA_DAT_CHO_MFA` and
    `safe_redis_reserve_attempt`): an atomic script that reserves one attempt, and the
    Python side that believes its reply only after checking it. */
module MfaReservation {
  import opened Basics
  import opened RedisKeys

  // The four cells of the script's reply, or the error of a failed command.
  datatype Reply = Reply(code: int, count: int, ttl: int, repaired: int) | ScriptError

  // ---- the script ----------------------------------------------------------------------

  // A stored counter the script can work with.
  predicate Usable(text: Text) {
    ToNumber(text).Some? && ToNumber(text).value >= 1.0 && IsWhole(ToNumber(text).value)
  }

  function CountOf(text: Text): int
    requires Usable(text)
  {
    ToNumber(text).value.Floor
  }

  predicate Admits(slot: Slot, now: int, window: int, maxAttempts: int) {
    && window > 0 && maxAttempts >= 1
    && (Live(slot, now).Some? ==>
          Live(slot, now).value.text.Integer? && 1 <= Live(slot, now).value.text.n < maxAttempts)
  }

  // The counter has reached the ceiling.
  predicate Locked(slot: Slot, now: int, maxAttempts: int) {
    && Live(slot, now).Some? && Usable(Live(slot, now).value.text)
    && CountOf(Live(slot, now).value.text) >= maxAttempts
  }

  // The key after one call.
  function AfterCall(slot: Slot, now: int, window: int, maxAttempts: int): Slot {
    var live := Live(slot, now);
    if Admits(slot, now, window, maxAttempts) then
      Some(Entry(Integer(if live.Some? then live.value.text.n + 1 else 1), Some(now + window * SECOND)))
    else if window > 0 && maxAttempts >= 1 && Locked(slot, now, maxAttempts) && live.value.expiry.None? then
      Some(live.value.(expiry := Some(now + window * SECOND)))
    else slot
  }

  // The reply, as a function of the key before the call.
  function ReplyOf(slot: Slot, now: int, window: int, maxAttempts: int): Reply {
    var live := Live(slot, now);
    if window <= 0 || maxAttempts < 1 then Reply(-2, 0, 0, 0)
    else if Admits(slot, now, window, maxAttempts)
         then Reply(1, if live.Some? then live.value.text.n + 1 else 1, window, 0)
    else if !Usable(live.value.text) then Reply(-1, 0, 0, 0)
    else if !Locked(slot, now, maxAttempts) then ScriptError
    else Reply(0, CountOf(live.value.text), TtlOf(AfterCall(slot, now, window, maxAttempts), now),
               if live.value.expiry.None? then 1 else 0)
  }

  /** `_LUA_DAT_CHO_MFA`, branch by branch; Redis runs it as one step. */
  method Script(key: Key, window: int, maxAttempts: int) returns (r: Reply)
    modifies key`slot
    ensures key.slot == AfterCall(old(key.slot), key.now, window, maxAttempts)
    ensures r == ReplyOf(old(key.slot), key.now, window, maxAttempts)
  {
    if window <= 0 || maxAttempts < 1 {
      return Reply(-2, 0, 0, 0);
    }
    var cur := key.Get();
    if cur.Some? {
      var num := ToNumber(cur.value);
      if num.None? || num.value < 1.0 || !IsWhole(num.value) {
        return Reply(-1, 0, 0, 0);
      }
      var n := num.value.Floor;
      if n >= maxAttempts {
        var t := key.Ttl();
        var repaired := 0;
        if t < 0 {
          key.Expire(window);
          t := key.Ttl();
          repaired := 1;
        }
        return Reply(0, n, t, repaired);
      }
    }
    var next := key.Incr();
    if next.None? {
      return ScriptError;
    }
    key.Expire(window);
    var t := key.Ttl();
    r := Reply(1, next.value, t, 0);
  }

  // ---- the Python side --------------------------------------------------------------------

  // One cell of what the client library hands over: an int, or anything else (bool included).
  datatype Cell = Int(n: int) | Other

  // What `eval` gives the caller: an exception, a sequence of four cells, or anything else.
  datatype Raw = Raised | Cells(a: Cell, b: Cell, c: Cell, d: Cell) | Strange

  // DatChoMFA
  datatype Reserved = Reserved(allowed: bool, count: int, ttl: int)

  function Wire(r: Reply): Raw {
    match r
    case Reply(code, count, ttl, repaired) => Cells(Int(code), Int(count), Int(ttl), Int(repaired))
    case ScriptError => Raised
  }

  // The tail of `safe_redis_reserve_attempt`: None means "not proved", answered 503.
  function Decode(raw: Raw): Option<Reserved> {
    if !raw.Cells? then None
    else if !(raw.a.Int? && raw.b.Int? && raw.c.Int? && raw.d.Int?) then None
    else if raw.a.n == -1 || raw.a.n == -2 || (raw.a.n != 0 && raw.a.n != 1) then None
    else if raw.c.n <= 0 then None
    else if raw.b.n < 1 then None
    else Some(Reserved(raw.a.n == 1, raw.b.n, raw.c.n))
  }

  // The decoder says "allowed" for exactly these replies, whatever Redis sends.
  lemma AllowedOnlyForThese(raw: Raw)
    ensures Decode(raw).Some? && Decode(raw).value.allowed <==>
            raw.Cells? && raw.a == Int(1) && raw.b.Int? && raw.b.n >= 1 && raw.c.Int? && raw.c.n >= 1 && raw.d.Int?
  {
  }

  // From every state of the key, the script's honest reply is understood as exactly its
  // decision; it is refused only when nothing was decided or the key is about to expire.
  lemma HonestReplyIsUnderstood(slot: Slot, now: int, window: int, maxAttempts: int)
    ensures var d := Decode(Wire(ReplyOf(slot, now, window, maxAttempts)));
            && (d.Some? && d.value.allowed <==> Admits(slot, now, window, maxAttempts))
            && (Admits(slot, now, window, maxAttempts) ==> d.value.ttl == window)
            && (window > 0 && maxAttempts >= 1 && Locked(slot, now, maxAttempts) ==>
                  (d.Some? <==>
                   Live(slot, now).value.expiry.None? || Live(slot, now).value.expiry.value - now >= SECOND / 2))
  {
  }

  // ---- runs --------------------------------------------------------------------------------------

  /** What can happen to one key: a call by any client (`heard`: its reply arrives), the
      reset after a completed login, the loss of the expiry, or an overwrite with a text that
      is not an integer. */
  datatype Event =
    | Call(at: int, heard: bool)
    | Reset(at: int)
    | LoseExpiry(at: int)
    | Spoil(at: int, text: Text, keepsExpiry: bool)

  predicate Possible(e: Event) {
    e.Spoil? ==> !e.text.Integer?
  }

  predicate Legal(evs: seq<Event>) {
    && (forall e <- evs :: Possible(e))
    && (forall i, j :: 0 <= i < j < |evs| ==> evs[i].at <= evs[j].at)
  }

  function Next(slot: Slot, e: Event, window: int, maxAttempts: int): Slot {
    match e
    case Call(at, _) => AfterCall(slot, at, window, maxAttempts)
    case Reset(_) => None
    case LoseExpiry(at) => if Live(slot, at).Some? then Some(slot.value.(expiry := None)) else slot
    case Spoil(at, text, keepsExpiry) =>
      Some(Entry(text, if keepsExpiry && Live(slot, at).Some? then slot.value.expiry else None))
  }

  function After(slot: Slot, evs: seq<Event>, window: int, maxAttempts: int): Slot
    decreases |evs|
  {
    if evs == [] then slot else After(Next(slot, evs[0], window, maxAttempts), evs[1..], window, maxAttempts)
  }

  predicate Allowed(slot: Slot, e: Event, window: int, maxAttempts: int) {
    e.Call? && Admits(slot, e.at, window, maxAttempts)
  }

  // Attempts the script allowed at instants in [from, to).
  function Admitted(slot: Slot, evs: seq<Event>, window: int, maxAttempts: int, from: int, to: int): nat
    decreases |evs|
  {
    if evs == [] then 0
    else
      (if Allowed(slot, evs[0], window, maxAttempts) && from <= evs[0].at < to then 1 else 0)
      + Admitted(Next(slot, evs[0], window, maxAttempts), evs[1..], window, maxAttempts, from, to)
  }

  // A client whose reply arrived decoded it as "allowed".
  predicate SeenAllowed(slot: Slot, e: Event, window: int, maxAttempts: int) {
    && e.Call? && e.heard
    && var d := Decode(Wire(ReplyOf(slot, e.at, window, maxAttempts))); d.Some? && d.value.allowed
  }

  // Attempts that clients saw allowed.
  function Observed(slot: Slot, evs: seq<Event>, window: int, maxAttempts: int, from: int, to: int): nat
    decreases |evs|
  {
    if evs == [] then 0
    else
      (if SeenAllowed(slot, evs[0], window, maxAttempts) && from <= evs[0].at < to then 1 else 0)
      + Observed(Next(slot, evs[0], window, maxAttempts), evs[1..], window, maxAttempts, from, to)
  }

  // ---- at most `maxAttempts` in any window --------------------------------------------------------

  // Resets at instants in [from, to).
  function Resets(evs: seq<Event>, from: int, to: int): nat {
    if evs == [] then 0
    else (if evs[0].Reset? && from <= evs[0].at < to then 1 else 0) + Resets(evs[1..], from, to)
  }

  // What a key that lives on can still allow.
  function Spare(slot: Slot, maxAttempts: int): int {
    if slot.Some? && slot.value.text.Integer? && 1 <= slot.value.text.n < maxAttempts
    then maxAttempts - slot.value.text.n else 0
  }

  predicate LivesUntil(slot: Slot, to: int) {
    slot.Some? && (slot.value.expiry.None? || to <= slot.value.expiry.value)
  }

  lemma OneResetMore(k: nat, m: nat)
    ensures (k + 2) * m == (k + 1) * m + m && (k + 1) * m == k * m + m && k * m >= 0
  {
  }

  // Within one life of the key the counter only goes up; a reset begins the next.
  lemma {:induction false} LifetimeBound(slot: Slot, evs: seq<Event>, window: int, maxAttempts: int, to: int)
    requires Legal(evs) && LivesUntil(slot, to) && maxAttempts >= 0
    requires forall e <- evs :: to - window * SECOND <= e.at
    ensures Admitted(slot, evs, window, maxAttempts, to - window * SECOND, to)
            <= Spare(slot, maxAttempts) + Resets(evs, to - window * SECOND, to) * maxAttempts
    decreases |evs|
  {
    if evs != [] {
      var from := to - window * SECOND;
      var next := Next(slot, evs[0], window, maxAttempts);
      if to <= evs[0].at {
        NothingBefore(next, evs[1..], window, maxAttempts, from, to);
      } else if evs[0].Reset? {
        SlidingWindow(next, evs[1..], window, maxAttempts, from);
      } else {
        assert Possible(evs[0]);
        LifetimeBound(next, evs[1..], window, maxAttempts, to);
      }
    }
  }

  lemma {:induction false} NothingBefore(slot: Slot, evs: seq<Event>, window: int, maxAttempts: int, from: int, to: int)
    requires forall e <- evs :: to <= e.at
    ensures Admitted(slot, evs, window, maxAttempts, from, to) == 0
    decreases |evs|
  {
    if evs != [] {
      assert evs[0] in evs;
      NothingBefore(Next(slot, evs[0], window, maxAttempts), evs[1..], window, maxAttempts, from, to);
    }
  }

  // The sliding-window theorem: from any state of the key, over any run of calls by any
  // clients, with lost replies, lost expiries and spoiled values, every half-open interval
  // as long as the window holds at most `maxAttempts` allowed attempts for each reset in it
  // and once more; so at most `maxAttempts` as long as no login completes.
  lemma {:induction false} SlidingWindow(slot: Slot, evs: seq<Event>, window: int, maxAttempts: int, from: int)
    requires Legal(evs)
    ensures var to := from + window * SECOND;
            Admitted(slot, evs, window, maxAttempts, from, to) <= (Resets(evs, from, to) + 1) * Max(0, maxAttempts)
    decreases |evs|
  {
    if evs != [] {
      var to := from + window * SECOND;
      var next := Next(slot, evs[0], window, maxAttempts);
      OneResetMore(Resets(evs[1..], from, to), Max(0, maxAttempts));
      if Allowed(slot, evs[0], window, maxAttempts) && from <= evs[0].at {
        LifetimeBound(next, evs[1..], window, maxAttempts, to);
      } else {
        SlidingWindow(next, evs[1..], window, maxAttempts, from);
      }
    }
  }

  // What clients see never exceeds what the server granted; with no lost reply it is equal.
  lemma {:induction false} ObservedAtMostAdmitted(slot: Slot, evs: seq<Event>, window: int, maxAttempts: int,
                                                  from: int, to: int)
    ensures Observed(slot, evs, window, maxAttempts, from, to) <= Admitted(slot, evs, window, maxAttempts, from, to)
    ensures (forall e <- evs :: e.Call? ==> e.heard) ==>
              Observed(slot, evs, window, maxAttempts, from, to) == Admitted(slot, evs, window, maxAttempts, from, to)
    decreases |evs|
  {
    if evs != [] {
      HonestReplyIsUnderstood(slot, evs[0].at, window, maxAttempts);
      ObservedAtMostAdmitted(Next(slot, evs[0], window, maxAttempts), evs[1..], window, maxAttempts, from, to);
    }
  }

  // ---- and no fewer than `maxAttempts` ---------------------------------------------------------------

  predicate OnlyCalls(evs: seq<Event>) {
    forall e <- evs :: e.Call?
  }

  // What a run of calls is replied, call by call.
  function Replies(slot: Slot, evs: seq<Event>, window: int, maxAttempts: int): (r: seq<Reply>)
    ensures |r| == |evs|
    decreases |evs|
  {
    if evs == [] then []
    else [ReplyOf(slot, evs[0].at, window, maxAttempts)]
         + Replies(Next(slot, evs[0], window, maxAttempts), evs[1..], window, maxAttempts)
  }

  // Every call comes before the end of the key's life, which a call moves to a window after
  // itself as long as attempts are left.
  predicate InOneLife(until: int, evs: seq<Event>, window: int, left: nat)
    decreases |evs|
  {
    || evs == []
    || (evs[0].at < until
        && if left > 0 then InOneLife(evs[0].at + window * SECOND, evs[1..], window, left - 1)
           else InOneLife(until, evs[1..], window, 0))
  }

  predicate Within(evs: seq<Event>, from: int, to: int) {
    forall e <- evs :: from <= e.at < to
  }

  // The i-th reply of a life that was at count n: allowed with the next count, or told that the
  // ceiling is reached.
  predicate IsDue(r: Reply, i: nat, n: int, window: int, maxAttempts: int) {
    if n + i < maxAttempts then r == Reply(1, n + i + 1, window, 0)
    else r.Reply? && r.code == 0 && r.count == Max(n, maxAttempts)
  }

  // Of k calls in one life that is at count n, exactly the first maxAttempts - n are allowed,
  // each with the next count; all others are told that the ceiling is reached.
  lemma {:induction false} OneLife(n: int, until: int, evs: seq<Event>, window: int, maxAttempts: int, from: int,
                                   to: int)
    requires 1 <= n && window > 0 && maxAttempts >= 1 && OnlyCalls(evs)
    requires InOneLife(until, evs, window, Max(maxAttempts - n, 0))
    ensures var slot := Some(Entry(Integer(n), Some(until)));
            && (forall i :: 0 <= i < |evs| ==>
                  IsDue(Replies(slot, evs, window, maxAttempts)[i], i, n, window, maxAttempts))
            && (Within(evs, from, to) ==>
                  Admitted(slot, evs, window, maxAttempts, from, to) == Min(|evs|, Max(maxAttempts - n, 0)))
    decreases |evs|
  {
    if evs != [] {
      assert evs[0] in evs;
      assert Within(evs, from, to) ==> Within(evs[1..], from, to);
      var n', until' := if n < maxAttempts then n + 1 else n, if n < maxAttempts then evs[0].at + window * SECOND
                        else until;
      OneLife(n', until', evs[1..], window, maxAttempts, from, to);
      var slot, next := Some(Entry(Integer(n), Some(until))), Some(Entry(Integer(n'), Some(until')));
      assert Next(slot, evs[0], window, maxAttempts) == next;
      forall i | 0 <= i < |evs| ensures IsDue(Replies(slot, evs, window, maxAttempts)[i], i, n, window, maxAttempts) {
        if i > 0 {
          assert IsDue(Replies(next, evs[1..], window, maxAttempts)[i - 1], i - 1, n', window, maxAttempts);
        }
      }
    }
  }

  function Calls(at: int, k: nat): seq<Event> {
    if k == 0 then [] else [Call(at, true)] + Calls(at, k - 1)
  }

  lemma {:induction false} CallsAreInOneLife(at: int, k: nat, until: int, window: int, left: nat)
    requires at < until && window > 0
    ensures InOneLife(until, Calls(at, k), window, left) && OnlyCalls(Calls(at, k)) && |Calls(at, k)| == k
    ensures Within(Calls(at, k), at, at + window * SECOND)
  {
    if k > 0 {
      CallsAreInOneLife(at, k - 1, if left > 0 then at + window * SECOND else until, window, Max(left - 1, 0));
    }
  }

  // From any state without a live key, as many attempts as the ceiling says are allowed within
  // one window, and not one more.
  lemma CeilingIsReached(slot: Slot, at: int, window: int, maxAttempts: int)
    requires Live(slot, at).None? && window > 0 && maxAttempts >= 1
    ensures ReplyOf(slot, at, window, maxAttempts) == Reply(1, 1, window, 0)
    ensures Admitted(slot, Calls(at, maxAttempts), window, maxAttempts, at, at + window * SECOND) == maxAttempts
    ensures Admitted(slot, Calls(at, maxAttempts + 1), window, maxAttempts, at, at + window * SECOND) == maxAttempts
  {
    var until := at + window * SECOND;
    assert Next(slot, Call(at, true), window, maxAttempts) == Some(Entry(Integer(1), Some(until)));
    FullWindow(at, maxAttempts - 1, window, maxAttempts);
    FullWindow(at, maxAttempts, window, maxAttempts);
    assert Calls(at, maxAttempts)[1..] == Calls(at, maxAttempts - 1);
    assert Calls(at, maxAttempts + 1)[1..] == Calls(at, maxAttempts);
  }

  lemma FullWindow(at: int, k: nat, window: int, maxAttempts: int)
    requires window > 0 && maxAttempts >= 1
    ensures var until := at + window * SECOND;
            Admitted(Some(Entry(Integer(1), Some(until))), Calls(at, k), window, maxAttempts, at, until)
            == Min(k, maxAttempts - 1)
  {
    CallsAreInOneLife(at, k, at + window * SECOND, window, maxAttempts - 1);
    OneLife(1, at + window * SECOND, Calls(at, k), window, maxAttempts, at, at + window * SECOND);
  }

  // A counter that is no whole number of at least one, or a script called with nonsense: nothing
  // is changed and nothing is allowed or refused.
  lemma BrokenCounterFailsClosed(slot: Slot, now: int, window: int, maxAttempts: int)
    requires window <= 0 || maxAttempts < 1 || (Live(slot, now).Some? && !Usable(Live(slot, now).value.text))
    ensures AfterCall(slot, now, window, maxAttempts) == slot
    ensures Decode(Wire(ReplyOf(slot, now, window, maxAttempts))) == None
  {
  }

  // ---- a lockout cannot be prolonged ------------------------------------------------------------------

  // Any number of calls during a lockout leave the counter and its expiry alone, and none
  // of them is allowed.
  lemma {:induction false} LockoutIsInert(slot: Slot, evs: seq<Event>, window: int, maxAttempts: int, until: int)
    requires window > 0 && maxAttempts >= 1 && OnlyCalls(evs)
    requires slot.Some? && Usable(slot.value.text) && CountOf(slot.value.text) >= maxAttempts
    requires slot.value.expiry == Some(until) && forall e <- evs :: e.at < until
    ensures After(slot, evs, window, maxAttempts) == slot
    ensures forall from, to :: Admitted(slot, evs, window, maxAttempts, from, to) == 0
    decreases |evs|
  {
    if evs != [] {
      assert evs[0] in evs;
      LockoutIsInert(slot, evs[1..], window, maxAttempts, until);
    }
  }

  // So the first call at or after the expiry is allowed, with a fresh count of one,
  // however often the locked account was tried before.
  lemma FirstCallAfterLockout(slot: Slot, evs: seq<Event>, window: int, maxAttempts: int, until: int, at: int)
    requires window > 0 && maxAttempts >= 1 && OnlyCalls(evs)
    requires slot.Some? && Usable(slot.value.text) && CountOf(slot.value.text) >= maxAttempts
    requires slot.value.expiry == Some(until) && (forall e <- evs :: e.at < until) && until <= at
    ensures var locked := After(slot, evs, window, maxAttempts);
            && Admits(locked, at, window, maxAttempts)
            && AfterCall(locked, at, window, maxAttempts) == Some(Entry(Integer(1), Some(at + window * SECOND)))
  {
    LockoutIsInert(slot, evs, window, maxAttempts, until);
  }

  // A locked key that lost its expiry is locked for at most one window after the next call,
  // and whatever calls follow before that do not move the end.
  lemma LostExpiryIsRepaired(slot: Slot, window: int, maxAttempts: int, at: int, later: seq<Event>)
    requires window > 0 && maxAttempts >= 1 && OnlyCalls(later)
    requires slot.Some? && Usable(slot.value.text) && CountOf(slot.value.text) >= maxAttempts
    requires slot.value.expiry == None && forall e <- later :: e.at < at + window * SECOND
    ensures !Admits(slot, at, window, maxAttempts)
    ensures After(AfterCall(slot, at, window, maxAttempts), later, window, maxAttempts)
            == Some(slot.value.(expiry := Some(at + window * SECOND)))
  {
    LockoutIsInert(AfterCall(slot, at, window, maxAttempts), later, window, maxAttempts, at + window * SECOND);
  }
}
