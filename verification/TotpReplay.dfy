/** The TOTP replay guard (database.py, `_LUA_TIEU_THU_TOTP` and
    `safe_redis_consume_totp_counter`): a time step is accepted if and only if it is
    later than the last accepted one, and the memory of it lives in an expiring key. */
module TotpReplay {
  import opened Basics
  import opened RedisKeys

  datatype Reply = Reply(code: int, counter: int, ttl: int, repaired: int)

  // ---- the script ----------------------------------------------------------------------------

  // A stored counter the script can work with.
  predicate Usable(text: Text) {
    ToNumber(text).Some? && ToNumber(text).value >= 0.0 && IsWhole(ToNumber(text).value)
  }

  function CounterOf(text: Text): int
    requires Usable(text)
  {
    ToNumber(text).value.Floor
  }

  predicate Accepts(slot: Slot, now: int, counter: int, ttl: int) {
    && counter >= 0 && ttl >= 1
    && (Live(slot, now).Some? ==>
          Usable(Live(slot, now).value.text) && CounterOf(Live(slot, now).value.text) < counter)
  }

  function AfterCall(slot: Slot, now: int, counter: int, ttl: int): Slot {
    var live := Live(slot, now);
    if Accepts(slot, now, counter, ttl) then Some(Entry(Integer(counter), Some(now + ttl * SECOND)))
    else if counter >= 0 && ttl >= 1 && Usable(live.value.text) && live.value.expiry.None?
    then Some(live.value.(expiry := Some(now + ttl * SECOND)))
    else slot
  }

  function ReplyOf(slot: Slot, now: int, counter: int, ttl: int): Reply {
    var live := Live(slot, now);
    if counter < 0 || ttl < 1 then Reply(-2, 0, 0, 0)
    else if Accepts(slot, now, counter, ttl) then Reply(1, counter, ttl, 0)
    else if !Usable(live.value.text) then Reply(-1, 0, 0, 0)
    else Reply(0, CounterOf(live.value.text), TtlOf(AfterCall(slot, now, counter, ttl), now),
               if live.value.expiry.None? then 1 else 0)
  }

  /** `_LUA_TIEU_THU_TOTP`, branch by branch; Redis runs it as one step. */
  method Script(key: Key, counter: int, ttl: int) returns (r: Reply)
    modifies key`slot
    ensures key.slot == AfterCall(old(key.slot), key.now, counter, ttl)
    ensures r == ReplyOf(old(key.slot), key.now, counter, ttl)
  {
    if counter < 0 {
      return Reply(-2, 0, 0, 0);
    }
    if ttl < 1 {
      return Reply(-2, 0, 0, 0);
    }
    var cur := key.Get();
    if cur.Some? {
      var num := ToNumber(cur.value);
      if num.None? || !IsWhole(num.value) || num.value < 0.0 {
        return Reply(-1, 0, 0, 0);
      }
      var n := num.value.Floor;
      if counter <= n {
        var t := key.Ttl();
        var repaired := 0;
        if t < 0 {
          key.Expire(ttl);
          t := key.Ttl();
          repaired := 1;
        }
        return Reply(0, n, t, repaired);
      }
    }
    key.SetEx(Integer(counter), ttl);
    var t := key.Ttl();
    r := Reply(1, counter, t, 0);
  }

  // ---- the Python side ----------------------------------------------------------------------------

  // One cell of what the client library hands over: an int, or anything else (bool included).
  datatype Cell = Int(n: int) | Other

  datatype Raw = Raised | Cells(a: Cell, b: Cell, c: Cell, d: Cell) | Strange

  // TieuThuTOTP
  datatype Consumed = Consumed(accepted: bool, stored: int, ttl: int)

  function Wire(r: Reply): Raw {
    Cells(Int(r.code), Int(r.counter), Int(r.ttl), Int(r.repaired))
  }

  // The tail of `safe_redis_consume_totp_counter`: None means "not proved", refused.
  function Decode(raw: Raw, counter: int): Option<Consumed> {
    if !raw.Cells? then None
    else if !(raw.a.Int? && raw.b.Int? && raw.c.Int? && raw.d.Int?) then None
    else if raw.a.n == -1 || raw.a.n == -2 || (raw.a.n != 0 && raw.a.n != 1) then None
    else if raw.c.n <= 0 then None
    else if raw.b.n < 0 then None
    else if raw.d.n != 0 && raw.d.n != 1 then None
    else if raw.a.n == 1 && raw.b.n != counter then None
    else if raw.a.n == 0 && raw.b.n < counter then None
    else Some(Consumed(raw.a.n == 1, raw.b.n, raw.c.n))
  }

  // Whatever Redis sends, "accepted" needs a reply that names the requested counter and a
  // positive expiry, and "refused" one that names a counter at least as late.
  lemma DecodedOnlyWhenConsistent(raw: Raw, counter: int)
    ensures Decode(raw, counter).Some? && Decode(raw, counter).value.accepted <==>
            && raw.Cells? && raw.a == Int(1) && raw.b == Int(counter) && counter >= 0
            && raw.c.Int? && raw.c.n >= 1 && (raw.d == Int(0) || raw.d == Int(1))
    ensures Decode(raw, counter).Some? && !Decode(raw, counter).value.accepted <==>
            && raw.Cells? && raw.a == Int(0) && raw.b.Int? && raw.b.n >= 0 && raw.b.n >= counter
            && raw.c.Int? && raw.c.n >= 1 && (raw.d == Int(0) || raw.d == Int(1))
  {
  }

  // From every state of the key, the script's honest reply is understood as exactly its
  // decision; a refusal is unproved only when the key is about to expire.
  lemma HonestReplyIsUnderstood(slot: Slot, now: int, counter: int, ttl: int)
    ensures var d := Decode(Wire(ReplyOf(slot, now, counter, ttl)), counter);
            && (d.Some? && d.value.accepted <==> Accepts(slot, now, counter, ttl))
            && (Accepts(slot, now, counter, ttl) ==> d.value == Consumed(true, counter, ttl))
            && (counter >= 0 && ttl >= 1 && !Accepts(slot, now, counter, ttl) && Usable(Live(slot, now).value.text) ==>
                  var left := Live(slot, now).value.expiry;
                  (d.Some? <==> left.None? || left.value - now >= SECOND / 2))
  {
  }

  // ---- runs ------------------------------------------------------------------------------------------

  /** A call that reaches Redis at `at` carries a counter the caller matched at `read`
      (`heard`: its reply arrives); the key may lose its expiry, or be overwritten with a
      text that is no valid counter. */
  datatype Event =
    | Call(at: int, read: int, counter: int, heard: bool)
    | LoseExpiry(at: int)
    | Spoil(at: int, text: Text, keepsExpiry: bool)

  /** How counters are matched and remembered: a code is checked against the steps up to
      `steps` away from the current one, `period` long each; a call reaches Redis at most
      `delay` after that; the key lives `ttl` seconds. */
  datatype Policy = Policy(period: int, steps: int, delay: int, ttl: int) {
    predicate Valid() {
      0 < period && 0 <= steps && 0 <= delay && 1 <= ttl
    }

    // The key outlives every counter it guards against.
    predicate Covers() {
      (2 * steps + 1) * period <= ttl * SECOND - delay
    }
  }

  // verify_totp_with_counter: the counter matched one of the steps around the read time.
  predicate Possible(p: Policy, e: Event)
    requires p.Valid()
  {
    match e
    case Call(at, read, counter, _) =>
      && 0 <= read <= at <= read + p.delay && 0 <= counter
      && read / p.period - p.steps <= counter <= read / p.period + p.steps
    case LoseExpiry(at) => true
    case Spoil(at, text, _) => !Usable(text)
  }

  predicate Legal(p: Policy, evs: seq<Event>)
    requires p.Valid()
  {
    && (forall e <- evs :: Possible(p, e))
    && (forall i, j :: 0 <= i < j < |evs| ==> evs[i].at <= evs[j].at)
  }

  function Next(p: Policy, slot: Slot, e: Event): Slot {
    match e
    case Call(at, _, counter, _) => AfterCall(slot, at, counter, p.ttl)
    case LoseExpiry(at) => if Live(slot, at).Some? then Some(slot.value.(expiry := None)) else slot
    case Spoil(at, text, keepsExpiry) =>
      Some(Entry(text, if keepsExpiry && Live(slot, at).Some? then slot.value.expiry else None))
  }

  // The counters the script accepts, in order.
  function Accepted(p: Policy, slot: Slot, evs: seq<Event>): seq<int>
    decreases |evs|
  {
    if evs == [] then []
    else
      (if evs[0].Call? && Accepts(slot, evs[0].at, evs[0].counter, p.ttl) then [evs[0].counter] else [])
      + Accepted(p, Next(p, slot, evs[0]), evs[1..])
  }

  // The counters a client was told are accepted: the reply arrived and was decoded so.
  function Confirmed(p: Policy, slot: Slot, evs: seq<Event>): seq<int>
    decreases |evs|
  {
    if evs == [] then []
    else
      (if evs[0].Call? && evs[0].heard && ToldAccepted(p, slot, evs[0]) then [evs[0].counter] else [])
      + Confirmed(p, Next(p, slot, evs[0]), evs[1..])
  }

  predicate ToldAccepted(p: Policy, slot: Slot, e: Event)
    requires e.Call?
  {
    var d := Decode(Wire(ReplyOf(slot, e.at, e.counter, p.ttl)), e.counter);
    d.Some? && d.value.accepted
  }

  predicate Increasing(xs: seq<int>) {
    forall i, j :: 0 <= i < j < |xs| ==> xs[i] < xs[j]
  }

  // ---- accepted counters only go up --------------------------------------------------------------------

  // No call that reaches Redis at `from` or later can carry `c` or an earlier counter.
  predicate TooOldFrom(p: Policy, c: int, from: int)
    requires p.Valid()
  {
    p.delay <= from && c < (from - p.delay) / p.period - p.steps
  }

  // The key remembers `c`, the last accepted counter, for as long as it could come back.
  predicate Remembers(p: Policy, slot: Slot, c: int)
    requires p.Valid()
  {
    && slot.Some?
    && (Usable(slot.value.text) ==> c <= CounterOf(slot.value.text))
    && (slot.value.expiry.Some? ==> TooOldFrom(p, c, slot.value.expiry.value))
  }

  lemma MulMonotone(a: int, b: int, d: int)
    requires 0 <= d && a <= b
    ensures a * d <= b * d
  {
  }

  lemma DivBounds(a: int, d: int)
    requires 0 < d
    ensures (a / d) * d <= a < (a / d) * d + d
  {
  }

  lemma DivAtLeast(a: int, q: int, d: int)
    requires 0 < d && q * d <= a
    ensures q <= a / d
  {
    DivBounds(a, d);
    if a / d < q {
      MulMonotone(a / d + 1, q, d);
    }
  }

  lemma DivMonotone(a: int, b: int, d: int)
    requires 0 < d && a <= b
    ensures a / d <= b / d
  {
    DivBounds(a, d);
    DivAtLeast(b, a / d, d);
  }

  // A key set (or repaired) at `at` to the full TTL outlives every counter that is not
  // ahead of the clock by more than the accepted steps.
  lemma FullTtlIsLongEnough(p: Policy, c: int, at: int)
    requires p.Valid() && p.Covers() && 0 <= at && c <= at / p.period + p.steps
    ensures TooOldFrom(p, c, at + p.ttl * SECOND)
  {
    var q, k := at / p.period, 2 * p.steps + 1;
    DivBounds(at, p.period);
    assert (q + k) * p.period == q * p.period + k * p.period;
    DivAtLeast(at + p.ttl * SECOND - p.delay, q + k, p.period);
    MulMonotone(0, k, p.period);
  }

  lemma TooOldLater(p: Policy, c: int, e: Event, from: int)
    requires p.Valid() && TooOldFrom(p, c, from) && e.Call? && Possible(p, e) && from <= e.at
    ensures c < e.counter
  {
    DivMonotone(from - p.delay, e.read, p.period);
  }

  // One step: a later counter is accepted and remembered, or the last one still is.
  lemma StepRemembers(p: Policy, slot: Slot, c: int, e: Event, since: int)
    requires p.Valid() && p.Covers() && Possible(p, e) && Remembers(p, slot, c)
    requires 0 <= since <= e.at && c <= since / p.period + p.steps
    ensures if e.Call? && Accepts(slot, e.at, e.counter, p.ttl)
            then c < e.counter && Remembers(p, Next(p, slot, e), e.counter) && e.counter <= e.at / p.period + p.steps
            else Remembers(p, Next(p, slot, e), c)
  {
    if e.Call? {
      DivMonotone(since, e.at, p.period);
      DivMonotone(e.read, e.at, p.period);
      FullTtlIsLongEnough(p, c, e.at);
      FullTtlIsLongEnough(p, e.counter, e.at);
      if slot.value.expiry.Some? && slot.value.expiry.value <= e.at {
        TooOldLater(p, c, e, slot.value.expiry.value);
      }
    }
  }

  lemma {:induction false} OnlyLaterFromNow(p: Policy, slot: Slot, c: int, evs: seq<Event>, since: int)
    requires p.Valid() && p.Covers() && Legal(p, evs) && Remembers(p, slot, c)
    requires 0 <= since && c <= since / p.period + p.steps && forall e <- evs :: since <= e.at
    ensures (forall x <- Accepted(p, slot, evs) :: c < x) && Increasing(Accepted(p, slot, evs))
    decreases |evs|
  {
    if evs != [] {
      var e := evs[0];
      assert e in evs;
      StepRemembers(p, slot, c, e, since);
      var next := Next(p, slot, e);
      if e.Call? && Accepts(slot, e.at, e.counter, p.ttl) {
        OnlyLaterFromNow(p, next, e.counter, evs[1..], e.at);
        ConsIncreases(e.counter, Accepted(p, next, evs[1..]));
      } else {
        OnlyLaterFromNow(p, next, c, evs[1..], since);
        assert Accepted(p, slot, evs) == [] + Accepted(p, next, evs[1..]) == Accepted(p, next, evs[1..]);
      }
    }
  }

  lemma ConsIncreases(x: int, xs: seq<int>)
    requires Increasing(xs) && forall y <- xs :: x < y
    ensures Increasing([x] + xs)
  {
    forall i, j | 0 <= i < j < |[x] + xs| ensures ([x] + xs)[i] < ([x] + xs)[j] {
      assert ([x] + xs)[j] == xs[j - 1] && xs[j - 1] in xs;
    }
  }

  // From any state of the key, over any run of calls by any clients, across expiries of the
  // key, lost expiries, spoiled values and lost replies: accepted counters strictly increase.
  lemma {:induction false} AcceptedIncrease(p: Policy, slot: Slot, evs: seq<Event>)
    requires p.Valid() && p.Covers() && Legal(p, evs)
    ensures Increasing(Accepted(p, slot, evs))
    decreases |evs|
  {
    if evs != [] {
      var e := evs[0];
      assert Possible(p, e);
      var next := Next(p, slot, e);
      if e.Call? && Accepts(slot, e.at, e.counter, p.ttl) {
        DivMonotone(e.read, e.at, p.period);
        FullTtlIsLongEnough(p, e.counter, e.at);
        OnlyLaterFromNow(p, next, e.counter, evs[1..], e.at);
        ConsIncreases(e.counter, Accepted(p, next, evs[1..]));
      } else {
        AcceptedIncrease(p, next, evs[1..]);
        assert Accepted(p, slot, evs) == [] + Accepted(p, next, evs[1..]) == Accepted(p, next, evs[1..]);
      }
    }
  }

  // The key's lifetime is exactly what this needs: it holds in every run of a fresh key if
  // and only if the TTL outlives 2w+1 steps plus the delay of a call.
  lemma AcceptedOnceExactlyWhenCovered(p: Policy)
    requires p.Valid()
    ensures (forall evs :: Legal(p, evs) ==> Increasing(Accepted(p, None, evs))) <==> p.Covers()
  {
    if p.Covers() {
      forall evs | Legal(p, evs) ensures Increasing(Accepted(p, None, evs)) {
        AcceptedIncrease(p, None, evs);
      }
    } else {
      ReplayWhenNotCovered(p);
      var xs := Accepted(p, None, Replay(p));
      assert xs[0] == xs[1];
      assert !Increasing(xs);
    }
  }

  // The same code twice: once when it is as early as it may be, and again when the key has
  // just expired.
  function Replay(p: Policy): seq<Event> {
    var later := p.ttl * SECOND;
    [Call(0, 0, p.steps, true), Call(later, if later < p.delay then 0 else later - p.delay, p.steps, true)]
  }

  lemma ReplayWhenNotCovered(p: Policy)
    requires p.Valid() && !p.Covers()
    ensures Legal(p, Replay(p)) && Accepted(p, None, Replay(p)) == [p.steps, p.steps]
  {
    ReplayIsPossible(p);
    AcceptedTwice(p, Replay(p)[1]);
  }

  // The second call still reads a step from which the code is not too old.
  lemma ReplayIsPossible(p: Policy)
    requires p.Valid() && !p.Covers()
    ensures Legal(p, Replay(p))
  {
    var e := Replay(p)[1];
    StillWithinSteps(e.read, p.steps, p.period);
    assert 0 / p.period == 0;
    assert Possible(p, Replay(p)[0]) && Possible(p, e);
  }

  lemma StillWithinSteps(read: int, steps: int, period: int)
    requires 0 < period && 0 <= steps && 0 <= read < (2 * steps + 1) * period
    ensures 0 <= read / period <= 2 * steps
  {
    var q := read / period;
    DivBounds(read, period);
    if q >= 2 * steps + 1 {
      MulMonotone(2 * steps + 1, q, period);
      assert false;
    }
    if q < 0 {
      MulMonotone(q + 1, 0, period);
      assert false;
    }
  }

  lemma AcceptedTwice(p: Policy, e: Event)
    requires p.Valid() && e.Call? && e.counter == p.steps && e.at == p.ttl * SECOND
    ensures Accepted(p, None, [Call(0, 0, p.steps, true), e]) == [p.steps, p.steps]
  {
    var first := Call(0, 0, p.steps, true);
    var s1 := Some(Entry(Integer(p.steps), Some(p.ttl * SECOND)));
    assert Next(p, None, first) == s1;
    assert [first, e][1..] == [e] && [e][1..] == [];
    assert Live(s1, e.at) == None;
    assert Accepted(p, s1, [e]) == [p.steps] + Accepted(p, Next(p, s1, e), []);
    assert Accepted(p, None, [first, e]) == [p.steps] + Accepted(p, s1, [e]);
  }

  // The deployed guard (180 s, 30 s steps, one step each side) covers every call that
  // reaches Redis within 90 s of the moment its code was matched, and no slower one.
  lemma DeployedPolicy(delay: int)
    requires 0 <= delay
    ensures Policy(30 * SECOND, 1, delay, 180).Covers() <==> delay <= 90 * SECOND
  {
  }

  // ---- and exactly the later ones are accepted ------------------------------------------------------

  predicate NobodySpoils(evs: seq<Event>) {
    forall e <- evs :: !e.Spoil?
  }

  // The counters later than `c` and than every one before them, in order.
  function Later(evs: seq<Event>, c: int): seq<int>
    decreases |evs|
  {
    if evs == [] then []
    else if evs[0].Call? && c < evs[0].counter then [evs[0].counter] + Later(evs[1..], evs[0].counter)
    else Later(evs[1..], c)
  }

  // From a fresh key, over any run of calls by any clients, across expiries and lost expiries of
  // the key and lost replies: a counter is accepted if and only if it is later than every
  // counter before it.
  lemma {:induction false} AcceptedExactlyWhenLater(p: Policy, evs: seq<Event>)
    requires p.Valid() && p.Covers() && Legal(p, evs) && NobodySpoils(evs)
    ensures Accepted(p, None, evs) == Later(evs, -1)
    decreases |evs|
  {
    if evs != [] {
      var e := evs[0];
      assert Possible(p, e);
      if e.Call? {
        DivMonotone(e.read, e.at, p.period);
        FullTtlIsLongEnough(p, e.counter, e.at);
        LaterThanRemembered(p, Next(p, None, e), e.counter, evs[1..], e.at);
      } else {
        AcceptedExactlyWhenLater(p, evs[1..]);
        assert Accepted(p, None, evs) == [] + Accepted(p, None, evs[1..]) == Accepted(p, None, evs[1..]);
      }
    }
  }

  lemma {:induction false} LaterThanRemembered(p: Policy, slot: Slot, c: int, evs: seq<Event>, since: int)
    requires p.Valid() && p.Covers() && Legal(p, evs) && NobodySpoils(evs)
    requires Remembers(p, slot, c) && slot.value.text == Integer(c) && 0 <= c
    requires 0 <= since && c <= since / p.period + p.steps && forall e <- evs :: since <= e.at
    ensures Accepted(p, slot, evs) == Later(evs, c)
    decreases |evs|
  {
    if evs != [] {
      var e := evs[0];
      assert e in evs;
      StepRemembers(p, slot, c, e, since);
      var next := Next(p, slot, e);
      if e.Call? && c < e.counter {
        assert Accepts(slot, e.at, e.counter, p.ttl);
        LaterThanRemembered(p, next, e.counter, evs[1..], e.at);
      } else {
        LaterThanRemembered(p, next, c, evs[1..], since);
        assert Accepted(p, slot, evs) == [] + Accepted(p, next, evs[1..]) == Accepted(p, next, evs[1..]);
      }
    }
  }

  // A stored text that is no whole number of at least zero, or a script called with nonsense:
  // nothing is changed and nothing is accepted or refused.
  lemma BrokenCounterFailsClosed(slot: Slot, now: int, counter: int, ttl: int)
    requires counter < 0 || ttl < 1 || (Live(slot, now).Some? && !Usable(Live(slot, now).value.text))
    ensures AfterCall(slot, now, counter, ttl) == slot
    ensures Decode(Wire(ReplyOf(slot, now, counter, ttl)), counter) == None
  {
  }

  // No key is left without an expiry, and a refusal changes nothing else.
  lemma LostExpiryIsRepaired(slot: Slot, now: int, counter: int, ttl: int)
    requires counter >= 0 && ttl >= 1 && (Live(slot, now).Some? ==> Usable(Live(slot, now).value.text))
    ensures var key := AfterCall(slot, now, counter, ttl);
            && Live(key, now).Some? && key.value.expiry.Some?
            && (Accepts(slot, now, counter, ttl) || slot.value.expiry.None? ==>
                  key.value.expiry == Some(now + ttl * SECOND))
            && (!Accepts(slot, now, counter, ttl) ==>
                  key.value.text == slot.value.text && (slot.value.expiry.Some? ==> key == slot))
  {
  }

  lemma TailIncreases(x: int, xs: seq<int>)
    requires Increasing([x] + xs)
    ensures Increasing(xs) && forall y <- xs :: x < y
  {
    var all := [x] + xs;
    assert xs == all[1..];
    forall y <- xs ensures x < y {
      var i :| 0 <= i < |xs| && xs[i] == y;
      assert all[0] < all[i + 1];
    }
  }

  // `part` is part of `whole`, in the same order.
  predicate PartOf(part: seq<int>, whole: seq<int>) {
    Increasing(whole) ==> Increasing(part) && forall x <- part :: x in whole
  }

  lemma PartOfCons(x: int, part: seq<int>, whole: seq<int>)
    requires PartOf(part, whole)
    ensures PartOf([x] + part, [x] + whole) && PartOf(part, [x] + whole)
  {
    if Increasing([x] + whole) {
      TailIncreases(x, whole);
      ConsIncreases(x, part);
    }
  }

  // What clients are told is part of what the script accepted, in the same order, so no
  // code is confirmed twice either.
  lemma {:induction false} ConfirmedIncrease(p: Policy, slot: Slot, evs: seq<Event>)
    ensures PartOf(Confirmed(p, slot, evs), Accepted(p, slot, evs))
    decreases |evs|
  {
    if evs != [] {
      var e := evs[0];
      var told := Confirmed(p, Next(p, slot, e), evs[1..]);
      var rest := Accepted(p, Next(p, slot, e), evs[1..]);
      ConfirmedIncrease(p, Next(p, slot, e), evs[1..]);
      RefusedIsNotTold(p, slot, e);
      assert [] + told == told && [] + rest == rest;
      if e.Call? && Accepts(slot, e.at, e.counter, p.ttl) {
        PartOfCons(e.counter, told, rest);
      }
    }
  }

  lemma RefusedIsNotTold(p: Policy, slot: Slot, e: Event)
    ensures e.Call? && ToldAccepted(p, slot, e) <==> e.Call? && Accepts(slot, e.at, e.counter, p.ttl)
  {
    if e.Call? {
      HonestReplyIsUnderstood(slot, e.at, e.counter, p.ttl);
    }
  }
}
