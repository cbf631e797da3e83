/** The one-time use of an MFA token (database.py, `safe_redis_claim_once`, as
    routers/auth.py uses it): a login claims the key of its token with SET NX EX before it
    issues a session. */
module OneTimeClaim {
  import opened Basics
  import opened RedisKeys

  // KetQuaChiem
  datatype Outcome = Claimed | AlreadyClaimed | Unproved

  // What becomes of the call: it answers, with something strange or not, or raises before
  // or after the command ran.
  datatype Fate = Answers | AnswersStrangely | RaisesBefore | RaisesAfter

  // The key after one SET NX EX.
  function AfterClaim(slot: Slot, now: int, text: Text, ttl: int): Slot {
    if Live(slot, now).Some? then slot else Some(Entry(text, Some(now + ttl * SECOND)))
  }

  /** `safe_redis_claim_once` */
  method ClaimOnce(key: Key, text: Text, ttl: int, fate: Fate) returns (o: Outcome)
    modifies key`slot
    ensures o.Claimed? <==> ttl >= 1 && fate.Answers? && Live(old(key.slot), key.now).None?
    ensures o.AlreadyClaimed? <==> ttl >= 1 && fate.Answers? && Live(old(key.slot), key.now).Some?
    ensures key.slot == if ttl >= 1 && !fate.RaisesBefore? then AfterClaim(old(key.slot), key.now, text, ttl)
                        else old(key.slot)
  {
    if ttl < 1 || fate.RaisesBefore? {
      return Unproved;
    }
    var held := key.Get();
    if held.None? {
      key.SetEx(text, ttl);
    }
    if !fate.Answers? {
      return Unproved;
    }
    return if held.None? then Claimed else AlreadyClaimed;
  }

  // ---- runs ------------------------------------------------------------------------------------

  /** A token is valid for `life` from `issued` on; a claim reaches Redis at most `delay`
      after the token was checked; the claim is kept for `ttl` seconds. */
  datatype Policy = Policy(issued: int, life: int, delay: int, ttl: int) {
    predicate Valid() {
      0 < life && 0 <= delay && 1 <= ttl
    }

    predicate Covers() {
      life + delay <= ttl * SECOND
    }
  }

  // A login that checked the token at `read` claims it at `at` (`heard`: and gets the
  // answer); or the key loses its expiry.
  datatype Event = Claim(at: int, read: int, heard: bool) | LoseExpiry(at: int)

  predicate Possible(p: Policy, e: Event) {
    e.Claim? ==> p.issued <= e.read < p.issued + p.life && e.read <= e.at <= e.read + p.delay
  }

  predicate Legal(p: Policy, evs: seq<Event>) {
    && (forall e <- evs :: Possible(p, e))
    && (forall i, j :: 0 <= i < j < |evs| ==> evs[i].at <= evs[j].at)
  }

  function Next(p: Policy, slot: Slot, e: Event): Slot {
    match e
    case Claim(at, _, _) => AfterClaim(slot, at, Integer(1), p.ttl)
    case LoseExpiry(at) => if Live(slot, at).Some? then Some(slot.value.(expiry := None)) else slot
  }

  predicate Wins(slot: Slot, e: Event) {
    e.Claim? && Live(slot, e.at).None?
  }

  // How often Redis grants the key, and how many logins are told so.
  function Granted(p: Policy, slot: Slot, evs: seq<Event>): nat
    decreases |evs|
  {
    if evs == [] then 0 else (if Wins(slot, evs[0]) then 1 else 0) + Granted(p, Next(p, slot, evs[0]), evs[1..])
  }

  function Told(p: Policy, slot: Slot, evs: seq<Event>): nat
    decreases |evs|
  {
    if evs == [] then 0
    else (if Wins(slot, evs[0]) && evs[0].heard then 1 else 0) + Told(p, Next(p, slot, evs[0]), evs[1..])
  }

  // The key is there until no login can come any more.
  predicate OutlivesToken(p: Policy, slot: Slot) {
    slot.Some? && (slot.value.expiry.None? || p.issued + p.life + p.delay <= slot.value.expiry.value)
  }

  lemma {:induction false} NoSecondGrant(p: Policy, slot: Slot, evs: seq<Event>)
    requires Legal(p, evs) && OutlivesToken(p, slot)
    ensures Granted(p, slot, evs) == 0
    decreases |evs|
  {
    if evs != [] {
      assert Possible(p, evs[0]);
      NoSecondGrant(p, Next(p, slot, evs[0]), evs[1..]);
    }
  }

  lemma {:induction false} GrantedAtMostOnce(p: Policy, slot: Slot, evs: seq<Event>)
    requires p.Valid() && p.Covers() && Legal(p, evs)
    ensures Granted(p, slot, evs) <= 1
    decreases |evs|
  {
    if evs != [] {
      assert Possible(p, evs[0]);
      if Wins(slot, evs[0]) {
        NoSecondGrant(p, Next(p, slot, evs[0]), evs[1..]);
      } else {
        GrantedAtMostOnce(p, Next(p, slot, evs[0]), evs[1..]);
      }
    }
  }

  // And if anybody claims it at all, exactly once.
  lemma {:induction false} GrantedExactlyOnce(p: Policy, evs: seq<Event>)
    requires p.Valid() && p.Covers() && Legal(p, evs) && exists e <- evs :: e.Claim?
    ensures Granted(p, None, evs) == 1
    decreases |evs|
  {
    assert Possible(p, evs[0]);
    if evs[0].Claim? {
      NoSecondGrant(p, Next(p, None, evs[0]), evs[1..]);
    } else {
      var e :| e in evs && e.Claim?;
      assert e in evs[1..];
      GrantedExactlyOnce(p, evs[1..]);
    }
  }

  // Lost replies only take away from that.
  lemma {:induction false} ToldAtMostGranted(p: Policy, slot: Slot, evs: seq<Event>)
    ensures Told(p, slot, evs) <= Granted(p, slot, evs)
    decreases |evs|
  {
    if evs != [] {
      ToldAtMostGranted(p, Next(p, slot, evs[0]), evs[1..]);
    }
  }

  // At most one login per token in every run, if and only if the claim is kept for the
  // token's life and the time between its check and its claim.
  lemma OneLoginExactlyWhenCovered(p: Policy)
    requires p.Valid()
    ensures (forall evs :: Legal(p, evs) ==> Told(p, None, evs) <= 1) <==> p.Covers()
  {
    if p.Covers() {
      forall evs | Legal(p, evs) ensures Told(p, None, evs) <= 1 {
        GrantedAtMostOnce(p, None, evs);
        ToldAtMostGranted(p, None, evs);
      }
    } else {
      TwoLogins(p);
    }
  }

  // One login right after the token was issued; one that checked it in time and claims it
  // when the first claim has just expired.
  function Both(p: Policy): seq<Event> {
    var again := p.issued + p.ttl * SECOND;
    [Claim(p.issued, p.issued, true), Claim(again, Max(p.issued, again - p.delay), true)]
  }

  lemma TwoLogins(p: Policy)
    requires p.Valid() && !p.Covers()
    ensures Legal(p, Both(p)) && Told(p, None, Both(p)) == 2
  {
    var evs := Both(p);
    var kept := Some(Entry(Integer(1), Some(p.issued + p.ttl * SECOND)));
    assert Possible(p, evs[0]) && Possible(p, evs[1]);
    assert evs[1..] == [evs[1]] && evs[1..][1..] == [];
    assert Next(p, None, evs[0]) == kept && Live(kept, evs[1].at).None?;
    assert Told(p, kept, [evs[1]]) == 1 + Told(p, Next(p, kept, evs[1]), []);
  }

  // The claim is kept for exactly the token's configured life, so there is no time to spare
  // for a login between its check and its claim.
  lemma DeployedClaim(issued: int, minutes: int, delay: int)
    requires 0 < minutes && 0 <= delay
    ensures Policy(issued, minutes * 60 * SECOND, delay, minutes * 60).Covers() <==> delay == 0
  {
  }
}
