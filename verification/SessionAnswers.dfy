/** What each answer of a re-validation means (socket_manager.py, `_session_refusal_reason`):
    in every run it is the one that its reads call for. */
module SessionAnswers {
  import opened Basics
  import opened SessionRevalidation

  // ---- the answer that five reads call for --------------------------------------------------------

  // The first `n` reads of `m` are no reason to refuse: there is a row; its key is there, or Redis
  // did not answer; the user is not blacklisted, and Redis said so; the row is live and still
  // carries that JTI; its user need not change the password.
  predicate Passed(m: seq<Moment>, n: nat) {
    && n <= |m| && m != [] && m[0].row.Some?
    && var jti := m[0].row.value.jti;
       && (n > 1 ==> m[1].heard.Unavailable? || (m[1].heard.Answers? && jti in m[1].cache))
       && (n > 2 ==> m[2].heard.Answers? && !m[2].blacklisted)
       && (n > 3 ==> m[3].heard.Answers? && IsLiveRow(m[3].row, jti))
       && (n > 4 ==> m[4].heard.Answers? && !m[4].flagged)
  }

  // The last read of `m` is a reason for this refusal, and those before it are none.
  predicate CallsFor(m: seq<Moment>, why: Refusal) {
    m != []
    && var n, last := |m|, m[|m| - 1];
       match why
       case SessionRevoked =>
         || (n == 1 && last.row.None?)
         || (n == 2 && Passed(m, 1) && last.heard.Answers? && m[0].row.value.jti !in last.cache)
         || (n == 4 && Passed(m, 3) && last.heard.Answers? && !IsLiveRow(last.row, m[0].row.value.jti))
       case AuthStateUnavailable => n == 3 && Passed(m, 2) && last.heard.Unavailable?
       case UserInvalidated => n == 3 && Passed(m, 2) && last.heard.Answers? && last.blacklisted
       case PasswordChange => n == 5 && Passed(m, 4) && last.heard.Answers? && last.flagged
       case ValidationError => 2 <= n <= 5 && Passed(m, n - 1) && last.heard.Fails?
  }

  predicate LeadTo(m: seq<Moment>, refusal: Option<Refusal>) {
    if refusal.None? then |m| == 5 && Passed(m, 5) else CallsFor(m, refusal.value)
  }

  // No reads call for two answers.
  lemma OneAnswer(m: seq<Moment>, a: Option<Refusal>, b: Option<Refusal>)
    requires LeadTo(m, a) && LeadTo(m, b)
    ensures a == b
  {
  }

  // ---- every reader has met what it knows -----------------------------------------------------------

  predicate Knows(r: Reader, m: seq<Moment>) {
    match r
    case HasJti(jti) => |m| == 1 && Passed(m, 1) && m[0].row.value.jti == jti
    case CacheSeen(jti, _) => |m| == 2 && Passed(m, 2) && m[0].row.value.jti == jti
    case NotBlacklisted(jti, _) => |m| == 3 && Passed(m, 3) && m[0].row.value.jti == jti
    case RowSeen(jti, _, _) => |m| == 4 && Passed(m, 4) && m[0].row.value.jti == jti
    case Done(refusal, _, _, _) => LeadTo(m, refusal)
  }

  ghost predicate Told(s: State) {
    s.met.Keys == s.readers.Keys && forall v <- s.readers :: Knows(s.readers[v], s.met[v])
  }

  lemma RefreshLeavesReaders(s: State, e: Event)
    requires RefreshCan(s, e)
    ensures RefreshStep(s, e).readers == s.readers && RefreshStep(s, e).met == s.met
  {
  }

  lemma RevokerLeavesReaders(s: State, e: Event)
    requires RevokerCan(s, e)
    ensures RevokerStep(s, e).readers == s.readers && RevokerStep(s, e).met == s.met
  {
  }

  lemma WorldLeavesReaders(s: State, e: Event)
    requires WorldCan(s, e)
    ensures WorldStep(s, e).readers == s.readers && WorldStep(s, e).met == s.met
  {
  }

  lemma WritersLeaveReaders(s: State, e: Event)
    requires Enabled(s, e) && !IsReaderStep(e)
    ensures Apply(s, e).readers == s.readers && Apply(s, e).met == s.met
  {
    if IsRefreshStep(e) {
      RefreshLeavesReaders(s, e);
    } else if IsRevokerStep(e) {
      RevokerLeavesReaders(s, e);
    } else {
      WorldLeavesReaders(s, e);
    }
  }

  // The reader that moves has met one moment more, and knows what follows from it.
  predicate KnowsNext(s: State, e: Event, r: Reader)
    requires IsReaderStep(e) && ReaderCan(s, e)
  {
    var m := MetSoFar(s, e.v);
    (if e.ReadJti? then m == [] else Knows(s.readers[e.v], m)) ==> Knows(r, m + [MomentOf(s, HeardBy(e))])
  }

  lemma FirstMove(s: State, v: ReaderId) returns (r: Reader)
    requires ReaderCan(s, ReadJti(v))
    ensures ReaderMove(s, ReadJti(v)).readers == s.readers[v := r] && (r.Done? || r.HasJti?)
    ensures KnowsNext(s, ReadJti(v), r)
  {
    r := ReaderMove(s, ReadJti(v)).readers[v];
  }

  lemma CacheMove(s: State, v: ReaderId, heard: Heard) returns (r: Reader)
    requires ReaderCan(s, ReadCache(v, heard))
    ensures ReaderMove(s, ReadCache(v, heard)).readers == s.readers[v := r] && (r.Done? || r.CacheSeen?)
    ensures KnowsNext(s, ReadCache(v, heard), r)
  {
    r := ReaderMove(s, ReadCache(v, heard)).readers[v];
  }

  lemma BlacklistMove(s: State, v: ReaderId, heard: Heard) returns (r: Reader)
    requires ReaderCan(s, ReadBlacklist(v, heard))
    ensures ReaderMove(s, ReadBlacklist(v, heard)).readers == s.readers[v := r] && (r.Done? || r.NotBlacklisted?)
    ensures KnowsNext(s, ReadBlacklist(v, heard), r)
  {
    r := ReaderMove(s, ReadBlacklist(v, heard)).readers[v];
  }

  lemma RowMove(s: State, v: ReaderId) returns (r: Reader)
    requires ReaderCan(s, ReadRow(v))
    ensures ReaderMove(s, ReadRow(v)).readers == s.readers[v := r] && (r.Done? || r.RowSeen?)
    ensures KnowsNext(s, ReadRow(v), r)
  {
    r := ReaderMove(s, ReadRow(v)).readers[v];
  }

  lemma FlagMove(s: State, v: ReaderId) returns (r: Reader)
    requires ReaderCan(s, ReadFlag(v))
    ensures ReaderMove(s, ReadFlag(v)).readers == s.readers[v := r] && r.Done?
    ensures KnowsNext(s, ReadFlag(v), r)
  {
    r := ReaderMove(s, ReadFlag(v)).readers[v];
  }

  lemma ErrorMove(s: State, v: ReaderId) returns (r: Reader)
    requires ReaderCan(s, DbError(v))
    ensures ReaderMove(s, DbError(v)).readers == s.readers[v := r] && r.Done?
    ensures KnowsNext(s, DbError(v), r)
  {
    r := ReaderMove(s, DbError(v)).readers[v];
  }

  lemma ReaderMoves(s: State, e: Event) returns (r: Reader)
    requires IsReaderStep(e) && ReaderCan(s, e)
    ensures ReaderMove(s, e).readers == s.readers[e.v := r] && KnowsNext(s, e, r)
  {
    match e
    case ReadJti(v) => r := FirstMove(s, v);
    case ReadCache(v, heard) => r := CacheMove(s, v, heard);
    case ReadBlacklist(v, heard) => r := BlacklistMove(s, v, heard);
    case ReadRow(v) => r := RowMove(s, v);
    case ReadFlag(v) => r := FlagMove(s, v);
    case DbError(v) => r := ErrorMove(s, v);
  }

  lemma StepKeepsTold(s: State, e: Event)
    requires Told(s) && Enabled(s, e)
    ensures Told(Apply(s, e))
  {
    if IsReaderStep(e) {
      var _ := ReaderMoves(s, e);
    } else {
      WritersLeaveReaders(s, e);
    }
  }

  lemma {:induction false} RunKeepsTold(s: State, run: seq<Event>)
    requires Told(s) && Legal(s, run)
    ensures Told(Exec(s, run))
    decreases |run|
  {
    if run != [] {
      StepKeepsTold(s, run[0]);
      RunKeepsTold(Apply(s, run[0]), run[1..]);
    }
  }

  // ---- the meaning of each answer -------------------------------------------------------------------

  // In every run, whatever refreshes, revocations and losses go on around it: a re-validation
  // answers "valid", or with this refusal, if and only if what its reads met calls for that.
  lemma AnsweredExactly(s0: State, run: seq<Event>, v: ReaderId, refusal: Option<Refusal>)
    requires Initial(s0) && Legal(s0, run)
    requires v in Exec(s0, run).readers && Exec(s0, run).readers[v].Done?
    ensures var s := Exec(s0, run);
            v in s.met && (s.readers[v].refusal == refusal <==> LeadTo(s.met[v], refusal))
  {
    RunKeepsTold(s0, run);
    var s := Exec(s0, run);
    assert Knows(s.readers[v], s.met[v]);
    if LeadTo(s.met[v], refusal) {
      OneAnswer(s.met[v], refusal, s.readers[v].refusal);
    }
  }

  // The i-th read of `v` met this, at a moment of the run.
  ghost predicate WasMet(s: State, run: seq<Event>, v: ReaderId, i: nat, m: Moment)
    requires Legal(s, run)
    decreases |run|
  {
    run != []
    && ((IsReaderStep(run[0]) && run[0].v == v && |MetSoFar(s, v)| == i && m == MomentOf(s, HeardBy(run[0])))
        || WasMet(Apply(s, run[0]), run[1..], v, i, m))
  }

  // The record of a re-validation is true.
  lemma {:induction false} MomentsAreTrue(s: State, run: seq<Event>, v: ReaderId, i: nat)
    requires Legal(s, run) && |MetSoFar(s, v)| <= i < |MetSoFar(Exec(s, run), v)|
    ensures WasMet(s, run, v, i, MetSoFar(Exec(s, run), v)[i])
    decreases |run|
  {
    var t := Apply(s, run[0]);
    StepMeets(s, run[0], v);
    if i < |MetSoFar(t, v)| {
      MetStays(t, run[1..], v);
    } else {
      MomentsAreTrue(t, run[1..], v, i);
    }
  }

  lemma StepMeets(s: State, e: Event, v: ReaderId)
    requires Enabled(s, e)
    ensures MetSoFar(Apply(s, e), v) ==
              MetSoFar(s, v) + if IsReaderStep(e) && e.v == v then [MomentOf(s, HeardBy(e))] else []
  {
    if !IsReaderStep(e) {
      WritersLeaveReaders(s, e);
    } else {
      MoveLeavesMet(s, e);
    }
  }

  lemma MoveLeavesMet(s: State, e: Event)
    requires IsReaderStep(e) && ReaderCan(s, e)
    ensures ReaderMove(s, e).met == s.met
  {
  }

  lemma {:induction false} MetStays(s: State, run: seq<Event>, v: ReaderId)
    requires Legal(s, run)
    ensures MetSoFar(s, v) <= MetSoFar(Exec(s, run), v)
    decreases |run|
  {
    if run != [] {
      StepMeets(s, run[0], v);
      MetStays(Apply(s, run[0]), run[1..], v);
    }
  }
}
