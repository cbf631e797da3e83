/** `_session_refusal_reason` as written (socket_manager.py): its five reads in their order,
    with everybody else running in between. */
module SessionRuns {
  import opened Basics
  import opened SessionRevalidation
  import opened SessionAnswers

  // What happens before one of its reads: steps of everyone else, how Redis then answers,
  // and whether the database then raises.
  datatype Weather = Weather(others: seq<Event>, heard: Heard, dbFails: bool)

  predicate Foreign(e: Event, v: ReaderId) {
    IsReaderStep(e) ==> e.v != v
  }

  // ---- a run woven from the reader's own steps and everybody else's ----------------------------

  // The steps of `others` that are possible when their turn comes.
  function Meanwhile(s: State, v: ReaderId, others: seq<Event>): (run: seq<Event>)
    ensures Legal(s, run)
    decreases |others|
  {
    if others == [] then []
    else if Enabled(s, others[0]) && Foreign(others[0], v) then
      var rest := Meanwhile(Apply(s, others[0]), v, others[1..]);
      Cons(s, others[0], rest);
      [others[0]] + rest
    else Meanwhile(s, v, others[1..])
  }

  lemma {:induction false} LegalAppend(s: State, a: seq<Event>, b: seq<Event>)
    requires Legal(s, a) && Legal(Exec(s, a), b)
    ensures Legal(s, a + b) && Exec(s, a + b) == Exec(Exec(s, a), b)
    decreases |a|
  {
    if a == [] {
      assert a + b == b;
    } else {
      assert (a + b)[0] == a[0] && (a + b)[1..] == a[1..] + b;
      LegalAppend(Apply(s, a[0]), a[1..], b);
    }
  }

  lemma ForeignStepLeavesReader(s: State, e: Event, v: ReaderId)
    requires Enabled(s, e) && Foreign(e, v)
    ensures v in Apply(s, e).readers <==> v in s.readers
    ensures v in s.readers ==> Apply(s, e).readers[v] == s.readers[v]
  {
    if IsReaderStep(e) {
      var _ := ReaderMoves(s, e);
    } else {
      WritersLeaveReaders(s, e);
    }
  }

  lemma {:induction false} MeanwhileLeavesReader(s: State, v: ReaderId, others: seq<Event>)
    ensures var t := Exec(s, Meanwhile(s, v, others));
            (v in t.readers <==> v in s.readers) && (v in s.readers ==> t.readers[v] == s.readers[v])
    decreases |others|
  {
    if others != [] {
      if Enabled(s, others[0]) && Foreign(others[0], v) {
        ForeignStepLeavesReader(s, others[0], v);
        MeanwhileLeavesReader(Apply(s, others[0]), v, others[1..]);
        Cons(s, others[0], Meanwhile(Apply(s, others[0]), v, others[1..]));
      } else {
        MeanwhileLeavesReader(s, v, others[1..]);
      }
    }
  }

  function Steps(own: Option<Event>): seq<Event> {
    if own.None? then [] else [own.value]
  }

  /** A call of the method so far: where it started, the run since then, and its own steps
      (None: it is still waiting for the row). */
  datatype Trace = Trace(start: State, run: seq<Event>, own: seq<Option<Event>>)

  // The run is made of the reader's own steps, each after what was possible of its weather.
  ghost predicate IsWoven(t: Trace, v: ReaderId, weather: nat -> Weather)
    decreases |t.own|
  {
    Legal(t.start, t.run)
    && if t.own == [] then t.run == []
       else exists before: seq<Event> :: IsExtended(t, before, v, weather)
  }

  ghost predicate IsExtended(t: Trace, before: seq<Event>, v: ReaderId, weather: nat -> Weather)
    requires t.own != []
    decreases |t.own|, 0
  {
    var n := |t.own| - 1;
    && Legal(t.start, before) && IsWoven(Trace(t.start, before, t.own[..n]), v, weather)
    && t.run == before + (Meanwhile(Exec(t.start, before), v, weather(n).others) + Steps(t.own[n]))
  }

  // The trace accounts for the present state.
  ghost predicate Follows(t: Trace, v: ReaderId, weather: nat -> Weather, s: State) {
    IsWoven(t, v, weather) && s == Exec(t.start, t.run)
  }

  function Longer(t: Trace, s: State, v: ReaderId, others: seq<Event>, own: Option<Event>): Trace {
    Trace(t.start, t.run + (Meanwhile(s, v, others) + Steps(own)), t.own + [own])
  }

  lemma FollowsOn(t: Trace, v: ReaderId, weather: nat -> Weather, s: State, own: Option<Event>)
    requires Follows(t, v, weather, s)
    requires own.Some? ==> Enabled(Exec(s, Meanwhile(s, v, weather(|t.own|).others)), own.value)
    ensures var m := Exec(s, Meanwhile(s, v, weather(|t.own|).others));
            Follows(Longer(t, s, v, weather(|t.own|).others, own), v, weather,
                    if own.Some? then Apply(m, own.value) else m)
  {
    var others := weather(|t.own|).others;
    var a := Meanwhile(s, v, others);
    var u := Longer(t, s, v, others, own);
    assert Legal(Exec(s, a), Steps(own)) by {
      if own.Some? {
        Cons(Exec(s, a), own.value, []);
        assert [own.value] + [] == [own.value];
      }
    }
    LegalAppend(s, a, Steps(own));
    LegalAppend(t.start, t.run, a + Steps(own));
    assert u.own[..|t.own|] == t.own && Trace(u.start, t.run, t.own) == t;
    assert IsExtended(u, t.run, v, weather);
    if own.Some? {
      assert Exec(Exec(s, a), [own.value]) == Apply(Exec(s, a), own.value) by {
        Cons(Exec(s, a), own.value, []);
        assert [own.value] + [] == [own.value];
      }
    }
  }

  // The reader's i-th step, when it gets that far.
  function Read(v: ReaderId, i: nat, now: Weather): Event
    requires i < 5
  {
    match i
    case 0 => ReadJti(v)
    case 1 => ReadCache(v, if now.heard.Answers? then Answers else Unavailable)
    case 2 => ReadBlacklist(v, now.heard)
    case 3 => if now.dbFails then DbError(v) else ReadRow(v)
    case 4 => if now.dbFails then DbError(v) else ReadFlag(v)
  }

  // Its own steps are the first of its five reads, and nothing else.
  predicate AreFirstReads(own: seq<Option<Event>>, v: ReaderId, weather: nat -> Weather) {
    |own| <= 5 && forall i :: 0 <= i < |own| ==> own[i] == Some(Read(v, i, weather(i)))
  }

  // Where the reader is after i reads, if it has not answered yet.
  predicate HasDone(r: Reader, i: nat) {
    match i
    case 1 => r.HasJti?
    case 2 => r.CacheSeen?
    case 3 => r.NotBlacklisted?
    case 4 => r.RowSeen?
    case _ => false
  }

  // After i reads the next one is possible, and leads to the answer or to i + 1 reads.
  lemma ReadIsNext(s: State, v: ReaderId, i: nat, now: Weather)
    requires Inv(s) && 1 <= i < 5 && v in s.readers && HasDone(s.readers[v], i)
    ensures var e := Read(v, i, now);
            && Enabled(s, e) && IsReaderStep(e) && ReaderCan(s, e)
            && var t := ReaderStep(s, e); v in t.readers && (t.readers[v].Done? || HasDone(t.readers[v], i + 1))
  {
    assert !s.readers[v].Done?;
    var r;
    match Read(v, i, now)
    case ReadCache(_, heard) => r := CacheMove(s, v, heard);
    case ReadBlacklist(_, heard) => r := BlacklistMove(s, v, heard);
    case ReadRow(_) => r := RowMove(s, v);
    case ReadFlag(_) => r := FlagMove(s, v);
    case DbError(_) => r := ErrorMove(s, v);
  }

  ghost predicate Sound(s: State) {
    Inv(s) && Told(s)
  }

  lemma FirstRead(s: State, v: ReaderId)
    requires Sound(s) && v !in s.readers && (s.lock.Free? || s.lock.Shared?)
    ensures Enabled(s, ReadJti(v))
    ensures var t := Apply(s, ReadJti(v));
            Sound(t) && v in t.readers && (t.readers[v].Done? || t.readers[v].HasJti?)
  {
    TakeShareKeeps(s, v);
    StepKeepsTold(s, ReadJti(v));
  }

  // The answer of a call is the one that its reads call for, and it did make these reads.
  lemma AnswerIsRight(t: Trace, v: ReaderId, weather: nat -> Weather, s: State)
    requires Sound(t.start) && v !in t.start.readers && Follows(t, v, weather, s) && Told(s)
    requires v in s.readers && s.readers[v].Done?
    ensures v in s.met && LeadTo(s.met[v], s.readers[v].refusal)
    ensures forall i :: 0 <= i < |s.met[v]| ==> WasMet(t.start, t.run, v, i, s.met[v][i])
  {
    assert Knows(s.readers[v], s.met[v]) && MetSoFar(t.start, v) == [];
    forall i | 0 <= i < |s.met[v]| ensures WasMet(t.start, t.run, v, i, s.met[v][i]) {
      MomentsAreTrue(t.start, t.run, v, i);
    }
  }

  // The same for the later reads.
  lemma LaterRead(s: State, v: ReaderId, i: nat, now: Weather)
    requires Sound(s) && 1 <= i < 5 && v in s.readers && HasDone(s.readers[v], i)
    ensures Enabled(s, Read(v, i, now))
    ensures var t := Apply(s, Read(v, i, now));
            Sound(t) && v in t.readers && (t.readers[v].Done? || HasDone(t.readers[v], i + 1))
  {
    ReadIsNext(s, v, i, now);
    ReaderKeeps(s, Read(v, i, now));
    StepKeepsTold(s, Read(v, i, now));
  }

  class Sessions {
    var st: State

    constructor (s: State)
      ensures st == s
    {
      st := s;
    }

    method Interfere(v: ReaderId, others: seq<Event>)
      requires Sound(st)
      modifies this
      ensures Sound(st) && st == Exec(old(st), Meanwhile(old(st), v, others))
    {
      ghost var s0 := st;
      for i := 0 to |others|
        invariant Sound(st) && Exec(st, Meanwhile(st, v, others[i..])) == Exec(s0, Meanwhile(s0, v, others))
      {
        assert others[i..][1..] == others[i + 1..];
        if Enabled(st, others[i]) && Foreign(others[i], v) {
          Cons(st, others[i], Meanwhile(Apply(st, others[i]), v, others[i + 1..]));
          StepKeeps(st, others[i]);
          StepKeepsTold(st, others[i]);
          st := Apply(st, others[i]);
        }
      }
    }

    // SELECT refresh_jti ... FOR SHARE; false while somebody else holds the row.
    method ResolveJti(v: ReaderId, weather: nat -> Weather) returns (got: bool, ghost t: Trace)
      requires Sound(st) && v !in st.readers
      modifies this
      ensures Sound(st) && t.start == old(st) && Follows(t, v, weather, st)
      ensures if got then t.own == [Some(ReadJti(v))] && v in st.readers
                 && (st.readers[v].Done? || st.readers[v].HasJti?)
              else t.own == [None] && v !in st.readers
    {
      ghost var s := st;
      MeanwhileLeavesReader(st, v, weather(0).others);
      Interfere(v, weather(0).others);
      got := st.lock.Free? || st.lock.Shared?;
      ghost var own := if got then Some(ReadJti(v)) else None;
      if got {
        FirstRead(st, v);
      }
      FollowsOn(Trace(s, [], []), v, weather, s, own);
      t := Longer(Trace(s, [], []), s, v, weather(0).others, own);
      if got {
        st := Apply(st, ReadJti(v));
      }
    }

    // One of the later reads: GET session:{jti}, EXISTS user_blacklist:{id}, the live
    // predicate on this JTI, the password flag.
    method OneRead(v: ReaderId, i: nat, weather: nat -> Weather, ghost t: Trace) returns (ghost u: Trace)
      requires Sound(st) && 1 <= i < 5 && |t.own| == i && Follows(t, v, weather, st) && AreFirstReads(t.own, v, weather)
      requires v in st.readers && HasDone(st.readers[v], i)
      modifies this
      ensures Sound(st) && Follows(u, v, weather, st) && u.start == t.start && |u.own| == i + 1
              && AreFirstReads(u.own, v, weather)
      ensures v in st.readers && (st.readers[v].Done? || HasDone(st.readers[v], i + 1))
    {
      ghost var s := st;
      MeanwhileLeavesReader(st, v, weather(i).others);
      Interfere(v, weather(i).others);
      var e := Read(v, i, weather(i));
      LaterRead(st, v, i, weather(i));
      FollowsOn(t, v, weather, s, Some(e));
      u := Longer(t, s, v, weather(i).others, Some(e));
      st := Apply(st, e);
    }

    /** The reads in the order of the source. False: still waiting for whoever holds the
        row. The state afterwards is that of a run in which the reader's own steps are
        exactly these reads and all other steps come from the weather; the answer is the one
        that its reads call for. */
    method RefusalReason(v: ReaderId, weather: nat -> Weather) returns (answered: bool, ghost t: Trace)
      requires Sound(st) && v !in st.readers
      modifies this
      ensures Sound(st) && t.start == old(st) && Follows(t, v, weather, st)
      ensures if answered then AreFirstReads(t.own, v, weather) && v in st.readers && st.readers[v].Done?
              else t.own == [None] && v !in st.readers
      ensures answered ==> v in st.met && LeadTo(st.met[v], st.readers[v].refusal)
      ensures answered ==> forall i :: 0 <= i < |st.met[v]| ==> WasMet(t.start, t.run, v, i, st.met[v][i])
    {
      answered, t := ResolveJti(v, weather);
      if answered && !st.readers[v].Done? {
        t := OneRead(v, 1, weather, t);
        if !st.readers[v].Done? {
          t := OneRead(v, 2, weather, t);
          if !st.readers[v].Done? {
            t := OneRead(v, 3, weather, t);
            if !st.readers[v].Done? {
              t := OneRead(v, 4, weather, t);
            }
          }
        }
      }
      if answered {
        AnswerIsRight(t, v, weather, st);
      }
    }
  }
}
