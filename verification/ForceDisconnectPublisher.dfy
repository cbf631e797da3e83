/** `_publish_force_disconnect_strict` as written (socket_manager.py), with every other
    process running between its Redis calls. */
module ForceDisconnectPublisher {
  import opened Basics
  import opened ForceDisconnect
  import opened ForceDisconnectAwaited

  // What happens between two Redis calls of the publisher: steps of other processes, and
  // whether the next call then raises.
  datatype Weather = Weather(others: seq<Event>, fails: bool)

  // A step of publisher `c` itself.
  predicate IsOwn(e: Event, c: CommandId) {
    IsPublisherStep(e) && !e.AckExpires? && e.c == c
  }

  // ---- a run woven from the publisher's own steps and everybody else's ---------------------------

  lemma Cons(s: State, e: Event, rest: seq<Event>)
    requires Enabled(s, e) && Legal(Apply(s, e), rest)
    ensures Legal(s, [e] + rest) && Exec(s, [e] + rest) == Exec(Apply(s, e), rest)
  {
    assert ([e] + rest)[1..] == rest;
  }

  // The steps of `others` that are possible when their turn comes.
  function Meanwhile(s: State, c: CommandId, others: seq<Event>): (run: seq<Event>)
    ensures Legal(s, run)
    decreases |others|
  {
    if others == [] then []
    else if Enabled(s, others[0]) && !IsOwn(others[0], c) then
      var rest := Meanwhile(Apply(s, others[0]), c, others[1..]);
      Cons(s, others[0], rest);
      [others[0]] + rest
    else Meanwhile(s, c, others[1..])
  }

  lemma {:induction false} LegalAppend(s: State, a: seq<Event>, b: seq<Event>)
    requires Legal(s, a) && Legal(Exec(s, a), b)
    ensures Legal(s, a + b) && Exec(s, a + b) == Exec(Exec(s, a), b)
    decreases |a|
  {
    if a == [] {
      assert a + b == b;
    } else {
      assert (a + b)[0] == a[0] && (a + b)[1..] == a[1..] + b;
      LegalAppend(Apply(s, a[0]), a[1..], b);
    }
  }

  predicate SameCommand(s: State, t: State, c: CommandId) {
    (c in t.commands <==> c in s.commands) && (c in s.commands ==> t.commands[c] == s.commands[c])
  }

  lemma PublisherStepLeavesOthers(s: State, e: Event, c: CommandId)
    requires IsPublisherStep(e) && PublisherCan(s, e) && !IsOwn(e, c)
    ensures SameCommand(s, PublisherStep(s, e), c)
  {
  }

  lemma ForeignStepLeavesCommand(s: State, e: Event, c: CommandId)
    requires Enabled(s, e) && !IsOwn(e, c)
    ensures SameCommand(s, Apply(s, e), c)
  {
    if IsWorkerStep(e) {
      WorkersLeaveCommands(s, e);
    } else if IsPublisherStep(e) {
      PublisherStepLeavesOthers(s, e, c);
    }
  }

  lemma {:induction false} MeanwhileLeavesCommand(s: State, c: CommandId, others: seq<Event>)
    ensures SameCommand(s, Exec(s, Meanwhile(s, c, others)), c)
    decreases |others|
  {
    if others != [] {
      if Enabled(s, others[0]) && !IsOwn(others[0], c) {
        ForeignStepLeavesCommand(s, others[0], c);
        MeanwhileLeavesCommand(Apply(s, others[0]), c, others[1..]);
        Cons(s, others[0], Meanwhile(Apply(s, others[0]), c, others[1..]));
      } else {
        MeanwhileLeavesCommand(s, c, others[1..]);
      }
    }
  }

  function Steps(own: Option<Event>): seq<Event> {
    if own.None? then [] else [own.value]
  }

  /** A call of the method so far: where it started, the run since then, and its own steps
      (None: its very first call raised). */
  datatype Trace = Trace(start: State, run: seq<Event>, own: seq<Option<Event>>)

  // The run is made of the publisher's own steps, each after what was possible of its weather.
  ghost predicate IsWoven(t: Trace, c: CommandId, weather: nat -> Weather)
    decreases |t.own|
  {
    Legal(t.start, t.run)
    && if t.own == [] then t.run == []
       else exists before: seq<Event> :: IsExtended(t, before, c, weather)
  }

  ghost predicate IsExtended(t: Trace, before: seq<Event>, c: CommandId, weather: nat -> Weather)
    requires t.own != []
    decreases |t.own|, 0
  {
    var n := |t.own| - 1;
    && Legal(t.start, before) && IsWoven(Trace(t.start, before, t.own[..n]), c, weather)
    && t.run == before + (Meanwhile(Exec(t.start, before), c, weather(n).others) + Steps(t.own[n]))
  }

  // The trace accounts for the present state.
  ghost predicate Follows(t: Trace, c: CommandId, weather: nat -> Weather, s: State) {
    IsWoven(t, c, weather) && s == Exec(t.start, t.run)
  }

  function Longer(t: Trace, s: State, c: CommandId, others: seq<Event>, own: Option<Event>): Trace {
    Trace(t.start, t.run + (Meanwhile(s, c, others) + Steps(own)), t.own + [own])
  }

  lemma OneStep(s: State, own: Option<Event>)
    requires own.Some? ==> Enabled(s, own.value)
    ensures Legal(s, Steps(own)) && Exec(s, Steps(own)) == if own.Some? then Apply(s, own.value) else s
  {
    if own.Some? {
      Cons(s, own.value, []);
      assert [own.value] + [] == [own.value];
    }
  }

  lemma FollowsOn(t: Trace, c: CommandId, weather: nat -> Weather, s: State, own: Option<Event>)
    requires Follows(t, c, weather, s)
    requires own.Some? ==> Enabled(Exec(s, Meanwhile(s, c, weather(|t.own|).others)), own.value)
    ensures var m := Exec(s, Meanwhile(s, c, weather(|t.own|).others));
            Follows(Longer(t, s, c, weather(|t.own|).others, own), c, weather,
                    if own.Some? then Apply(m, own.value) else m)
  {
    var a := Meanwhile(s, c, weather(|t.own|).others);
    var u := Longer(t, s, c, weather(|t.own|).others, own);
    OneStep(Exec(s, a), own);
    LegalAppend(s, a, Steps(own));
    LegalAppend(t.start, t.run, a + Steps(own));
    assert u.own[..|t.own|] == t.own && Trace(u.start, t.run, t.own) == t;
    assert IsExtended(u, t.run, c, weather);
  }

  // ---- what the publisher may do, and when it may give up ------------------------------------------

  // Its own steps are its own, name these rooms, and giving up is the last of them. (That
  // they come in the order of the source is what `Legal` says of a command's stages.)
  predicate AreOwn(own: seq<Option<Event>>, c: CommandId, rooms: seq<Room>) {
    && (forall i :: 0 <= i < |own| && own[i].Some? ==> IsOwn(own[i].value, c))
    && (forall i :: 0 <= i < |own| && own[i].Some? && own[i].value.Snapshot? ==> own[i].value.rooms == rooms)
    && (forall i :: 0 <= i < |own| - 1 ==> own[i].Some? && !own[i].value.GiveUp?)
  }

  predicate AreGoing(own: seq<Option<Event>>, c: CommandId, rooms: seq<Room>) {
    AreOwn(own, c, rooms) && forall i :: 0 <= i < |own| ==> own[i].Some? && !own[i].value.GiveUp?
  }

  lemma OneMoreOwn(own: seq<Option<Event>>, more: seq<Option<Event>>, c: CommandId, rooms: seq<Room>)
    requires AreGoing(own, c, rooms) && |more| == |own| + 1 && more[..|own|] == own
    requires var e := more[|own|]; e.Some? && IsOwn(e.value, c) && !e.value.Snapshot?
    ensures AreOwn(more, c, rooms) && (!more[|own|].value.GiveUp? ==> AreGoing(more, c, rooms))
  {
    assert forall i :: 0 <= i < |own| ==> more[i] == own[i];
  }

  // It ends without having returned only if its last call raised; or, after the pruning, nobody
  // listed had a key that was alive when it was looked at; or so many polls in a row were in
  // vain, and the ACK of somebody whose key was alive is missing.
  predicate IsExcused(own: seq<Option<Event>>, c: CommandId, polls: nat, weather: nat -> Weather, s: State) {
    own != []
    && (weather(|own| - 1).fails
        || (own[|own| - 1] == Some(Prune(c)) && c in s.commands && NobodyAlive(s.commands[c]))
        || (polls > 0 && EndsInPolls(own[..|own| - 1], c, polls) && c in s.commands && SomebodyMissing(s.commands[c])))
  }

  predicate NobodyAlive(k: Command) {
    k.stage.Refused? && k.seen.Keys == k.listed && forall w <- k.listed :: !k.seen[w].Alive()
  }

  predicate SomebodyMissing(k: Command) {
    k.stage.Raised? && exists w <- k.listed :: w in k.seen && k.seen[w].Alive() && w !in k.acked
  }

  predicate EndsInPolls(own: seq<Option<Event>>, c: CommandId, k: nat) {
    k <= |own| && forall i :: |own| - k <= i < |own| ==> own[i] == Some(Poll(c))
  }

  lemma OneMorePoll(own: seq<Option<Event>>, c: CommandId, k: nat)
    requires EndsInPolls(own, c, k)
    ensures EndsInPolls(own + [Some(Poll(c))], c, k + 1)
  {
  }

  lemma AllInVain(own: seq<Option<Event>>, more: seq<Option<Event>>, c: CommandId, polls: nat, weather: nat -> Weather,
                  s: State)
    requires polls > 0 && EndsInPolls(own, c, polls) && more == own + [Some(GiveUp(c))]
    requires Books(s) && c in s.commands && s.commands[c].stage.Raised?
             && !(s.commands[c].required <= s.commands[c].acked)
    ensures IsExcused(more, c, polls, weather, s)
  {
    assert more[..|more| - 1] == own;
    var k := s.commands[c];
    assert BookOk(s.members, k);
    var w :| w in k.required && w !in k.acked;
    assert w in k.required + k.dead && w in k.listed;
  }

  lemma NobodyThere(s: State, c: CommandId)
    requires Books(s) && c in s.commands && s.commands[c].stage.Refused?
    ensures NobodyAlive(s.commands[c])
  {
    assert BookOk(s.members, s.commands[c]);
  }

  lemma AnyExcuse(own: seq<Option<Event>>, c: CommandId, polls: nat, weather: nat -> Weather, s: State)
    requires IsExcused(own, c, 0, weather, s)
    ensures IsExcused(own, c, polls, weather, s)
  {
  }

  lemma CanStill(s: State, t: State, e: Event, c: CommandId)
    requires IsOwn(e, c) && PublisherCan(s, e) && SameCommand(s, t, c)
    ensures PublisherCan(t, e)
  {
  }

  lemma SurvivorsOfReturned(s: State, c: CommandId)
    requires Inv(s) && c in s.commands && s.commands[c].stage.Returned?
    ensures forall sid <- s.commands[c].targets :: sid in s.sockets ==> MaySurvive(s, s.commands[c], sid)
  {
    forall sid <- s.commands[c].targets | sid in s.sockets
      ensures MaySurvive(s, s.commands[c], sid)
    {
      SurvivorOfReturned(s, c, sid);
    }
  }

  lemma OneLessToCheck(s: State, c: CommandId, wid: WorkerId)
    requires PublisherCan(s, Check(c, wid))
    ensures var t := PublisherStep(s, Check(c, wid));
            c in t.commands && t.commands[c].stage == s.commands[c].stage && t.commands[c].rooms == s.commands[c].rooms
            && t.commands[c].todo == s.commands[c].todo - {wid}
  {
  }

  lemma Pruned(s: State, c: CommandId)
    requires PublisherCan(s, Prune(c))
    ensures var t := PublisherStep(s, Prune(c));
            c in t.commands && (t.commands[c].stage.Ready? || t.commands[c].stage.Refused?)
            && t.commands[c].rooms == s.commands[c].rooms
  {
  }

  lemma Polled(s: State, c: CommandId)
    requires PublisherCan(s, Poll(c))
    ensures var t := PublisherStep(s, Poll(c));
            c in t.commands && t.commands[c].rooms == s.commands[c].rooms
            && t.commands[c].stage == if t.commands[c].required <= t.commands[c].acked then Returned else Polling
  {
  }

  ghost predicate Sound(s: State) {
    Inv(s) && Books(s)
  }

  lemma TrueBooks(t: Trace, c: CommandId, weather: nat -> Weather, s: State)
    requires Sound(t.start) && Follows(t, c, weather, s) && c !in t.start.commands && Sound(s)
    requires c in s.commands && HasPruned(s.commands[c])
    ensures IsTrueRecord(t.start, t.run, c, s.commands[c]) && AwaitsTheLiving(s.commands[c])
    ensures s.commands[c].dead !! s.members && (!s.commands[c].stage.Refused? ==> s.commands[c].required != {})
  {
    RecordedSince(t.start, t.run, c);
    var k := s.commands[c];
    assert BookOk(s.members, k);
    AwaitedAre(k, {});
  }

  class Cluster {
    var st: State

    constructor (s: State)
      ensures st == s
    {
      st := s;
    }

    // Other processes run; steps that are not possible just do not happen.
    method Interfere(c: CommandId, others: seq<Event>)
      requires Sound(st)
      modifies this
      ensures Sound(st) && st == Exec(old(st), Meanwhile(old(st), c, others))
    {
      ghost var s0 := st;
      for i := 0 to |others|
        invariant Sound(st) && Exec(st, Meanwhile(st, c, others[i..])) == Exec(s0, Meanwhile(s0, c, others))
      {
        assert others[i..][1..] == others[i + 1..];
        if Enabled(st, others[i]) && !IsOwn(others[i], c) {
          Cons(st, others[i], Meanwhile(Apply(st, others[i]), c, others[i + 1..]));
          StepKeeps(st, others[i]);
          StepKeepsBooks(st, others[i]);
          st := Apply(st, others[i]);
        }
      }
    }

    // What the others did meanwhile, and then a step of publisher `c`, if it takes one.
    method Turn(c: CommandId, own: Option<Event>, n: nat, weather: nat -> Weather, ghost t: Trace)
      returns (ghost u: Trace)
      requires Sound(st) && Follows(t, c, weather, st) && |t.own| == n
      requires own.Some? ==> IsOwn(own.value, c) && PublisherCan(st, own.value)
      modifies this
      ensures Sound(st) && Follows(u, c, weather, st) && u.start == t.start && u.own == t.own + [own]
      ensures own.None? ==> SameCommand(old(st), st, c)
      ensures own.Some? ==> exists before ::
                SameCommand(old(st), before, c) && PublisherCan(before, own.value)
                  && st == PublisherStep(before, own.value)
    {
      ghost var s := st;
      MeanwhileLeavesCommand(st, c, weather(n).others);
      Interfere(c, weather(n).others);
      if own.Some? {
        CanStill(s, st, own.value, c);
      }
      FollowsOn(t, c, weather, s, own);
      u := Longer(t, s, c, weather(n).others, own);
      if own.Some? {
        PublisherStepKeeps(st, own.value);
        PublisherKeepsBooks(st, own.value);
        st := PublisherStep(st, own.value);
      }
    }

    // The n-th Redis call of publisher `c`. False: it raised, and the publisher gives up.
    method Call(c: CommandId, e: Event, n: nat, weather: nat -> Weather, ghost t: Trace)
      returns (ok: bool, ghost u: Trace)
      requires Sound(st) && Follows(t, c, weather, st) && |t.own| == n && IsOwn(e, c) && !e.GiveUp?
               && PublisherCan(st, e)
      modifies this
      ensures Sound(st) && Follows(u, c, weather, st) && u.start == t.start && ok == !weather(n).fails
      ensures u.own == t.own + [if ok then Some(e) else if c in old(st).commands then Some(GiveUp(c)) else None]
      ensures ok ==> exists before ::
                SameCommand(old(st), before, c) && PublisherCan(before, e) && st == PublisherStep(before, e)
      ensures !ok ==> c !in st.commands || st.commands[c].stage.Raised?
    {
      ok := !weather(n).fails;
      u := Turn(c, if ok then Some(e) else if c in st.commands then Some(GiveUp(c)) else None, n, weather, t);
    }

    // The publisher goes on: its command is at this stage.
    ghost predicate IsGoing(t: Trace, c: CommandId, rooms: seq<Room>, stage: Stage, weather: nat -> Weather)
      reads this
    {
      && Sound(st) && Follows(t, c, weather, st) && AreGoing(t.own, c, rooms)
      && c in st.commands && st.commands[c].stage == stage && st.commands[c].rooms == rooms
    }

    // It has given up, for a reason.
    ghost predicate IsOver(t: Trace, c: CommandId, rooms: seq<Room>, polls: nat, weather: nat -> Weather)
      reads this
    {
      && Sound(st) && Follows(t, c, weather, st) && AreOwn(t.own, c, rooms) && IsExcused(t.own, c, polls, weather, st)
      && (c in st.commands ==> st.commands[c].stage.Raised? || st.commands[c].stage.Refused?)
    }

    // SMEMBERS socket:workers
    method ListWorkers(c: CommandId, rooms: seq<Room>, weather: nat -> Weather) returns (ok: bool, ghost t: Trace)
      requires Sound(st) && c !in st.commands
      modifies this
      ensures t.start == old(st) && |t.own| == 1
      ensures if ok then IsGoing(t, c, rooms, Checking, weather) else IsOver(t, c, rooms, 0, weather)
    {
      t := Trace(st, [], []);
      ok, t := Call(c, Snapshot(c, rooms), 0, weather, t);
      assert [] + [t.own[0]] == t.own;
    }

    // EXISTS socket:worker_hb:<wid>
    method CheckHeartbeat(c: CommandId, rooms: seq<Room>, wid: WorkerId, n: nat, weather: nat -> Weather,
                          ghost t: Trace)
      returns (ok: bool, ghost u: Trace)
      requires IsGoing(t, c, rooms, Checking, weather) && |t.own| == n && wid in st.commands[c].todo
      modifies this
      ensures u.start == t.start && |u.own| == n + 1
      ensures if ok then IsGoing(u, c, rooms, Checking, weather)
                 && st.commands[c].todo == old(st.commands[c].todo) - {wid}
              else IsOver(u, c, rooms, 0, weather)
    {
      ghost var s := st;
      ok, u := Call(c, Check(c, wid), n, weather, t);
      OneMoreOwn(t.own, u.own, c, rooms);
      if ok {
        ghost var before :| SameCommand(s, before, c) && PublisherCan(before, Check(c, wid))
                            && st == PublisherStep(before, Check(c, wid));
        OneLessToCheck(before, c, wid);
      }
    }

    // SREM socket:workers, and the refusal to go on with nobody to ask.
    method DropDead(c: CommandId, rooms: seq<Room>, n: nat, weather: nat -> Weather, ghost t: Trace)
      returns (ok: bool, ghost u: Trace)
      requires IsGoing(t, c, rooms, Checking, weather) && |t.own| == n && st.commands[c].todo == {}
      modifies this
      ensures u.start == t.start && |u.own| == n + 1
      ensures if ok then IsGoing(u, c, rooms, Ready, weather) else IsOver(u, c, rooms, 0, weather)
    {
      ghost var s := st;
      ok, u := Call(c, Prune(c), n, weather, t);
      OneMoreOwn(t.own, u.own, c, rooms);
      if ok {
        ghost var before :| SameCommand(s, before, c) && PublisherCan(before, Prune(c))
          && st == PublisherStep(before, Prune(c));
        Pruned(before, c);
      }
      if ok && !st.commands[c].stage.Ready? {
        ok := false;
        NobodyThere(st, c);
      }
    }

    // PUBLISH
    method Send(c: CommandId, rooms: seq<Room>, n: nat, weather: nat -> Weather, ghost t: Trace)
      returns (ok: bool, ghost u: Trace)
      requires IsGoing(t, c, rooms, Ready, weather) && |t.own| == n
      modifies this
      ensures u.start == t.start && |u.own| == n + 1
      ensures if ok then IsGoing(u, c, rooms, Polling, weather) else IsOver(u, c, rooms, 0, weather)
    {
      ok, u := Call(c, Publish(c), n, weather, t);
      OneMoreOwn(t.own, u.own, c, rooms);
    }

    // SMEMBERS of the ACK set; `done` when it covers every required worker.
    method ReadAcks(c: CommandId, rooms: seq<Room>, n: nat, weather: nat -> Weather, ghost t: Trace)
      returns (ok: bool, done: bool, ghost u: Trace)
      requires IsGoing(t, c, rooms, Polling, weather) && |t.own| == n
      modifies this
      ensures u.start == t.start && |u.own| == n + 1
      ensures if ok then IsGoing(u, c, rooms, if done then Returned else Polling, weather)
                 && u.own == t.own + [Some(Poll(c))] && (!done ==> !(st.commands[c].required <= st.commands[c].acked))
              else IsOver(u, c, rooms, 0, weather)
    {
      ghost var s := st;
      ok, u := Call(c, Poll(c), n, weather, t);
      OneMoreOwn(t.own, u.own, c, rooms);
      if ok {
        ghost var before :| SameCommand(s, before, c) && PublisherCan(before, Poll(c))
          && st == PublisherStep(before, Poll(c));
        Polled(before, c);
      }
      done := ok && st.commands[c].stage.Returned?;
    }

    // The ACKs did not all arrive in time: TimeoutError.
    method TimeOut(c: CommandId, rooms: seq<Room>, polls: nat, n: nat, weather: nat -> Weather, ghost t: Trace)
      returns (ghost u: Trace)
      requires IsGoing(t, c, rooms, Polling, weather) && |t.own| == n >= polls
      requires polls > 0 && EndsInPolls(t.own, c, polls) && !(st.commands[c].required <= st.commands[c].acked)
      modifies this
      ensures u.start == t.start && IsOver(u, c, rooms, polls, weather)
    {
      u := Turn(c, Some(GiveUp(c)), n, weather, t);
      OneMoreOwn(t.own, u.own, c, rooms);
      AllInVain(t.own, u.own, c, polls, weather, st);
    }

    /** `_required_workers`: SMEMBERS, one EXISTS per member, SREM of the dead ones, and the
        refusal to go on with nobody to ask. True: some worker must be waited for. */
    method RequiredWorkers(c: CommandId, rooms: seq<Room>, weather: nat -> Weather)
      returns (ok: bool, n: nat, ghost t: Trace)
      requires Sound(st) && c !in st.commands
      modifies this
      ensures t.start == old(st) && n == |t.own|
      ensures if ok then IsGoing(t, c, rooms, Ready, weather) else IsOver(t, c, rooms, 0, weather)
      ensures ok ==> IsTrueRecord(t.start, t.run, c, st.commands[c]) && AwaitsTheLiving(st.commands[c])
      ensures ok ==> st.commands[c].required != {} && st.commands[c].dead !! st.members
    {
      n := 1;
      ok, t := ListWorkers(c, rooms, weather);
      if !ok { return; }
      var members := st.commands[c].todo;
      while members != {}
        invariant t.start == old(st) && n == |t.own| && IsGoing(t, c, rooms, Checking, weather)
        invariant st.commands[c].todo == members
        decreases members
      {
        var wid :| wid in members;
        ok, t := CheckHeartbeat(c, rooms, wid, n, weather, t);
        n, members := n + 1, members - {wid};
        if !ok { return; }
      }
      ok, t := DropDead(c, rooms, n, weather, t);
      n := n + 1;
      if ok {
        TrueBooks(t, c, weather, st);
      }
    }

    // The polling loop, and the timeout after it.
    method AwaitAcks(c: CommandId, rooms: seq<Room>, maxPolls: nat, from: nat, weather: nat -> Weather, ghost t0: Trace)
      returns (ok: bool, ghost t: Trace)
      requires IsGoing(t0, c, rooms, Polling, weather) && |t0.own| == from && maxPolls > 0
      modifies this
      ensures t.start == t0.start
      ensures if ok then IsGoing(t, c, rooms, Returned, weather) else IsOver(t, c, rooms, maxPolls, weather)
    {
      var n := from;
      t := t0;
      for i := 0 to maxPolls
        invariant t.start == t0.start && n == |t.own| && IsGoing(t, c, rooms, Polling, weather)
        invariant EndsInPolls(t.own, c, i) && (i > 0 ==> !(st.commands[c].required <= st.commands[c].acked))
      {
        var done;
        ghost var own := t.own;
        ok, done, t := ReadAcks(c, rooms, n, weather, t);
        OneMorePoll(own, c, i);
        n := n + 1;
        if !ok { AnyExcuse(t.own, c, maxPolls, weather, st); return; }
        if done { return; }
      }
      ok := false;
      t := TimeOut(c, rooms, maxPolls, n, weather, t);
    }

    /** `_publish_force_disconnect_strict`: true when it returns, false when it raises. The
        state afterwards is that of a run in which the publisher's own steps are these and
        all other steps come from the weather. */
    method PublishStrict(c: CommandId, rooms: seq<Room>, maxPolls: nat, weather: nat -> Weather)
      returns (ok: bool, ghost t: Trace)
      requires Sound(st) && c !in st.commands && maxPolls > 0
      modifies this
      ensures t.start == old(st)
      ensures if ok then IsGoing(t, c, rooms, Returned, weather) else IsOver(t, c, rooms, maxPolls, weather)
      ensures ok ==> forall sid <- st.commands[c].targets :: sid in st.sockets ==> MaySurvive(st, st.commands[c], sid)
      ensures ok ==> IsTrueRecord(t.start, t.run, c, st.commands[c]) && AwaitsTheLiving(st.commands[c])
      ensures ok ==> st.commands[c].required <= st.commands[c].acked && st.commands[c].dead !! st.members
    {
      var n;
      ok, n, t := RequiredWorkers(c, rooms, weather);
      if !ok { AnyExcuse(t.own, c, maxPolls, weather, st); return; }
      ok, t := Send(c, rooms, n, weather, t);
      if !ok { AnyExcuse(t.own, c, maxPolls, weather, st); return; }
      ok, t := AwaitAcks(c, rooms, maxPolls, n + 1, weather, t);
      if ok {
        SurvivorsOfReturned(st, c);
        TrueBooks(t, c, weather, st);
        assert RosterOk(st.workers, st.commands[c]);
      }
    }
  }
}
