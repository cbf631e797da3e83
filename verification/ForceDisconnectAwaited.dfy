/** Whom a strict publish waits for (socket_manager.py, `_required_workers` and the polling
    loop): exactly the listed workers whose heartbeat key was alive when it was looked at. */
module ForceDisconnectAwaited {
  import opened Basics
  import opened ForceDisconnect

  // ---- the books of a command ----------------------------------------------------------------

  // SMEMBERS, every EXISTS and SREM are done, and the publish goes on, returned or was refused.
  predicate HasPruned(k: Command) {
    k.stage.Ready? || k.stage.Polling? || k.stage.Returned? || k.stage.Refused?
  }

  predicate SeenOk(k: Command) {
    && k.todo !! k.seen.Keys && k.listed == k.todo + k.seen.Keys && k.required + k.dead == k.seen.Keys
    && (forall w <- k.seen :: (w in k.required <==> k.seen[w].Alive()) && (w in k.dead <==> !k.seen[w].Alive()))
  }

  predicate StageOk(k: Command) {
    && (HasPruned(k) ==> k.todo == {})
    && (k.stage.Ready? || k.stage.Polling? || k.stage.Returned? ==> k.required != {})
    && (k.stage.Refused? ==> k.required == {})
    && (k.stage.Polling? ==> !(k.required <= k.acked))
    && (k.stage.Checking? || k.stage.Ready? ==> k.acked == {})
  }

  predicate BookOk(members: set<WorkerId>, k: Command) {
    SeenOk(k) && StageOk(k) && (HasPruned(k) ==> k.dead !! members)
  }

  ghost predicate Books(s: State) {
    forall c <- s.commands :: BookOk(s.members, s.commands[c])
  }

  // Whoever registers is not among the dead of any command.
  lemma RegisterKeepsBooks(s: State, w: WorkerId)
    requires Inv(s) && Books(s) && At(s, w, Announced)
    ensures forall c <- s.commands :: BookOk(s.members + {w}, s.commands[c])
  {
    forall c <- s.commands ensures BookOk(s.members + {w}, s.commands[c]) {
      assert RosterOk(s.workers, s.commands[c]) && BookOk(s.members, s.commands[c]);
    }
  }

  lemma WorkersLeaveCommands(s: State, e: Event)
    requires IsWorkerStep(e) && WorkerCan(s, e)
    ensures WorkerStep(s, e).commands == s.commands
    ensures WorkerStep(s, e).members <= s.members + if e.Register? then {e.w} else {}
  {
  }

  lemma WorldLeavesCommands(s: State, e: Event)
    requires WorldCan(s, e)
    ensures WorldStep(s, e).commands == s.commands && WorldStep(s, e).members == s.members
  {
  }

  lemma FewerMembers(members: set<WorkerId>, fewer: set<WorkerId>, k: Command)
    requires BookOk(members, k) && fewer <= members
    ensures BookOk(fewer, k)
  {
  }

  // A publisher changes its own command, and takes workers out of the set.
  lemma PublisherLeavesOthers(s: State, e: Event, c: CommandId)
    requires IsPublisherStep(e) && PublisherCan(s, e) && c in s.commands && c != e.c
    ensures var t := PublisherStep(s, e); c in t.commands && t.commands[c] == s.commands[c]
  {
  }

  lemma PublisherTakesOut(s: State, e: Event)
    requires IsPublisherStep(e) && PublisherCan(s, e)
    ensures var t := PublisherStep(s, e);
            t.members <= s.members && t.commands.Keys <= s.commands.Keys + {e.c}
  {
  }

  lemma CheckKeepsBook(s: State, c: CommandId, w: WorkerId)
    requires PublisherCan(s, Check(c, w)) && BookOk(s.members, s.commands[c])
    ensures SeenOk(PublisherStep(s, Check(c, w)).commands[c])
  {
    assert Sight(s, w).Alive() <==> KeyLive(s, w);
  }

  lemma OwnBookKept(s: State, e: Event)
    requires IsPublisherStep(e) && PublisherCan(s, e) && Books(s)
    ensures var t := PublisherStep(s, e); e.c in t.commands ==> BookOk(t.members, t.commands[e.c])
  {
    if e.c in s.commands {
      assert BookOk(s.members, s.commands[e.c]);
    }
    if e.Check? {
      CheckKeepsBook(s, e.c, e.w);
    }
  }

  lemma PublisherKeepsBooks(s: State, e: Event)
    requires IsPublisherStep(e) && PublisherCan(s, e) && Books(s)
    ensures Books(PublisherStep(s, e))
  {
    var t := PublisherStep(s, e);
    PublisherTakesOut(s, e);
    OwnBookKept(s, e);
    forall c <- t.commands | c != e.c ensures BookOk(t.members, t.commands[c]) {
      PublisherLeavesOthers(s, e, c);
      FewerMembers(s.members, t.members, s.commands[c]);
    }
  }

  lemma StepKeepsBooks(s: State, e: Event)
    requires Inv(s) && Books(s) && Enabled(s, e)
    ensures Books(Apply(s, e))
  {
    if IsPublisherStep(e) {
      PublisherKeepsBooks(s, e);
    } else if IsWorkerStep(e) {
      WorkersLeaveCommands(s, e);
      if e.Register? {
        RegisterKeepsBooks(s, e.w);
      }
      var t := WorkerStep(s, e);
      forall c <- t.commands ensures BookOk(t.members, t.commands[c]) {
        FewerMembers(s.members + if e.Register? then {e.w} else {}, t.members, s.commands[c]);
      }
    } else {
      WorldLeavesCommands(s, e);
    }
  }

  lemma {:induction false} RunKeepsBooks(s: State, run: seq<Event>)
    requires Inv(s) && Books(s) && Legal(s, run)
    ensures Inv(Exec(s, run)) && Books(Exec(s, run))
    decreases |run|
  {
    if run != [] {
      StepKeeps(s, run[0]);
      StepKeepsBooks(s, run[0]);
      RunKeepsBooks(Apply(s, run[0]), run[1..]);
    }
  }

  lemma EndOfRun(s0: State, run: seq<Event>, c: CommandId)
    requires Initial(s0) && Legal(s0, run) && c in Exec(s0, run).commands
    ensures var s := Exec(s0, run); BookOk(s.members, s.commands[c])
  {
    InitialOk(s0);
    RunKeepsBooks(s0, run);
  }

  // ---- who is waited for ------------------------------------------------------------------------

  // Of the listed workers those are waited for whose key was alive when it was looked at.
  ghost predicate AwaitsTheLiving(k: Command) {
    k.seen.Keys == k.listed && forall w :: w in k.required <==> w in k.listed && k.seen[w].Alive()
  }

  // In every run: a listed worker has either still to be looked at, or what was there then is
  // on record; it is waited for if and only if its key was alive at that moment, and dead if
  // and only if it was not. From the pruning to the end of the publish none of the dead is in
  // the worker set.
  lemma AwaitedExactlyWhenAlive(s0: State, run: seq<Event>, c: CommandId, w: WorkerId)
    requires Initial(s0) && Legal(s0, run) && c in Exec(s0, run).commands
    ensures var s := Exec(s0, run);
            var k := s.commands[c];
            && (w in k.listed <==> w in k.todo || w in k.seen) && !(w in k.todo && w in k.seen)
            && (w in k.required <==> w in k.seen && k.seen[w].Alive())
            && (w in k.dead <==> w in k.seen && !k.seen[w].Alive())
            && (HasPruned(k) && w in k.dead ==> w !in s.members)
  {
    EndOfRun(s0, run, c);
    assert w in Exec(s0, run).commands[c].required + Exec(s0, run).commands[c].dead <==>
      w in Exec(s0, run).commands[c].seen;
  }

  // Once everybody was looked at and the dead were pruned, the publish is refused if and only
  // if no listed worker's key was alive when it was looked at.
  lemma RefusedExactlyWhenNobodyIsAlive(s0: State, run: seq<Event>, c: CommandId)
    requires Initial(s0) && Legal(s0, run)
    requires c in Exec(s0, run).commands && HasPruned(Exec(s0, run).commands[c])
    ensures var k := Exec(s0, run).commands[c];
            k.seen.Keys == k.listed && (k.stage.Refused? <==> forall w <- k.listed :: !k.seen[w].Alive())
  {
    EndOfRun(s0, run, c);
    var k := Exec(s0, run).commands[c];
    if !k.stage.Refused? {
      var w :| w in k.required;
      assert w in k.required + k.dead && w in k.listed && k.seen[w].Alive();
    }
  }

  // The next poll returns if and only if it finds the ACK of every listed worker whose key was
  // alive when it was looked at.
  lemma PollReturnsExactly(s0: State, run: seq<Event>, c: CommandId)
    requires Initial(s0) && Legal(s0, run) && Enabled(Exec(s0, run), Poll(c))
    ensures var s := Exec(s0, run);
            var k := s.commands[c];
            var t := Apply(s, Poll(c));
            && k.seen.Keys == k.listed && c in t.commands
            && (t.commands[c].stage.Returned? <==>
                forall w <- k.listed :: k.seen[w].Alive() ==> w in AckSet(s.acks, c))
  {
    EndOfRun(s0, run, c);
    var s := Exec(s0, run);
    AwaitedAre(s.commands[c], AckSet(s.acks, c));
  }

  lemma AwaitedAre(k: Command, acks: set<WorkerId>)
    requires SeenOk(k) && StageOk(k) && HasPruned(k)
    ensures AwaitsTheLiving(k)
    ensures k.required <= acks <==> forall w <- k.listed :: k.seen[w].Alive() ==> w in acks
  {
    forall w ensures w in k.required <==> w in k.listed && k.seen[w].Alive() {
      assert w in k.required + k.dead <==> w in k.seen;
    }
  }

  // ---- the record is true ------------------------------------------------------------------------
  // What a command records of the past is what was there at a moment of the run.

  predicate HasSeen(s: State, c: CommandId, w: WorkerId) {
    c in s.commands && w in s.commands[c].seen
  }

  predicate HasSent(s: State, c: CommandId) {
    c in s.commands && s.commands[c].sent
  }

  // When the command began, these were the members.
  ghost predicate WereMembers(s: State, run: seq<Event>, c: CommandId, listed: set<WorkerId>)
    requires Legal(s, run)
    decreases |run|
  {
    run != []
    && var t := Apply(s, run[0]);
       || (c !in s.commands && c in t.commands && s.members == listed)
       || WereMembers(t, run[1..], c, listed)
  }

  // When `w` was looked at, this is what was there.
  ghost predicate WasThere(s: State, run: seq<Event>, c: CommandId, w: WorkerId, seen: Sighting)
    requires Legal(s, run)
    decreases |run|
  {
    run != []
    && var t := Apply(s, run[0]);
       || (c in s.commands && w in s.commands[c].todo && HasSeen(t, c, w) && Sight(s, w) == seen)
       || WasThere(t, run[1..], c, w, seen)
  }

  // When the message went out, these were the sockets in a target room.
  ghost predicate WereInRooms(s: State, run: seq<Event>, c: CommandId, rooms: seq<Room>, targets: set<Sid>)
    requires Legal(s, run)
    decreases |run|
  {
    run != []
    && var t := Apply(s, run[0]);
       || (!HasSent(s, c) && HasSent(t, c) && TargetsOf(s, rooms) == targets)
       || WereInRooms(t, run[1..], c, rooms, targets)
  }

  ghost predicate IsTrueRecord(s: State, run: seq<Event>, c: CommandId, k: Command)
    requires Legal(s, run)
  {
    && WereMembers(s, run, c, k.listed)
    && (forall w <- k.seen :: WasThere(s, run, c, w, k.seen[w]))
    && (k.sent ==> WereInRooms(s, run, c, k.rooms, k.targets))
  }

  // In every run: the listed workers, what was seen of each, and the targets are true records.
  lemma RecordsAreTrue(s0: State, run: seq<Event>, c: CommandId)
    requires Initial(s0) && Legal(s0, run) && c in Exec(s0, run).commands
    ensures IsTrueRecord(s0, run, c, Exec(s0, run).commands[c])
  {
    InitialOk(s0);
    RecordedSince(s0, run, c);
  }

  // The same since any state in which there was no such command.
  lemma RecordedSince(s: State, run: seq<Event>, c: CommandId)
    requires Books(s) && Inv(s) && Legal(s, run) && c !in s.commands && c in Exec(s, run).commands
    ensures IsTrueRecord(s, run, c, Exec(s, run).commands[c])
  {
    var k := Exec(s, run).commands[c];
    NewlyListed(s, run, c);
    forall w <- k.seen ensures WasThere(s, run, c, w, k.seen[w]) {
      NewlySeen(s, run, c, w);
    }
    if k.sent {
      NewlySent(s, run, c);
    }
  }

  lemma {:induction false} NewlyListed(s: State, run: seq<Event>, c: CommandId)
    requires Inv(s) && Books(s) && Legal(s, run) && c !in s.commands && c in Exec(s, run).commands
    ensures WereMembers(s, run, c, Exec(s, run).commands[c].listed)
    decreases |run|
  {
    var t := Apply(s, run[0]);
    StepKeeps(s, run[0]);
    StepKeepsBooks(s, run[0]);
    if c in t.commands {
      StepBegins(s, run[0], c);
      RecordStays(t, run[1..], c);
    } else {
      NewlyListed(t, run[1..], c);
    }
  }

  lemma {:induction false} NewlySeen(s: State, run: seq<Event>, c: CommandId, w: WorkerId)
    requires Inv(s) && Books(s) && Legal(s, run) && !HasSeen(s, c, w) && HasSeen(Exec(s, run), c, w)
    ensures WasThere(s, run, c, w, Exec(s, run).commands[c].seen[w])
    decreases |run|
  {
    var t := Apply(s, run[0]);
    StepKeeps(s, run[0]);
    StepKeepsBooks(s, run[0]);
    if HasSeen(t, c, w) {
      StepSees(s, run[0], c, w);
      RecordStays(t, run[1..], c);
    } else {
      NewlySeen(t, run[1..], c, w);
    }
  }

  lemma {:induction false} NewlySent(s: State, run: seq<Event>, c: CommandId)
    requires Inv(s) && Books(s) && Legal(s, run) && !HasSent(s, c) && HasSent(Exec(s, run), c)
    ensures var k := Exec(s, run).commands[c]; WereInRooms(s, run, c, k.rooms, k.targets)
    decreases |run|
  {
    var t := Apply(s, run[0]);
    StepKeeps(s, run[0]);
    StepKeepsBooks(s, run[0]);
    if HasSent(t, c) {
      StepSends(s, run[0], c);
      RecordStays(t, run[1..], c);
    } else {
      NewlySent(t, run[1..], c);
    }
  }

  // What is recorded once is never changed.
  predicate Remembers(k: Command, later: Command) {
    && later.rooms == k.rooms && later.listed == k.listed
    && (forall w <- k.seen :: w in later.seen && later.seen[w] == k.seen[w])
    && (k.sent ==> later.sent && later.targets == k.targets)
  }

  lemma {:induction false} RecordStays(s: State, run: seq<Event>, c: CommandId)
    requires Inv(s) && Books(s) && Legal(s, run) && c in s.commands
    ensures c in Exec(s, run).commands && Remembers(s.commands[c], Exec(s, run).commands[c])
    decreases |run|
  {
    if run != [] {
      StepKeeps(s, run[0]);
      StepKeepsBooks(s, run[0]);
      StepRemembers(s, run[0], c);
      RecordStays(Apply(s, run[0]), run[1..], c);
    }
  }

  lemma StepRemembers(s: State, e: Event, c: CommandId)
    requires Inv(s) && Books(s) && Enabled(s, e) && c in s.commands
    ensures c in Apply(s, e).commands && Remembers(s.commands[c], Apply(s, e).commands[c])
  {
    if IsWorkerStep(e) {
      WorkersLeaveCommands(s, e);
    } else if !IsPublisherStep(e) {
      WorldLeavesCommands(s, e);
    } else if e.c != c {
      PublisherLeavesOthers(s, e, c);
    } else {
      assert BookOk(s.members, s.commands[c]) && RosterOk(s.workers, s.commands[c]);
      OwnRemembered(s, e);
    }
  }

  lemma OwnRemembered(s: State, e: Event)
    requires IsPublisherStep(e) && PublisherCan(s, e) && e.c in s.commands
    requires var k := s.commands[e.c]; k.todo !! k.seen.Keys && (k.stage.Ready? ==> !k.sent)
    ensures e.c in PublisherStep(s, e).commands
    ensures Remembers(s.commands[e.c], PublisherStep(s, e).commands[e.c])
  {
  }

  // Which steps make a record, and of what.
  lemma StepBegins(s: State, e: Event, c: CommandId)
    requires Enabled(s, e) && c !in s.commands && c in Apply(s, e).commands
    ensures Apply(s, e).commands[c].listed == s.members
  {
    if IsWorkerStep(e) {
      WorkersLeaveCommands(s, e);
    } else if IsPublisherStep(e) {
      PublisherTakesOut(s, e);
    }
  }

  lemma StepSees(s: State, e: Event, c: CommandId, w: WorkerId)
    requires Enabled(s, e) && !HasSeen(s, c, w) && HasSeen(Apply(s, e), c, w)
    ensures c in s.commands && w in s.commands[c].todo && Apply(s, e).commands[c].seen[w] == Sight(s, w)
  {
    if IsWorkerStep(e) {
      WorkersLeaveCommands(s, e);
    } else if IsPublisherStep(e) {
      PublisherSees(s, e, c, w);
    }
  }

  lemma PublisherSees(s: State, e: Event, c: CommandId, w: WorkerId)
    requires IsPublisherStep(e) && PublisherCan(s, e) && !HasSeen(s, c, w) && HasSeen(PublisherStep(s, e), c, w)
    ensures c in s.commands && w in s.commands[c].todo && PublisherStep(s, e).commands[c].seen[w] == Sight(s, w)
  {
    if c in s.commands && e.c != c {
      PublisherLeavesOthers(s, e, c);
    }
  }

  lemma StepSends(s: State, e: Event, c: CommandId)
    requires Enabled(s, e) && !HasSent(s, c) && HasSent(Apply(s, e), c)
    ensures Apply(s, e).commands[c].targets == TargetsOf(s, Apply(s, e).commands[c].rooms)
  {
    if IsWorkerStep(e) {
      WorkersLeaveCommands(s, e);
    } else if IsPublisherStep(e) {
      if c in s.commands && e.c != c {
        PublisherLeavesOthers(s, e, c);
      }
    }
  }
}
