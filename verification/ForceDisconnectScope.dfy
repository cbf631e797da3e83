/** Whom a force-disconnect reaches (socket_manager.py, the subscriber's cutting loop): only
    sockets in a room of the command. */
module ForceDisconnectScope {
  import opened Basics
  import opened ForceDisconnect
  import opened ForceDisconnectAwaited

  // A subscriber that cuts has a message that was sent; the rooms it has still to open are the
  // message's, and what it is about to disconnect is in one of them.
  predicate CutsInRooms(ss: Sockets, used: set<Sid>, cs: map<CommandId, Command>, w: WorkerId, k: Work)
    requires k.Cutting?
  {
    && k.command in cs && cs[k.command].sent && k.pending <= used
    && (forall r <- k.rooms :: r in cs[k.command].rooms)
    && (forall sid <- k.pending :: sid in ss ==> ss[sid].worker == w && InRooms(ss[sid], cs[k.command].rooms))
  }

  ghost predicate Scope(s: State) {
    forall w <- s.workers :: s.workers[w].work.Cutting? ==>
      CutsInRooms(s.sockets, s.used, s.commands, w, s.workers[w].work)
  }

  // Sockets keep their worker and their rooms, ids are not handed out twice, and commands keep
  // their rooms.
  ghost predicate Persists(s: State, t: State) {
    && s.used <= t.used
    && (forall sid <- t.sockets :: sid in s.used ==>
          sid in s.sockets && t.sockets[sid].worker == s.sockets[sid].worker
            && s.sockets[sid].rooms <= t.sockets[sid].rooms)
    && (forall c <- s.commands :: s.commands[c].sent ==>
          c in t.commands && t.commands[c].sent && t.commands[c].rooms == s.commands[c].rooms)
  }

  lemma StaysInRooms(s: State, t: State, w: WorkerId, k: Work)
    requires Persists(s, t) && k.Cutting? && CutsInRooms(s.sockets, s.used, s.commands, w, k)
    ensures CutsInRooms(t.sockets, t.used, t.commands, w, k)
  {
    var rooms := s.commands[k.command].rooms;
    forall sid <- k.pending | sid in t.sockets ensures InRooms(t.sockets[sid], rooms) {
      KeepsRooms(s.sockets, sid, t.sockets[sid], rooms);
    }
  }

  lemma WorkerPersists(s: State, e: Event)
    requires IsWorkerStep(e) && WorkerCan(s, e) && Inv(s)
    ensures Persists(s, WorkerStep(s, e))
  {
    WorkersLeaveCommands(s, e);
    SocketsOnlyGo(s, e);
  }

  lemma SocketsOnlyGo(s: State, e: Event)
    requires IsWorkerStep(e) && WorkerCan(s, e)
    ensures var t := WorkerStep(s, e);
            t.used == s.used && forall sid <- t.sockets :: sid in s.sockets && t.sockets[sid] == s.sockets[sid]
  {
  }

  lemma StepPersists(s: State, e: Event)
    requires Inv(s) && Books(s) && Enabled(s, e)
    ensures Persists(s, Apply(s, e))
  {
    if IsWorkerStep(e) {
      WorkerPersists(s, e);
    } else {
      forall c <- s.commands ensures c in Apply(s, e).commands && Remembers(s.commands[c], Apply(s, e).commands[c]) {
        StepRemembers(s, e, c);
      }
      if IsPublisherStep(e) {
        PublisherLeavesWorkers(s, e);
      }
    }
  }

  lemma PublisherLeavesWorkers(s: State, e: Event)
    requires IsPublisherStep(e) && PublisherCan(s, e)
    ensures var t := PublisherStep(s, e); t.workers == s.workers && t.sockets == s.sockets && t.used == s.used
  {
  }

  // What a worker does after a step of its process: what it did before, or nothing, or its
  // next message or room or socket.
  lemma OwnWork(s: State, e: Event)
    requires Inv(s) && Scope(s) && IsWorkerStep(e) && WorkerCan(s, e)
    ensures var k := WorkerStep(s, e).workers[e.w].work;
            e.w in WorkerStep(s, e).workers && (k.Cutting? ==> CutsInRooms(s.sockets, s.used, s.commands, e.w, k))
  {
    if e.OpenRoom? {
      OpensItsRoom(s, e.w);
    }
  }

  lemma OpensItsRoom(s: State, w: WorkerId)
    requires Inv(s) && Scope(s) && WorkerCan(s, OpenRoom(w))
    ensures var k := s.workers[w].work;
            CutsInRooms(s.sockets, s.used, s.commands, w, Cutting(k.command, k.rooms[1..], SocketsIn(s, w, k.rooms[0])))
  {
    var k := s.workers[w].work;
    assert k.rooms[0] in k.rooms && k.rooms[0] in s.commands[k.command].rooms;
  }

  lemma OthersWork(s: State, e: Event, w: WorkerId)
    requires IsWorkerStep(e) && WorkerCan(s, e) && w != e.w && w in WorkerStep(s, e).workers
    ensures w in s.workers && WorkerStep(s, e).workers[w] == s.workers[w]
  {
  }

  lemma StepKeepsScope(s: State, e: Event)
    requires Inv(s) && Books(s) && Scope(s) && Enabled(s, e)
    ensures Scope(Apply(s, e))
  {
    var t := Apply(s, e);
    StepPersists(s, e);
    forall w <- t.workers | t.workers[w].work.Cutting?
      ensures CutsInRooms(t.sockets, t.used, t.commands, w, t.workers[w].work)
    {
      if IsWorkerStep(e) && e.w == w {
        OwnWork(s, e);
      } else if IsWorkerStep(e) {
        OthersWork(s, e, w);
      } else if IsPublisherStep(e) {
        PublisherLeavesWorkers(s, e);
      }
      StaysInRooms(s, t, w, t.workers[w].work);
    }
  }

  lemma {:induction false} RunKeepsScope(s: State, run: seq<Event>)
    requires Inv(s) && Books(s) && Scope(s) && Legal(s, run)
    ensures Inv(Exec(s, run)) && Scope(Exec(s, run))
    decreases |run|
  {
    if run != [] {
      StepKeeps(s, run[0]);
      StepKeepsBooks(s, run[0]);
      StepKeepsScope(s, run[0]);
      RunKeepsScope(Apply(s, run[0]), run[1..]);
    }
  }

  // In every run: a step with which a socket goes is the client's own leaving or the end of its
  // process; or the worker is at a command that was sent, and the socket is in a room of it.
  lemma OnlyTargetsAreCut(s0: State, run: seq<Event>, e: Event, sid: Sid)
    requires Initial(s0) && Legal(s0, run) && Enabled(Exec(s0, run), e)
    requires sid in Exec(s0, run).sockets && sid !in Apply(Exec(s0, run), e).sockets
    ensures var s := Exec(s0, run);
            var w := s.sockets[sid].worker;
            || e == Leave(sid)
            || At(Apply(s, e), w, Exited)
            || (w in s.workers && s.workers[w].work.Cutting? && s.workers[w].work.command in s.commands
                && var k := s.commands[s.workers[w].work.command]; k.sent && InRooms(s.sockets[sid], k.rooms))
  {
    InitialOk(s0);
    RunKeepsScope(s0, run);
    var s := Exec(s0, run);
    if IsWorkerStep(e) {
      GoesWith(s, e, sid);
      if e.CutOne? {
        assert CutsInRooms(s.sockets, s.used, s.commands, e.w, s.workers[e.w].work);
      }
    } else if IsPublisherStep(e) {
      PublisherLeavesWorkers(s, e);
    }
  }

  lemma GoesWith(s: State, e: Event, sid: Sid)
    requires IsWorkerStep(e) && WorkerCan(s, e) && sid in s.sockets && sid !in WorkerStep(s, e).sockets
    ensures At(WorkerStep(s, e), s.sockets[sid].worker, Exited) || e == CutOne(e.w, sid)
  {
  }
}
