/** Why the ACK guarantee of the force-disconnect protocol cannot be stated for more workers
    than it is: concrete runs. */
module ForceDisconnectRuns {
  import Heartbeat
  import opened ForceDisconnect
  import opened ForceDisconnectAwaited

  // ---- reachable states ------------------------------------------------------------

  ghost predicate Reachable(s: State) {
    exists s0, run :: Reaches(s0, run, s)
  }

  predicate Reaches(s0: State, run: seq<Event>, s: State) {
    Initial(s0) && Legal(s0, run) && Exec(s0, run) == s
  }

  lemma {:induction false} ExecSnoc(s: State, run: seq<Event>, e: Event)
    requires Legal(s, run) && Enabled(Exec(s, run), e)
    ensures Legal(s, run + [e])
    ensures Exec(s, run + [e]) == Apply(Exec(s, run), e)
    decreases |run|
  {
    if |run| == 0 {
      assert run + [e] == [e] && [e][1..] == [];
      assert Legal(Apply(s, e), []);
    } else {
      assert (run + [e])[0] == run[0] && (run + [e])[1..] == run[1..] + [e];
      ExecSnoc(Apply(s, run[0]), run[1..], e);
    }
  }

  lemma Then(s: State, e: Event)
    requires Reachable(s) && Enabled(s, e)
    ensures Reachable(Apply(s, e))
  {
    var s0, run :| Reaches(s0, run, s);
    ExecSnoc(s0, run, e);
    assert Reaches(s0, run + [e], Apply(s, e));
  }

  lemma ThenWorker(s: State, e: Event)
    requires Reachable(s) && IsWorkerStep(e) && WorkerCan(s, e)
    ensures Reachable(WorkerStep(s, e))
  {
    Then(s, e);
  }

  lemma ThenPublisher(s: State, e: Event)
    requires Reachable(s) && IsPublisherStep(e) && PublisherCan(s, e)
    ensures Reachable(PublisherStep(s, e))
  {
    Then(s, e);
  }

  lemma ThenWorld(s: State, e: Event)
    requires Reachable(s) && !IsWorkerStep(e) && !IsPublisherStep(e) && WorldCan(s, e)
    ensures Reachable(WorldStep(s, e))
  {
    Then(s, e);
  }

  // ---- pieces of a run ---------------------------------------------------------------

  // The process is in this phase and idle.
  function InPhase(s: State, w: WorkerId, p: Phase): State {
    WithWorker(s, w, Worker(p, Heartbeat.Registered(s.now, s.timing), Idle))
  }

  function Known(s: State, w: WorkerId): State {
    WithHeartbeat(s, w).(members := s.members + {w})
  }

  function Up(s: State, w: WorkerId): State {
    InPhase(Known(s, w), w, Serving)
  }

  // The process is there and listens, but has told nobody.
  lemma Listens(s: State, w: WorkerId)
    requires Reachable(s) && w !in s.workers
    ensures Reachable(InPhase(s, w, Subscribed))
  {
    ThenWorker(s, Boot(w));
    var s1 := InPhase(s, w, Booting);
    assert WorkerStep(s, Boot(w)) == s1;
    ThenWorker(s1, Subscribe(w));
    assert WorkerStep(s1, Subscribe(w)) == InPhase(s, w, Subscribed);
  }

  lemma Announces(s: State, w: WorkerId)
    requires Reachable(InPhase(s, w, Subscribed))
    ensures Reachable(InPhase(WithHeartbeat(s, w), w, Announced))
  {
    var s1 := InPhase(s, w, Subscribed);
    ThenWorker(s1, Announce(w));
    assert s1.workers[w := Worker(Announced, Heartbeat.Registered(s.now, s.timing), Idle)]
           == s.workers[w := Worker(Announced, Heartbeat.Registered(s.now, s.timing), Idle)];
  }

  // Heartbeat first, then the set.
  lemma Registers(s: State, w: WorkerId)
    requires Reachable(InPhase(s, w, Subscribed))
    ensures Reachable(InPhase(Known(s, w), w, Registered))
  {
    Announces(s, w);
    var s2 := InPhase(WithHeartbeat(s, w), w, Announced);
    ThenWorker(s2, Register(w));
    assert s2.workers[w := Worker(Registered, Heartbeat.Registered(s.now, s.timing), Idle)]
           == s.workers[w := Worker(Registered, Heartbeat.Registered(s.now, s.timing), Idle)];
  }

  // Subscribe, register, serve.
  lemma StartUp(s: State, w: WorkerId)
    requires Reachable(s) && w !in s.workers
    ensures Reachable(Up(s, w))
  {
    Listens(s, w);
    Registers(s, w);
    var s1 := InPhase(Known(s, w), w, Registered);
    ThenWorker(s1, Serve(w));
    assert WorkerStep(s1, Serve(w)) == Up(s, w);
  }

  function Plugged(s: State, w: WorkerId, sid: Sid, room: Room): State {
    WithSocket(s, sid, Socket(w, {room}))
  }

  // A client connects and is put into a room.
  lemma PlugIn(s: State, w: WorkerId, sid: Sid, room: Room)
    requires Reachable(s) && At(s, w, Serving) && sid !in s.used
    ensures Reachable(Plugged(s, w, sid, room))
  {
    ThenWorld(s, Connect(w, sid));
    var s1 := WithSocket(s, sid, Socket(w, {}));
    assert WorldStep(s, Connect(w, sid)) == s1;
    ThenWorld(s1, Join(sid, room));
    assert {} + {room} == {room} && s1.used + {sid} == s1.used;
    assert WorldStep(s1, Join(sid, room)) == Plugged(s, w, sid, room);
  }

  // The worker as it is, but in another phase and idle.
  function MovedOn(s: State, w: WorkerId, p: Phase): State
    requires w in s.workers
  {
    WithWorker(s, w, s.workers[w].(phase := p, work := Idle))
  }

  function Gone(s: State, w: WorkerId): State
    requires w in s.workers
  {
    MovedOn(s, w, Removed).(members := s.members - {w}, heartbeats := s.heartbeats - {w})
  }

  // A drain in which no client could be disconnected: the failure is only logged.
  lemma DrainsLeaky(s: State, w: WorkerId)
    requires Reachable(s) && At(s, w, Serving)
    ensures Reachable(MovedOn(s, w, Drained))
  {
    ThenWorker(s, Drain(w));
    var s1 := WithWorker(s, w, s.workers[w].(phase := Draining));
    assert WorkerStep(s, Drain(w)) == s1;
    ThenWorker(s1, FinishDrain(w));
    assert WorkerStep(s1, FinishDrain(w)) == MovedOn(s, w, Drained);
  }

  lemma ShutDown(s: State, w: WorkerId)
    requires Reachable(s) && At(s, w, Serving)
    ensures Reachable(Gone(s, w))
  {
    DrainsLeaky(s, w);
    var s2 := MovedOn(s, w, Drained);
    ThenWorker(s2, StopHeartbeat(w));
    var s3 := MovedOn(s, w, Stopped);
    assert WorkerStep(s2, StopHeartbeat(w)) == s3;
    Leaves(s, w);
  }

  // The end of a shutdown: out of the set, and the key dropped.
  lemma Leaves(s: State, w: WorkerId)
    requires w in s.workers && Reachable(MovedOn(s, w, Stopped))
    ensures Reachable(Gone(s, w))
  {
    var s3 := MovedOn(s, w, Stopped);
    ThenWorker(s3, Deregister(w));
    var s4 := MovedOn(s, w, Removed).(members := s.members - {w});
    assert WorkerStep(s3, Deregister(w)) == s4;
    ThenWorker(s4, DropHeartbeat(w));
    assert WorkerStep(s4, DropHeartbeat(w)) == Gone(s, w);
  }

  // The publisher has only worker `w` left to look at, and `w` has no such socket:
  // it checks, publishes, gets the one ACK and returns.
  lemma Confirm(s: State, c: CommandId, w: WorkerId, room: Room) returns (t: State)
    requires Reachable(s) && At(s, w, Serving) && s.workers[w].work.Idle? && KeyLive(s, w)
    requires c in s.commands && s.commands[c].stage.Checking? && !s.commands[c].sent
    requires s.commands[c].todo == {w} && s.commands[c].required == {} && s.commands[c].rooms == [room]
    requires SocketsIn(s, w, room) == {} && c !in s.acks
    ensures Reachable(t) && c in t.commands && t.commands[c].stage.Returned?
    ensures t.commands[c].targets == TargetsOf(s, [room]) && t.commands[c].listed == s.commands[c].listed
    ensures t.commands[c].dead == s.commands[c].dead
    ensures t.sockets == s.sockets
    ensures t.workers.Keys == s.workers.Keys && forall w' <- s.workers :: t.workers[w'].phase == s.workers[w'].phase
  {
    var s3 := Published(s, c, w, room);
    t := Acknowledge(s3, c, w, room);
  }

  lemma Published(s: State, c: CommandId, w: WorkerId, room: Room) returns (t: State)
    requires Reachable(s) && KeyLive(s, w)
    requires c in s.commands && s.commands[c].stage.Checking? && !s.commands[c].sent
    requires s.commands[c].todo == {w} && s.commands[c].required == {} && s.commands[c].rooms == [room]
    ensures Reachable(t) && t.sockets == s.sockets && t.workers == s.workers && t.acks == s.acks && c in t.commands
    ensures var k := t.commands[c];
            k.stage.Polling? && k.sent && k.required == {w} && k.rooms == [room]
            && k.targets == TargetsOf(s, [room]) && k.listed == s.commands[c].listed && k.dead == s.commands[c].dead
  {
    ThenPublisher(s, Check(c, w));
    var k := s.commands[c].(todo := {}, required := {w}, seen := s.commands[c].seen[w := Sight(s, w)]);
    var s1 := WithCommand(s, c, k);
    assert {w} - {w} == {} && {} + {w} == {w};
    assert PublisherStep(s, Check(c, w)) == s1;
    ThenPublisher(s1, Prune(c));
    var s2 := WithCommand(s1.(members := s.members - k.dead), c, k.(stage := Ready));
    assert PublisherStep(s1, Prune(c)) == s2;
    ThenPublisher(s2, Publish(c));
    t := PublisherStep(s2, Publish(c));
    assert TargetsOf(s2, [room]) == TargetsOf(s, [room]);
  }

  // The subscriber of a worker without such sockets goes through the command.
  lemma WalksThrough(s: State, c: CommandId, w: WorkerId, room: Room)
    requires Reachable(s) && At(s, w, Serving) && s.workers[w].work.Idle?
    requires c in s.commands && s.commands[c].sent && s.commands[c].rooms == [room]
    requires SocketsIn(s, w, room) == {}
    ensures Reachable(WithWorker(s, w, s.workers[w].(work := Cutting(c, [], {}))))
  {
    ThenWorker(s, Receive(w, c));
    var s1 := WithWorker(s, w, s.workers[w].(work := Cutting(c, [room], {})));
    assert WorkerStep(s, Receive(w, c)) == s1;
    ThenWorker(s1, OpenRoom(w));
    assert SocketsIn(s1, w, room) == {} && [room][1..] == [];
    assert WorkerStep(s1, OpenRoom(w)) == WithWorker(s, w, s.workers[w].(work := Cutting(c, [], {})));
  }

  lemma Acknowledge(s: State, c: CommandId, w: WorkerId, room: Room) returns (t: State)
    requires Reachable(s) && At(s, w, Serving) && s.workers[w].work.Idle?
    requires c in s.commands && s.commands[c].stage.Polling? && s.commands[c].sent
    requires s.commands[c].required == {w} && s.commands[c].rooms == [room]
    requires SocketsIn(s, w, room) == {} && c !in s.acks
    ensures Reachable(t) && c in t.commands && t.commands[c].stage.Returned?
    ensures t.commands[c].targets == s.commands[c].targets && t.commands[c].listed == s.commands[c].listed
    ensures t.commands[c].dead == s.commands[c].dead
    ensures t.sockets == s.sockets
    ensures t.workers.Keys == s.workers.Keys && forall w' <- s.workers :: t.workers[w'].phase == s.workers[w'].phase
  {
    WalksThrough(s, c, w, room);
    var s1 := WithWorker(s, w, s.workers[w].(work := Cutting(c, [], {})));
    ThenWorker(s1, Ack(w));
    var s2 := WithWorker(WithAcks(s, c, {w}), w, s.workers[w]);
    assert AckSet(s1.acks, c) + {w} == {w};
    assert WorkerStep(s1, Ack(w)) == s2;
    ThenPublisher(s2, Poll(c));
    t := PublisherStep(s2, Poll(c));
  }

  // ---- the guarantee is as wide as it can be ---------------------------------------------

  lemma QuietIsReachable()
    ensures Reachable(Quiet())
  {
    assert Legal(Quiet(), []);
    assert Reaches(Quiet(), [], Quiet());
  }

  function Quiet(): State {
    State(Heartbeat.Timing(1, 1, 1, 10), 0, map[], {}, map[], map[], map[], {}, map[])
  }

  // Not for every worker alive at PUBLISH: one that starts after SMEMBERS and before
  // PUBLISH is not asked, and its socket survives a publish that returned.
  lemma LateStarterKeepsItsSocket(room: Room)
    ensures exists s: State, c, sid ::
              && Reachable(s) && c in s.commands && s.commands[c].stage.Returned?
              && sid in s.commands[c].targets && sid in s.sockets
              && At(s, s.sockets[sid].worker, Serving) && s.sockets[sid].worker !in s.commands[c].listed
  {
    QuietIsReachable();
    StartUp(Quiet(), 1);
    var s1 := Up(Quiet(), 1);
    ThenPublisher(s1, Snapshot(0, [room]));
    var s2 := PublisherStep(s1, Snapshot(0, [room]));
    assert s2.commands[0].todo == {1};
    StartUp(s2, 2);
    PlugIn(Up(s2, 2), 2, 7, room);
    var s3 := Plugged(Up(s2, 2), 2, 7, room);
    var t := Confirm(s3, 0, 1, room);
    assert InRooms(s3.sockets[7], [room]) by { assert room in [room] && room in s3.sockets[7].rooms; }
    assert 7 in t.commands[0].targets;
  }

  // Two workers serve, the second one holds socket 7.
  function TwoWorkers(room: Room): State {
    Plugged(Up(Up(Quiet(), 1), 2), 2, 7, room)
  }

  lemma TwoWorkersRun(room: Room)
    ensures Reachable(TwoWorkers(room))
  {
    QuietIsReachable();
    StartUp(Quiet(), 1);
    StartUp(Up(Quiet(), 1), 2);
    PlugIn(Up(Up(Quiet(), 1), 2), 2, 7, room);
  }

  // A publisher takes its snapshot, then the second worker shuts down and is found gone.
  lemma SecondWorkerLeaves(room: Room) returns (t: State)
    ensures Reachable(t) && t.sockets == TwoWorkers(room).sockets
    ensures At(t, 1, Serving) && t.workers[1].work.Idle? && KeyLive(t, 1) && 0 in t.commands && t.acks == map[]
    ensures var k := t.commands[0];
            && k.stage.Checking? && !k.sent && k.todo == {1} && k.required == {} && k.rooms == [room]
            && k.listed == {1, 2}
  {
    TwoWorkersRun(room);
    var s1 := TwoWorkers(room);
    ThenPublisher(s1, Snapshot(0, [room]));
    var k := Command([room], Checking, false, {1, 2}, {}, {}, {}, {1, 2}, map[], {});
    var s2 := WithCommand(s1, 0, k);
    assert s1.members == {1, 2};
    assert PublisherStep(s1, Snapshot(0, [room])) == s2;
    ShutDown(s2, 2);
    t := FoundGone(Gone(s2, 2), k);
  }

  lemma FoundGone(s: State, k: Command) returns (t: State)
    requires Reachable(s) && 0 in s.commands && s.commands[0] == k && k.stage.Checking? && k.todo == {1, 2}
             && !KeyLive(s, 2)
    ensures Reachable(t)
    ensures t == WithCommand(s, 0, k.(todo := {1}, dead := k.dead + {2}, seen := k.seen[2 := Sight(s, 2)]))
  {
    ThenPublisher(s, Check(0, 2));
    t := PublisherStep(s, Check(0, 2));
    assert k.todo - {2} == {1};
  }

  // Not for a worker that was on duty at SMEMBERS but then shut down without managing to
  // disconnect its clients: it is dropped from the set while its process still holds them.
  lemma LeakyShutdownKeepsItsSocket(room: Room)
    ensures exists s: State, c, sid ::
              && Reachable(s) && c in s.commands && s.commands[c].stage.Returned?
              && sid in s.commands[c].targets && sid in s.sockets
              && s.sockets[sid].worker in s.commands[c].listed
  {
    var s := SecondWorkerLeaves(room);
    assert s.sockets[7] == Socket(2, {room});
    var t := Confirm(s, 0, 1, room);
    assert InRooms(s.sockets[7], [room]) by { assert room in [room] && room in s.sockets[7].rooms; }
    assert 7 in t.commands[0].targets;
  }

  // ---- a crashed worker does not hold up a publish ---------------------------------------------

  // Worker 2 has crashed long ago and is still in the set, worker 1 serves.
  function Crashed(): State {
    Kill(Up(Quiet(), 2), 2).(now := 100)
  }

  lemma Crashes(s: State, w: WorkerId)
    requires Reachable(s) && w in s.workers
    ensures Reachable(Kill(s, w))
  {
    ThenWorker(s, Exit(w));
  }

  lemma CrashedIsReachable()
    ensures Reachable(Up(Crashed(), 1))
  {
    QuietIsReachable();
    StartUp(Quiet(), 2);
    Crashes(Up(Quiet(), 2), 2);
    ThenWorld(Kill(Up(Quiet(), 2), 2), Tick(100));
    StartUp(Crashed(), 1);
  }

  // A publish that lists both returns, with worker 2 found dead and out of the set.
  lemma CrashedWorkerIsNotAwaited(room: Room)
    ensures exists s: State, c ::
              && Reachable(s) && c in s.commands && s.commands[c].stage.Returned?
              && s.commands[c].listed == {1, 2} && 2 in s.commands[c].dead && 2 !in s.members
  {
    CrashedIsReachable();
    var s1 := Up(Crashed(), 1);
    ThenPublisher(s1, Snapshot(0, [room]));
    var k := Command([room], Checking, false, {1, 2}, {}, {}, {}, {1, 2}, map[], {});
    var s2 := WithCommand(s1, 0, k);
    assert s1.members == {1, 2};
    assert PublisherStep(s1, Snapshot(0, [room])) == s2;
    var s3 := FoundGone(s2, k);
    var t := Confirm(s3, 0, 1, room);
    DeadAreOut(t, 0);
  }

  lemma DeadAreOut(s: State, c: CommandId)
    requires Reachable(s) && c in s.commands && HasPruned(s.commands[c])
    ensures s.commands[c].dead !! s.members
  {
    var s0, run :| Reaches(s0, run, s);
    forall w <- s.commands[c].dead ensures w !in s.members {
      AwaitedExactlyWhenAlive(s0, run, c, w);
    }
  }
}
