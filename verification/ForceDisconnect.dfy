/** The force-disconnect protocol (socket_manager.py, with the worker lifecycle of
    main.py): workers subscribe, register, serve sockets, drain and leave; publishers
    snapshot the required workers, publish a command and wait for an ACK of each.

    One state, one atomic step per Redis command or per event-loop step that other
    processes can observe. Every interleaving, crash, lost or late message is a run. */
module ForceDisconnect {
  import opened Basics
  import opened Heartbeat

  type WorkerId = nat
  type CommandId = nat
  type Sid = nat
  type Room = string

  /** Life of one worker process, in the order of the lifespan (main.py):
      Booting, SUBSCRIBE, heartbeat SET, SADD, thread start and serving, then
      disconnecting the clients, consumer cancelled, thread stopped, SREM, exit. */
  datatype Phase =
    | Booting | Subscribed | Announced | Registered | Serving
    | Draining | Drained | Stopped | Removed | Exited

  predicate Beating(p: Phase) {
    p.Announced? || p.Registered? || p.Serving? || p.Draining? || p.Drained?
  }

  // Between SADD and the end of the heartbeat thread.
  predicate Enlisted(p: Phase) {
    p.Registered? || p.Serving? || p.Draining? || p.Drained?
  }

  predicate Consuming(p: Phase) {
    p.Serving? || p.Draining?
  }

  // Has served and enforces: what a publisher must count on.
  predicate OnDuty(p: Phase) {
    p.Serving? || p.Draining? || p.Drained?
  }

  predicate OffDuty(p: Phase) {
    p.Stopped? || p.Removed? || p.Exited?
  }

  // What the subscriber of one worker is doing: `rooms` of the command still to be
  // opened, `pending` sids of the open room still to be disconnected.
  datatype Work = Idle | Cutting(command: CommandId, rooms: seq<Room>, pending: set<Sid>)

  datatype Worker = Worker(phase: Phase, beat: Beat, work: Work)

  datatype Socket = Socket(worker: WorkerId, rooms: set<Room>)

  // `Refused`: nobody alive to ask; `Raised`: a call failed, or the ACKs did not come in time.
  datatype Stage = Checking | Ready | Polling | Returned | Refused | Raised

  // What is there at one moment: the time, and the expiry of a heartbeat key, if there is one.
  datatype Sighting = Sighting(at: int, expiry: Option<int>) {
    predicate Alive() {
      expiry.Some? && at < expiry.value
    }
  }

  /** One call of `_publish_force_disconnect_strict`. The last three fields are history:
      the registered workers when SMEMBERS ran, what was there when each was looked at, the
      sockets in a target room when PUBLISH ran. `sent`: PUBLISH has run, so the message may
      still arrive anywhere. */
  datatype Command = Command(
    rooms: seq<Room>, stage: Stage, sent: bool,
    todo: set<WorkerId>, required: set<WorkerId>, dead: set<WorkerId>, acked: set<WorkerId>,
    listed: set<WorkerId>, seen: map<WorkerId, Sighting>, targets: set<Sid>)

  datatype State = State(
    timing: Timing, now: int,
    workers: map<WorkerId, Worker>,
    members: set<WorkerId>,              // socket:workers
    heartbeats: map<WorkerId, int>,      // socket:worker_hb:*, with expiry
    acks: map<CommandId, set<WorkerId>>, // socket:dc_ack:*
    sockets: map<Sid, Socket>, used: set<Sid>,
    commands: map<CommandId, Command>)

  datatype Event =
    | Tick(to: int)
    // worker lifecycle
    | Boot(w: WorkerId) | Subscribe(w: WorkerId) | Announce(w: WorkerId) | Register(w: WorkerId)
    | Serve(w: WorkerId) | Drain(w: WorkerId) | FinishDrain(w: WorkerId) | StopHeartbeat(w: WorkerId)
    | Deregister(w: WorkerId) | DropHeartbeat(w: WorkerId) | Exit(w: WorkerId)
    // heartbeat thread
    | BeatBegin(w: WorkerId) | BeatLand(w: WorkerId) | BeatEnd(w: WorkerId, ok: bool)
    // sockets
    | Connect(w: WorkerId, sid: Sid) | Join(sid: Sid, room: Room) | Leave(sid: Sid)
    // subscriber
    | Receive(w: WorkerId, c: CommandId) | OpenRoom(w: WorkerId) | CutOne(w: WorkerId, sid: Sid)
    | CutFails(w: WorkerId) | Ack(w: WorkerId) | AckExpires(c: CommandId)
    // publisher
    | Snapshot(c: CommandId, rooms: seq<Room>) | Check(c: CommandId, w: WorkerId) | Prune(c: CommandId)
    | Publish(c: CommandId) | Poll(c: CommandId) | GiveUp(c: CommandId)

  predicate IsPublisherStep(e: Event) {
    e.AckExpires? || e.Snapshot? || e.Check? || e.Prune? || e.Publish? || e.Poll? || e.GiveUp?
  }

  predicate IsWorkerStep(e: Event) {
    !IsPublisherStep(e) && !e.Tick? && !e.Connect? && !e.Join? && !e.Leave?
  }

  predicate At(s: State, w: WorkerId, p: Phase) {
    w in s.workers && s.workers[w].phase == p
  }

  predicate KeyLive(s: State, w: WorkerId) {
    w in s.heartbeats && s.now < s.heartbeats[w]
  }

  function Sight(s: State, w: WorkerId): Sighting {
    Sighting(s.now, if w in s.heartbeats then Some(s.heartbeats[w]) else None)
  }

  predicate InRooms(k: Socket, rooms: seq<Room>) {
    exists r :: r in rooms && r in k.rooms
  }

  predicate Enabled(s: State, e: Event) {
    if IsWorkerStep(e) then WorkerCan(s, e) else if IsPublisherStep(e) then PublisherCan(s, e) else WorldCan(s, e)
  }

  predicate WorldCan(s: State, e: Event) {
    match e
    case Tick(to) =>
      s.now <= to && forall w <- s.workers ::
                       Beating(s.workers[w].phase) ==> to <= s.workers[w].beat.Limit(s.timing)
    case Connect(w, sid) => w in s.workers && Consuming(s.workers[w].phase) && sid !in s.used
    case Join(sid, room) => sid in s.sockets
    case Leave(sid) => sid in s.sockets
    case _ => false
  }

  predicate WorkerCan(s: State, e: Event) {
    match e
    case Boot(w) => w !in s.workers
    case Subscribe(w) => At(s, w, Booting)
    case Announce(w) => At(s, w, Subscribed)
    case Register(w) => At(s, w, Announced)
    case Serve(w) => At(s, w, Registered)
    case Drain(w) => At(s, w, Serving)
    case FinishDrain(w) => At(s, w, Draining)
    case StopHeartbeat(w) => At(s, w, Drained)
    case Deregister(w) => At(s, w, Stopped)
    case DropHeartbeat(w) => At(s, w, Removed)
    case Exit(w) => w in s.workers
    case BeatBegin(w) => w in s.workers && OnDuty(s.workers[w].phase)
      && CanBeat(s.workers[w].beat, Begin, s.timing, s.now)
    case BeatLand(w) => w in s.workers && OnDuty(s.workers[w].phase)
      && CanBeat(s.workers[w].beat, Land, s.timing, s.now)
    case BeatEnd(w, ok) => w in s.workers && OnDuty(s.workers[w].phase)
      && CanBeat(s.workers[w].beat, End(ok), s.timing, s.now)
    case Receive(w, c) =>
      && w in s.workers && Consuming(s.workers[w].phase) && s.workers[w].work.Idle?
      && c in s.commands && s.commands[c].sent
    case OpenRoom(w) =>
      w in s.workers && s.workers[w].work.Cutting? && s.workers[w].work.pending == {} && s.workers[w].work.rooms != []
    case CutOne(w, sid) => w in s.workers && s.workers[w].work.Cutting? && sid in s.workers[w].work.pending
    case CutFails(w) => w in s.workers && s.workers[w].work.Cutting?
    case Ack(w) =>
      w in s.workers && s.workers[w].work.Cutting? && s.workers[w].work.pending == {} && s.workers[w].work.rooms == []
    case _ => false
  }

  predicate PublisherCan(s: State, e: Event) {
    match e
    case AckExpires(c) => c in s.acks
    case Snapshot(c, rooms) => c !in s.commands
    case Check(c, w) => c in s.commands && s.commands[c].stage.Checking? && w in s.commands[c].todo
    case Prune(c) => c in s.commands && s.commands[c].stage.Checking? && s.commands[c].todo == {}
    case Publish(c) => c in s.commands && s.commands[c].stage.Ready?
    case Poll(c) => c in s.commands && s.commands[c].stage.Polling?
    case GiveUp(c) => c in s.commands && !s.commands[c].stage.Returned? && !s.commands[c].stage.Refused?
    case _ => false
  }

  // ---- the primitive updates a step is made of ------------------------------------

  function WithWorker(s: State, w: WorkerId, k: Worker): State {
    s.(workers := s.workers[w := k])
  }

  function WithHeartbeat(s: State, w: WorkerId): State {
    s.(heartbeats := s.heartbeats[w := s.now + s.timing.ttl])
  }

  function WithSocket(s: State, sid: Sid, k: Socket): State {
    s.(sockets := s.sockets[sid := k], used := s.used + {sid})
  }

  function WithoutSockets(s: State, gone: set<Sid>): State {
    s.(sockets := s.sockets - gone)
  }

  function WithAcks(s: State, c: CommandId, who: set<WorkerId>): State {
    s.(acks := s.acks[c := who])
  }

  function WithCommand(s: State, c: CommandId, k: Command): State {
    s.(commands := s.commands[c := k])
  }

  // The process is gone and so are its sockets; its Redis keys stay behind.
  function Kill(s: State, w: WorkerId): State
    requires w in s.workers
  {
    WithWorker(WithoutSockets(s, SocketsOf(s, w)), w, s.workers[w].(phase := Exited, work := Idle))
  }

  function SocketsOf(s: State, w: WorkerId): set<Sid> {
    set sid | sid in s.sockets && s.sockets[sid].worker == w
  }

  function SocketsIn(s: State, w: WorkerId, room: Room): set<Sid> {
    set sid | sid in s.sockets && s.sockets[sid].worker == w && room in s.sockets[sid].rooms
  }

  function TargetsOf(s: State, rooms: seq<Room>): set<Sid> {
    set sid | sid in s.sockets && InRooms(s.sockets[sid], rooms)
  }

  // ---- one step -----------------------------------------------------------------------

  // A step of a worker process; `k` is the worker before it.
  function WorkerStep(s: State, e: Event): State
    requires IsWorkerStep(e) && WorkerCan(s, e)
  {
    var w := e.w;
    if e.Boot? then WithWorker(s, w, Worker(Booting, Heartbeat.Registered(s.now, s.timing), Idle)) else
    var k := s.workers[w];
    match e
    case Subscribe(_) => WithWorker(s, w, k.(phase := Subscribed))
    case Announce(_) =>
      WithWorker(WithHeartbeat(s, w), w, k.(phase := Announced, beat := Heartbeat.Registered(s.now, s.timing)))
    case Register(_) => WithWorker(s.(members := s.members + {w}), w, k.(phase := Registered))
    case Serve(_) => WithWorker(s, w, k.(phase := Serving))
    case Drain(_) => WithWorker(s, w, k.(phase := Draining))
    // Neither a failed farewell nor a failed disconnect stops the shutdown
    // (main.py:533-554); the consumer is cancelled, whatever it was doing.
    case FinishDrain(_) => WithWorker(s, w, k.(phase := Drained, work := Idle))
    case StopHeartbeat(_) => WithWorker(s, w, k.(phase := Stopped))
    case Deregister(_) => WithWorker(s, w, k.(phase := Removed)).(members := s.members - {w})
    case DropHeartbeat(_) => s.(heartbeats := s.heartbeats - {w})
    case Exit(_) => Kill(s, w)
    case BeatBegin(_) => WithWorker(s, w, k.(beat := Step(k.beat, Begin, s.timing, s.now).beat))
    case BeatLand(_) => WithWorker(WithHeartbeat(s, w), w, k.(beat := Step(k.beat, Land, s.timing, s.now).beat))
    case BeatEnd(_, ok) =>
      var r := Step(k.beat, End(ok), s.timing, s.now);
      if r.Exits? then Kill(s, w) else WithWorker(s, w, k.(beat := r.beat))
    case Receive(_, c) => WithWorker(s, w, k.(work := Cutting(c, s.commands[c].rooms, {})))
    case OpenRoom(_) =>
      var open := SocketsIn(s, w, k.work.rooms[0]);
      WithWorker(s, w, k.(work := Cutting(k.work.command, k.work.rooms[1..], open)))
    case CutOne(_, sid) =>
      WithWorker(WithoutSockets(s, {sid}), w, k.(work := k.work.(pending := k.work.pending - {sid})))
    case CutFails(_) => WithWorker(s, w, k.(work := Idle))
    case Ack(_) =>
      var c := k.work.command;
      WithWorker(WithAcks(s, c, AckSet(s.acks, c) + {w}), w, k.(work := Idle))
  }

  // A step of a publisher, or of Redis on its keys.
  function PublisherStep(s: State, e: Event): State
    requires IsPublisherStep(e) && PublisherCan(s, e)
  {
    var c := e.c;
    match e
    case AckExpires(_) => s.(acks := s.acks - {c})
    case Snapshot(_, rooms) =>
      WithCommand(s, c, Command(rooms, Checking, false, s.members, {}, {}, {}, s.members, map[], {}))
    case Check(_, w) =>
      var k := s.commands[c].(seen := s.commands[c].seen[w := Sight(s, w)]);
      WithCommand(s, c, if KeyLive(s, w) then k.(todo := k.todo - {w}, required := k.required + {w})
                        else k.(todo := k.todo - {w}, dead := k.dead + {w}))
    case Prune(_) =>
      var k := s.commands[c];
      WithCommand(s.(members := s.members - k.dead), c, k.(stage := if k.required == {} then Refused else Ready))
    case Publish(_) =>
      var k := s.commands[c];
      WithCommand(s, c, k.(stage := Polling, sent := true, targets := TargetsOf(s, k.rooms)))
    case Poll(_) =>
      var k := s.commands[c].(acked := AckSet(s.acks, c));
      if k.required <= k.acked
      then WithCommand(s, c, k.(stage := Returned)).(acks := s.acks - {c})
      else WithCommand(s, c, k)
    case GiveUp(_) =>
      WithCommand(s, c, s.commands[c].(stage := Raised)).(acks := s.acks - {c})
  }

  // A step of the clock or of a client.
  function WorldStep(s: State, e: Event): State
    requires WorldCan(s, e)
  {
    match e
    case Tick(to) => s.(now := to)
    case Connect(w, sid) => WithSocket(s, sid, Socket(w, {}))
    case Join(sid, room) => WithSocket(s, sid, s.sockets[sid].(rooms := s.sockets[sid].rooms + {room}))
    case Leave(sid) => WithoutSockets(s, {sid})
  }

  function Apply(s: State, e: Event): State
    requires Enabled(s, e)
  {
    if IsWorkerStep(e) then WorkerStep(s, e) else if IsPublisherStep(e) then PublisherStep(s, e) else WorldStep(s, e)
  }

  predicate Initial(s: State) {
    && s.timing.Safe()
    && s.workers == map[] && s.members == {} && s.heartbeats == map[]
    && s.acks == map[] && s.sockets == map[] && s.commands == map[]
  }

  predicate Legal(s: State, run: seq<Event>)
    decreases |run|
  {
    |run| == 0 || (Enabled(s, run[0]) && Legal(Apply(s, run[0]), run[1..]))
  }

  function Exec(s: State, run: seq<Event>): State
    requires Legal(s, run)
    decreases |run|
  {
    if |run| == 0 then s else Exec(Apply(s, run[0]), run[1..])
  }

  // ---- the inductive invariant ---------------------------------------------------
  // Four parts, each a predicate of the components it reads, so that a step that
  // leaves those components alone keeps the part for free.

  type Workers = map<WorkerId, Worker>
  type Sockets = map<Sid, Socket>

  predicate WorkerOk(t: Timing, now: int, members: set<WorkerId>, hb: map<WorkerId, int>, w: WorkerId, k: Worker) {
    && (Beating(k.phase) ==>
          w in hb && k.beat.stored + t.ttl <= hb[w] && k.beat.OnTime(t, now))
    && (Enlisted(k.phase) ==> w in members)
    && (k.work.Cutting? ==> Consuming(k.phase))
  }

  predicate HasRegistered(ws: Workers, w: WorkerId) {
    w in ws && !ws[w].phase.Booting? && !ws[w].phase.Subscribed?
  }

  ghost predicate WorkersOk(t: Timing, now: int, ws: Workers, members: set<WorkerId>, hb: map<WorkerId, int>) {
    && t.Safe()
    && (forall w <- ws :: WorkerOk(t, now, members, hb, w, ws[w]))
    && (forall w <- members :: HasRegistered(ws, w))
  }

  predicate HoldsSockets(p: Phase) {
    OnDuty(p) || p.Stopped? || p.Removed?
  }

  ghost predicate SocketsOk(ws: Workers, ss: Sockets, used: set<Sid>) {
    forall sid <- ss :: sid in used && ss[sid].worker in ws && HoldsSockets(ws[ss[sid].worker].phase)
  }

  // Every target that the cutter has not removed yet is still ahead of it.
  predicate CutterOk(ss: Sockets, cs: map<CommandId, Command>, w: WorkerId, k: Work)
    requires k.Cutting?
  {
    && k.command in cs && cs[k.command].sent
    && forall sid <- cs[k.command].targets ::
         sid in ss && ss[sid].worker == w ==> sid in k.pending || InRooms(ss[sid], k.rooms)
  }

  ghost predicate CuttersOk(ws: Workers, ss: Sockets, cs: map<CommandId, Command>) {
    forall w <- ws :: ws[w].work.Cutting? ==> CutterOk(ss, cs, w, ws[w].work)
  }

  // The publisher's bookkeeping about workers.
  predicate RosterOk(ws: Workers, k: Command) {
    && (forall w <- k.dead :: w in ws && OffDuty(ws[w].phase))
    && (forall w <- k.todo :: HasRegistered(ws, w))
    && k.listed <= k.todo + k.required + k.dead
    && (k.stage.Checking? || k.stage.Ready? ==> !k.sent)
    && (k.stage.Ready? || k.stage.Polling? || k.stage.Returned? ==> k.todo == {})
    && (k.stage.Returned? ==> k.required <= k.acked)
  }

  ghost predicate RostersOk(ws: Workers, cs: map<CommandId, Command>) {
    forall c <- cs :: RosterOk(ws, cs[c])
  }

  // No target of `k` is left on worker `w`.
  predicate Cleared(ss: Sockets, k: Command, w: WorkerId) {
    forall sid <- k.targets :: sid in ss ==> ss[sid].worker != w
  }

  // What a command knows about the sockets it targets; `acks` are the workers in its ACK set.
  predicate TargetsOk(ss: Sockets, used: set<Sid>, acks: set<WorkerId>, k: Command) {
    && (!k.sent ==> k.targets == {} && k.acked == {} && acks == {})
    && k.targets <= used
    && (forall sid <- k.targets :: sid in ss ==> InRooms(ss[sid], k.rooms))
    && (forall w <- k.acked :: Cleared(ss, k, w))
    && (forall w <- acks :: Cleared(ss, k, w))
  }

  function AckSet(acks: map<CommandId, set<WorkerId>>, c: CommandId): set<WorkerId> {
    if c in acks then acks[c] else {}
  }

  ghost predicate CommandsOk(ss: Sockets, used: set<Sid>, acks: map<CommandId, set<WorkerId>>,
                             cs: map<CommandId, Command>) {
    && (forall c <- acks :: c in cs)
    && (forall c <- cs :: TargetsOk(ss, used, AckSet(acks, c), cs[c]))
  }

  ghost predicate Inv(s: State) {
    && WorkersOk(s.timing, s.now, s.workers, s.members, s.heartbeats)
    && SocketsOk(s.workers, s.sockets, s.used)
    && CuttersOk(s.workers, s.sockets, s.commands)
    && RostersOk(s.workers, s.commands)
    && CommandsOk(s.sockets, s.used, s.acks, s.commands)
  }

  // ---- each primitive update keeps the invariant --------------------------------------

  // Phases only move forward, past registration and past duty.
  predicate Forward(p: Phase, q: Phase) {
    && (!p.Booting? && !p.Subscribed? ==> !q.Booting? && !q.Subscribed?)
    && (OffDuty(p) ==> OffDuty(q))
  }

  predicate MayBecome(s: State, w: WorkerId, k: Worker) {
    && (w in s.workers ==> Forward(s.workers[w].phase, k.phase))
    && WorkerOk(s.timing, s.now, s.members, s.heartbeats, w, k)
    && (k.work.Cutting? ==> CutterOk(s.sockets, s.commands, w, k.work))
    && (HoldsSockets(k.phase) || SocketsOf(s, w) == {})
  }

  lemma WithWorkerKeepsSockets(s: State, w: WorkerId, k: Worker)
    requires SocketsOk(s.workers, s.sockets, s.used) && (HoldsSockets(k.phase) || SocketsOf(s, w) == {})
    ensures SocketsOk(s.workers[w := k], s.sockets, s.used)
  {
    forall sid <- s.sockets
      ensures s.sockets[sid].worker == w ==> HoldsSockets(k.phase)
    {
      assert s.sockets[sid].worker == w ==> sid in SocketsOf(s, w);
    }
  }

  lemma WithWorkerKeepsRosters(s: State, w: WorkerId, k: Worker)
    requires RostersOk(s.workers, s.commands) && (w in s.workers ==> Forward(s.workers[w].phase, k.phase))
    ensures RostersOk(s.workers[w := k], s.commands)
  {
    forall c <- s.commands ensures RosterOk(s.workers[w := k], s.commands[c]) {
      assert RosterOk(s.workers, s.commands[c]);
    }
  }

  lemma WithWorkerKeeps(s: State, w: WorkerId, k: Worker)
    requires Inv(s) && MayBecome(s, w, k)
    ensures Inv(WithWorker(s, w, k))
  {
    WithWorkerKeepsSockets(s, w, k);
    WithWorkerKeepsRosters(s, w, k);
  }

  lemma TickKeeps(s: State, to: int)
    requires Inv(s) && WorldCan(s, Tick(to))
    ensures Inv(s.(now := to))
  {
  }

  lemma WithHeartbeatKeeps(s: State, w: WorkerId)
    requires Inv(s)
    ensures Inv(WithHeartbeat(s, w))
  {
  }

  lemma WithoutHeartbeatKeeps(s: State, w: WorkerId)
    requires Inv(s) && w in s.workers && !Beating(s.workers[w].phase)
    ensures Inv(s.(heartbeats := s.heartbeats - {w}))
  {
  }

  lemma WithMemberKeeps(s: State, w: WorkerId)
    requires Inv(s) && HasRegistered(s.workers, w)
    ensures Inv(s.(members := s.members + {w}))
  {
  }

  lemma WithoutMembersKeeps(s: State, gone: set<WorkerId>)
    requires Inv(s) && forall w <- gone :: w in s.workers && !Enlisted(s.workers[w].phase)
    ensures Inv(s.(members := s.members - gone))
  {
  }

  lemma WithoutSocketsKeeps(s: State, gone: set<Sid>)
    requires Inv(s)
    ensures Inv(WithoutSockets(s, gone))
  {
    var ss := s.sockets - gone;
    assert forall sid <- ss :: sid in s.sockets && ss[sid] == s.sockets[sid];
    assert CuttersOk(s.workers, ss, s.commands) by {
      forall w <- s.workers | s.workers[w].work.Cutting?
        ensures CutterOk(ss, s.commands, w, s.workers[w].work)
      {
        assert CutterOk(s.sockets, s.commands, w, s.workers[w].work);
      }
    }
    forall c <- s.commands ensures TargetsOk(ss, s.used, AckSet(s.acks, c), s.commands[c]) {
      TargetsShrink(s.sockets, ss, s.used, AckSet(s.acks, c), s.commands[c]);
    }
  }

  lemma TargetsShrink(ss: Sockets, ss': Sockets, used: set<Sid>, acks: set<WorkerId>, k: Command)
    requires TargetsOk(ss, used, acks, k)
    requires forall sid <- ss' :: sid in ss && ss'[sid] == ss[sid]
    ensures TargetsOk(ss', used, acks, k)
  {
    forall w | Cleared(ss, k, w) ensures Cleared(ss', k, w) {
    }
  }

  // A socket that opens is new; one that joins a room keeps its worker and its rooms.
  predicate MayHold(s: State, sid: Sid, k: Socket) {
    && k.worker in s.workers && HoldsSockets(s.workers[k.worker].phase)
    && if sid in s.sockets then s.sockets[sid].worker == k.worker && s.sockets[sid].rooms <= k.rooms
       else sid !in s.used
  }

  lemma WithSocketKeeps(s: State, sid: Sid, k: Socket)
    requires Inv(s) && MayHold(s, sid, k)
    ensures Inv(WithSocket(s, sid, k))
  {
    var ss := s.sockets[sid := k];
    assert CuttersOk(s.workers, ss, s.commands) by {
      forall w <- s.workers | s.workers[w].work.Cutting?
        ensures CutterOk(ss, s.commands, w, s.workers[w].work)
      {
        var c := s.workers[w].work.command;
        assert CutterOk(s.sockets, s.commands, w, s.workers[w].work);
        assert TargetsOk(s.sockets, s.used, AckSet(s.acks, c), s.commands[c]);
        KeepsRooms(s.sockets, sid, k, s.workers[w].work.rooms);
      }
    }
    forall c <- s.commands
      ensures TargetsOk(ss, s.used + {sid}, AckSet(s.acks, c), s.commands[c])
    {
      TargetsGrow(s.sockets, s.used, AckSet(s.acks, c), s.commands[c], sid, k);
    }
  }

  lemma KeepsRooms(ss: Sockets, sid: Sid, k: Socket, rooms: seq<Room>)
    requires sid in ss ==> ss[sid].rooms <= k.rooms
    ensures sid in ss && InRooms(ss[sid], rooms) ==> InRooms(k, rooms)
  {
    if sid in ss && InRooms(ss[sid], rooms) {
      var r :| r in rooms && r in ss[sid].rooms;
      assert r in rooms && r in k.rooms;
    }
  }

  lemma TargetsGrow(ss: Sockets, used: set<Sid>, acks: set<WorkerId>, c: Command, sid: Sid, k: Socket)
    requires TargetsOk(ss, used, acks, c)
    requires if sid in ss then ss[sid].worker == k.worker && ss[sid].rooms <= k.rooms else sid !in used
    ensures TargetsOk(ss[sid := k], used + {sid}, acks, c)
  {
    KeepsRooms(ss, sid, k, c.rooms);
    forall w | Cleared(ss, c, w) ensures Cleared(ss[sid := k], c, w) {
    }
  }

  lemma WithAckKeeps(s: State, c: CommandId, w: WorkerId)
    requires Inv(s) && c in s.commands && s.commands[c].sent && Cleared(s.sockets, s.commands[c], w)
    ensures Inv(WithAcks(s, c, AckSet(s.acks, c) + {w}))
  {
    var acks := s.acks[c := AckSet(s.acks, c) + {w}];
    forall c' <- s.commands ensures TargetsOk(s.sockets, s.used, AckSet(acks, c'), s.commands[c']) {
      assert TargetsOk(s.sockets, s.used, AckSet(s.acks, c'), s.commands[c']);
    }
  }

  lemma WithoutAcksKeeps(s: State, c: CommandId)
    requires Inv(s)
    ensures Inv(s.(acks := s.acks - {c}))
  {
    var acks := s.acks - {c};
    forall c' <- s.commands ensures TargetsOk(s.sockets, s.used, AckSet(acks, c'), s.commands[c']) {
      assert TargetsOk(s.sockets, s.used, AckSet(s.acks, c'), s.commands[c']);
    }
  }

  lemma WithCommandKeeps(s: State, c: CommandId, k: Command)
    requires Inv(s) && RosterOk(s.workers, k) && TargetsOk(s.sockets, s.used, AckSet(s.acks, c), k)
    requires c in s.commands && s.commands[c].sent ==> k.sent && k.targets == s.commands[c].targets
    ensures Inv(WithCommand(s, c, k))
  {
    var cs := s.commands[c := k];
    assert CuttersOk(s.workers, s.sockets, cs) by {
      forall w <- s.workers | s.workers[w].work.Cutting?
        ensures CutterOk(s.sockets, cs, w, s.workers[w].work)
      {
        assert CutterOk(s.sockets, s.commands, w, s.workers[w].work);
      }
    }
  }

  // ---- every step keeps the invariant ------------------------------------------------------

  // The timing lemma at work: a process whose thread runs has a live key.
  lemma BeatingIsLive(s: State, w: WorkerId)
    requires Inv(s) && w in s.workers && Beating(s.workers[w].phase)
    ensures KeyLive(s, w)
  {
    assert WorkerOk(s.timing, s.now, s.members, s.heartbeats, w, s.workers[w]);
    OnTimeIsYoung(s.workers[w].beat, s.timing, s.now);
  }

  lemma KillKeeps(s: State, w: WorkerId)
    requires Inv(s) && w in s.workers
    ensures Inv(Kill(s, w))
  {
    WithoutSocketsKeeps(s, SocketsOf(s, w));
    var t := WithoutSockets(s, SocketsOf(s, w));
    assert SocketsOf(t, w) == {};
    WithWorkerKeeps(t, w, s.workers[w].(phase := Exited, work := Idle));
  }

  // From subscribing to serving to draining.
  lemma ServiceKeeps(s: State, e: Event)
    requires Inv(s) && WorkerCan(s, e) && (e.Subscribe? || e.Serve? || e.Drain?)
    ensures Inv(WorkerStep(s, e))
  {
    var w := e.w;
    var k := s.workers[w];
    assert WorkerOk(s.timing, s.now, s.members, s.heartbeats, w, k);
    var p := if e.Subscribe? then Subscribed else if e.Serve? then Serving else Draining;
    if e.Subscribe? {
      NoSocketsYet(s, w);
    }
    WithWorkerKeeps(s, w, k.(phase := p));
  }

  // From the end of the drain to the exit.
  lemma ShutdownKeeps(s: State, e: Event)
    requires Inv(s) && WorkerCan(s, e) && (e.FinishDrain? || e.StopHeartbeat? || e.DropHeartbeat? || e.Exit?)
    ensures Inv(WorkerStep(s, e))
  {
    var w := e.w;
    var k := s.workers[w];
    assert WorkerOk(s.timing, s.now, s.members, s.heartbeats, w, k);
    match e
    case FinishDrain(_) => WithWorkerKeeps(s, w, k.(phase := Drained, work := Idle));
    case StopHeartbeat(_) => WithWorkerKeeps(s, w, k.(phase := Stopped));
    case DropHeartbeat(_) => WithoutHeartbeatKeeps(s, w);
    case Exit(_) => KillKeeps(s, w);
  }

  lemma NoSocketsYet(s: State, w: WorkerId)
    requires Inv(s) && (w in s.workers ==> !HoldsSockets(s.workers[w].phase))
    ensures SocketsOf(s, w) == {}
  {
  }

  lemma BootKeeps(s: State, w: WorkerId)
    requires Inv(s) && w !in s.workers
    ensures Inv(WorkerStep(s, Boot(w)))
  {
    NoSocketsYet(s, w);
    WithWorkerKeeps(s, w, Worker(Booting, Heartbeat.Registered(s.now, s.timing), Idle));
  }

  lemma AnnounceKeeps(s: State, w: WorkerId)
    requires Inv(s) && At(s, w, Subscribed)
    ensures Inv(WorkerStep(s, Announce(w)))
  {
    NoSocketsYet(s, w);
    WithHeartbeatKeeps(s, w);
    assert WorkerOk(s.timing, s.now, s.members, s.heartbeats, w, s.workers[w]);
    WithWorkerKeeps(WithHeartbeat(s, w), w,
                    s.workers[w].(phase := Announced, beat := Heartbeat.Registered(s.now, s.timing)));
  }

  lemma RegisterKeeps(s: State, w: WorkerId)
    requires Inv(s) && At(s, w, Announced)
    ensures Inv(WorkerStep(s, Register(w)))
  {
    NoSocketsYet(s, w);
    assert WorkerOk(s.timing, s.now, s.members, s.heartbeats, w, s.workers[w]);
    WithMemberKeeps(s, w);
    WithWorkerKeeps(s.(members := s.members + {w}), w, s.workers[w].(phase := Registered));
  }

  lemma DeregisterKeeps(s: State, w: WorkerId)
    requires Inv(s) && At(s, w, Stopped)
    ensures Inv(WorkerStep(s, Deregister(w)))
  {
    assert WorkerOk(s.timing, s.now, s.members, s.heartbeats, w, s.workers[w]);
    WithWorkerKeeps(s, w, s.workers[w].(phase := Removed));
    WithoutMembersKeeps(WithWorker(s, w, s.workers[w].(phase := Removed)), {w});
  }

  lemma RegistrationKeeps(s: State, e: Event)
    requires Inv(s) && WorkerCan(s, e) && (e.Boot? || e.Announce? || e.Register? || e.Deregister?)
    ensures Inv(WorkerStep(s, e))
  {
    match e
    case Boot(w) => BootKeeps(s, w);
    case Announce(w) => AnnounceKeeps(s, w);
    case Register(w) => RegisterKeeps(s, w);
    case Deregister(w) => DeregisterKeeps(s, w);
  }

  lemma BeatKeeps(s: State, e: Event)
    requires Inv(s) && WorkerCan(s, e) && (e.BeatBegin? || e.BeatLand? || e.BeatEnd?)
    ensures Inv(WorkerStep(s, e))
  {
    var w := e.w;
    var k := s.workers[w];
    assert WorkerOk(s.timing, s.now, s.members, s.heartbeats, w, k);
    var b := if e.BeatBegin? then Heartbeat.BeatEvent.Begin else if e.BeatLand? then Land else End(e.ok);
    StepKeepsOnTime(k.beat, b, s.timing, s.now);
    var r := Step(k.beat, b, s.timing, s.now);
    if r.Exits? {
      KillKeeps(s, w);
    } else if e.BeatLand? {
      WithHeartbeatKeeps(s, w);
      WithWorkerKeeps(WithHeartbeat(s, w), w, k.(beat := r.beat));
    } else {
      WithWorkerKeeps(s, w, k.(beat := r.beat));
    }
  }

  // The snapshot of a room holds every target the cutter still has to find there.
  lemma OpenedRoom(s: State, w: WorkerId, k: Work)
    requires k.Cutting? && k.pending == {} && k.rooms != [] && CutterOk(s.sockets, s.commands, w, k)
    ensures CutterOk(s.sockets, s.commands, w, Cutting(k.command, k.rooms[1..], SocketsIn(s, w, k.rooms[0])))
  {
    forall sid <- s.commands[k.command].targets | sid in s.sockets && s.sockets[sid].worker == w
      ensures sid in SocketsIn(s, w, k.rooms[0]) || InRooms(s.sockets[sid], k.rooms[1..])
    {
      var r :| r in k.rooms && r in s.sockets[sid].rooms;
      assert r == k.rooms[0] || r in k.rooms[1..];
    }
  }

  lemma ReceiveKeeps(s: State, w: WorkerId, c: CommandId)
    requires Inv(s) && WorkerCan(s, Receive(w, c))
    ensures Inv(WorkerStep(s, Receive(w, c)))
  {
    var k := s.workers[w];
    assert WorkerOk(s.timing, s.now, s.members, s.heartbeats, w, k);
    assert TargetsOk(s.sockets, s.used, AckSet(s.acks, c), s.commands[c]);
    WithWorkerKeeps(s, w, k.(work := Cutting(c, s.commands[c].rooms, {})));
  }

  lemma OpenRoomKeeps(s: State, w: WorkerId)
    requires Inv(s) && WorkerCan(s, OpenRoom(w))
    ensures Inv(WorkerStep(s, OpenRoom(w)))
  {
    var k := s.workers[w];
    assert WorkerOk(s.timing, s.now, s.members, s.heartbeats, w, k);
    assert CutterOk(s.sockets, s.commands, w, k.work);
    OpenedRoom(s, w, k.work);
    WithWorkerKeeps(s, w, k.(work := Cutting(k.work.command, k.work.rooms[1..], SocketsIn(s, w, k.work.rooms[0]))));
  }

  lemma CutOneKeeps(s: State, w: WorkerId, sid: Sid)
    requires Inv(s) && WorkerCan(s, CutOne(w, sid))
    ensures Inv(WorkerStep(s, CutOne(w, sid)))
  {
    var k := s.workers[w];
    assert WorkerOk(s.timing, s.now, s.members, s.heartbeats, w, k);
    assert CutterOk(s.sockets, s.commands, w, k.work);
    WithoutSocketsKeeps(s, {sid});
    WithWorkerKeeps(WithoutSockets(s, {sid}), w, k.(work := k.work.(pending := k.work.pending - {sid})));
  }

  lemma AckKeeps(s: State, w: WorkerId)
    requires Inv(s) && WorkerCan(s, Ack(w))
    ensures Inv(WorkerStep(s, Ack(w)))
  {
    var k := s.workers[w];
    var c := k.work.command;
    assert CutterOk(s.sockets, s.commands, w, k.work);
    WithAckKeeps(s, c, w);
    IdleKeeps(WithAcks(s, c, AckSet(s.acks, c) + {w}), w);
  }

  // The subscriber is done with its command, one way or the other.
  lemma IdleKeeps(s: State, w: WorkerId)
    requires Inv(s) && w in s.workers && s.workers[w].work.Cutting?
    ensures Inv(WithWorker(s, w, s.workers[w].(work := Idle)))
  {
    assert WorkerOk(s.timing, s.now, s.members, s.heartbeats, w, s.workers[w]);
    WithWorkerKeeps(s, w, s.workers[w].(work := Idle));
  }

  lemma CutFailsKeeps(s: State, w: WorkerId)
    requires Inv(s) && WorkerCan(s, CutFails(w))
    ensures Inv(WorkerStep(s, CutFails(w)))
  {
    IdleKeeps(s, w);
  }

  lemma SubscriberKeeps(s: State, e: Event)
    requires Inv(s) && WorkerCan(s, e) && (e.Receive? || e.OpenRoom? || e.CutOne? || e.CutFails? || e.Ack?)
    ensures Inv(WorkerStep(s, e))
  {
    match e
    case Receive(w, c) => ReceiveKeeps(s, w, c);
    case OpenRoom(w) => OpenRoomKeeps(s, w);
    case CutOne(w, sid) => CutOneKeeps(s, w, sid);
    case CutFails(w) => CutFailsKeeps(s, w);
    case Ack(w) => AckKeeps(s, w);
  }

  // A registered worker whose key is gone has left duty for good.
  lemma CheckIsSound(s: State, w: WorkerId, k: Command)
    requires Inv(s) && RosterOk(s.workers, k) && w in k.todo
    ensures !KeyLive(s, w) ==> OffDuty(s.workers[w].phase)
  {
    if Beating(s.workers[w].phase) {
      BeatingIsLive(s, w);
    }
  }

  lemma SnapshotKeeps(s: State, c: CommandId, rooms: seq<Room>)
    requires Inv(s) && PublisherCan(s, Snapshot(c, rooms))
    ensures Inv(PublisherStep(s, Snapshot(c, rooms)))
  {
    var k := Command(rooms, Checking, false, s.members, {}, {}, {}, s.members, map[], {});
    WithCommandKeeps(s, c, k);
  }

  lemma CheckKeeps(s: State, c: CommandId, w: WorkerId)
    requires Inv(s) && PublisherCan(s, Check(c, w))
    ensures Inv(PublisherStep(s, Check(c, w)))
  {
    var k := s.commands[c];
    assert RosterOk(s.workers, k) && TargetsOk(s.sockets, s.used, AckSet(s.acks, c), k);
    CheckIsSound(s, w, k);
    var seen := k.(seen := k.seen[w := Sight(s, w)]);
    WithCommandKeeps(s, c, if KeyLive(s, w) then seen.(todo := k.todo - {w}, required := k.required + {w})
                           else seen.(todo := k.todo - {w}, dead := k.dead + {w}));
  }

  lemma PruneKeeps(s: State, c: CommandId)
    requires Inv(s) && PublisherCan(s, Prune(c))
    ensures Inv(PublisherStep(s, Prune(c)))
  {
    var k := s.commands[c];
    assert RosterOk(s.workers, k) && TargetsOk(s.sockets, s.used, AckSet(s.acks, c), k);
    WithoutMembersKeeps(s, k.dead);
    WithCommandKeeps(s.(members := s.members - k.dead), c,
                     k.(stage := if k.required == {} then Refused else Ready));
  }

  lemma PublishKeeps(s: State, c: CommandId)
    requires Inv(s) && PublisherCan(s, Publish(c))
    ensures Inv(PublisherStep(s, Publish(c)))
  {
    var k := s.commands[c];
    assert RosterOk(s.workers, k) && TargetsOk(s.sockets, s.used, AckSet(s.acks, c), k);
    WithCommandKeeps(s, c, k.(stage := Polling, sent := true, targets := TargetsOf(s, k.rooms)));
  }

  lemma PollKeeps(s: State, c: CommandId)
    requires Inv(s) && PublisherCan(s, Poll(c))
    ensures Inv(PublisherStep(s, Poll(c)))
  {
    var k := s.commands[c];
    assert RosterOk(s.workers, k) && TargetsOk(s.sockets, s.used, AckSet(s.acks, c), k);
    var polled := k.(acked := AckSet(s.acks, c));
    if polled.required <= polled.acked {
      WithCommandKeeps(s, c, polled.(stage := Returned));
      WithoutAcksKeeps(WithCommand(s, c, polled.(stage := Returned)), c);
    } else {
      WithCommandKeeps(s, c, polled);
    }
  }

  lemma GiveUpKeeps(s: State, c: CommandId)
    requires Inv(s) && PublisherCan(s, GiveUp(c))
    ensures Inv(PublisherStep(s, GiveUp(c)))
  {
    var k := s.commands[c];
    assert RosterOk(s.workers, k) && TargetsOk(s.sockets, s.used, AckSet(s.acks, c), k);
    WithCommandKeeps(s, c, k.(stage := Raised));
    WithoutAcksKeeps(WithCommand(s, c, k.(stage := Raised)), c);
  }

  lemma WorkerStepKeeps(s: State, e: Event)
    requires Inv(s) && IsWorkerStep(e) && WorkerCan(s, e)
    ensures Inv(WorkerStep(s, e))
  {
    if e.Boot? || e.Announce? || e.Register? || e.Deregister? {
      RegistrationKeeps(s, e);
    } else if e.BeatBegin? || e.BeatLand? || e.BeatEnd? {
      BeatKeeps(s, e);
    } else if e.Receive? || e.OpenRoom? || e.CutOne? || e.CutFails? || e.Ack? {
      SubscriberKeeps(s, e);
    } else if e.Subscribe? || e.Serve? || e.Drain? {
      ServiceKeeps(s, e);
    } else {
      ShutdownKeeps(s, e);
    }
  }

  lemma PublisherStepKeeps(s: State, e: Event)
    requires Inv(s) && IsPublisherStep(e) && PublisherCan(s, e)
    ensures Inv(PublisherStep(s, e))
  {
    match e
    case AckExpires(c) => WithoutAcksKeeps(s, c);
    case Snapshot(c, rooms) => SnapshotKeeps(s, c, rooms);
    case Check(c, w) => CheckKeeps(s, c, w);
    case Prune(c) => PruneKeeps(s, c);
    case Publish(c) => PublishKeeps(s, c);
    case Poll(c) => PollKeeps(s, c);
    case GiveUp(c) => GiveUpKeeps(s, c);
  }

  lemma WorldStepKeeps(s: State, e: Event)
    requires Inv(s) && WorldCan(s, e)
    ensures Inv(WorldStep(s, e))
  {
    match e
    case Tick(to) => TickKeeps(s, to);
    case Connect(w, sid) => WithSocketKeeps(s, sid, Socket(w, {}));
    case Join(sid, room) =>
      WithSocketKeeps(s, sid, s.sockets[sid].(rooms := s.sockets[sid].rooms + {room}));
    case Leave(sid) => WithoutSocketsKeeps(s, {sid});
  }

  lemma StepKeeps(s: State, e: Event)
    requires Inv(s) && Enabled(s, e)
    ensures Inv(Apply(s, e))
  {
    if IsWorkerStep(e) {
      WorkerStepKeeps(s, e);
    } else if IsPublisherStep(e) {
      PublisherStepKeeps(s, e);
    } else {
      WorldStepKeeps(s, e);
    }
  }

  lemma {:induction false} EveryRunKeeps(s: State, run: seq<Event>)
    requires Inv(s) && Legal(s, run)
    ensures Inv(Exec(s, run))
    decreases |run|
  {
    if |run| > 0 {
      StepKeeps(s, run[0]);
      EveryRunKeeps(Apply(s, run[0]), run[1..]);
    }
  }

  lemma InitialOk(s: State)
    requires Initial(s)
    ensures Inv(s)
  {
  }

  // ---- the two guarantees ---------------------------------------------------------------------

  // Membership: in every reachable state, whoever holds a socket is registered with a
  // live heartbeat, unless it is shutting down and its drain left that socket behind.
  lemma SocketHoldersAreRegistered(s0: State, run: seq<Event>, sid: Sid)
    requires Initial(s0) && Legal(s0, run) && sid in Exec(s0, run).sockets
    ensures var s := Exec(s0, run);
            var w := s.sockets[sid].worker;
            && w in s.workers
            && ((OnDuty(s.workers[w].phase) && w in s.members && KeyLive(s, w))
                || s.workers[w].phase.Stopped? || s.workers[w].phase.Removed?)
  {
    InitialOk(s0);
    EveryRunKeeps(s0, run);
    var s := Exec(s0, run);
    var w := s.sockets[sid].worker;
    if OnDuty(s.workers[w].phase) {
      BeatingIsLive(s, w);
      assert WorkerOk(s.timing, s.now, s.members, s.heartbeats, w, s.workers[w]);
    }
  }

  // Pruning: a worker that a publisher is about to drop from the set has exited, or
  // has at least finished its drain; it will never serve again.
  lemma OnlyFinishedWorkersArePruned(s0: State, run: seq<Event>, c: CommandId, w: WorkerId)
    requires Initial(s0) && Legal(s0, run)
    requires c in Exec(s0, run).commands && w in Exec(s0, run).commands[c].dead
    ensures w in Exec(s0, run).workers && OffDuty(Exec(s0, run).workers[w].phase)
  {
    InitialOk(s0);
    EveryRunKeeps(s0, run);
    var s := Exec(s0, run);
    assert RosterOk(s.workers, s.commands[c]);
  }

  // The only ways a target can outlive a publish that returned: on a worker that was not in
  // the set at SMEMBERS, or one that shut down without disconnecting it.
  predicate MaySurvive(s: State, k: Command, sid: Sid)
    requires sid in s.sockets
  {
    var w := s.sockets[sid].worker;
    w in k.listed ==> w in s.workers && (s.workers[w].phase.Stopped? || s.workers[w].phase.Removed?)
  }

  lemma SurvivorOfReturned(s: State, c: CommandId, sid: Sid)
    requires Inv(s) && c in s.commands && s.commands[c].stage.Returned?
    requires sid in s.commands[c].targets && sid in s.sockets
    ensures MaySurvive(s, s.commands[c], sid)
  {
    var k := s.commands[c];
    assert RosterOk(s.workers, k) && TargetsOk(s.sockets, s.used, AckSet(s.acks, c), k);
    assert forall w <- k.required :: Cleared(s.sockets, k, w);
  }

  // Whoever serves, drains or has drained is in the set, so it is listed.
  lemma DutyIsListed(s: State, w: WorkerId)
    requires Inv(s) && w in s.workers && OnDuty(s.workers[w].phase)
    ensures w in s.members
  {
    assert WorkerOk(s.timing, s.now, s.members, s.heartbeats, w, s.workers[w]);
  }

  // ACK safety, for every interleaving of workers, publishers, crashes, prunings, lost
  // messages and late ACKs: once the strict publish has returned, every socket that was in a
  // target room at PUBLISH on a worker in the set at SMEMBERS is gone, unless that worker
  // has meanwhile shut down without disconnecting it.
  lemma ReturnedMeansGone(s0: State, run: seq<Event>, c: CommandId, sid: Sid)
    requires Initial(s0) && Legal(s0, run)
    requires c in Exec(s0, run).commands && Exec(s0, run).commands[c].stage.Returned?
    requires sid in Exec(s0, run).commands[c].targets && sid in Exec(s0, run).sockets
    ensures MaySurvive(Exec(s0, run), Exec(s0, run).commands[c], sid)
  {
    InitialOk(s0);
    EveryRunKeeps(s0, run);
    SurvivorOfReturned(Exec(s0, run), c, sid);
  }
}
