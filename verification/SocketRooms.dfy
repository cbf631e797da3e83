/** Sockets of one worker and the rooms they are in (app/socket_manager.py, `connect`,
    `disconnect`, `session_room`). `connect` saves the session and then joins the rooms one
    await at a time, so other handlers run in between and see it half done. */
module SocketRooms {
  import opened Basics
  import opened Decimal

  type Sid = nat
  type Room = string

  // What is saved for a socket; `role` "" and `unit` 0 stand for none.
  datatype Session = Session(user: nat, role: string, unit: nat, sessionId: nat)

  // ---- room names ----------------------------------------------------------------------------

  function UserRoom(user: nat): Room {
    "user_room_" + Render(user)
  }

  function SessionRoom(sessionId: nat): Room {
    "user_session_" + Render(sessionId)
  }

  function AttributeRooms(k: Session): seq<Room> {
    (if k.role != "" then ["role_" + k.role] else [])
    + (if k.unit != 0 then ["unit_" + Render(k.unit)] else [])
    + (if k.role == "admin" then ["role_admin"] else [])
  }

  // The rooms `connect` enters, in its order.
  function JoinOrder(k: Session): seq<Room> {
    [UserRoom(k.user), SessionRoom(k.sessionId)] + AttributeRooms(k)
  }

  // The rooms `disconnect` leaves by itself: the session's only `if session_id`.
  function LeaveOrder(k: Session): seq<Room> {
    [UserRoom(k.user)] + (if k.sessionId != 0 then [SessionRoom(k.sessionId)] else []) + AttributeRooms(k)
  }

  lemma NamesAreApart(a: nat, b: nat, k: Session)
    ensures UserRoom(a) != SessionRoom(b)
    ensures UserRoom(a) !in AttributeRooms(k) && SessionRoom(a) !in AttributeRooms(k)
    ensures UserRoom(a) == UserRoom(b) ==> a == b
    ensures SessionRoom(a) == SessionRoom(b) ==> a == b
  {
    assert UserRoom(a)[5] == 'r' && SessionRoom(b)[5] == 's';
    assert UserRoom(a)[0] == 'u' && UserRoom(a)[1] == 's' && SessionRoom(a)[0] == 'u' && SessionRoom(a)[1] == 's';
    assert ("role_" + k.role)[0] == 'r' && ("unit_" + Render(k.unit))[1] == 'n' && "role_admin"[0] == 'r';
    assert Render(a) == UserRoom(a)[10..] == SessionRoom(a)[13..];
    assert Render(b) == UserRoom(b)[10..] == SessionRoom(b)[13..];
    if Render(a) == Render(b) {
      RenderInjective(a, b);
    }
  }

  // A room of a login session, or of a user, is entered by its own sockets and no others.
  lemma RoomsNameTheirOwner(k: Session, a: nat)
    ensures SessionRoom(a) in JoinOrder(k) <==> a == k.sessionId
    ensures UserRoom(a) in JoinOrder(k) <==> a == k.user
  {
    NamesAreApart(a, k.sessionId, k);
    NamesAreApart(a, k.user, k);
    NamesAreApart(k.user, a, k);
  }

  // The same for the rooms of a role and of a unit.
  lemma RolesAndUnits(k: Session, role: string, unit: nat)
    requires role != "" && unit != 0
    ensures "role_" + role in JoinOrder(k) <==> role == k.role
    ensures "unit_" + Render(unit) in JoinOrder(k) <==> unit == k.unit
  {
    var r, u := "role_" + role, "unit_" + Render(unit);
    assert r[0] == 'r' && u[0] == 'u' && u[1] == 'n';
    assert UserRoom(k.user)[0] == 'u' && UserRoom(k.user)[1] == 's';
    assert SessionRoom(k.sessionId)[0] == 'u' && SessionRoom(k.sessionId)[1] == 's';
    assert "role_" + "admin" == "role_admin" && "role_admin"[0] == 'r';
    assert r[5..] == role && ("role_" + k.role)[5..] == k.role && ("role_" + k.role)[0] == 'r';
    assert u[5..] == Render(unit) && ("unit_" + Render(k.unit))[5..] == Render(k.unit);
    assert ("unit_" + Render(k.unit))[1] == 'n' && ("unit_" + Render(k.unit))[0] == 'u';
    if Render(unit) == Render(k.unit) {
      RenderInjective(unit, k.unit);
    }
  }

  // `disconnect` leaves exactly what `connect` joined, unless the session's id is 0.
  lemma LeavesWhatItJoined(k: Session)
    ensures (forall r :: r in JoinOrder(k) <==> r in LeaveOrder(k)) <==> k.sessionId != 0
  {
    NamesAreApart(k.user, k.sessionId, k);
    NamesAreApart(k.sessionId, k.user, k);
    assert JoinOrder(k)[1] == SessionRoom(k.sessionId) && SessionRoom(k.sessionId) in JoinOrder(k);
    if k.sessionId == 0 {
      assert SessionRoom(k.sessionId) !in LeaveOrder(k);
    } else {
      assert JoinOrder(k) == LeaveOrder(k);
    }
  }

  // ---- what the event loop does ------------------------------------------------------------------

  // `done`: how many rooms its `connect` has entered so far.
  datatype Socket = Socket(session: Option<Session>, rooms: set<Room>, done: nat)

  // `used`: socket ids ever handed out; none is handed out twice.
  datatype World = World(sockets: map<Sid, Socket>, used: set<Sid>)

  datatype Step =
    | Open(sid: Sid)
    | Save(sid: Sid, session: Session)   // `connect` has authenticated it
    | Join(sid: Sid)                     // its next enter_room
    | Close(sid: Sid)                    // refused or disconnected: it leaves every room

  function Look(w: World, sid: Sid): Option<Socket> {
    if sid in w.sockets then Some(w.sockets[sid]) else None
  }

  // A step that does not apply (its socket has gone meanwhile) raises and changes nothing.
  function After(w: World, e: Step): World {
    match e
    case Open(sid) =>
      if sid in w.used then w else World(w.sockets[sid := Socket(None, {}, 0)], w.used + {sid})
    case Save(sid, k) =>
      if Look(w, sid) != Some(Socket(None, {}, 0)) then w
      else w.(sockets := w.sockets[sid := Socket(Some(k), {}, 0)])
    case Join(sid) =>
      if CanJoin(w, sid) then w.(sockets := w.sockets[sid := Joined(w.sockets[sid])]) else w
    case Close(sid) =>
      w.(sockets := w.sockets - {sid})
  }

  predicate CanJoin(w: World, sid: Sid) {
    sid in w.sockets && w.sockets[sid].session.Some? && w.sockets[sid].done < |JoinOrder(w.sockets[sid].session.value)|
  }

  function Joined(s: Socket): Socket
    requires s.session.Some? && s.done < |JoinOrder(s.session.value)|
  {
    s.(rooms := s.rooms + {JoinOrder(s.session.value)[s.done]}, done := s.done + 1)
  }

  function Exec(w: World, steps: seq<Step>): World {
    if steps == [] then w else After(Exec(w, steps[..|steps| - 1]), steps[|steps| - 1])
  }

  // ---- what every reachable state keeps ---------------------------------------------------------

  ghost predicate Consistent(s: Socket) {
    match s.session
    case None => s.rooms == {} && s.done == 0
    case Some(k) => s.done <= |JoinOrder(k)| && s.rooms == set r | r in JoinOrder(k)[..s.done]
  }

  ghost predicate Valid(w: World) {
    forall sid <- w.sockets :: sid in w.used && Consistent(w.sockets[sid])
  }

  predicate FullyConnected(s: Socket) {
    s.session.Some? && s.done == |JoinOrder(s.session.value)|
  }

  lemma JoinKeeps(s: Socket)
    requires Consistent(s) && s.session.Some? && s.done < |JoinOrder(s.session.value)|
    ensures Consistent(Joined(s))
  {
    var order := JoinOrder(s.session.value);
    assert order[..s.done + 1] == order[..s.done] + [order[s.done]];
  }

  lemma StepKeeps(w: World, e: Step)
    requires Valid(w)
    ensures Valid(After(w, e))
  {
    if e.Join? && CanJoin(w, e.sid) {
      JoinKeeps(w.sockets[e.sid]);
    } else if e.Save? {
      SavedIsConsistent(e.session);
    }
  }

  lemma SavedIsConsistent(k: Session)
    ensures Consistent(Socket(Some(k), {}, 0))
  {
    assert JoinOrder(k)[..0] == [];
  }

  lemma {:induction false} RunKeeps(w: World, steps: seq<Step>)
    requires Valid(w)
    ensures Valid(Exec(w, steps))
    decreases |steps|
  {
    if steps != [] {
      RunKeeps(w, steps[..|steps| - 1]);
      StepKeeps(Exec(w, steps[..|steps| - 1]), steps[|steps| - 1]);
    }
  }

  // In every run: a fully connected socket is in the room of a login session if and only if
  // that is the session saved for it; one that is still connecting at most in its own; and
  // the same for users.
  lemma RoomMeansSession(steps: seq<Step>, sid: Sid, a: nat)
    requires sid in Exec(World(map[], {}), steps).sockets
    ensures var s := Exec(World(map[], {}), steps).sockets[sid];
            && (SessionRoom(a) in s.rooms ==> s.session.Some? && a == s.session.value.sessionId)
            && (UserRoom(a) in s.rooms ==> s.session.Some? && a == s.session.value.user)
            && (FullyConnected(s) ==>
                  && (SessionRoom(a) in s.rooms <==> a == s.session.value.sessionId)
                  && (UserRoom(a) in s.rooms <==> a == s.session.value.user))
  {
    RunKeeps(World(map[], {}), steps);
    RoomNamesItsSockets(Exec(World(map[], {}), steps).sockets[sid], a);
  }

  lemma RoomNamesItsSockets(s: Socket, a: nat)
    requires Consistent(s)
    ensures SessionRoom(a) in s.rooms ==> s.session.Some? && a == s.session.value.sessionId
    ensures UserRoom(a) in s.rooms ==> s.session.Some? && a == s.session.value.user
    ensures FullyConnected(s) ==> (SessionRoom(a) in s.rooms <==> a == s.session.value.sessionId)
    ensures FullyConnected(s) ==> (UserRoom(a) in s.rooms <==> a == s.session.value.user)
  {
    if s.session.Some? {
      var k := s.session.value;
      RoomsNameTheirOwner(k, a);
      assert forall r :: r in JoinOrder(k)[..s.done] ==> r in JoinOrder(k);
      assert JoinOrder(k)[..|JoinOrder(k)|] == JoinOrder(k);
    }
  }

  // ---- runs, seen from one socket -----------------------------------------------------------------

  lemma {:induction false} ExecAppend(w: World, a: seq<Step>, b: seq<Step>)
    ensures Exec(w, a + b) == Exec(Exec(w, a), b)
    decreases |b|
  {
    if b == [] {
      assert a + b == a;
    } else {
      var c, e := b[..|b| - 1], b[|b| - 1];
      assert (a + b)[..|a + b| - 1] == a + c && (a + b)[|a + b| - 1] == e;
      ExecAppend(w, a, c);
    }
  }

  // What happens to a socket depends on that socket and on the ids handed out, nothing else.
  lemma {:induction false} RunIsLocal(w: World, v: World, steps: seq<Step>, sid: Sid)
    requires w.used == v.used && Look(w, sid) == Look(v, sid)
    ensures Exec(w, steps).used == Exec(v, steps).used && Look(Exec(w, steps), sid) == Look(Exec(v, steps), sid)
    decreases |steps|
  {
    if steps != [] {
      RunIsLocal(w, v, steps[..|steps| - 1], sid);
      var a, b := Exec(w, steps[..|steps| - 1]), Exec(v, steps[..|steps| - 1]);
      var e := steps[|steps| - 1];
      if e.sid == sid {
        assert sid in a.sockets <==> sid in b.sockets;
      }
    }
  }

  // A socket only ever enters rooms, until it is gone; and gone it stays.
  lemma {:induction false} RoomsOnlyGrow(w: World, steps: seq<Step>, sid: Sid)
    requires Valid(w) && sid in w.used
    ensures sid in Exec(w, steps).used
    ensures sid in Exec(w, steps).sockets ==>
              sid in w.sockets && w.sockets[sid].rooms <= Exec(w, steps).sockets[sid].rooms
    ensures sid in Exec(w, steps).sockets && w.sockets[sid].session.Some? ==>
              Exec(w, steps).sockets[sid].session == w.sockets[sid].session
    decreases |steps|
  {
    if steps != [] {
      RoomsOnlyGrow(w, steps[..|steps| - 1], sid);
    }
  }
}
