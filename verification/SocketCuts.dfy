/** Connecting and cutting the sockets of one worker (app/socket_manager.py). Every method
    suspends at its awaits; what other handlers do there is a parameter. */
module SocketCuts {
  import opened Basics
  import opened SocketRooms

  // What other handlers do while the n-th await of a method is pending.
  type Others = nat -> seq<Step>

  // All that they do from one await to another.
  function Woven(others: Others, start: nat, end: nat): seq<Step>
    requires start <= end
    decreases end
  {
    if start == end then [] else Woven(others, start, end - 1) + others(end - 1)
  }

  lemma {:induction false} WovenAppend(others: Others, a: nat, b: nat, c: nat)
    requires a <= b <= c
    ensures Woven(others, a, b) + Woven(others, b, c) == Woven(others, a, c)
    decreases c
  {
    if b < c {
      WovenAppend(others, a, b, c - 1);
    }
  }

  /** sio.disconnect of these sockets raises: `true` after the socket has been removed,
      `false` before. */
  type Failures = map<Sid, bool>

  function Participants(w: World, room: Room): set<Sid> {
    set sid | sid in w.sockets && room in w.sockets[sid].rooms
  }

  // At some moment of the run `steps` from `w`, `sid` was in one of `rooms`.
  ghost predicate WasIn(w: World, steps: seq<Step>, sid: Sid, rooms: seq<Room>) {
    exists n: nat :: n <= |steps| && InOneOf(Exec(w, steps[..n]), sid, rooms)
  }

  predicate InOneOf(w: World, sid: Sid, rooms: seq<Room>) {
    exists r <- rooms :: sid in Participants(w, r)
  }

  lemma WasInLater(w: World, steps: seq<Step>, more: seq<Step>, sid: Sid, rooms: seq<Room>)
    requires WasIn(w, steps, sid, rooms)
    ensures WasIn(w, steps + more, sid, rooms)
  {
    var n: nat :| n <= |steps| && InOneOf(Exec(w, steps[..n]), sid, rooms);
    assert (steps + more)[..n] == steps[..n];
  }

  /** `w` is what the run `steps` makes of `w0`, except that the sockets in `cut` are gone. */
  ghost predicate CutFrom(w0: World, steps: seq<Step>, cut: set<Sid>, w: World) {
    && w.used == Exec(w0, steps).used
    && (forall sid <- cut :: sid in w.used && sid !in w.sockets)
    && (forall sid :: sid !in cut ==> Look(w, sid) == Look(Exec(w0, steps), sid))
  }

  lemma CutFromRuns(w0: World, steps: seq<Step>, cut: set<Sid>, w: World, more: seq<Step>)
    requires Valid(w) && CutFrom(w0, steps, cut, w)
    ensures CutFrom(w0, steps + more, cut, Exec(w, more))
  {
    ExecAppend(w0, steps, more);
    forall sid ensures Exec(w, more).used == Exec(w0, steps + more).used
               ensures sid !in cut ==> Look(Exec(w, more), sid) == Look(Exec(w0, steps + more), sid)
               ensures sid in cut ==> sid in Exec(w, more).used && sid !in Exec(w, more).sockets
    {
      if sid in cut {
        RoomsOnlyGrow(w, more, sid);
      } else {
        RunIsLocal(w, Exec(w0, steps), more, sid);
      }
      SameUsed(w, Exec(w0, steps), more);
    }
  }

  lemma {:induction false} SameUsed(w: World, v: World, steps: seq<Step>)
    requires w.used == v.used
    ensures Exec(w, steps).used == Exec(v, steps).used
    decreases |steps|
  {
    if steps != [] {
      SameUsed(w, v, steps[..|steps| - 1]);
    }
  }

  // One more cut, and whatever others do until the next.
  lemma CutMore(w0: World, steps: seq<Step>, cut: set<Sid>, u: World, more: seq<Step>, also: set<Sid>, w: World)
    requires Valid(u) && CutFrom(w0, steps, cut, u) && CutFrom(u, more, also, w)
    ensures CutFrom(w0, steps + more, cut + also, w)
  {
    CutFromRuns(w0, steps, cut, u, more);
  }

  // ---- sockets of sessions and of users ------------------------------------------------------------

  // At some moment of the run, `sid` was a socket of one of the login sessions `ids`.
  ghost predicate HadSession(w: World, steps: seq<Step>, sid: Sid, ids: seq<nat>) {
    exists n: nat :: n <= |steps| && IsOfSession(Exec(w, steps[..n]), sid, ids)
  }

  predicate IsOfSession(w: World, sid: Sid, ids: seq<nat>) {
    sid in w.sockets && w.sockets[sid].session.Some? && w.sockets[sid].session.value.sessionId in ids
  }

  ghost predicate HadUser(w: World, steps: seq<Step>, sid: Sid, ids: seq<nat>) {
    exists n: nat :: n <= |steps| && IsOfUser(Exec(w, steps[..n]), sid, ids)
  }

  predicate IsOfUser(w: World, sid: Sid, ids: seq<nat>) {
    sid in w.sockets && w.sockets[sid].session.Some? && w.sockets[sid].session.value.user in ids
  }

  function SessionRooms(ids: seq<nat>): seq<Room> {
    seq(|ids|, i requires 0 <= i < |ids| => SessionRoom(ids[i]))
  }

  function UserRooms(ids: seq<nat>): seq<Room> {
    seq(|ids|, i requires 0 <= i < |ids| => UserRoom(ids[i]))
  }

  lemma InSessionRooms(w: World, sid: Sid, ids: seq<nat>)
    requires Valid(w)
    ensures InOneOf(w, sid, SessionRooms(ids)) ==> IsOfSession(w, sid, ids)
    ensures IsOfSession(w, sid, ids) && FullyConnected(w.sockets[sid]) ==> InOneOf(w, sid, SessionRooms(ids))
  {
    if InOneOf(w, sid, SessionRooms(ids)) {
      var i: nat :| i < |ids| && SessionRooms(ids)[i] in w.sockets[sid].rooms;
      RoomNamesItsSockets(w.sockets[sid], ids[i]);
    }
    if IsOfSession(w, sid, ids) && FullyConnected(w.sockets[sid]) {
      var i: nat :| i < |ids| && ids[i] == w.sockets[sid].session.value.sessionId;
      RoomNamesItsSockets(w.sockets[sid], ids[i]);
      assert SessionRooms(ids)[i] in SessionRooms(ids);
    }
  }

  lemma InUserRooms(w: World, sid: Sid, ids: seq<nat>)
    requires Valid(w)
    ensures InOneOf(w, sid, UserRooms(ids)) ==> IsOfUser(w, sid, ids)
    ensures IsOfUser(w, sid, ids) && FullyConnected(w.sockets[sid]) ==> InOneOf(w, sid, UserRooms(ids))
  {
    if InOneOf(w, sid, UserRooms(ids)) {
      var i: nat :| i < |ids| && UserRooms(ids)[i] in w.sockets[sid].rooms;
      RoomNamesItsSockets(w.sockets[sid], ids[i]);
    }
    if IsOfUser(w, sid, ids) && FullyConnected(w.sockets[sid]) {
      var i: nat :| i < |ids| && ids[i] == w.sockets[sid].session.value.user;
      RoomNamesItsSockets(w.sockets[sid], ids[i]);
      assert UserRooms(ids)[i] in UserRooms(ids);
    }
  }

  // A socket never changes its session.
  lemma SessionIsForLife(w: World, steps: seq<Step>, n: nat, sid: Sid)
    requires Valid(w) && n <= |steps| && sid in w.sockets && w.sockets[sid].session.Some?
    ensures Valid(Exec(w, steps[..n]))
    ensures sid in Exec(w, steps[..n]).sockets ==> Exec(w, steps[..n]).sockets[sid].session == w.sockets[sid].session
  {
    RunKeeps(w, steps[..n]);
    RoomsOnlyGrow(w, steps[..n], sid);
  }

  lemma WasOfSession(w: World, steps: seq<Step>, sid: Sid, ids: seq<nat>)
    requires Valid(w) && WasIn(w, steps, sid, SessionRooms(ids))
    ensures HadSession(w, steps, sid, ids)
    ensures sid in w.sockets && w.sockets[sid].session.Some? ==> w.sockets[sid].session.value.sessionId in ids
  {
    var n: nat :| n <= |steps| && InOneOf(Exec(w, steps[..n]), sid, SessionRooms(ids));
    RunKeeps(w, steps[..n]);
    InSessionRooms(Exec(w, steps[..n]), sid, ids);
    if sid in w.sockets && w.sockets[sid].session.Some? {
      SessionIsForLife(w, steps, n, sid);
    }
  }

  lemma WasOfUser(w: World, steps: seq<Step>, sid: Sid, ids: seq<nat>)
    requires Valid(w) && WasIn(w, steps, sid, UserRooms(ids))
    ensures HadUser(w, steps, sid, ids)
    ensures sid in w.sockets && w.sockets[sid].session.Some? ==> w.sockets[sid].session.value.user in ids
  {
    var n: nat :| n <= |steps| && InOneOf(Exec(w, steps[..n]), sid, UserRooms(ids));
    RunKeeps(w, steps[..n]);
    InUserRooms(Exec(w, steps[..n]), sid, ids);
    if sid in w.sockets && w.sockets[sid].session.Some? {
      SessionIsForLife(w, steps, n, sid);
    }
  }

  // Sockets with a saved session whose user has to change the password; 0 is no user id.
  function Flagged(w: World, flagged: set<nat>): set<Sid> {
    set sid | sid in w.sockets && w.sockets[sid].session.Some?
              && w.sockets[sid].session.value.user != 0 && w.sockets[sid].session.value.user in flagged
  }

  // `_local_socket_users`
  function LocalSocketUsers(w: World): map<Sid, nat> {
    map sid | sid in w.sockets && w.sockets[sid].session.Some? && w.sockets[sid].session.value.user != 0
      :: w.sockets[sid].session.value.user
  }

  lemma FlaggedUsers(w: World, flagged: set<nat>)
    ensures var users := LocalSocketUsers(w);
            (set sid | sid in users && users[sid] in flagged) == Flagged(w, flagged)
  {
  }

  lemma StartOfCut(w: World, others: Others, n: nat)
    ensures CutFrom(w, Woven(others, n, n + 1), {}, Exec(w, others(n)))
    ensures w.used <= Exec(w, others(n)).used
  {
    assert Woven(others, n, n + 1) == [] + others(n) == others(n);
    UsedStays(w, others(n));
  }

  // One socket more, and what others do during its await.
  lemma CutOne(w0: World, others: Others, start: nat, n: nat, cut: set<Sid>, w: World, sid: Sid)
    requires Valid(w) && sid in w.used && start <= n && CutFrom(w0, Woven(others, start, n), cut, w)
    ensures var v := After(w, Close(sid));
            && Valid(v) && CutFrom(w0, Woven(others, start, n), cut + {sid}, v)
            && CutFrom(w0, Woven(others, start, n + 1), cut + {sid}, Exec(v, others(n)))
            && w.used <= Exec(v, others(n)).used
  {
    var v := After(w, Close(sid));
    CutFromRuns(w0, Woven(others, start, n), cut + {sid}, v, others(n));
    UsedStays(v, others(n));
  }

  // Of the snapshot `sids`, `cut` are gone and `todo` are left.
  ghost predicate Cutting(w0: World, others: Others, start: nat, end: nat, sids: set<Sid>, todo: set<Sid>,
                          cut: set<Sid>, w: World)
  {
    && Valid(w) && sids <= w.used && cut !! todo && cut + todo == sids && end == start + 1 + |cut|
    && CutFrom(w0, Woven(others, start, end), cut, w)
  }

  lemma Moved(cut: set<Sid>, todo: set<Sid>, sid: Sid)
    requires cut !! todo && sid in todo
    ensures var cut', todo' := cut + {sid}, todo - {sid};
            cut' !! todo' && cut' + todo' == cut + todo && |cut'| == |cut| + 1 && |todo'| + 1 == |todo|
  {
  }

  // Nothing is cut during the first await.
  lemma CutAfterRead(w0: World, u: World, others: Others, end: nat, cut: set<Sid>, w: World)
    requires Valid(u) && end > 0
    requires CutFrom(w0, Woven(others, 0, 1), {}, u) && CutFrom(u, Woven(others, 1, end), cut, w)
    ensures CutFrom(w0, Woven(others, 0, end), cut, w)
  {
    CutMore(w0, Woven(others, 0, 1), {}, u, Woven(others, 1, end), cut, w);
    assert {} + cut == cut;
    WovenAppend(others, 0, 1, end);
  }

  predicate HasSession(w: World, sid: Sid) {
    sid in w.sockets && w.sockets[sid].session.Some?
  }

  // All sockets but `sid` are what the run made of them.
  ghost predicate IsAside(w0: World, steps: seq<Step>, w: World, sid: Sid) {
    w.used == Exec(w0, steps).used && forall o :: o != sid ==> Look(w, o) == Look(Exec(w0, steps), o)
  }

  // No step of the run is about `sid`.
  ghost predicate Untouched(steps: seq<Step>, sid: Sid) {
    forall e <- steps :: e.sid != sid
  }

  lemma BystandersStay(w: World, steps: seq<Step>)
    ensures forall sid :: Untouched(steps, sid) ==> Look(Exec(w, steps), sid) == Look(w, sid)
  {
    forall sid | Untouched(steps, sid) ensures Look(Exec(w, steps), sid) == Look(w, sid) {
      UntouchedStays(w, steps, sid);
    }
  }

  /** The first `i` rooms are done: of those in them at the beginning nobody is left, and who
      was cut had been in one of the rooms. */
  ghost predicate RoomsCut(w0: World, steps: seq<Step>, cut: set<Sid>, w: World, rooms: seq<Room>, i: nat)
    requires i <= |rooms|
  {
    && CutFrom(w0, steps, cut, w)
    && (forall sid <- cut :: WasIn(w0, steps, sid, rooms))
    && (forall sid :: InOneOf(w0, sid, rooms[..i]) ==> sid !in w.sockets)
  }

  lemma NextRoom(w0: World, steps: seq<Step>, cut: set<Sid>, u: World, more: seq<Step>, also: set<Sid>, w: World,
                 rooms: seq<Room>, i: nat)
    requires Valid(w0) && Valid(u) && i < |rooms| && RoomsCut(w0, steps, cut, u, rooms, i)
    requires CutFrom(u, more, also, w) && also <= Participants(u, rooms[i])
    ensures cut !! also && CutFrom(w0, steps + more, cut + also, w)
    ensures forall sid <- cut + Participants(u, rooms[i]) :: WasIn(w0, steps + more, sid, rooms)
    ensures also == Participants(u, rooms[i]) ==> RoomsCut(w0, steps + more, cut + also, w, rooms, i + 1)
    ensures |cut + also| == |cut| + |also|
  {
    TargetsWereIn(w0, steps, cut, u, rooms, i);
    CutMore(w0, steps, cut, u, more, also, w);
    forall sid <- cut + Participants(u, rooms[i]) ensures WasIn(w0, steps + more, sid, rooms) {
      WasInLater(w0, steps, more, sid, rooms);
    }
    if also == Participants(u, rooms[i]) {
      GoneFrom(w0, steps, cut, u, more, w, rooms, i);
    }
  }

  // A snapshot's sockets are there now and not among those already cut.
  lemma TargetsWereIn(w0: World, steps: seq<Step>, cut: set<Sid>, w: World, rooms: seq<Room>, i: nat)
    requires CutFrom(w0, steps, cut, w) && i < |rooms|
    ensures forall sid <- Participants(w, rooms[i]) :: sid !in cut && WasIn(w0, steps, sid, rooms)
  {
    forall sid <- Participants(w, rooms[i]) ensures sid !in cut && WasIn(w0, steps, sid, rooms) {
      assert steps[..|steps|] == steps;
      assert Look(w, sid) == Look(Exec(w0, steps), sid);
      assert rooms[i] in rooms && sid in Participants(Exec(w0, steps), rooms[i]);
    }
  }

  // Who was in room `i` at the beginning is gone once its snapshot has been cut.
  lemma GoneFrom(w0: World, steps: seq<Step>, cut: set<Sid>, u: World, more: seq<Step>, w: World, rooms: seq<Room>,
                 i: nat)
    requires Valid(w0) && Valid(u) && i < |rooms| && CutFrom(w0, steps, cut, u)
    requires CutFrom(u, more, Participants(u, rooms[i]), w)
    requires forall sid :: InOneOf(w0, sid, rooms[..i]) ==> sid !in u.sockets
    ensures forall sid :: InOneOf(w0, sid, rooms[..i + 1]) ==> sid !in w.sockets
  {
    forall sid | InOneOf(w0, sid, rooms[..i + 1]) ensures sid !in w.sockets {
      assert rooms[..i + 1] == rooms[..i] + [rooms[i]];
      RoomsOnlyGrow(w0, steps, sid);
      assert sid in u.used;
      if sid in u.sockets {
        assert sid in Participants(w0, rooms[i]);
        assert Look(u, sid) == Look(Exec(w0, steps), sid);
        assert sid in Participants(u, rooms[i]);
      } else if sid !in Participants(u, rooms[i]) {
        RoomsOnlyGrow(u, more, sid);
        assert Look(w, sid) == Look(Exec(u, more), sid);
      }
    }
  }

  lemma {:induction false} UsedStays(w: World, steps: seq<Step>)
    ensures w.used <= Exec(w, steps).used
    decreases |steps|
  {
    if steps != [] {
      UsedStays(w, steps[..|steps| - 1]);
    }
  }

  lemma {:induction false} OnlyItsOwnHandler(w: World, steps: seq<Step>, sid: Sid)
    requires Valid(w) && sid in w.used
    requires forall e :: e in steps && (e.Save? || e.Join?) ==> e.sid != sid
    ensures sid in Exec(w, steps).used
    ensures sid in Exec(w, steps).sockets <==> sid in w.sockets && Close(sid) !in steps
    ensures sid in Exec(w, steps).sockets ==> Exec(w, steps).sockets[sid] == w.sockets[sid]
    decreases |steps|
  {
    if steps != [] {
      var n := |steps| - 1;
      assert steps == steps[..n] + [steps[n]];
      OnlyItsOwnHandler(w, steps[..n], sid);
      assert steps[n] in steps;
    }
  }

  // Whom no handler touches stays as it was.
  lemma {:induction false} UntouchedStays(w: World, steps: seq<Step>, sid: Sid)
    requires Untouched(steps, sid)
    ensures Look(Exec(w, steps), sid) == Look(w, sid)
    decreases |steps|
  {
    if steps != [] {
      var n := |steps| - 1;
      assert steps == steps[..n] + [steps[n]];
      UntouchedStays(w, steps[..n], sid);
      assert steps[n] in steps;
    }
  }

  // Changing one socket does not change what becomes of the others.
  lemma OtherSocketsSame(w0: World, steps: seq<Step>, u: World, w: World, more: seq<Step>, sid: Sid)
    requires u.used == Exec(w0, steps).used && w.used == u.used
    requires forall o :: o != sid ==> Look(u, o) == Look(Exec(w0, steps), o) && Look(w, o) == Look(u, o)
    ensures Exec(w, more).used == Exec(w0, steps + more).used
    ensures forall o :: o != sid ==> Look(Exec(w, more), o) == Look(Exec(w0, steps + more), o)
  {
    ExecAppend(w0, steps, more);
    SameUsed(w, Exec(w0, steps), more);
    forall o | o != sid ensures Look(Exec(w, more), o) == Look(Exec(w0, steps + more), o) {
      RunIsLocal(w, Exec(w0, steps), more, o);
    }
  }

  class LocalSockets {
    var w: World

    constructor ()
      ensures Valid(w) && w == World(map[], {})
    {
      w := World(map[], {});
    }

    // Other handlers run.
    method Interfere(steps: seq<Step>)
      requires Valid(w)
      modifies this
      ensures Valid(w) && w == Exec(old(w), steps)
    {
      for i := 0 to |steps|
        invariant Valid(w) && w == Exec(old(w), steps[..i])
      {
        assert steps[..i + 1][..i] == steps[..i];
        StepKeeps(w, steps[i]);
        w := After(w, steps[i]);
      }
      assert steps[..|steps|] == steps;
    }

    // One of the awaits of `connect`, before its next step on its own socket.
    method AwaitOwn(sid: Sid, others: Others, n: nat, ghost w0: World)
      requires Valid(w) && sid in w.sockets && IsAside(w0, Woven(others, 0, n), w, sid)
      requires forall e :: e in others(n) && (e.Save? || e.Join?) ==> e.sid != sid
      modifies this
      ensures Valid(w) && IsAside(w0, Woven(others, 0, n + 1), w, sid)
      ensures sid in w.sockets <==> Close(sid) !in others(n)
      ensures sid in w.sockets ==> w.sockets[sid] == old(w).sockets[sid]
    {
      OnlyItsOwnHandler(w, others(n), sid);
      OtherSocketsSame(w0, Woven(others, 0, n), w, w, others(n), sid);
      Interfere(others(n));
    }

    // Its next enter_room, unless it was closed during the n-th await.
    method JoinNext(sid: Sid, others: Others, n: nat, ghost w0: World) returns (ok: bool)
      requires Valid(w) && CanJoin(w, sid) && IsAside(w0, Woven(others, 0, n), w, sid)
      requires forall e :: e in others(n) && (e.Save? || e.Join?) ==> e.sid != sid
      modifies this
      ensures Valid(w) && IsAside(w0, Woven(others, 0, n + 1), w, sid)
      ensures ok <==> Close(sid) !in others(n)
      ensures if ok then Look(w, sid) == Some(Joined(old(w).sockets[sid])) else sid !in w.sockets
    {
      AwaitOwn(sid, others, n, w0);
      ok := sid in w.sockets;
      if ok {
        StepKeeps(w, Join(sid));
        w := After(w, Join(sid));
      }
    }

    /** The `connect` handler of `sid`; `auth` is None if it was refused. After `n` awaits it
        is fully joined, or gone because it was refused or closed meanwhile; all other sockets
        are what the other handlers made of them. */
    method Connect(sid: Sid, auth: Option<Session>, others: Others) returns (ok: bool, n: nat)
      requires Valid(w) && Look(w, sid) == Some(Socket(None, {}, 0))
      requires forall n, e :: e in others(n) && (e.Save? || e.Join?) ==> e.sid != sid
      modifies this
      ensures Valid(w) && IsAside(old(w), Woven(others, 0, n), w, sid)
      ensures ok <==> auth.Some? && Close(sid) !in Woven(others, 0, n)
      ensures if ok then HasSession(w, sid) && FullyConnected(w.sockets[sid]) && w.sockets[sid].session == auth
              else sid !in w.sockets
    {
      ghost var w0 := w;
      AwaitOwn(sid, others, 0, w0);
      assert Woven(others, 0, 1) == Woven(others, 0, 0) + others(0) == others(0);
      ok, n := auth.Some? && sid in w.sockets, 1;
      if ok {
        SavedIsConsistent(auth.value);
        w := After(w, Save(sid, auth.value));
        ok, n := JoinRooms(sid, auth.value, others, w0);
      } else {
        w := After(w, Close(sid));
      }
    }

    // The rooms of `connect`, one await before each.
    method JoinRooms(sid: Sid, k: Session, others: Others, ghost w0: World) returns (ok: bool, n: nat)
      requires Valid(w) && Look(w, sid) == Some(Socket(Some(k), {}, 0))
      requires forall n, e :: e in others(n) && (e.Save? || e.Join?) ==> e.sid != sid
      requires IsAside(w0, Woven(others, 0, 1), w, sid) && Close(sid) !in Woven(others, 0, 1)
      modifies this
      ensures Valid(w) && n > 0 && IsAside(w0, Woven(others, 0, n), w, sid)
      ensures ok <==> Close(sid) !in Woven(others, 0, n)
      ensures if ok then HasSession(w, sid) && FullyConnected(w.sockets[sid]) && w.sockets[sid].session == Some(k)
              else sid !in w.sockets
    {
      ok, n := true, 1;
      var rooms := |JoinOrder(k)|;
      while n <= rooms
        invariant Valid(w) && HasSession(w, sid) && w.sockets[sid].session == Some(k)
        invariant n == w.sockets[sid].done + 1 <= rooms + 1
        invariant IsAside(w0, Woven(others, 0, n), w, sid) && Close(sid) !in Woven(others, 0, n)
      {
        ok := JoinNext(sid, others, n, w0);
        n := n + 1;
        if !ok {
          return;
        }
      }
      ok := true;
    }

    // sio.disconnect of one socket, during the n-th await.
    method Disconnect(sid: Sid, others: Others, n: nat, failures: Failures, ghost w0: World, ghost start: nat,
                      ghost cut: set<Sid>)
      returns (ok: bool, ghost cut': set<Sid>)
      requires Valid(w) && sid in w.used && start <= n && CutFrom(w0, Woven(others, start, n), cut, w)
      modifies this
      ensures Valid(w) && old(w).used <= w.used && CutFrom(w0, Woven(others, start, if ok then n + 1 else n), cut', w)
      ensures if ok then cut' == cut + {sid} else sid in failures && (cut' == cut || cut' == cut + {sid})
    {
      CutOne(w0, others, start, n, cut, w, sid);
      ok, cut' := true, cut + {sid};
      if sid in w.sockets && sid in failures {
        ok := false;
        if failures[sid] {
          w := After(w, Close(sid));
        } else {
          cut' := cut;
        }
      } else {
        w := After(w, Close(sid));
        Interfere(others(n));
      }
    }

    // One turn of the loop below.
    method CutNext(sids: set<Sid>, todo: set<Sid>, others: Others, end: nat, failures: Failures,
                   ghost w0: World, ghost start: nat, ghost cut: set<Sid>)
      returns (ok: bool, todo': set<Sid>, ghost cut': set<Sid>)
      requires todo != {} && Cutting(w0, others, start, end, sids, todo, cut, w)
      modifies this
      ensures ok ==> Cutting(w0, others, start, end + 1, sids, todo', cut', w) && todo' < todo
      ensures !ok ==> Valid(w) && cut' <= sids && CutFrom(w0, Woven(others, start, end), cut', w)
      ensures !ok ==> exists sid <- failures :: sid in sids
    {
      var sid :| sid in todo;
      Moved(cut, todo, sid);
      todo' := todo - {sid};
      ok, cut' := Disconnect(sid, others, end, failures, w0, start, cut);
    }

    /** The cutting loop: a notice to the room, which may be awaited, and sio.disconnect for
        each sid of a snapshot. It begins at await `start` and is over before await `end`. */
    method CutAll(sids: set<Sid>, others: Others, start: nat, failures: Failures)
      returns (ok: bool, end: nat, ghost cut: set<Sid>)
      requires Valid(w) && sids <= w.used
      modifies this
      ensures Valid(w) && start <= end && cut <= sids && CutFrom(old(w), Woven(others, start, end), cut, w)
      ensures ok ==> cut == sids && end == start + 1 + |sids|
      ensures !ok ==> exists sid <- failures :: sid in sids
    {
      ghost var w0 := w;
      StartOfCut(w0, others, start);
      Interfere(others(start));
      cut, end := {}, start + 1;
      var todo := sids;
      while todo != {}
        invariant Cutting(w0, others, start, end, sids, todo, cut, w)
        decreases todo
      {
        ok, todo, cut := CutNext(sids, todo, others, end, failures, w0, start, cut);
        if !ok {
          return;
        }
        end := end + 1;
      }
      ok := true;
    }

    // One room: a snapshot of its participants, and the cutting loop.
    method CutRoom(ghost w0: World, ghost cut: set<Sid>, rooms: seq<Room>, i: nat, others: Others, start: nat,
                   failures: Failures)
      returns (ok: bool, count: nat, end: nat, ghost cut': set<Sid>)
      requires Valid(w0) && Valid(w) && i < |rooms| && RoomsCut(w0, Woven(others, 0, start), cut, w, rooms, i)
      modifies this
      ensures Valid(w) && start <= end && CutFrom(w0, Woven(others, 0, end), cut', w)
      ensures forall sid <- cut' :: WasIn(w0, Woven(others, 0, end), sid, rooms)
      ensures ok ==> RoomsCut(w0, Woven(others, 0, end), cut', w, rooms, i + 1)
      ensures ok ==> |cut'| == |cut| + count && end == start + 1 + count
      ensures !ok ==> exists sid <- failures :: WasIn(w0, Woven(others, 0, end), sid, rooms)
    {
      var sids := Participants(w, rooms[i]);
      ghost var u := w;
      ghost var also;
      ok, end, also := CutAll(sids, others, start, failures);
      WovenAppend(others, 0, start, end);
      NextRoom(w0, Woven(others, 0, start), cut, u, Woven(others, start, end), also, w, rooms, i);
      cut', count := cut + also, |sids|;
    }

    /** The loop over rooms that the three targeted cuts share. All other handlers do while it
        runs is `Woven(others, 0, awaits)`. */
    method CutRooms(rooms: seq<Room>, others: Others, failures: Failures)
      returns (ok: bool, count: nat, awaits: nat, ghost cut: set<Sid>)
      requires Valid(w)
      modifies this
      ensures Valid(w) && CutFrom(old(w), Woven(others, 0, awaits), cut, w)
      ensures forall sid <- cut :: WasIn(old(w), Woven(others, 0, awaits), sid, rooms)
      ensures ok ==> count == |cut| && awaits == |rooms| + count
      ensures ok ==> forall sid :: InOneOf(old(w), sid, rooms) ==> sid !in w.sockets
      ensures !ok ==> exists sid <- failures :: WasIn(old(w), Woven(others, 0, awaits), sid, rooms)
    {
      ghost var w0 := w;
      ok, count, awaits, cut := true, 0, 0, {};
      var i := 0;
      while i < |rooms|
        invariant i <= |rooms| && count == |cut| && awaits == i + count
        invariant Valid(w0) && Valid(w) && RoomsCut(w0, Woven(others, 0, awaits), cut, w, rooms, i)
      {
        var more;
        ok, more, awaits, cut := CutRoom(w0, cut, rooms, i, others, awaits, failures);
        if !ok {
          return;
        }
        count, i := count + more, i + 1;
      }
      assert rooms[..|rooms|] == rooms;
      ok := true;
    }

    /** `force_disconnect_sessions`: every fully connected socket of the listed login sessions
        goes, each counted once however often its session is listed; the same user's other
        sessions keep theirs. */
    method ForceDisconnectSessions(ids: seq<nat>, others: Others, failures: Failures)
      returns (ok: bool, count: nat, awaits: nat, ghost cut: set<Sid>)
      requires Valid(w)
      modifies this
      ensures Valid(w) && CutFrom(old(w), Woven(others, 0, awaits), cut, w)
      ensures forall sid <- cut :: HadSession(old(w), Woven(others, 0, awaits), sid, ids)
      ensures ok ==> count == |cut| && awaits == |ids| + count
      ensures ok ==> forall sid :: IsOfSession(old(w), sid, ids) && FullyConnected(old(w).sockets[sid]) ==>
                sid !in w.sockets
      ensures forall sid :: HasSession(old(w), sid) && !IsOfSession(old(w), sid, ids) ==>
                && Look(w, sid) == Look(Exec(old(w), Woven(others, 0, awaits)), sid)
                && (Untouched(Woven(others, 0, awaits), sid) ==> Look(w, sid) == Look(old(w), sid))
      ensures !ok ==> exists sid <- failures :: HadSession(old(w), Woven(others, 0, awaits), sid, ids)
    {
      ghost var w0 := w;
      ok, count, awaits, cut := CutRooms(SessionRooms(ids), others, failures);
      ghost var steps := Woven(others, 0, awaits);
      forall sid | WasIn(w0, steps, sid, SessionRooms(ids))
        ensures HadSession(w0, steps, sid, ids) && (HasSession(w0, sid) ==> IsOfSession(w0, sid, ids))
      {
        WasOfSession(w0, steps, sid, ids);
      }
      forall sid | IsOfSession(w0, sid, ids) && FullyConnected(w0.sockets[sid])
        ensures InOneOf(w0, sid, SessionRooms(ids)) {
        InSessionRooms(w0, sid, ids);
      }
      BystandersStay(w0, steps);
    }

    /** `force_disconnect_user` and `cut_password_change_sockets`: the same for all sockets of
        the listed users. */
    method ForceDisconnectUser(ids: seq<nat>, others: Others, failures: Failures)
      returns (ok: bool, count: nat, awaits: nat, ghost cut: set<Sid>)
      requires Valid(w)
      modifies this
      ensures Valid(w) && CutFrom(old(w), Woven(others, 0, awaits), cut, w)
      ensures forall sid <- cut :: HadUser(old(w), Woven(others, 0, awaits), sid, ids)
      ensures ok ==> count == |cut| && awaits == |ids| + count
      ensures ok ==> forall sid :: IsOfUser(old(w), sid, ids) && FullyConnected(old(w).sockets[sid]) ==>
                sid !in w.sockets
      ensures forall sid :: HasSession(old(w), sid) && !IsOfUser(old(w), sid, ids) ==>
                && Look(w, sid) == Look(Exec(old(w), Woven(others, 0, awaits)), sid)
                && (Untouched(Woven(others, 0, awaits), sid) ==> Look(w, sid) == Look(old(w), sid))
      ensures !ok ==> exists sid <- failures :: HadUser(old(w), Woven(others, 0, awaits), sid, ids)
    {
      ghost var w0 := w;
      ok, count, awaits, cut := CutRooms(UserRooms(ids), others, failures);
      ghost var steps := Woven(others, 0, awaits);
      forall sid | WasIn(w0, steps, sid, UserRooms(ids))
        ensures HadUser(w0, steps, sid, ids) && (HasSession(w0, sid) ==> IsOfUser(w0, sid, ids))
      {
        WasOfUser(w0, steps, sid, ids);
      }
      forall sid | IsOfUser(w0, sid, ids) && FullyConnected(w0.sockets[sid]) ensures InOneOf(w0, sid, UserRooms(ids)) {
        InUserRooms(w0, sid, ids);
      }
      BystandersStay(w0, steps);
    }

    /** `_password_change_sweep`: unless the flags cannot be read or a disconnect raises, the
        sockets of flagged users that were here at the start are cut, and no others. Its first
        await is the read of the flags. */
    method PasswordChangeSweep(flags: Option<set<nat>>, others: Others, failures: Failures)
      returns (ok: bool, count: nat, awaits: nat, ghost cut: set<Sid>)
      requires Valid(w)
      modifies this
      ensures Valid(w) && CutFrom(old(w), Woven(others, 0, awaits), cut, w)
      ensures forall sid :: sid !in cut && Untouched(Woven(others, 0, awaits), sid) ==>
                Look(w, sid) == Look(old(w), sid)
      ensures flags.None? ==> !ok && cut == {} && awaits == 1
      ensures flags.Some? ==> cut <= Flagged(old(w), flags.value)
      ensures ok ==> cut == Flagged(old(w), flags.value) && count == |cut| && awaits == 2 + count
      ensures !ok && flags.Some? ==> exists sid <- failures :: sid in Flagged(old(w), flags.value)
    {
      ghost var w0 := w;
      var users := LocalSocketUsers(w);
      StartOfCut(w0, others, 0);
      Interfere(others(0));
      ok, count, awaits, cut := false, 0, 1, {};
      if flags.None? {
        BystandersStay(w0, Woven(others, 0, 1));
        return;
      }
      ghost var u := w;
      var sids := set sid | sid in users && users[sid] in flags.value;
      FlaggedUsers(w0, flags.value);
      ok, awaits, cut := CutAll(sids, others, 1, failures);
      CutAfterRead(w0, u, others, awaits, cut, w);
      BystandersStay(w0, Woven(others, 0, awaits));
      count := |sids|;
    }

    /** `_cut_every_local_socket`: nobody who was here is left. */
    method CutEveryLocalSocket(others: Others, failures: Failures)
      returns (ok: bool, count: nat, awaits: nat, ghost cut: set<Sid>)
      requires Valid(w)
      modifies this
      ensures Valid(w) && CutFrom(old(w), Woven(others, 0, awaits), cut, w) && cut <= old(w).sockets.Keys
      ensures ok ==> cut == old(w).sockets.Keys && count == |cut|
      ensures !ok ==> exists sid <- failures :: sid in old(w).sockets
    {
      var sids := w.sockets.Keys;
      ok, awaits, cut := CutAll(sids, others, 0, failures);
      count := |sids|;
    }
  }
}
