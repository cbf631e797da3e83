/** Re-validation of a live socket while its session is being refreshed or revoked
    (socket_manager.py, `_session_refusal_reason`, against /auth/refresh in
    routers/auth.py and the revoking paths of services/session_service.py,
    services/user_service.py and tasks/session_tasks.py). The socket is bound to one
    session row; the refresh JTI of that row rotates, and Redis caches the current one
    under `session:{jti}`. */
module SessionRevalidation {
  import opened Basics

  type Jti = nat
  type ReaderId = nat
  type RevokerId = nat

  // The committed row: live means neither revoked nor expired.
  datatype Row = Row(jti: Jti, revoked: bool, expired: bool) {
    predicate Live() {
      !revoked && !expired
    }
  }

  // The row lock: held by a refresh or by a revocation that has been flushed, or FOR SHARE
  // by any number of re-validations.
  datatype Lock = Free | ByRefresh | ByRevoker(r: RevokerId) | Shared(holders: set<ReaderId>)

  /** /auth/refresh: row locked; Redis rotated; a failure to compensate for. `next` is the
      new JTI; `took` says that its rotation removed the old key, `committed` that the row
      already carries the new JTI. */
  datatype Refresh =
    | NoRefresh | Locked(next: Jti) | Rotated(next: Jti, took: bool)
    | Compensating(next: Jti, previous: Jti, took: bool, committed: bool)

  /** A transaction that revokes the session: it has read the row with this JTI; its UPDATE
      has been flushed and holds the row; it is over. */
  datatype Revoker = HasRead(jti: Jti) | Flushed(jti: Jti) | Committed(jti: Jti) | RolledBack(jti: Jti)

  // Who took a key out of Redis.
  datatype Remover = Rotation(next: Jti) | Compensation(next: Jti) | Revocation(r: RevokerId) | Loss | Cleanup

  datatype Refusal = SessionRevoked | AuthStateUnavailable | ValidationError | UserInvalidated | PasswordChange

  /** What a re-validation met when it read the cache: whether Redis answered, the row at
      that moment, and whether the key was there. */
  datatype View = View(heard: bool, row: Option<Row>, present: bool) {
    // Redis answered, and it disagreed with a live row.
    predicate Disagreed() {
      heard && row.Some? && row.value.Live() && !present
    }
  }

  // One call of `_session_refusal_reason`: what it has established, or its answer (no
  // refusal is "valid"). `accepted` is the row its live predicate passed; `rowThen` is
  // history, the row at the moment of the answer.
  datatype Reader =
    | HasJti(jti: Jti) | CacheSeen(jti: Jti, view: View) | NotBlacklisted(jti: Jti, view: View)
    | RowSeen(jti: Jti, view: View, checked: Row)
    | Done(refusal: Option<Refusal>, seen: Option<View>, accepted: Option<Row>, rowThen: Option<Row>)

  datatype State = State(
    row: Option<Row>, lock: Lock, refresh: Refresh, revokers: map<RevokerId, Revoker>,
    cache: set<Jti>, used: set<Jti>,
    gone: map<Jti, Remover>,   // history: who removed a key that is not there
    blacklisted: bool, flagged: bool,
    readers: map<ReaderId, Reader>,
    met: map<ReaderId, seq<Moment>>)   // history: what each read of a re-validation met

  datatype Heard = Answers | Unavailable | Fails

  // How one read fared, and all there was to read at that moment.
  datatype Moment = Moment(heard: Heard, row: Option<Row>, cache: set<Jti>, blacklisted: bool, flagged: bool)

  /** A Redis or database call may take effect (`applied`) and still raise (not `ok`). A
      commit that fails may have released the row (`released`) before anybody compensates. */
  datatype Event =
    // the refresh
    | LockRow(next: Jti) | Rotate(applied: bool, ok: bool) | Commit(applied: bool, ok: bool, released: bool)
    | Compensate(applied: bool) | Crash
    // revocations
    | BeginRevoke(r: RevokerId) | DropKey(r: RevokerId) | Flush(r: RevokerId) | CommitRevoke(r: RevokerId)
    | Rollback(r: RevokerId)
    // the session, its keys and its user
    | Expire | Lose(jti: Jti) | CleanUp(jti: Jti) | SetBlacklist(on: bool) | SetFlag(on: bool)
    // re-validation: the five reads in order, and a database error
    | ReadJti(v: ReaderId) | ReadCache(v: ReaderId, heard: Heard) | ReadBlacklist(v: ReaderId, heard: Heard)
    | ReadRow(v: ReaderId) | ReadFlag(v: ReaderId) | DbError(v: ReaderId)

  predicate IsRefreshStep(e: Event) {
    e.LockRow? || e.Rotate? || e.Commit? || e.Compensate? || e.Crash?
  }

  predicate IsRevokerStep(e: Event) {
    e.BeginRevoke? || e.DropKey? || e.Flush? || e.CommitRevoke? || e.Rollback?
  }

  predicate IsReaderStep(e: Event) {
    e.ReadJti? || e.ReadCache? || e.ReadBlacklist? || e.ReadRow? || e.ReadFlag? || e.DbError?
  }

  predicate IsLiveRow(row: Option<Row>, jti: Jti) {
    row.Some? && row.value.Live() && row.value.jti == jti
  }

  // The new JTI of the refresh in flight: nobody outside it knows the token.
  predicate IsSecret(f: Refresh, jti: Jti) {
    !f.NoRefresh? && f.next == jti
  }

  predicate RefreshCan(s: State, e: Event) {
    match e
    case LockRow(next) => s.lock.Free? && s.row.Some? && s.row.value.Live() && s.refresh.NoRefresh? && next !in s.used
    case Rotate(applied, ok) => s.refresh.Locked? && s.row.Some? && (ok ==> applied)
    case Commit(applied, ok, released) => s.refresh.Rotated? && s.row.Some? && (ok ==> applied)
    case Compensate(_) => s.refresh.Compensating?
    case Crash => !s.refresh.NoRefresh?
    case _ => false
  }

  predicate RevokerCan(s: State, e: Event) {
    match e
    case BeginRevoke(r) => r !in s.revokers && s.row.Some?
    case DropKey(r) => r in s.revokers && !s.revokers[r].RolledBack?
    case Flush(r) => r in s.revokers && s.revokers[r].HasRead? && s.lock.Free?
    case CommitRevoke(r) => r in s.revokers && s.revokers[r].Flushed? && s.row.Some?
    case Rollback(r) => r in s.revokers && (s.revokers[r].HasRead? || s.revokers[r].Flushed?)
    case _ => false
  }

  predicate WorldCan(s: State, e: Event) {
    match e
    case Expire => s.row.Some?
    // TTL, eviction, a restart: Redis may lose any key
    case Lose(jti) => true
    // core/deps.py deletes the key of a token whose row it found dead
    case CleanUp(jti) => !IsLiveRow(s.row, jti) && !IsSecret(s.refresh, jti)
    case SetBlacklist(_) => true
    case SetFlag(_) => true
    case _ => false
  }

  predicate ReaderCan(s: State, e: Event) {
    match e
    case ReadJti(v) => v !in s.readers && (s.lock.Free? || s.lock.Shared?)
    case ReadCache(v, heard) => s.lock.Shared? && v in s.readers && s.readers[v].HasJti? && !heard.Fails?
    case ReadBlacklist(v, _) => s.lock.Shared? && v in s.readers && s.readers[v].CacheSeen?
    case ReadRow(v) => s.lock.Shared? && v in s.readers && s.readers[v].NotBlacklisted?
    case ReadFlag(v) => s.lock.Shared? && v in s.readers && s.readers[v].RowSeen?
    case DbError(v) => s.lock.Shared? && v in s.readers && !s.readers[v].Done?
    case _ => false
  }

  predicate Enabled(s: State, e: Event) {
    if IsRefreshStep(e) then RefreshCan(s, e) else if IsRevokerStep(e) then RevokerCan(s, e)
    else if IsReaderStep(e) then ReaderCan(s, e) else WorldCan(s, e)
  }

  // ---- the keys ------------------------------------------------------------------------------

  // What Redis holds of this session, and who took away what it does not hold.
  datatype Keys = Keys(cache: set<Jti>, gone: map<Jti, Remover>)

  function Put(k: Keys, jti: Jti): Keys {
    Keys(k.cache + {jti}, k.gone - {jti})
  }

  function Remove(k: Keys, jti: Jti, who: Remover): Keys {
    if jti in k.cache then Keys(k.cache - {jti}, k.gone[jti := who]) else k
  }

  function KeysOf(s: State): Keys {
    Keys(s.cache, s.gone)
  }

  function WithKeys(s: State, k: Keys): State {
    s.(cache := k.cache, gone := k.gone)
  }

  // ---- one step --------------------------------------------------------------------------------

  // The refresh is over; its lock, if it still had it, is gone.
  function EndRefresh(s: State): State {
    s.(refresh := NoRefresh, lock := if s.lock.ByRefresh? then Free else s.lock)
  }

  function RefreshStep(s: State, e: Event): State
    requires IsRefreshStep(e) && RefreshCan(s, e)
  {
    match e
    case LockRow(next) => s.(lock := ByRefresh, refresh := Locked(next), used := s.used + {next})
    case Rotate(applied, ok) =>
      // one MULTI/EXEC: delete session:{old}, set session:{new}
      var next, previous := s.refresh.next, s.row.value.jti;
      var took := applied && previous in s.cache;
      WithKeys(s, if applied then Put(Remove(KeysOf(s), previous, Rotation(next)), next) else KeysOf(s)).
        (refresh := if ok then Rotated(next, took) else Compensating(next, previous, took, false))
    case Commit(applied, ok, released) =>
      var next, previous, took := s.refresh.next, s.row.value.jti, s.refresh.took;
      if applied then
        s.(row := Some(s.row.value.(jti := next)), lock := Free,
           refresh := if ok then NoRefresh else Compensating(next, previous, took, true))
      else s.(lock := if released then Free else s.lock, refresh := Compensating(next, previous, took, false))
    case Compensate(applied) =>
      // one MULTI/EXEC: set session:{old}, delete session:{new}; then rollback
      var f := s.refresh;
      EndRefresh(if applied then WithKeys(s, Put(Remove(KeysOf(s), f.next, Compensation(f.next)), f.previous)) else s)
    case Crash => EndRefresh(s)
  }

  function RevokerStep(s: State, e: Event): State
    requires IsRevokerStep(e) && RevokerCan(s, e)
  {
    var r := e.r;
    match e
    case BeginRevoke(_) => s.(revokers := s.revokers[r := HasRead(s.row.value.jti)])
    case DropKey(_) => WithKeys(s, Remove(KeysOf(s), s.revokers[r].jti, Revocation(r)))
    case Flush(_) => s.(lock := ByRevoker(r), revokers := s.revokers[r := Flushed(s.revokers[r].jti)])
    case CommitRevoke(_) =>
      s.(row := Some(s.row.value.(revoked := true)), lock := Free,
         revokers := s.revokers[r := Committed(s.revokers[r].jti)])
    case Rollback(_) =>
      s.(lock := if s.revokers[r].Flushed? then Free else s.lock,
         revokers := s.revokers[r := RolledBack(s.revokers[r].jti)])
  }

  function WorldStep(s: State, e: Event): State
    requires WorldCan(s, e)
  {
    match e
    case Expire => s.(row := Some(s.row.value.(expired := true)))
    case Lose(jti) => WithKeys(s, Remove(KeysOf(s), jti, Loss))
    case CleanUp(jti) => WithKeys(s, Remove(KeysOf(s), jti, Cleanup))
    case SetBlacklist(on) => s.(blacklisted := on)
    case SetFlag(on) => s.(flagged := on)
  }

  function SeenBy(r: Reader): Option<View> {
    match r
    case HasJti(_) => None
    case CacheSeen(_, view) => Some(view)
    case NotBlacklisted(_, view) => Some(view)
    case RowSeen(_, view, _) => Some(view)
    case Done(_, seen, _, _) => seen
  }

  // The reader answers and its transaction ends, with its share of the lock.
  function Finish(s: State, v: ReaderId, refusal: Option<Refusal>, seen: Option<View>): State
    requires s.lock.Shared?
  {
    var left := s.lock.holders - {v};
    var checked := if v in s.readers && s.readers[v].RowSeen? then Some(s.readers[v].checked) else None;
    s.(readers := s.readers[v := Done(refusal, seen, checked, s.row)],
       lock := if left == {} then Free else Shared(left))
  }

  function Go(s: State, v: ReaderId, r: Reader): State {
    s.(readers := s.readers[v := r])
  }

  function TakeShare(s: State, v: ReaderId): State
    requires s.lock.Free? || s.lock.Shared?
  {
    if s.row.None? then Go(s, v, Done(Some(SessionRevoked), None, None, None))
    else Go(s.(lock := Shared((if s.lock.Shared? then s.lock.holders else {}) + {v})), v, HasJti(s.row.value.jti))
  }

  function ReaderMove(s: State, e: Event): State
    requires IsReaderStep(e) && ReaderCan(s, e)
  {
    var v := e.v;
    match e
    case ReadJti(_) => TakeShare(s, v)
    case ReadCache(_, heard) =>
      var jti := s.readers[v].jti;
      var view := View(heard.Answers?, s.row, jti in s.cache);
      if view.heard && !view.present then Finish(s, v, Some(SessionRevoked), Some(view))
      else Go(s, v, CacheSeen(jti, view))
    case ReadBlacklist(_, heard) =>
      var view := s.readers[v].view;
      if heard.Unavailable? then Finish(s, v, Some(AuthStateUnavailable), Some(view))
      else if heard.Fails? then Finish(s, v, Some(ValidationError), Some(view))
      else if s.blacklisted then Finish(s, v, Some(UserInvalidated), Some(view))
      else Go(s, v, NotBlacklisted(s.readers[v].jti, view))
    case ReadRow(_) =>
      var jti, view := s.readers[v].jti, s.readers[v].view;
      if IsLiveRow(s.row, jti) then Go(s, v, RowSeen(jti, view, s.row.value))
      else Finish(s, v, Some(SessionRevoked), Some(view))
    case ReadFlag(_) => Finish(s, v, if s.flagged then Some(PasswordChange) else None, Some(s.readers[v].view))
    case DbError(_) => Finish(s, v, Some(ValidationError), SeenBy(s.readers[v]))
  }

  function HeardBy(e: Event): Heard {
    match e
    case ReadCache(_, heard) => heard
    case ReadBlacklist(_, heard) => heard
    case DbError(_) => Fails
    case _ => Answers
  }

  function MomentOf(s: State, heard: Heard): Moment {
    Moment(heard, s.row, s.cache, s.blacklisted, s.flagged)
  }

  function MetSoFar(s: State, v: ReaderId): seq<Moment> {
    if v in s.met then s.met[v] else []
  }

  function ReaderStep(s: State, e: Event): State
    requires IsReaderStep(e) && ReaderCan(s, e)
  {
    ReaderMove(s, e).(met := s.met[e.v := MetSoFar(s, e.v) + [MomentOf(s, HeardBy(e))]])
  }

  function Apply(s: State, e: Event): State
    requires Enabled(s, e)
  {
    if IsRefreshStep(e) then RefreshStep(s, e) else if IsRevokerStep(e) then RevokerStep(s, e)
    else if IsReaderStep(e) then ReaderStep(s, e) else WorldStep(s, e)
  }

  predicate Legal(s: State, run: seq<Event>)
    decreases |run|
  {
    run == [] || (Enabled(s, run[0]) && Legal(Apply(s, run[0]), run[1..]))
  }

  function Exec(s: State, run: seq<Event>): State
    requires Legal(s, run)
    decreases |run|
  {
    if run == [] then s else Exec(Apply(s, run[0]), run[1..])
  }

  // ---- the invariant: the lock -----------------------------------------------------------------

  // Who is running holds a share of the lock; who has flushed a revocation holds the row; a
  // refresh holds it until its commit, or until that fails.
  predicate ReadersHold(lock: Lock, readers: map<ReaderId, Reader>) {
    && (forall v <- readers :: !readers[v].Done? <==> lock.Shared? && v in lock.holders)
    && (lock.Shared? ==> lock.holders != {} && lock.holders <= readers.Keys)
  }

  predicate WritersHold(row: Option<Row>, lock: Lock, f: Refresh, revokers: map<RevokerId, Revoker>) {
    && (forall r <- revokers :: revokers[r].Flushed? <==> lock == ByRevoker(r))
    && (lock.ByRevoker? ==> lock.r in revokers)
    && (lock.ByRefresh? ==> !f.NoRefresh?)
    && (f.Locked? || f.Rotated? ==> lock.ByRefresh?)
    && (f.Compensating? && f.committed ==> !lock.ByRefresh?)
    && (!f.NoRefresh? || revokers != map[] ==> row.Some?)
  }

  // ---- the invariant: the keys -------------------------------------------------------------------

  // Live, but Redis would say it is not.
  predicate Mismatch(row: Option<Row>, cache: set<Jti>) {
    row.Some? && row.value.Live() && row.value.jti !in cache
  }

  predicate Mentions(who: Remover, jti: Jti) {
    (who.Rotation? || who.Compensation?) && who.next == jti
  }

  predicate KeysOk(row: Option<Row>, f: Refresh, revokers: map<RevokerId, Revoker>, k: Keys, used: set<Jti>) {
    && (row.Some? ==> row.value.jti in used)
    && k.cache <= used && k.gone.Keys <= used && k.cache !! k.gone.Keys
    && (forall j <- k.gone :: k.gone[j].Rotation? || k.gone[j].Compensation? ==> k.gone[j].next in used)
    && (forall r <- revokers :: revokers[r].jti in used)
    && (forall r <- revokers :: revokers[r].Committed? ==> row.Some? && row.value.revoked)
    && (forall j <- k.gone :: k.gone[j].Revocation? ==> k.gone[j].r in revokers)
  }

  // Whoever took the key of the live row away is one of these.
  predicate Explained(jti: Jti, k: Keys) {
    jti in k.cache || (jti in k.gone && ExplainedBy(jti, k.gone[jti]))
  }

  predicate ExplainedBy(jti: Jti, who: Remover) {
    && !who.Cleanup?
    && (who.Rotation? ==> who.next != jti)
    && (who.Compensation? ==> who.next == jti)
  }

  // The new key of a refresh that has not committed is touched by that refresh, or lost.
  predicate SecretOk(next: Jti, revokers: map<RevokerId, Revoker>, k: Keys) {
    && (next in k.gone ==> k.gone[next].Loss?)
    && (forall r <- revokers :: revokers[r].jti != next)
  }

  predicate RefreshOk(row: Option<Row>, f: Refresh, revokers: map<RevokerId, Revoker>, k: Keys, used: set<Jti>) {
    match f
    case NoRefresh => true
    case Locked(next) =>
      && next in used && row.Some? && row.value.jti != next && SecretOk(next, revokers, k)
      && forall j <- k.gone :: !Mentions(k.gone[j], next)
    case Rotated(next, took) =>
      && next in used && row.Some? && row.value.jti != next && SecretOk(next, revokers, k)
      && (next in k.cache || next in k.gone) && TookOk(row.value.jti, next, took, k)
    case Compensating(next, previous, took, committed) =>
      && next in used && previous in used && row.Some? && previous != next
      && if committed then row.value.jti == next
        && (next in k.gone ==> !k.gone[next].Compensation? && !k.gone[next].Rotation?)
         else row.value.jti == previous && SecretOk(next, revokers, k) && TookOk(previous, next, took, k)
  }

  // The old key is gone because of this rotation if and only if this rotation took it.
  predicate TookOk(previous: Jti, next: Jti, took: bool, k: Keys) {
    took <==> previous in k.gone && Mentions(k.gone[previous], next)
  }

  // ---- the invariant: the readers -------------------------------------------------------------------

  // The row was live when it was checked, and nobody has rotated or revoked it since.
  predicate AsChecked(checked: Row, now: Option<Row>) {
    checked.Live() && now.Some? && now.value.jti == checked.jti && !now.value.revoked
  }

  // What a running reader has read is still so: its share of the lock keeps writers out.
  predicate ReaderOk(row: Option<Row>, r: Reader) {
    && (!r.Done? ==> row.Some? && r.jti == row.value.jti && (SeenBy(r).Some? ==> !SeenBy(r).value.Disagreed()))
    && (r.RowSeen? ==> AsChecked(r.checked, row))
    && (r.Done? && r.refusal.None? ==> r.accepted.Some? && AsChecked(r.accepted.value, r.rowThen))
    && (r.Done? && r.rowThen.Some? && r.rowThen.value.Live() ==>
          (r.refusal == Some(SessionRevoked) <==> r.seen.Some? && r.seen.value.Disagreed()))
  }

  predicate ReadersOk(row: Option<Row>, readers: map<ReaderId, Reader>) {
    forall v <- readers :: ReaderOk(row, readers[v])
  }

  predicate Inv(s: State) {
    && ReadersHold(s.lock, s.readers) && WritersHold(s.row, s.lock, s.refresh, s.revokers)
    && KeysOk(s.row, s.refresh, s.revokers, KeysOf(s), s.used)
    && (s.row.Some? && s.row.value.Live() ==> Explained(s.row.value.jti, KeysOf(s)))
    && RefreshOk(s.row, s.refresh, s.revokers, KeysOf(s), s.used)
    && ReadersOk(s.row, s.readers)
  }

  // A session as a login leaves it, or none: the key is there for a live row.
  predicate Initial(s: State) {
    && s.lock.Free? && s.refresh.NoRefresh? && s.revokers == map[] && s.readers == map[] && s.met == map[]
    && s.gone == map[]
    && (s.row.Some? ==> s.row.value.jti in s.used)
    && s.cache <= s.used && !Mismatch(s.row, s.cache)
  }

  lemma InitialOk(s: State)
    requires Initial(s)
    ensures Inv(s)
  {
  }

  // ---- every step keeps it ----------------------------------------------------------------------------

  lemma LockRowKeeps(s: State, next: Jti)
    requires Inv(s) && RefreshCan(s, LockRow(next))
    ensures Inv(RefreshStep(s, LockRow(next)))
  {
  }

  lemma RotateKeeps(s: State, applied: bool, ok: bool)
    requires Inv(s) && RefreshCan(s, Rotate(applied, ok))
    ensures Inv(RefreshStep(s, Rotate(applied, ok)))
  {
  }

  lemma CommitKeeps(s: State, applied: bool, ok: bool, released: bool)
    requires Inv(s) && RefreshCan(s, Commit(applied, ok, released))
    ensures Inv(RefreshStep(s, Commit(applied, ok, released)))
  {
  }

  lemma CompensateKeeps(s: State, applied: bool)
    requires Inv(s) && RefreshCan(s, Compensate(applied))
    ensures Inv(RefreshStep(s, Compensate(applied)))
  {
  }

  lemma CrashKeeps(s: State)
    requires Inv(s) && RefreshCan(s, Crash)
    ensures Inv(RefreshStep(s, Crash))
  {
  }

  lemma RefreshKeeps(s: State, e: Event)
    requires Inv(s) && IsRefreshStep(e) && RefreshCan(s, e)
    ensures Inv(RefreshStep(s, e))
  {
    match e
    case LockRow(next) => LockRowKeeps(s, next);
    case Rotate(applied, ok) => RotateKeeps(s, applied, ok);
    case Commit(applied, ok, released) => CommitKeeps(s, applied, ok, released);
    case Compensate(applied) => CompensateKeeps(s, applied);
    case Crash => CrashKeeps(s);
  }

  lemma RevokerKeeps(s: State, e: Event)
    requires Inv(s) && IsRevokerStep(e) && RevokerCan(s, e)
    ensures Inv(RevokerStep(s, e))
  {
    match e
    case BeginRevoke(r) => BeginRevokeKeeps(s, r);
    case DropKey(r) => DropKeyKeeps(s, r);
    case Flush(r) => FlushKeeps(s, r);
    case CommitRevoke(r) => CommitRevokeKeeps(s, r);
    case Rollback(r) => RollbackKeeps(s, r);
  }

  lemma BeginRevokeKeeps(s: State, r: RevokerId)
    requires Inv(s) && RevokerCan(s, BeginRevoke(r))
    ensures Inv(RevokerStep(s, BeginRevoke(r)))
  {
  }

  lemma DropKeyKeeps(s: State, r: RevokerId)
    requires Inv(s) && RevokerCan(s, DropKey(r))
    ensures Inv(RevokerStep(s, DropKey(r)))
  {
  }

  lemma FlushKeeps(s: State, r: RevokerId)
    requires Inv(s) && RevokerCan(s, Flush(r))
    ensures Inv(RevokerStep(s, Flush(r)))
  {
  }

  lemma CommitRevokeKeeps(s: State, r: RevokerId)
    requires Inv(s) && RevokerCan(s, CommitRevoke(r))
    ensures Inv(RevokerStep(s, CommitRevoke(r)))
  {
  }

  lemma RollbackKeeps(s: State, r: RevokerId)
    requires Inv(s) && RevokerCan(s, Rollback(r))
    ensures Inv(RevokerStep(s, Rollback(r)))
  {
  }

  lemma WorldKeeps(s: State, e: Event)
    requires Inv(s) && WorldCan(s, e)
    ensures Inv(WorldStep(s, e))
  {
  }

  lemma FinishKeeps(s: State, v: ReaderId, refusal: Option<Refusal>, seen: Option<View>)
    requires Inv(s) && s.lock.Shared? && v in s.readers && !s.readers[v].Done?
    requires refusal.None? ==> s.readers[v].RowSeen?
    requires s.row.Some? && s.row.value.Live() ==>
               (refusal == Some(SessionRevoked) <==> seen.Some? && seen.value.Disagreed())
    ensures Inv(Finish(s, v, refusal, seen))
  {
    assert ReaderOk(s.row, s.readers[v]);
    var t := Finish(s, v, refusal, seen);
    assert ReadersHold(t.lock, t.readers) by {
      forall w <- t.readers ensures !t.readers[w].Done? <==> t.lock.Shared? && w in t.lock.holders {
        assert w != v ==> (!s.readers[w].Done? <==> w in s.lock.holders);
        assert w != v && w in s.lock.holders ==> w in s.lock.holders - {v};
      }
    }
    forall w <- t.readers ensures ReaderOk(t.row, t.readers[w]) {
      assert w != v ==> ReaderOk(s.row, s.readers[w]);
    }
  }

  lemma GoKeeps(s: State, v: ReaderId, r: Reader)
    requires Inv(s) && s.lock.Shared? && v in s.readers && !s.readers[v].Done? && !r.Done? && ReaderOk(s.row, r)
    ensures Inv(Go(s, v, r))
  {
  }

  lemma ShareIsHeld(s: State, v: ReaderId)
    requires Inv(s) && ReaderCan(s, ReadJti(v))
    ensures var t := TakeShare(s, v); ReadersHold(t.lock, t.readers)
  {
    var t := TakeShare(s, v);
    forall w <- t.readers ensures !t.readers[w].Done? <==> t.lock.Shared? && w in t.lock.holders {
      assert w != v ==> (!s.readers[w].Done? <==> s.lock.Shared? && w in s.lock.holders);
    }
  }

  lemma TakeShareKeeps(s: State, v: ReaderId)
    requires Inv(s) && ReaderCan(s, ReadJti(v))
    ensures Inv(TakeShare(s, v))
  {
    var t := TakeShare(s, v);
    ShareIsHeld(s, v);
    forall w <- t.readers ensures ReaderOk(t.row, t.readers[w]) {
      assert w != v ==> ReaderOk(s.row, s.readers[w]);
    }
  }

  lemma ReaderKeeps(s: State, e: Event)
    requires Inv(s) && IsReaderStep(e) && ReaderCan(s, e)
    ensures Inv(ReaderMove(s, e)) && Inv(ReaderStep(s, e))
  {
    var v := e.v;
    match e
    case ReadJti(_) => TakeShareKeeps(s, v);
    case ReadCache(_, heard) => ReadCacheKeeps(s, v, heard);
    case ReadBlacklist(_, heard) => ReadBlacklistKeeps(s, v, heard);
    case ReadRow(_) => ReadRowKeeps(s, v);
    case ReadFlag(_) =>
      assert ReaderOk(s.row, s.readers[v]);
      FinishKeeps(s, v, if s.flagged then Some(PasswordChange) else None, Some(s.readers[v].view));
    case DbError(_) =>
      assert ReaderOk(s.row, s.readers[v]);
      FinishKeeps(s, v, Some(ValidationError), SeenBy(s.readers[v]));
  }

  lemma ReadCacheKeeps(s: State, v: ReaderId, heard: Heard)
    requires Inv(s) && ReaderCan(s, ReadCache(v, heard))
    ensures Inv(ReaderMove(s, ReadCache(v, heard)))
  {
    var jti := s.readers[v].jti;
    assert ReaderOk(s.row, s.readers[v]);
    var view := View(heard.Answers?, s.row, jti in s.cache);
    if view.heard && !view.present {
      FinishKeeps(s, v, Some(SessionRevoked), Some(view));
    } else {
      GoKeeps(s, v, CacheSeen(jti, view));
    }
  }

  lemma ReadBlacklistKeeps(s: State, v: ReaderId, heard: Heard)
    requires Inv(s) && ReaderCan(s, ReadBlacklist(v, heard))
    ensures Inv(ReaderMove(s, ReadBlacklist(v, heard)))
  {
    var view := s.readers[v].view;
    assert ReaderOk(s.row, s.readers[v]);
    if heard.Answers? && !s.blacklisted {
      GoKeeps(s, v, NotBlacklisted(s.readers[v].jti, view));
    } else {
      var why := if heard.Unavailable? then AuthStateUnavailable else if heard.Fails? then ValidationError
                 else UserInvalidated;
      FinishKeeps(s, v, Some(why), Some(view));
    }
  }

  lemma ReadRowKeeps(s: State, v: ReaderId)
    requires Inv(s) && ReaderCan(s, ReadRow(v))
    ensures Inv(ReaderMove(s, ReadRow(v)))
  {
    var jti, view := s.readers[v].jti, s.readers[v].view;
    assert ReaderOk(s.row, s.readers[v]);
    if IsLiveRow(s.row, jti) {
      GoKeeps(s, v, RowSeen(jti, view, s.row.value));
    } else {
      FinishKeeps(s, v, Some(SessionRevoked), Some(view));
    }
  }

  lemma StepKeeps(s: State, e: Event)
    requires Inv(s) && Enabled(s, e)
    ensures Inv(Apply(s, e))
  {
    if IsRefreshStep(e) {
      RefreshKeeps(s, e);
    } else if IsRevokerStep(e) {
      RevokerKeeps(s, e);
    } else if IsReaderStep(e) {
      ReaderKeeps(s, e);
    } else {
      WorldKeeps(s, e);
    }
  }

  lemma {:induction false} RunKeeps(s: State, run: seq<Event>)
    requires Inv(s) && Legal(s, run)
    ensures Inv(Exec(s, run))
    decreases |run|
  {
    if run != [] {
      StepKeeps(s, run[0]);
      RunKeeps(Apply(s, run[0]), run[1..]);
    }
  }

  // ---- what an answer means ------------------------------------------------------------------------

  // "Valid" means that the row of exactly this session was live when it was checked, and
  // that at the moment of the answer it still carried that JTI and was not revoked.
  lemma ValidMeansLive(s0: State, run: seq<Event>, v: ReaderId)
    requires Initial(s0) && Legal(s0, run)
    requires var s := Exec(s0, run); v in s.readers && s.readers[v].Done? && s.readers[v].refusal.None?
    ensures var r := Exec(s0, run).readers[v];
            r.accepted.Some? && AsChecked(r.accepted.value, r.rowThen)
  {
    InitialOk(s0);
    RunKeeps(s0, run);
    assert ReaderOk(Exec(s0, run).row, Exec(s0, run).readers[v]);
  }

  // A session that is live at the answer is answered "Session revoked" if and only if Redis
  // answered the read of its key, and key and live row disagreed at that read. In every run:
  // with any number of refreshes and revocations before and around it, committed or not.
  lemma RevokedExactlyWhenDisagreed(s0: State, run: seq<Event>, v: ReaderId)
    requires Initial(s0) && Legal(s0, run)
    requires var s := Exec(s0, run);
             v in s.readers && s.readers[v].Done? && s.readers[v].rowThen.Some? && s.readers[v].rowThen.value.Live()
    ensures var r := Exec(s0, run).readers[v];
            r.refusal == Some(SessionRevoked) <==> r.seen.Some? && r.seen.value.Disagreed()
  {
    InitialOk(s0);
    RunKeeps(s0, run);
    assert ReaderOk(Exec(s0, run).row, Exec(s0, run).readers[v]);
  }

  // ---- where disagreement comes from ------------------------------------------------------------------

  // In every run, when a live row whose key is gone can be read, the key was taken by a
  // refresh that has rotated, never committed and let go of the row; by the compensation of
  // a refresh whose commit was applied; by a revocation that has not committed; or Redis
  // lost it. Nothing else does it.
  lemma DisagreementHasACause(s0: State, run: seq<Event>)
    requires Initial(s0) && Legal(s0, run)
    requires Mismatch(Exec(s0, run).row, Exec(s0, run).cache) && !Exec(s0, run).lock.ByRefresh?
    ensures var s := Exec(s0, run);
            var jti := s.row.value.jti;
            jti in s.gone
            && match s.gone[jti]
               case Rotation(next) => next != jti && (s.refresh.NoRefresh? || s.refresh.Compensating?)
               case Compensation(next) => next == jti
               case Revocation(r) => r in s.revokers && !s.revokers[r].Committed?
               case Loss => true
               case Cleanup => false
  {
    InitialOk(s0);
    RunKeeps(s0, run);
  }

  // The step with which a refresh is over.
  predicate Ends(s: State, e: Event) {
    RefreshCan(s, e) && (e.Crash? || e.Compensate? || (e.Commit? && e.ok))
  }

  predicate HasTaken(f: Refresh) {
    (f.Rotated? || f.Compensating?) && f.took
  }

  predicate HasCommitted(f: Refresh, e: Event) {
    (f.Compensating? && f.committed) || (e.Commit? && e.applied)
  }

  predicate IsBlamed(s: State, next: Jti) {
    Mismatch(s.row, s.cache) && s.row.value.jti in s.gone && Mentions(s.gone[s.row.value.jti], next)
  }

  // In every run, whatever goes on around it: a refresh leaves a disagreement of its own
  // making if and only if the row is live and the refresh took the old key without
  // committing and without compensating, or committed and was compensated all the same.
  lemma HarmExactly(s0: State, run: seq<Event>, e: Event)
    requires Initial(s0) && Legal(s0, run) && Ends(Exec(s0, run), e)
    ensures var s := Exec(s0, run);
            var t := Apply(s, e);
            var compensated := e.Compensate? && e.applied;
            IsBlamed(t, s.refresh.next) <==>
              t.row.Some? && t.row.value.Live()
              && ((HasTaken(s.refresh) && !HasCommitted(s.refresh, e) && !compensated)
                  || (HasCommitted(s.refresh, e) && compensated && s.refresh.next in s.cache))
  {
    InitialOk(s0);
    RunKeeps(s0, run);
    HarmAtTheEnd(Exec(s0, run), e);
  }

  lemma HarmAtTheEnd(s: State, e: Event)
    requires Inv(s) && Ends(s, e)
    ensures var t := RefreshStep(s, e);
            var compensated := e.Compensate? && e.applied;
            IsBlamed(t, s.refresh.next) <==>
              t.row.Some? && t.row.value.Live()
              && ((HasTaken(s.refresh) && !HasCommitted(s.refresh, e) && !compensated)
                  || (HasCommitted(s.refresh, e) && compensated && s.refresh.next in s.cache))
  {
  }

  // A disagreement is what a re-validation trips over: while it lasts, the live session is
  // answered "Session revoked" as soon as Redis answers.
  lemma MismatchIsRefused(s: State, v: ReaderId)
    requires Mismatch(s.row, s.cache) && (s.lock.Free? || s.lock.Shared?) && v !in s.readers
    ensures var run := [ReadJti(v), ReadCache(v, Answers)];
            && Legal(s, run) && v in Exec(s, run).readers
            && Exec(s, run).readers[v] == Done(Some(SessionRevoked), Some(View(true, s.row, false)), None, s.row)
  {
    var s1 := Apply(s, ReadJti(v));
    Cons(s1, ReadCache(v, Answers), []);
    Cons(s, ReadJti(v), [ReadCache(v, Answers)]);
    assert [ReadCache(v, Answers)] + [] == [ReadCache(v, Answers)];
    assert [ReadJti(v)] + [ReadCache(v, Answers)] == [ReadJti(v), ReadCache(v, Answers)];
  }

  lemma Cons(s: State, e: Event, rest: seq<Event>)
    requires Enabled(s, e) && Legal(Apply(s, e), rest)
    ensures Legal(s, [e] + rest)
    ensures Exec(s, [e] + rest) == Exec(Apply(s, e), rest)
  {
    assert ([e] + rest)[1..] == rest;
  }

  // ---- each of them happens ----------------------------------------------------------------------------

  // A live session with its key, and nothing going on.
  function Quiet(): State {
    State(Some(Row(1, false, false)), Free, NoRefresh, map[], {1}, {1}, map[], false, false, map[], map[])
  }

  // After `run` the live row has lost its key to `who`, and a re-validation could read it.
  predicate Disagrees(run: seq<Event>, who: Remover) {
    && Initial(Quiet()) && Legal(Quiet(), run)
    && var s := Exec(Quiet(), run);
       s.row.Some? && Mismatch(s.row, s.cache) && s.lock.Free? && s.readers == map[]
       && s.row.value.jti in s.gone && s.gone[s.row.value.jti] == who
  }

  lemma Runs2(s: State, a: Event, b: Event)
    requires Enabled(s, a) && Enabled(Apply(s, a), b)
    ensures Legal(s, [a, b]) && Exec(s, [a, b]) == Apply(Apply(s, a), b)
  {
    Cons(Apply(s, a), b, []);
    Cons(s, a, [b]);
    assert [b] + [] == [b] && [a] + [b] == [a, b];
  }

  lemma Runs3(s: State, a: Event, b: Event, c: Event)
    requires Enabled(s, a) && Enabled(Apply(s, a), b) && Enabled(Apply(Apply(s, a), b), c)
    ensures Legal(s, [a, b, c]) && Exec(s, [a, b, c]) == Apply(Apply(Apply(s, a), b), c)
  {
    Runs2(Apply(s, a), b, c);
    Cons(s, a, [b, c]);
    assert [a] + [b, c] == [a, b, c];
  }

  lemma Runs4(s: State, a: Event, b: Event, c: Event, d: Event)
    requires Enabled(s, a) && Enabled(Apply(s, a), b) && Enabled(Apply(Apply(s, a), b), c)
    requires Enabled(Apply(Apply(Apply(s, a), b), c), d)
    ensures Legal(s, [a, b, c, d]) && Exec(s, [a, b, c, d]) == Apply(Apply(Apply(Apply(s, a), b), c), d)
  {
    Runs3(Apply(s, a), b, c, d);
    Cons(s, a, [b, c, d]);
    assert [a] + [b, c, d] == [a, b, c, d];
  }

  // A refresh dies between its rotation and its commit.
  lemma CrashedRefreshDisagrees()
    ensures Disagrees([LockRow(2), Rotate(true, true), Crash], Rotation(2))
  {
    Runs3(Quiet(), LockRow(2), Rotate(true, true), Crash);
  }

  // Its commit fails, the row is free again, and the compensation is still to come.
  lemma FailedCommitDisagrees()
    ensures Disagrees([LockRow(2), Rotate(true, true), Commit(false, false, true)], Rotation(2))
  {
    Runs3(Quiet(), LockRow(2), Rotate(true, true), Commit(false, false, true));
  }

  // Its commit is applied, reported as failed, and compensated.
  lemma CompensatedCommitDisagrees()
    ensures Disagrees([LockRow(2), Rotate(true, true), Commit(true, false, true), Compensate(true)], Compensation(2))
  {
    Runs4(Quiet(), LockRow(2), Rotate(true, true), Commit(true, false, true), Compensate(true));
  }

  // A revocation deletes the key before its UPDATE is flushed; it may yet be rolled back.
  lemma EarlyDropDisagrees()
    ensures Disagrees([BeginRevoke(0), DropKey(0)], Revocation(0))
  {
    Runs2(Quiet(), BeginRevoke(0), DropKey(0));
  }

  // A revocation deletes the key after the flush, and is rolled back: this one stays.
  lemma RolledBackRevocationDisagrees()
    ensures Disagrees([BeginRevoke(0), Flush(0), DropKey(0), Rollback(0)], Revocation(0))
  {
    Runs4(Quiet(), BeginRevoke(0), Flush(0), DropKey(0), Rollback(0));
  }

  // Redis loses the key of a live session.
  lemma LostKeyDisagrees()
    ensures Disagrees([Lose(1)], Loss)
  {
    Cons(Quiet(), Lose(1), []);
    assert [Lose(1)] + [] == [Lose(1)];
  }
}
