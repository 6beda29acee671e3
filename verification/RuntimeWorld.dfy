/**
 * The database together with every value it ever held, and the invariant of every run. A transaction is
 * judged only by the rows it writes: `Legal` says what rows may be written, and the lemmas here show that
 * legal rows keep the invariant, whichever command wrote them.
 */
module RuntimeWorld {
  import opened Base
  import opened GameSession
  import opened SessionSteps
  import opened Commits
  import opened PartyRoom
  import opened RoomLaws
  import opened RuntimeStore

  /** `sessions` and `rooms` hold all values ever stored: what a slow or crashed caller may still be holding. */
  datatype World = World(db: Tables, sessions: set<Session>, rooms: set<Room>)

  function After(w: World, writes: Tables): World {
    World(w.db.Write(writes), w.sessions + writes.sessions.Values, w.rooms + writes.rooms.Values)
  }

  // ----- rows a transaction may write -----

  predicate Live(s: Session) { !s.status.Terminal() }

  function RoomPointer(db: Tables, room: Id): Id {
    if room in db.rooms then db.rooms[room].activeSession else NIL
  }

  ghost predicate LegalRoom(db: Tables, id: Id, r: Room) {
    && r.id == id
    && (if id in db.rooms then Successor(db.rooms[id], r)
        else r.roomVersion == 1 && r.activeSession == NIL && r.pause == NO_PAUSE)
  }

  predicate Claims(s: Session, t: Session) {
    t == s.(epoch := s.epoch + 1, updatedAt := t.updatedAt)
  }

  predicate Steps(s: Session, t: Session) {
    t.epoch == s.epoch && s.epoch != 0 && t.Version() == s.Version() + 1 && s.status == Active
      && t.status in {Active, Finished}
  }

  predicate Suspends(s: Session, t: Session) {
    s.status == Active && t.status == Suspended && t.timers == s.timers && t.suspendedAt == t.updatedAt
  }

  predicate Resumes(s: Session, t: Session) {
    s.status == Suspended && t.status == Active && s.suspendedAt < t.updatedAt
      && ShiftedBy(s.timers, t.timers, t.updatedAt - s.suspendedAt)
  }

  /** A runtime-owned change: no new state version, a later clock. */
  predicate Governs(s: Session, t: Session) {
    && t.epoch == s.epoch && s.epoch != 0 && t.Version() == s.Version() && s.updatedAt < t.updatedAt
    && (Suspends(s, t) || Resumes(s, t) || t.status == Cancelled)
  }

  /**
   * A new session is unowned at version 1; a stored one moves by one claim, one engine step or one lifecycle change.
   */
  ghost predicate LegalSession(db: Tables, id: Id, t: Session) {
    && t.id == id && id != NIL
    && if id in db.sessions then
         var s := db.sessions[id];
         && t.Identity() == s.Identity() && Live(s) && (Claims(s, t) || Steps(s, t) || Governs(s, t))
         && (BatchKey(id, s.Version()) in db.batches ==>
               db.batches[BatchKey(id, s.Version())].committedAt <= t.updatedAt)
       else t.epoch == 0 && t.Version() == 1 && t.status == Active
  }

  ghost predicate LegalRooms(db: Tables, w: Tables) {
    forall id :: id in w.rooms ==> LegalRoom(db, id, w.rooms[id])
  }

  ghost predicate LegalSessions(db: Tables, w: Tables) {
    forall id :: id in w.sessions ==> LegalSession(db, id, w.sessions[id])
  }

  ghost predicate ValidRows(w: Tables) {
    && (forall id :: id in w.rooms ==> w.rooms[id].Reachable())
    && (forall id :: id in w.sessions ==> w.sessions[id].Valid())
  }

  ghost predicate BatchesFit(db: Tables, w: Tables) {
    forall k :: k in w.batches ==>
      && k.session in w.sessions && k.version == w.sessions[k.session].Version() && k !in db.batches
      && w.batches[k].session == k.session && w.batches[k].version == k.version
      && w.batches[k].committedAt == w.sessions[k.session].updatedAt
      && w.batches[k].epoch == w.sessions[k.session].epoch
      && (k.session in db.sessions ==> db.sessions[k.session].Version() != k.version)
  }

  ghost predicate VersionsRecorded(db: Tables, w: Tables) {
    forall id :: id in w.sessions && (id in db.sessions ==> db.sessions[id].Version() != w.sessions[id].Version()) ==>
      BatchKey(id, w.sessions[id].Version()) in w.batches
  }

  /** Batches are written exactly when a state version appears, under the epoch of that moment. */
  ghost predicate LegalBatches(db: Tables, w: Tables) {
    BatchesFit(db, w) && VersionsRecorded(db, w)
  }

  /** A pointer moves only off and onto sessions written beside it. */
  predicate PointerMoves(db: Tables, w: Tables, id: Id)
    requires id in w.rooms
  {
    var pointer := w.rooms[id].activeSession;
    pointer != RoomPointer(db, id) ==>
      && (RoomPointer(db, id) == NIL || RoomPointer(db, id) in w.sessions)
      && (pointer == NIL || (pointer in w.sessions && w.sessions[pointer].room == id))
  }

  /** The pointer of a room and the liveness of the session it names change together. */
  ghost predicate LegalPointers(db: Tables, w: Tables) {
    && (forall id :: id in w.rooms ==> PointerMoves(db, w, id))
    && (forall id :: id in w.sessions ==> SessionAgrees(db.Write(w), id))
  }

  /** Answers are written once, beside the batch they answer for. */
  ghost predicate LegalActions(db: Tables, w: Tables) {
    forall k :: k in w.actions ==>
      var r := w.actions[k];
      && k !in db.actions && r.key == k && BatchKey(k.session, r.version) in w.batches
      && w.batches[BatchKey(k.session, r.version)].cause == ByAction(k.actor, k.actionId)
      && k.session in w.sessions && w.sessions[k.session].HasParticipant(k.actor)
  }

  ghost predicate LegalTimers(db: Tables, w: Tables) {
    forall k :: k in w.timers ==>
      var r := w.timers[k];
      && k !in db.timers && r.key == k && r.version == k.expectedVersion + 1
      && BatchKey(k.session, r.version) in w.batches
      && w.batches[BatchKey(k.session, r.version)].cause == ByTimer(k.timerId)
  }

  predicate AnswersItself(k: OperationKey, op: Operation) {
    op.answer.Some? ==>
      op.answer.value.key == SystemKey(k.session, k.operation, op.source) && op.answer.value.request == op.request
  }

  predicate AppliedAs(k: OperationKey, op: Operation, b: Batch) {
    op.applied && op.answer.Some? && b.version == op.answer.value.version
      && b.cause == BySystem(k.operation, op.source, op.request)
  }

  /** An answer without a transition is the no-op answer of a session that has ended. */
  predicate AnsweredUnapplied(db: Tables, k: OperationKey, op: Operation) {
    op.answer.Some? && !op.applied ==> k.session in db.sessions && !Live(db.sessions[k.session])
  }

  ghost predicate LegalOperations(db: Tables, w: Tables) {
    && (forall j, k :: j in w.operations && k in w.operations ==> j == k)
    && (forall k :: k in w.operations ==>
          var op := w.operations[k];
          && AnswersItself(k, op) && AnsweredUnapplied(db, k, op)
          && (if k in db.operations then
                var was := db.operations[k];
                was.answer.None? && !was.applied && op.source == was.source && op.request == was.request
              else forall o :: o in db.operations && o.session == k.session ==>
                db.operations[o].source.eventId != op.source.eventId)
          && (op.applied ==>
                op.answer.Some? && var b := BatchKey(k.session, op.answer.value.version);
                b in w.batches && AppliedAs(k, op, w.batches[b])))
  }

  ghost predicate LegalCauses(w: Tables) {
    forall k :: k in w.batches ==>
      match w.batches[k].cause
      case Created => true
      case ByAction(actor, actionId) =>
        var a := ActionKey(k.session, actor, actionId); a in w.actions && w.actions[a].version == k.version
      case ByTimer(timerId) =>
        k.version > 0 && var t := TimerKey(k.session, timerId, k.version - 1);
        t in w.timers && w.timers[t].version == k.version
      case BySystem(operation, _, _) =>
        var o := OperationKey(k.session, operation); o in w.operations && AppliedAs(o, w.operations[o], w.batches[k])
  }

  /** A start receipt is written once, beside the session it names. */
  ghost predicate LegalStarts(db: Tables, w: Tables) {
    forall k :: k in w.starts ==>
      && k !in db.starts && w.starts[k].key == k && w.starts[k].session in w.sessions
      && w.sessions[w.starts[k].session].room == k.room
  }

  ghost predicate LegalReceipts(db: Tables, w: Tables) {
    LegalActions(db, w) && LegalTimers(db, w) && LegalOperations(db, w) && LegalCauses(w) && LegalStarts(db, w)
  }

  /** While a game runs players may leave; a game starts with exactly the seated players. */
  ghost predicate SeatsMove(db: Tables, w: Tables, id: Id)
    requires id in w.rooms
  {
    var r := w.rooms[id];
    || r.activeSession == NIL
    || (id in db.rooms && r.activeSession == db.rooms[id].activeSession && NobodySitsDown(db.rooms[id].members,
                                                                                          r.members))
    || (r.activeSession in w.sessions && AllFrozen(r.members, w.sessions[r.activeSession].participants))
  }

  ghost predicate NobodySitsDown(before: seq<Member>, after: seq<Member>) {
    forall user, seat :: Seated(after, user, seat) ==> Seated(before, user, seat)
  }

  ghost predicate LegalSeats(db: Tables, w: Tables) {
    forall id :: id in w.rooms ==> SeatsMove(db, w, id)
  }

  ghost predicate AllFrozen(ms: seq<Member>, ps: seq<Participant>) {
    forall user, seat :: Seated(ms, user, seat) ==> Participant(user, seat) in ps
  }

  /** The session a paused room points to is suspended since exactly the pause. */
  predicate PausedTogether(r: Room, s: Session) {
    r.pause != NO_PAUSE ==> s.status == Suspended && s.suspendedAt == r.pause.pausedAt
  }

  predicate PauseMoves(db: Tables, w: Tables, id: Id)
    requires id in w.rooms
  {
    var r := w.rooms[id];
    r.pause != NO_PAUSE && r.activeSession !in w.sessions ==>
      id in db.rooms && r.pause == db.rooms[id].pause && r.activeSession == db.rooms[id].activeSession
  }

  /** If its room points back at the session, the two agree about the pause. */
  predicate SessionPaused(db: Tables, id: Id)
    requires id in db.sessions
  {
    var s := db.sessions[id];
    s.room in db.rooms && db.rooms[s.room].activeSession == id ==> PausedTogether(db.rooms[s.room], s)
  }

  ghost predicate LegalPauses(db: Tables, w: Tables) {
    && (forall id :: id in w.rooms ==> PauseMoves(db, w, id))
    && (forall id :: id in w.sessions ==> SessionPaused(db.Write(w), id))
  }

  /** The room fact `event` was applied to the session by the operation of the same source. */
  predicate AppliedEvent(db: Tables, session: Id, event: Id) {
    exists o :: o in db.operations && o.session == session
      && db.operations[o].source.eventId == event && db.operations[o].applied
  }

  /** Some operation of this source event has been answered at this version. */
  predicate AnsweredEvent(db: Tables, k: InboxKey, version: nat) {
    exists o :: o in db.operations && o.session == k.session && db.operations[o].source.eventId == k.eventId
                && db.operations[o].answer.Some? && db.operations[o].answer.value.version == version
  }

  predicate PendingAt(db: Tables, k: InboxKey) {
    k in db.inbox && db.inbox[k].completed.None?
  }

  /** New room facts concern running games, and a normal end waits for all of them but the one it applies. */
  ghost predicate LegalInbox(db: Tables, w: Tables) {
    && (forall k :: k in w.inbox && k !in db.inbox ==>
          k.session in db.sessions && Live(db.sessions[k.session]) && k.session !in w.sessions)
    && (forall k :: k in w.inbox && k in db.inbox ==>
          w.inbox[k].completed.Some? && db.inbox[k].completed.None? && w.inbox[k].payload == db.inbox[k].payload)
    && (forall k :: k in w.inbox && w.inbox[k].completed.Some? ==> AnsweredEvent(db, k, w.inbox[k].completed.value))
    && (forall k :: PendingAt(db.Write(w), k) && k.session in w.sessions && w.sessions[k.session].status == Finished ==>
          AppliedEvent(db.Write(w), k.session, k.eventId))
  }

  // ----- the invariant -----

  ghost predicate AllValid(w: World) {
    && (forall r :: r in w.rooms ==> r.Reachable())
    && (forall s :: s in w.sessions ==> s.Valid())
  }

  ghost predicate RoomsOk(w: World) {
    && (forall id :: id in w.db.rooms ==> w.db.rooms[id].id == id && w.db.rooms[id] in w.rooms)
    && (forall r :: r in w.rooms ==> r.id in w.db.rooms)
  }

  /** Within a room, later versions have later fences, and an equal fence means an equal value behind it. */
  predicate FencesOrdered(a: Room, b: Room) {
    a.id == b.id && a.roomVersion <= b.roomVersion ==>
      && (a.roomVersion == b.roomVersion ==> a == b)
      && a.membershipVersion <= b.membershipVersion
      && (a.membershipVersion == b.membershipVersion ==> a.members == b.members)
      && a.hostEpoch <= b.hostEpoch && (a.hostEpoch == b.hostEpoch ==> a.host == b.host)
  }

  ghost predicate NoAba(w: World) {
    && (forall a, b :: a in w.rooms && b in w.rooms ==> FencesOrdered(a, b))
    && (forall r :: r in w.rooms && r.id in w.db.rooms ==> r.roomVersion <= w.db.rooms[r.id].roomVersion)
  }

  ghost predicate SessionsOk(w: World) {
    && (forall id :: id in w.db.sessions ==> w.db.sessions[id].id == id && w.db.sessions[id] in w.sessions)
    && (forall s :: s in w.sessions ==> NotAhead(w.db, s))
  }

  /** A session is live exactly when its room points at it. */
  predicate SessionAgrees(db: Tables, id: Id)
    requires id in db.sessions
  {
    var s := db.sessions[id];
    s.room in db.rooms && (Live(s) <==> db.rooms[s.room].activeSession == id)
  }

  predicate RoomAgrees(db: Tables, id: Id)
    requires id in db.rooms
  {
    var pointer := db.rooms[id].activeSession;
    pointer == NIL || (pointer in db.sessions && db.sessions[pointer].room == id)
  }

  /** A room plays a session exactly when that session is live and belongs to the room. */
  ghost predicate Agreement(db: Tables) {
    && NIL !in db.sessions
    && (forall id :: id in db.sessions ==> SessionAgrees(db, id))
    && (forall id :: id in db.rooms ==> RoomAgrees(db, id))
  }

  ghost predicate BatchesHome(db: Tables) {
    forall k :: k in db.batches ==>
      && k.session in db.sessions && 1 <= k.version <= db.sessions[k.session].Version()
      && db.batches[k].session == k.session && db.batches[k].version == k.version
      && db.batches[k].epoch <= db.sessions[k.session].epoch
  }

  ghost predicate BatchesComplete(db: Tables) {
    forall id, v :: id in db.sessions && 1 <= v <= db.sessions[id].Version() ==> BatchKey(id, v) in db.batches
  }

  ghost predicate BatchesOrdered(db: Tables) {
    forall j, k :: j in db.batches && k in db.batches && j.session == k.session && j.version <= k.version ==>
      db.batches[j].committedAt <= db.batches[k].committedAt && db.batches[j].epoch <= db.batches[k].epoch
  }

  /** The batches of a session are versions 1 to the current one, with non-decreasing epochs and commit times. */
  ghost predicate History(db: Tables) {
    BatchesHome(db) && BatchesComplete(db) && BatchesOrdered(db)
  }

  /** Every version of a session was stored no earlier than its batch. */
  ghost predicate BatchesPrecede(w: World) {
    forall s :: s in w.sessions && BatchKey(s.id, s.Version()) in w.db.batches ==>
      w.db.batches[BatchKey(s.id, s.Version())].committedAt <= s.updatedAt
  }

  /** Receipts and batches answer to each other, both ways. */
  ghost predicate ActionsAnswered(db: Tables) {
    && (forall k :: k in db.actions ==>
          && db.actions[k].key == k && BatchKey(k.session, db.actions[k].version) in db.batches
          && db.batches[BatchKey(k.session, db.actions[k].version)].cause == ByAction(k.actor, k.actionId))
    && (forall k :: k in db.batches && db.batches[k].cause.ByAction? ==>
          var a := ActionKey(k.session, db.batches[k].cause.actor, db.batches[k].cause.actionId);
          a in db.actions && db.actions[a].version == k.version)
  }

  predicate TimerAnswered(db: Tables, k: TimerKey)
    requires k in db.timers
  {
    var r := db.timers[k];
    var b := BatchKey(k.session, r.version);
    r.key == k && r.version == k.expectedVersion + 1 && b in db.batches && db.batches[b].cause == ByTimer(k.timerId)
  }

  predicate TimerCauseAnswered(db: Tables, k: BatchKey)
    requires k in db.batches
  {
    db.batches[k].cause.ByTimer? ==>
      k.version > 0 && var t := TimerKey(k.session, db.batches[k].cause.timerId, k.version - 1);
      t in db.timers && db.timers[t].version == k.version
  }

  ghost predicate TimersAnswered(db: Tables) {
    (forall k :: k in db.timers ==> TimerAnswered(db, k)) && (forall k :: k in db.batches ==> TimerCauseAnswered(db, k))
  }

  ghost predicate OperationsAnswered(db: Tables) {
    && (forall k :: k in db.operations ==> AnswersItself(k, db.operations[k]))
    && (forall k :: k in db.operations && db.operations[k].applied ==>
          && db.operations[k].answer.Some? && BatchKey(k.session, db.operations[k].answer.value.version) in db.batches
          && AppliedAs(k, db.operations[k], db.batches[BatchKey(k.session, db.operations[k].answer.value.version)]))
    && (forall k :: k in db.batches && db.batches[k].cause.BySystem? ==>
          var o := OperationKey(k.session, db.batches[k].cause.operation);
          o in db.operations && AppliedAs(o, db.operations[o], db.batches[k]))
  }

  /** One room fact or host command never hides behind two operations. */
  ghost predicate SourcesUnique(db: Tables) {
    forall j, k :: j in db.operations && k in db.operations && j.session == k.session ==>
      (db.operations[j].source.eventId == db.operations[k].source.eventId ==> j == k)
  }

  ghost predicate RoomFrozen(db: Tables, id: Id)
    requires id in db.rooms
  {
    var pointer := db.rooms[id].activeSession;
    pointer in db.sessions ==> AllFrozen(db.rooms[id].members, db.sessions[pointer].participants)
  }

  ghost predicate SeatsFrozen(db: Tables) {
    forall id :: id in db.rooms ==> RoomFrozen(db, id)
  }

  predicate RoomPaused(db: Tables, id: Id)
    requires id in db.rooms
  {
    var pointer := db.rooms[id].activeSession;
    pointer in db.sessions ==> PausedTogether(db.rooms[id], db.sessions[pointer])
  }

  ghost predicate PauseAgreement(db: Tables) {
    forall id :: id in db.rooms ==> RoomPaused(db, id)
  }

  /** A finished game has no unapplied room fact, acknowledged or not. */
  ghost predicate InboxFence(db: Tables) {
    forall k :: k in db.inbox && k.session in db.sessions && db.sessions[k.session].status == Finished ==>
      AppliedEvent(db, k.session, k.eventId)
  }

  /** Every acknowledged room fact was answered first. */
  ghost predicate Acknowledged(db: Tables) {
    forall k :: k in db.inbox && db.inbox[k].completed.Some? ==> AnsweredEvent(db, k, db.inbox[k].completed.value)
  }

  ghost predicate NoopsEnded(db: Tables) {
    forall k :: k in db.operations ==> AnsweredUnapplied(db, k, db.operations[k])
  }

  /** Whoever acted is a player of the session. */
  ghost predicate PlayersActed(db: Tables) {
    forall k :: k in db.actions ==> k.session in db.sessions && db.sessions[k.session].HasParticipant(k.actor)
  }

  predicate StartAnswered(db: Tables, k: StartKey)
    requires k in db.starts
  {
    var r := db.starts[k];
    r.key == k && r.session in db.sessions && db.sessions[r.session].room == k.room
  }

  /** A session that nobody claimed is as its start left it. */
  ghost predicate UnownedFresh(db: Tables) {
    forall id :: id in db.sessions && db.sessions[id].epoch == 0 ==>
      db.sessions[id].status == Active && db.sessions[id].Version() == 1
  }

  ghost predicate StartsAnswered(db: Tables) {
    forall k :: k in db.starts ==> StartAnswered(db, k)
  }

  // ----- legal rows keep it -----

  lemma ValidityStays(w: World, writes: Tables)
    requires AllValid(w) && ValidRows(writes)
    ensures AllValid(After(w, writes))
  {
  }

  lemma RoomsStayOk(w: World, writes: Tables)
    requires RoomsOk(w) && LegalRooms(w.db, writes)
    ensures RoomsOk(After(w, writes))
  {
  }

  lemma FenceStays(w: World, writes: Tables, a: Room, b: Room)
    requires RoomsOk(w) && NoAba(w) && LegalRooms(w.db, writes) && a in After(w, writes).rooms
    requires b in After(w, writes).rooms
    ensures FencesOrdered(a, b)
  {
    if a.id == b.id && a.id in writes.rooms {
      var next := writes.rooms[a.id];
      assert LegalRoom(w.db, a.id, next);
      if a.id in w.db.rooms {
        var current := w.db.rooms[a.id];
        assert current in w.rooms && Successor(current, next);
        assert a == next || (a in w.rooms && FencesOrdered(a, current) && a.roomVersion <= current.roomVersion);
        assert b == next || (b in w.rooms && FencesOrdered(b, current) && b.roomVersion <= current.roomVersion);
      }
    }
  }

  lemma NoAbaStays(w: World, writes: Tables)
    requires RoomsOk(w) && NoAba(w) && LegalRooms(w.db, writes)
    ensures NoAba(After(w, writes))
  {
    forall a, b | a in After(w, writes).rooms && b in After(w, writes).rooms ensures FencesOrdered(a, b) {
      FenceStays(w, writes, a, b);
    }
    forall r | r in After(w, writes).rooms && r.id in After(w, writes).db.rooms
      ensures r.roomVersion <= After(w, writes).db.rooms[r.id].roomVersion
    {
      if r.id in writes.rooms { assert LegalRoom(w.db, r.id, writes.rooms[r.id]); }
    }
  }

  /** A value once stored, seen from the row stored now. */
  predicate NotAhead(db: Tables, s: Session) {
    && s.id in db.sessions && s.Identity() == db.sessions[s.id].Identity()
    && s.epoch <= db.sessions[s.id].epoch && s.Version() <= db.sessions[s.id].Version()
    && (!Live(s) ==> db.sessions[s.id] == s)
  }

  lemma OldValueNotAhead(db: Tables, writes: Tables, s: Session)
    requires NotAhead(db, s) && LegalSessions(db, writes)
    ensures NotAhead(db.Write(writes), s)
  {
    if s.id in writes.sessions { assert LegalSession(db, s.id, writes.sessions[s.id]); }
  }

  lemma SessionsStayOk(w: World, writes: Tables)
    requires SessionsOk(w) && LegalSessions(w.db, writes)
    ensures SessionsOk(After(w, writes))
  {
    forall s | s in After(w, writes).sessions ensures NotAhead(After(w, writes).db, s) {
      if s in w.sessions {
        OldValueNotAhead(w.db, writes, s);
      } else {
        var id :| id in writes.sessions && writes.sessions[id] == s;
        assert LegalSession(w.db, id, s);
      }
    }
  }

  lemma SessionStaysAgreed(db: Tables, writes: Tables, id: Id)
    requires Agreement(db) && LegalPointers(db, writes) && id in db.sessions && id !in writes.sessions
    ensures SessionAgrees(db.Write(writes), id)
  {
    var room := db.sessions[id].room;
    assert SessionAgrees(db, id) && id != NIL;
    var post := db.Write(writes);
    assert post.sessions[id] == db.sessions[id];
    if room in writes.rooms {
      assert PointerMoves(db, writes, room);
      assert post.rooms[room] == writes.rooms[room];
    } else {
      assert post.rooms[room] == db.rooms[room];
    }
  }

  lemma RoomStaysAgreed(db: Tables, writes: Tables, id: Id)
    requires Agreement(db) && LegalPointers(db, writes) && LegalSessions(db, writes) && id in db.Write(writes).rooms
    ensures RoomAgrees(db.Write(writes), id)
  {
    var s := db.Write(writes).rooms[id].activeSession;
    if id in writes.rooms { assert PointerMoves(db, writes, id); }
    if id in db.rooms { assert RoomAgrees(db, id); }
    if s in writes.sessions { assert LegalSession(db, s, writes.sessions[s]); }
  }

  lemma AgreementStays(db: Tables, writes: Tables)
    requires Agreement(db) && LegalPointers(db, writes) && LegalSessions(db, writes)
    ensures Agreement(db.Write(writes))
  {
    var post := db.Write(writes);
    forall id | id in post.sessions ensures SessionAgrees(post, id) {
      if id !in writes.sessions { SessionStaysAgreed(db, writes, id); }
    }
    forall id | id in post.rooms ensures RoomAgrees(post, id) {
      RoomStaysAgreed(db, writes, id);
    }
    assert forall id :: id in writes.sessions ==> LegalSession(db, id, writes.sessions[id]);
  }

  lemma BatchesStayHome(db: Tables, writes: Tables, k: BatchKey)
    requires BatchesHome(db) && LegalBatches(db, writes) && LegalSessions(db, writes) && k in db.Write(writes).batches
    ensures var post := db.Write(writes);
      && k.session in post.sessions && 1 <= k.version <= post.sessions[k.session].Version()
      && post.batches[k].session == k.session && post.batches[k].version == k.version
      && post.batches[k].epoch <= post.sessions[k.session].epoch
  {
    if k.session in writes.sessions { assert LegalSession(db, k.session, writes.sessions[k.session]); }
    if k in writes.batches { assert k.version == writes.sessions[k.session].Version(); }
  }

  lemma BatchesStayComplete(db: Tables, writes: Tables, id: Id, v: nat)
    requires BatchesComplete(db) && VersionsRecorded(db, writes) && LegalSessions(db, writes)
    requires id in db.Write(writes).sessions && 1 <= v <= db.Write(writes).sessions[id].Version()
    ensures BatchKey(id, v) in db.Write(writes).batches
  {
    if id in db.sessions && v <= db.sessions[id].Version() {
      assert BatchKey(id, v) in db.batches;
    } else {
      assert id in writes.sessions && LegalSession(db, id, writes.sessions[id]);
      assert v == writes.sessions[id].Version();
    }
  }

  lemma BatchesStayOrdered(db: Tables, writes: Tables, j: BatchKey, k: BatchKey)
    requires History(db) && LegalBatches(db, writes) && LegalSessions(db, writes)
    requires j in db.Write(writes).batches && k in db.Write(writes).batches && j.session == k.session
    requires j.version <= k.version
    ensures var post := db.Write(writes);
      post.batches[j].committedAt <= post.batches[k].committedAt && post.batches[j].epoch <= post.batches[k].epoch
  {
    var id := k.session;
    if j in writes.batches && k in writes.batches {
      assert j == k;
    } else if k in writes.batches {
      assert LegalSession(db, id, writes.sessions[id]);
      var last := BatchKey(id, db.sessions[id].Version());
      assert j in db.batches && last in db.batches;
      assert db.batches[j].committedAt <= db.batches[last].committedAt;
    }
  }

  lemma HistoryStays(db: Tables, writes: Tables)
    requires History(db) && LegalBatches(db, writes) && LegalSessions(db, writes)
    ensures History(db.Write(writes))
  {
    var post := db.Write(writes);
    forall k | k in post.batches
      ensures k.session in post.sessions && 1 <= k.version <= post.sessions[k.session].Version()
      ensures post.batches[k].session == k.session && post.batches[k].version == k.version
      ensures post.batches[k].epoch <= post.sessions[k.session].epoch
    {
      BatchesStayHome(db, writes, k);
    }
    forall id, v | id in post.sessions && 1 <= v <= post.sessions[id].Version()
      ensures BatchKey(id, v) in post.batches
    {
      BatchesStayComplete(db, writes, id, v);
    }
    forall j, k | j in post.batches && k in post.batches && j.session == k.session && j.version <= k.version
      ensures post.batches[j].committedAt <= post.batches[k].committedAt
      ensures post.batches[j].epoch <= post.batches[k].epoch
    {
      BatchesStayOrdered(db, writes, j, k);
    }
  }

  lemma FreshBatchAhead(db: Tables, writes: Tables, k: BatchKey)
    requires BatchesFit(db, writes) && LegalSessions(db, writes) && k in writes.batches && k.session in db.sessions
    ensures k.version == db.sessions[k.session].Version() + 1
  {
    assert LegalSession(db, k.session, writes.sessions[k.session]);
  }

  lemma NewRowDated(db: Tables, writes: Tables, id: Id)
    requires LegalBatches(db, writes) && id in writes.sessions && LegalSession(db, id, writes.sessions[id])
    requires BatchKey(id, writes.sessions[id].Version()) in db.Write(writes).batches
    ensures db.Write(writes).batches[BatchKey(id, writes.sessions[id].Version())].committedAt
      <= writes.sessions[id].updatedAt
  {
  }

  lemma OldRowDated(db: Tables, writes: Tables, s: Session)
    requires BatchesFit(db, writes) && LegalSessions(db, writes) && s.id in db.sessions
    requires s.Version() <= db.sessions[s.id].Version()
    ensures BatchKey(s.id, s.Version()) !in writes.batches
  {
    if BatchKey(s.id, s.Version()) in writes.batches { FreshBatchAhead(db, writes, BatchKey(s.id, s.Version())); }
  }

  lemma DatesStay(w: World, writes: Tables)
    requires SessionsOk(w) && BatchesPrecede(w) && LegalBatches(w.db, writes) && LegalSessions(w.db, writes)
    ensures BatchesPrecede(After(w, writes))
  {
    forall s | s in After(w, writes).sessions && BatchKey(s.id, s.Version()) in After(w, writes).db.batches
      ensures After(w, writes).db.batches[BatchKey(s.id, s.Version())].committedAt <= s.updatedAt
    {
      if s in w.sessions {
        OldRowDated(w.db, writes, s);
      } else {
        var id :| id in writes.sessions && writes.sessions[id] == s;
        assert LegalSession(w.db, id, s);
        NewRowDated(w.db, writes, id);
      }
    }
  }

  lemma ActionsStayAnswered(db: Tables, writes: Tables)
    requires ActionsAnswered(db) && LegalActions(db, writes) && LegalCauses(writes) && BatchesFit(db, writes)
    ensures ActionsAnswered(db.Write(writes))
  {
    var post := db.Write(writes);
    forall k | k in post.actions
      ensures post.actions[k].key == k && BatchKey(k.session, post.actions[k].version) in post.batches
      ensures post.batches[BatchKey(k.session, post.actions[k].version)].cause == ByAction(k.actor, k.actionId)
    {
      var b := BatchKey(k.session, post.actions[k].version);
      if k !in writes.actions { assert b in db.batches && b !in writes.batches; }
    }
  }

  lemma TimerReceiptStays(db: Tables, writes: Tables, k: TimerKey)
    requires TimersAnswered(db) && LegalTimers(db, writes) && BatchesFit(db, writes) && k in db.Write(writes).timers
    ensures TimerAnswered(db.Write(writes), k)
  {
    if k !in writes.timers {
      assert TimerAnswered(db, k);
      assert BatchKey(k.session, db.timers[k].version) !in writes.batches;
    }
  }

  lemma TimersStayAnswered(db: Tables, writes: Tables)
    requires TimersAnswered(db) && LegalTimers(db, writes) && LegalCauses(writes) && BatchesFit(db, writes)
    ensures TimersAnswered(db.Write(writes))
  {
    var post := db.Write(writes);
    forall k | k in post.timers ensures TimerAnswered(post, k) { TimerReceiptStays(db, writes, k); }
    forall k | k in post.batches ensures TimerCauseAnswered(post, k) {
      if k !in writes.batches { assert TimerCauseAnswered(db, k); }
    }
  }

  lemma AppliedStaysAnswered(db: Tables, writes: Tables, k: OperationKey)
    requires OperationsAnswered(db) && LegalOperations(db, writes) && BatchesFit(db, writes)
    requires k in db.Write(writes).operations && db.Write(writes).operations[k].applied
    ensures var post := db.Write(writes); var op := post.operations[k];
      && op.answer.Some? && BatchKey(k.session, op.answer.value.version) in post.batches
      && AppliedAs(k, op, post.batches[BatchKey(k.session, op.answer.value.version)])
  {
    if k !in writes.operations {
      var b := BatchKey(k.session, db.operations[k].answer.value.version);
      assert b in db.batches && b !in writes.batches;
    }
  }

  lemma SystemCauseStaysAnswered(db: Tables, writes: Tables, k: BatchKey)
    requires OperationsAnswered(db) && LegalOperations(db, writes) && LegalCauses(writes) && BatchesFit(db, writes)
    requires k in db.Write(writes).batches && db.Write(writes).batches[k].cause.BySystem?
    ensures var post := db.Write(writes); var o := OperationKey(k.session, post.batches[k].cause.operation);
      o in post.operations && AppliedAs(o, post.operations[o], post.batches[k])
  {
    var o := OperationKey(k.session, db.Write(writes).batches[k].cause.operation);
    if k !in writes.batches { assert o in db.operations && db.operations[o].applied && o !in writes.operations; }
  }

  lemma OperationsStayAnswered(db: Tables, writes: Tables)
    requires OperationsAnswered(db) && LegalOperations(db, writes) && LegalCauses(writes) && BatchesFit(db, writes)
    ensures OperationsAnswered(db.Write(writes))
  {
    var post := db.Write(writes);
    forall k | k in post.operations && post.operations[k].applied
      ensures post.operations[k].answer.Some?
      ensures BatchKey(k.session, post.operations[k].answer.value.version) in post.batches
      ensures AppliedAs(k, post.operations[k],
                        post.batches[BatchKey(k.session, post.operations[k].answer.value.version)])
    {
      AppliedStaysAnswered(db, writes, k);
    }
    forall k | k in post.batches && post.batches[k].cause.BySystem?
      ensures var o := OperationKey(k.session, post.batches[k].cause.operation);
        o in post.operations && AppliedAs(o, post.operations[o], post.batches[k])
    {
      SystemCauseStaysAnswered(db, writes, k);
    }
  }

  lemma SourcesStayUnique(db: Tables, writes: Tables)
    requires SourcesUnique(db) && LegalOperations(db, writes)
    ensures SourcesUnique(db.Write(writes))
  {
  }

  lemma SeatStaysFrozen(db: Tables, writes: Tables, id: Id)
    requires SeatsFrozen(db) && Agreement(db) && LegalSeats(db, writes) && LegalSessions(db, writes)
    requires id in db.Write(writes).rooms
    ensures RoomFrozen(db.Write(writes), id)
  {
    var post := db.Write(writes);
    var s := post.rooms[id].activeSession;
    if s in post.sessions {
      if s in writes.sessions { assert LegalSession(db, s, writes.sessions[s]); }
      if id in writes.rooms { assert SeatsMove(db, writes, id); }
      if id in db.rooms && db.rooms[id].activeSession == s {
        assert RoomAgrees(db, id) && RoomFrozen(db, id);
        assert post.sessions[s].participants == db.sessions[s].participants by {
          if s in writes.sessions { assert post.sessions[s].Identity() == db.sessions[s].Identity(); }
        }
      }
    }
  }

  lemma SeatsStayFrozen(db: Tables, writes: Tables)
    requires SeatsFrozen(db) && Agreement(db) && LegalSeats(db, writes) && LegalSessions(db, writes)
    ensures SeatsFrozen(db.Write(writes))
  {
    forall id | id in db.Write(writes).rooms ensures RoomFrozen(db.Write(writes), id) {
      SeatStaysFrozen(db, writes, id);
    }
  }

  lemma PauseStaysAgreed(db: Tables, writes: Tables, id: Id)
    requires PauseAgreement(db) && Agreement(db) && Agreement(db.Write(writes)) && LegalPauses(db, writes)
    requires id in db.Write(writes).rooms
    ensures RoomPaused(db.Write(writes), id)
  {
    var post := db.Write(writes);
    var s := post.rooms[id].activeSession;
    if s in post.sessions {
      assert RoomAgrees(post, id);
      if s in writes.sessions { assert SessionPaused(post, s); }
      if id in writes.rooms { assert PauseMoves(db, writes, id); }
      if id in db.rooms { assert RoomPaused(db, id) && RoomAgrees(db, id); }
    }
  }

  lemma PausesStayAgreed(db: Tables, writes: Tables)
    requires PauseAgreement(db) && Agreement(db) && Agreement(db.Write(writes)) && LegalPauses(db, writes)
    ensures PauseAgreement(db.Write(writes))
  {
    forall id | id in db.Write(writes).rooms ensures RoomPaused(db.Write(writes), id) {
      PauseStaysAgreed(db, writes, id);
    }
  }

  lemma NoopsStayEnded(db: Tables, writes: Tables)
    requires NoopsEnded(db) && LegalOperations(db, writes) && LegalSessions(db, writes)
    ensures NoopsEnded(db.Write(writes))
  {
    var post := db.Write(writes);
    forall k | k in post.operations ensures AnsweredUnapplied(post, k, post.operations[k]) {
      assert AnsweredUnapplied(db, k, post.operations[k]);
      if k.session in db.sessions && k.session in writes.sessions {
        assert LegalSession(db, k.session, writes.sessions[k.session]);
      }
    }
  }

  lemma AnswerStays(db: Tables, writes: Tables, k: InboxKey, version: nat)
    requires AnsweredEvent(db, k, version) && LegalOperations(db, writes)
    ensures AnsweredEvent(db.Write(writes), k, version)
  {
    var o :| o in db.operations && o.session == k.session && db.operations[o].source.eventId == k.eventId
             && db.operations[o].answer.Some? && db.operations[o].answer.value.version == version;
    assert o !in writes.operations;
  }

  lemma AcknowledgedStays(db: Tables, writes: Tables)
    requires Acknowledged(db) && LegalOperations(db, writes) && LegalInbox(db, writes)
    ensures Acknowledged(db.Write(writes))
  {
    var post := db.Write(writes);
    forall k | k in post.inbox && post.inbox[k].completed.Some?
      ensures AnsweredEvent(post, k, post.inbox[k].completed.value)
    {
      AnswerStays(db, writes, k, post.inbox[k].completed.value);
    }
  }

  lemma SessionStays(db: Tables, writes: Tables, id: Id)
    requires LegalSessions(db, writes) && id in db.sessions
    ensures db.Write(writes).sessions[id].Identity() == db.sessions[id].Identity()
  {
    if id in writes.sessions { assert LegalSession(db, id, writes.sessions[id]); }
  }

  lemma PlayersStayActed(db: Tables, writes: Tables)
    requires PlayersActed(db) && LegalActions(db, writes) && LegalSessions(db, writes)
    ensures PlayersActed(db.Write(writes))
  {
    var post := db.Write(writes);
    forall k | k in post.actions
      ensures k.session in post.sessions && post.sessions[k.session].HasParticipant(k.actor)
    {
      if k !in writes.actions { SessionStays(db, writes, k.session); }
    }
  }

  lemma StartsStayAnswered(db: Tables, writes: Tables)
    requires StartsAnswered(db) && LegalStarts(db, writes) && LegalSessions(db, writes)
    ensures StartsAnswered(db.Write(writes))
  {
    var post := db.Write(writes);
    forall k | k in post.starts ensures StartAnswered(post, k) {
      if k !in writes.starts {
        assert StartAnswered(db, k);
        SessionStays(db, writes, db.starts[k].session);
      }
    }
  }

  lemma UnownedStaysFresh(db: Tables, writes: Tables)
    requires UnownedFresh(db) && LegalSessions(db, writes)
    ensures UnownedFresh(db.Write(writes))
  {
    forall id | id in db.Write(writes).sessions && db.Write(writes).sessions[id].epoch == 0
      ensures db.Write(writes).sessions[id].status == Active && db.Write(writes).sessions[id].Version() == 1
    {
      if id in writes.sessions { assert LegalSession(db, id, writes.sessions[id]); }
    }
  }

  lemma AppliedStays(db: Tables, writes: Tables, session: Id, event: Id)
    requires AppliedEvent(db, session, event) && LegalOperations(db, writes)
    ensures AppliedEvent(db.Write(writes), session, event)
  {
    var o :| o in db.operations && o.session == session && db.operations[o].source.eventId == event
             && db.operations[o].applied;
    assert o !in writes.operations;
  }

  /** Of a live session every answered fact was applied: the no-op answer is for sessions that have ended. */
  lemma AnsweredWhileLive(db: Tables, k: InboxKey, version: nat)
    requires NoopsEnded(db) && AnsweredEvent(db, k, version) && k.session in db.sessions && Live(db.sessions[k.session])
    ensures AppliedEvent(db, k.session, k.eventId)
  {
    var o :| o in db.operations && o.session == k.session && db.operations[o].source.eventId == k.eventId
             && db.operations[o].answer.Some? && db.operations[o].answer.value.version == version;
    assert AnsweredUnapplied(db, o, db.operations[o]);
  }

  lemma FactStaysFenced(db: Tables, writes: Tables, k: InboxKey)
    requires InboxFence(db) && Acknowledged(db) && NoopsEnded(db)
    requires LegalInbox(db, writes) && LegalOperations(db, writes) && LegalSessions(db, writes)
    requires k in db.Write(writes).inbox && k.session in db.Write(writes).sessions
    requires db.Write(writes).sessions[k.session].status == Finished
    ensures AppliedEvent(db.Write(writes), k.session, k.eventId)
  {
    if k in db.inbox && k.session in db.sessions && db.sessions[k.session].status == Finished {
      AppliedStays(db, writes, k.session, k.eventId);
    } else if PendingAt(db.Write(writes), k) {
      assert k.session in writes.sessions;
    } else {
      EndsOverAcknowledged(db, writes, k);
      AppliedStays(db, writes, k.session, k.eventId);
    }
  }

  lemma EndsOverAcknowledged(db: Tables, writes: Tables, k: InboxKey)
    requires Acknowledged(db) && NoopsEnded(db) && LegalInbox(db, writes) && LegalSessions(db, writes)
    requires k in db.Write(writes).inbox && db.Write(writes).inbox[k].completed.Some?
    requires k.session in writes.sessions && writes.sessions[k.session].status == Finished
    ensures AppliedEvent(db, k.session, k.eventId)
  {
    assert LegalSession(db, k.session, writes.sessions[k.session]);
    AnsweredWhileLive(db, k, db.Write(writes).inbox[k].completed.value);
  }

  lemma InboxStaysFenced(db: Tables, writes: Tables)
    requires InboxFence(db) && Acknowledged(db) && NoopsEnded(db)
    requires LegalInbox(db, writes) && LegalOperations(db, writes) && LegalSessions(db, writes)
    ensures InboxFence(db.Write(writes))
  {
    var post := db.Write(writes);
    forall k | k in post.inbox && k.session in post.sessions && post.sessions[k.session].status == Finished
      ensures AppliedEvent(post, k.session, k.eventId)
    {
      FactStaysFenced(db, writes, k);
    }
  }
}
