/** Every transaction of the runtime writes legal rows. */
module RuntimeLegal {
  import opened Base
  import opened GameSdk
  import opened GameSession
  import opened SessionSteps
  import opened Commits
  import opened PartyRoom
  import opened RoomCommands
  import opened RoomLaws
  import opened RuntimeStore
  import opened RuntimeService
  import opened RuntimeWorld
  import opened RuntimeRows

  ghost predicate Legal(db: Tables, w: Tables) {
    && LegalRooms(db, w) && LegalSessions(db, w) && ValidRows(w) && LegalBatches(db, w) && LegalPointers(db, w)
    && LegalReceipts(db, w) && LegalSeats(db, w) && LegalInbox(db, w)
  }

  ghost predicate Inv(w: World) {
    && Core(w) && ActionsAnswered(w.db) && TimersAnswered(w.db) && OperationsAnswered(w.db) && SourcesUnique(w.db)
    && SeatsFrozen(w.db) && InboxFence(w.db) && Answered(w.db)
  }

  /** What answers say about the game: who acted, which start made which session, which facts were taken in. */
  ghost predicate Answered(db: Tables) {
    Acknowledged(db) && NoopsEnded(db) && PlayersActed(db) && StartsAnswered(db) && UnownedFresh(db)
  }

  lemma AnsweredStays(db: Tables, writes: Tables)
    requires Answered(db) && LegalReceipts(db, writes) && LegalInbox(db, writes) && LegalSessions(db, writes)
    ensures Answered(db.Write(writes))
  {
    AcknowledgedStays(db, writes);
    NoopsStayEnded(db, writes);
    PlayersStayActed(db, writes);
    StartsStayAnswered(db, writes);
    UnownedStaysFresh(db, writes);
  }

  /** Legal rows keep the whole invariant. */
  lemma LegalKeepsInv(w: World, writes: Tables)
    requires Inv(w) && Legal(w.db, writes)
    ensures Inv(After(w, writes))
    ensures PauseAgreement(w.db) && LegalPauses(w.db, writes) ==> PauseAgreement(After(w, writes).db)
  {
    ValidityStays(w, writes);
    RoomsStayOk(w, writes);
    NoAbaStays(w, writes);
    SessionsStayOk(w, writes);
    AgreementStays(w.db, writes);
    HistoryStays(w.db, writes);
    DatesStay(w, writes);
    ActionsStayAnswered(w.db, writes);
    TimersStayAnswered(w.db, writes);
    OperationsStayAnswered(w.db, writes);
    SourcesStayUnique(w.db, writes);
    SeatsStayFrozen(w.db, writes);
    InboxStaysFenced(w.db, writes);
    AnsweredStays(w.db, writes);
    if PauseAgreement(w.db) && LegalPauses(w.db, writes) { PausesStayAgreed(w.db, writes); }
  }

  lemma NothingLegal(db: Tables)
    ensures Legal(db, NOTHING) && LegalPauses(db, NOTHING)
  {
  }

  // ----- the room side of each kind of transaction -----

  /** A session that stays live and moves without its room. */
  lemma SessionAloneLegal(db: Tables, writes: Tables, t: Session)
    requires Agreement(db) && writes.rooms == map[] && writes.sessions == map[t.id := t] && writes.inbox == map[]
    requires t.id in db.sessions && Live(db.sessions[t.id]) && Live(t) && t.room == db.sessions[t.id].room
    requires t.room in db.rooms
    ensures LegalRooms(db, writes) && LegalPointers(db, writes) && LegalSeats(db, writes) && LegalInbox(db, writes)
    ensures PausedTogether(db.rooms[t.room], t) ==> LegalPauses(db, writes)
  {
    assert SessionAgrees(db, t.id);
    LiveInboxLegal(db, writes, t);
    assert t.id in writes.sessions && db.Write(writes).sessions[t.id] == writes.sessions[t.id];
    assert SessionAgrees(db.Write(writes), t.id);
  }

  /** Exactly one room row and one session row, and what the tables then hold. */
  ghost predicate OnePair(db: Tables, writes: Tables, id: Id, next: Room, t: Session) {
    && writes.rooms.Keys == {id} && writes.rooms[id] == next && writes.sessions.Keys == {t.id}
    && writes.sessions[t.id] == t
    && db.Write(writes).rooms.Keys >= {id} && db.Write(writes).rooms[id] == next
    && db.Write(writes).sessions.Keys >= {t.id} && db.Write(writes).sessions[t.id] == t
  }

  lemma OneRow<K, V>(table: map<K, V>, rows: map<K, V>, k: K, v: V)
    requires rows == map[k := v]
    ensures rows.Keys == {k} && rows[k] == v && (table + rows).Keys >= {k} && (table + rows)[k] == v
  {
  }

  lemma PairLookups(db: Tables, writes: Tables, id: Id, next: Room, t: Session)
    requires writes.rooms == map[id := next] && writes.sessions == map[t.id := t]
    ensures OnePair(db, writes, id, next, t)
  {
    OneRow(db.rooms, writes.rooms, id, next);
    OneRow(db.sessions, writes.sessions, t.id, t);
  }

  /** A room and its session written together: the room points at the session exactly when it is live. */
  lemma PairLegal(db: Tables, writes: Tables, t: Session, was: Room, next: Room)
    requires OnePair(db, writes, was.id, next, t)
    requires was.id in db.rooms && db.rooms[was.id] == was && Successor(was, next) && t.room == was.id && t.id != NIL
    requires (was.activeSession == NIL || was.activeSession == t.id)
    requires next.activeSession == (if Live(t) then t.id else NIL)
    requires PausedTogether(next, t)
    ensures LegalRooms(db, writes) && LegalPointers(db, writes) && LegalPauses(db, writes)
  {
    assert PointerMoves(db, writes, was.id) && PauseMoves(db, writes, was.id);
    assert SessionAgrees(db.Write(writes), t.id) && SessionPaused(db.Write(writes), t.id);
  }

  /** A session that ends together with its room's pointer. */
  lemma EndingLegal(db: Tables, writes: Tables, t: Session, was: Room, next: Room)
    requires writes.rooms == map[was.id := next] && writes.sessions == map[t.id := t]
    requires was.id in db.rooms && db.rooms[was.id] == was && Successor(was, next)
    requires was.activeSession == t.id && t.id != NIL && next.activeSession == NIL && next.pause == NO_PAUSE && !Live(t)
    requires t.room == was.id
    ensures LegalRooms(db, writes) && LegalPointers(db, writes) && LegalSeats(db, writes) && LegalPauses(db, writes)
  {
    PairLookups(db, writes, was.id, next, t);
    PairLegal(db, writes, t, was, next);
    assert SeatsMove(db, writes, was.id);
  }

  lemma LiveInboxLegal(db: Tables, writes: Tables, t: Session)
    requires writes.inbox == map[] && writes.sessions == map[t.id := t] && t.status != Finished
    ensures LegalInbox(db, writes)
  {
  }

  lemma SeatsUnmovedLegal(db: Tables, writes: Tables, was: Room, next: Room)
    requires writes.rooms == map[was.id := next] && was.id in db.rooms && db.rooms[was.id] == was
    requires next.activeSession == was.activeSession && NobodySitsDown(was.members, next.members)
    ensures LegalSeats(db, writes)
  {
    assert was.id in writes.rooms && SeatsMove(db, writes, was.id);
  }

  /** A room and its live session change together, the pointer staying put. */
  lemma GovernedLegal(db: Tables, writes: Tables, t: Session, was: Room, next: Room)
    requires writes.rooms == map[was.id := next] && writes.sessions == map[t.id := t] && writes.inbox == map[]
    requires was.id in db.rooms && db.rooms[was.id] == was && Successor(was, next)
    requires was.activeSession == t.id && t.id != NIL && next.activeSession == t.id && next.members == was.members
    requires Live(t) && t.room == was.id
    requires PausedTogether(next, t)
    ensures LegalRooms(db, writes) && LegalPointers(db, writes) && LegalSeats(db, writes) && LegalPauses(db, writes)
    ensures LegalInbox(db, writes)
  {
    PairLookups(db, writes, was.id, next, t);
    PairLegal(db, writes, t, was, next);
    SeatsUnmovedLegal(db, writes, was, next);
    LiveInboxLegal(db, writes, t);
  }

  /** A room update beside any running game. */
  lemma RoomAloneLegal(db: Tables, writes: Tables, was: Room, next: Room)
    requires writes == NOTHING.(rooms := map[was.id := next], inbox := writes.inbox)
    requires was.id in db.rooms && db.rooms[was.id] == was && LegalRoom(db, was.id, next) && KeepsGame(was, next)
    requires (was.activeSession != NIL ==> was.status == Playing) && LegalInbox(db, writes)
    ensures LegalRooms(db, writes) && LegalSessions(db, writes) && LegalBatches(db, writes) && LegalPointers(db, writes)
    ensures LegalReceipts(db, writes) && LegalSeats(db, writes) && LegalPauses(db, writes)
  {
  }

  // ----- receipts beside their batch -----

  lemma ActionReceiptLegal(db: Tables, writes: Tables, c: ActionCommit)
    requires NewActionCommit(c.before, c.after, c.batch, c.receipt, c.events).Ok? && c.receipt.key !in db.actions
    requires writes.batches == map[BatchKey(c.after.id, c.after.Version()) := c.batch]
    requires writes.actions == map[c.receipt.key := c.receipt]
    requires writes.timers == map[] && writes.operations == map[] && writes.starts == map[]
    requires writes.sessions == map[c.after.id := c.after]
    ensures LegalReceipts(db, writes)
  {
  }

  lemma TimerReceiptLegal(db: Tables, writes: Tables, c: TimerCommit)
    requires NewTimerCommit(c.before, c.after, c.batch, c.receipt, c.events).Ok? && c.receipt.key !in db.timers
    requires writes.batches == map[BatchKey(c.after.id, c.after.Version()) := c.batch]
    requires writes.timers == map[c.receipt.key := c.receipt]
    requires writes.actions == map[] && writes.operations == map[] && writes.starts == map[]
    ensures LegalReceipts(db, writes)
  {
  }

  lemma LockedOperationFresh(db: Tables, key: SystemKey, request: Digest, op: Operation)
    requires OperationsAnswered(db) && LockOperation(db, key, request) == Ok(op) && op.answer.None?
    ensures op.source == key.source && op.request == request && !op.applied
    ensures var k := OperationKey(key.session, key.operation);
      if k in db.operations then db.operations[k] == op
      else forall o :: o in db.operations && o.session == k.session ==>
        db.operations[o].source.eventId != key.source.eventId
  {
  }

  lemma OtherTablesUntouched(db: Tables, writes: Tables)
    requires writes == NOTHING.(operations := writes.operations)
    ensures LegalRooms(db, writes) && LegalSessions(db, writes) && ValidRows(writes) && LegalBatches(db, writes)
    ensures LegalPointers(db, writes)
    ensures LegalActions(db, writes) && LegalTimers(db, writes) && LegalCauses(writes) && LegalStarts(db, writes)
    ensures LegalSeats(db, writes) && LegalInbox(db, writes) && LegalPauses(db, writes)
  {
  }

  lemma OperationsOnlyLegal(db: Tables, writes: Tables)
    requires writes == NOTHING.(operations := writes.operations) && LegalOperations(db, writes)
    ensures Legal(db, writes) && LegalPauses(db, writes)
  {
    OtherTablesUntouched(db, writes);
  }

  /** An operation row without a batch: left pending, or answered as a no-op. */
  lemma OperationAloneLegal(db: Tables, key: SystemKey, request: Digest, op: Operation, row: Operation)
    requires OperationsAnswered(db) && LockOperation(db, key, request) == Ok(op) && op.answer.None?
    requires row == op.(answer := row.answer)
    requires (row.answer.Some? ==> row.answer.value.key == key && row.answer.value.request == request)
    requires row.answer.Some? ==> key.session in db.sessions && !Live(db.sessions[key.session])
    ensures LegalOperations(db, OperationRow(key, row))
  {
    LockedOperationFresh(db, key, request, op);
  }

  lemma SystemReceiptLegal(db: Tables, writes: Tables, c: SystemCommit, op: Operation)
    requires NewSystemCommit(c.before, c.after, c.batch, c.receipt, c.events).Ok?
    requires OperationsAnswered(db) && LockOperation(db, c.receipt.key, c.receipt.request) == Ok(op) && op.answer.None?
    requires writes.batches == map[BatchKey(c.after.id, c.after.Version()) := c.batch] && writes.actions == map[]
    requires writes.timers == map[]
    requires writes.starts == map[]
    requires writes.operations ==
      map[OperationKey(c.receipt.key.session, c.receipt.key.operation) := op.(answer := Some(c.receipt),
                                                                              applied := true)]
    ensures LegalReceipts(db, writes)
  {
    LockedOperationFresh(db, c.receipt.key, c.receipt.request, op);
  }

  // ----- engine steps -----

  /** What the tables say about the session a caller once read. */
  ghost predicate Known(db: Tables, before: Session) {
    && before.id != NIL && before.id in db.sessions && db.sessions[before.id].Identity() == before.Identity()
    && (BatchKey(before.id, before.Version()) in db.batches ==>
          db.batches[BatchKey(before.id, before.Version())].committedAt <= before.updatedAt)
  }

  lemma Recall(w: World, before: Session)
    requires Core(w) && before in w.sessions
    ensures Known(w.db, before) && before.Valid() && w.db.sessions[before.id].Valid()
    ensures w.db.sessions[before.id].id == before.id
    ensures before.epoch <= w.db.sessions[before.id].epoch && before.Version() <= w.db.sessions[before.id].Version()
  {
    Remembered(w, before);
    assert w.db.sessions[before.id] in w.sessions;
  }

  /** A live session's room, and what pause agreement says about the two. */
  lemma RoomOf(db: Tables, s: Session)
    requires Agreement(db) && s.id in db.sessions && db.sessions[s.id].Identity() == s.Identity()
    ensures s.room in db.rooms && db.sessions[s.id].room == s.room
    ensures Live(db.sessions[s.id]) && PauseAgreement(db) ==> PausedTogether(db.rooms[s.room], db.sessions[s.id])
  {
    assert SessionAgrees(db, s.id);
    if PauseAgreement(db) { assert RoomPaused(db, s.room); }
  }

  /** The stored row after an engine step is the computed one, and legal. */
  lemma EngineStored(db: Tables, before: Session, t: Session, b: Batch, writes: Tables)
    requires Known(db, before) && Advances(before, t, b) && TransitionConflict(db.sessions[before.id], before).None?
    requires PersistStep(db, db.sessions[before.id], t, b) == Ok(writes)
    ensures writes == NOTHING.(sessions := map[t.id := t], batches := map[BatchKey(t.id, t.Version()) := b])
    ensures t.id == before.id
    ensures LegalSessions(db, writes) && LegalBatches(db, writes)
  {
    assert StateRow(db.sessions[before.id], t) == t;
    GameSession.RestoreFixedPoint(t);
    EngineRowsLegal(db, writes, before, t, b);
  }

  lemma ValidSessionRow(writes: Tables, t: Session)
    requires writes.rooms == map[] && writes.sessions == map[t.id := t] && t.Valid()
    ensures ValidRows(writes)
  {
  }

  lemma ValidPairRows(writes: Tables, t: Session, r: Room)
    requires writes.rooms == map[r.id := r] && writes.sessions == map[t.id := t] && t.Valid() && r.Reachable()
    ensures ValidRows(writes)
  {
  }

  /** Rows of a step that goes on playing. */
  lemma OngoingLegal(db: Tables, writes: Tables, t: Session)
    requires Agreement(db) && writes.rooms == map[] && writes.sessions == map[t.id := t] && writes.inbox == map[]
    requires t.id in db.sessions && Live(db.sessions[t.id]) && t.status == Active && t.room == db.sessions[t.id].room
    requires ValidRows(writes) && LegalSessions(db, writes) && LegalBatches(db, writes) && LegalReceipts(db, writes)
    ensures Legal(db, writes)
    ensures db.sessions[t.id].status == Active && PausedTogether(db.rooms[t.room], db.sessions[t.id]) ==>
      LegalPauses(db, writes)
  {
    SessionAloneLegal(db, writes, t);
  }

  lemma ActionStored(db: Tables, c: ActionCommit)
    requires Known(db, c.before) && Advances(c.before, c.after, c.batch) && CommitActionLocked(db, c).Ok?
    ensures var a := CommitActionLocked(db, c).value;
      if a.replayed then a.writes == NOTHING
      else
        && a.writes == NOTHING.(sessions := map[c.after.id := c.after],
                                batches := map[BatchKey(c.after.id, c.after.Version()) := c.batch],
                                actions := map[c.receipt.key := c.receipt])
        && c.receipt.key !in db.actions && db.sessions[c.before.id].status == Active && c.after.id == c.before.id
        && LegalSessions(db, a.writes) && LegalBatches(db, a.writes)
        && (c.after.status == Finished ==> !PendingInbox(db, c.after.id, NIL))
  {
    if !CommitActionLocked(db, c).value.replayed {
      EngineStored(db, c.before, c.after, c.batch, PersistStep(db, db.sessions[c.before.id], c.after, c.batch).value);
    }
  }

  lemma TimerStored(db: Tables, c: TimerCommit)
    requires Known(db, c.before) && Advances(c.before, c.after, c.batch) && CommitTimer(db, c).Ok?
    ensures var a := CommitTimer(db, c).value;
      if a.replayed then a.writes == NOTHING
      else
        && a.writes == NOTHING.(sessions := map[c.after.id := c.after],
                                batches := map[BatchKey(c.after.id, c.after.Version()) := c.batch],
                                timers := map[c.receipt.key := c.receipt])
        && c.receipt.key !in db.timers && db.sessions[c.before.id].status == Active && c.after.id == c.before.id
        && LegalSessions(db, a.writes) && LegalBatches(db, a.writes)
        && (c.after.status == Finished ==> !PendingInbox(db, c.after.id, NIL))
  {
    if !CommitTimer(db, c).value.replayed {
      EngineStored(db, c.before, c.after, c.batch, PersistStep(db, db.sessions[c.before.id], c.after, c.batch).value);
    }
  }

  /** A system commit replays, stays pending, becomes a no-op on a finished session, or is applied. */
  datatype SystemOutcome = SystemReplayed | SystemWaiting | SystemNoop | SystemApplied

  function OutcomeOf(db: Tables, c: SystemCommit, op: Operation): SystemOutcome
    requires c.before.id in db.sessions
  {
    var current := db.sessions[c.before.id];
    if op.answer.Some? then SystemReplayed
    else if current.status.Terminal() then SystemNoop
    else if current.epoch != c.before.epoch || current.Version() != c.before.Version() then SystemWaiting
    else SystemApplied
  }

  lemma SystemStored(db: Tables, c: SystemCommit, noopResult: Digest)
    requires Known(db, c.before) && Advances(c.before, c.after, c.batch) && CommitSystem(db, c, noopResult).Ok?
    ensures LockOperation(db, c.receipt.key, c.receipt.request).Ok?
    ensures var a := CommitSystem(db, c, noopResult).value; var key := c.receipt.key;
      var op := LockOperation(db, key, c.receipt.request).value;
      match OutcomeOf(db, c, op)
      case SystemReplayed => a == SystemAnswer(NOTHING, op.answer.value, true, false)
      case SystemWaiting => a == SystemAnswer(OperationRow(key, op), c.receipt, false, true)
      case SystemNoop => a == SystemAnswer(OperationRow(key, op.(answer := Some(a.receipt))), a.receipt, false, false)
                         && a.receipt.key == key && a.receipt.request == c.receipt.request
      case SystemApplied =>
        && a == SystemAnswer(a.writes, c.receipt, false, false)
        && a.writes == NOTHING.(sessions := map[c.after.id := c.after],
                                batches := map[BatchKey(c.after.id, c.after.Version()) := c.batch],
                                operations := map[OperationKey(key.session, key.operation) :=
                                                    op.(answer := Some(c.receipt), applied := true)])
        && db.sessions[c.before.id].status == Active && c.after.id == c.before.id
        && LegalSessions(db, a.writes) && LegalBatches(db, a.writes)
        && (c.after.status == Finished ==> !PendingInbox(db, c.after.id, key.source.eventId))
  {
    var op := LockOperation(db, c.receipt.key, c.receipt.request).value;
    if OutcomeOf(db, c, op).SystemApplied? {
      EngineStored(db, c.before, c.after, c.batch, PersistStep(db, db.sessions[c.before.id], c.after, c.batch).value);
    }
  }

  // ----- the end of a game -----

  lemma FinishPrepared(room: Room, session: Id, now: Reading)
    requires room.Reachable() && PrepareFinish(room, session, now).Ok?
    ensures var next := PrepareFinish(room, session, now).value;
      && next.Reachable() && Successor(room, next) && next.activeSession == NIL && next.pause == NO_PAUSE
      && next.request == NO_REQUEST
      && room.activeSession == session && session != NIL && room.status == Playing
  {
    var c := FinishSession(session, room.Versions(), now);
    ExecuteExact(room, c);
    ExecuteSuccessor(room, c);
  }

  lemma FinishInboxLegal(db: Tables, writes: Tables, t: Session)
    requires writes.inbox == map[] && writes.sessions == map[t.id := t] && !PendingInbox(db, t.id, NIL)
    ensures LegalInbox(db, writes)
  {
    NobodyWaits(db, t.id);
    assert db.Write(writes).inbox == db.inbox;
  }

  lemma NobodyWaits(db: Tables, session: Id)
    requires !PendingInbox(db, session, NIL)
    ensures forall k :: PendingAt(db, k) ==> k.session != session
  {
  }

  lemma SystemFinishInboxLegal(db: Tables, writes: Tables, t: Session, o: OperationKey)
    requires writes.inbox == map[] && writes.sessions == map[t.id := t] && o in writes.operations && o.session == t.id
    requires writes.operations[o].applied && !PendingInbox(db, t.id, writes.operations[o].source.eventId)
    ensures LegalInbox(db, writes)
  {
    forall k | PendingAt(db.Write(writes), k) && k.session in writes.sessions
      ensures AppliedEvent(db.Write(writes), k.session, k.eventId)
    {
      assert k in db.inbox && db.inbox[k].completed == None;
      assert k.eventId == writes.operations[o].source.eventId;
      assert o in db.Write(writes).operations;
    }
  }

  lemma SessionsIgnoreRooms(db: Tables, rows: Tables, rooms: map<Id, Room>)
    requires LegalSessions(db, rows) && LegalBatches(db, rows)
    ensures LegalSessions(db, rows.(rooms := rooms)) && LegalBatches(db, rows.(rooms := rooms))
  {
  }

  lemma ReceiptsIgnoreRooms(db: Tables, rows: Tables, rooms: map<Id, Room>)
    requires LegalReceipts(db, rows)
    ensures LegalReceipts(db, rows.(rooms := rooms))
  {
  }

  lemma InboxIgnoresRooms(db: Tables, rows: Tables, rooms: map<Id, Room>)
    requires LegalInbox(db, rows)
    ensures LegalInbox(db, rows.(rooms := rooms))
  {
    var writes := rows.(rooms := rooms);
    forall k | PendingAt(db.Write(writes), k) && k.session in writes.sessions
               && writes.sessions[k.session].status == Finished
      ensures AppliedEvent(db.Write(writes), k.session, k.eventId)
    {
      assert PendingAt(db.Write(rows), k);
      assert AppliedEvent(db.Write(rows), k.session, k.eventId);
    }
  }

  /** Rows of a step that ends the game, with the room pointer cleared beside it. */
  lemma EndedLegal(db: Tables, rows: Tables, t: Session, was: Room, next: Room)
    requires rows.rooms == map[] && rows.inbox == map[] && rows.sessions == map[t.id := t]
    requires was.id in db.rooms && db.rooms[was.id] == was && Successor(was, next)
    requires was.activeSession == t.id && t.id != NIL && next.activeSession == NIL && next.pause == NO_PAUSE && !Live(t)
    requires t.room == was.id
    requires LegalSessions(db, rows) && LegalBatches(db, rows) && LegalReceipts(db, rows) && LegalInbox(db, rows)
    requires ValidRows(rows.(rooms := map[was.id := next]))
    ensures Legal(db, rows.(rooms := map[was.id := next])) && LegalPauses(db, rows.(rooms := map[was.id := next]))
  {
    var rooms := map[was.id := next];
    SessionsIgnoreRooms(db, rows, rooms);
    ReceiptsIgnoreRooms(db, rows, rooms);
    InboxIgnoresRooms(db, rows, rooms);
    EndingLegal(db, rows.(rooms := rooms), t, was, next);
  }

  // ----- commits -----

  lemma CommitActionLegal(db: Tables, c: ActionCommit)
    requires Agreement(db) && Known(db, c.before) && Advances(c.before, c.after, c.batch) && c.after.status == Active
    requires NewActionCommit(c.before, c.after, c.batch, c.receipt, c.events).Ok? && CommitActionLocked(db, c).Ok?
    ensures Legal(db, CommitActionLocked(db, c).value.writes)
    ensures PauseAgreement(db) ==> LegalPauses(db, CommitActionLocked(db, c).value.writes)
  {
    var a := CommitActionLocked(db, c).value;
    ActionStored(db, c);
    if a.replayed {
      NothingLegal(db);
    } else {
      RoomOf(db, c.before);
      ActionReceiptLegal(db, a.writes, c);
      ValidSessionRow(a.writes, c.after);
      OngoingLegal(db, a.writes, c.after);
    }
  }

  lemma CommitTimerLegal(db: Tables, c: TimerCommit)
    requires Agreement(db) && Known(db, c.before) && Advances(c.before, c.after, c.batch) && c.after.status == Active
    requires NewTimerCommit(c.before, c.after, c.batch, c.receipt, c.events).Ok? && CommitTimer(db, c).Ok?
    ensures Legal(db, CommitTimer(db, c).value.writes)
    ensures PauseAgreement(db) ==> LegalPauses(db, CommitTimer(db, c).value.writes)
  {
    var a := CommitTimer(db, c).value;
    TimerStored(db, c);
    if a.replayed {
      NothingLegal(db);
    } else {
      RoomOf(db, c.before);
      TimerReceiptLegal(db, a.writes, c);
      ValidSessionRow(a.writes, c.after);
      OngoingLegal(db, a.writes, c.after);
    }
  }

  lemma CommitSystemLegal(db: Tables, c: SystemCommit, noopResult: Digest)
    requires Agreement(db) && OperationsAnswered(db) && Known(db, c.before) && Advances(c.before, c.after, c.batch)
    requires c.after.status == Active
    requires NewSystemCommit(c.before, c.after, c.batch, c.receipt, c.events).Ok? && CommitSystem(db, c, noopResult).Ok?
    ensures Legal(db, CommitSystem(db, c, noopResult).value.writes)
    ensures PauseAgreement(db) ==> LegalPauses(db, CommitSystem(db, c, noopResult).value.writes)
  {
    var a := CommitSystem(db, c, noopResult).value;
    SystemStored(db, c, noopResult);
    var key := c.receipt.key;
    var op := LockOperation(db, key, c.receipt.request).value;
    match OutcomeOf(db, c, op)
    case SystemReplayed => NothingLegal(db);
    case SystemWaiting =>
      OperationAloneLegal(db, key, c.receipt.request, op, op);
      OperationsOnlyLegal(db, a.writes);
    case SystemNoop =>
      OperationAloneLegal(db, key, c.receipt.request, op, op.(answer := Some(a.receipt)));
      OperationsOnlyLegal(db, a.writes);
    case SystemApplied =>
      RoomOf(db, c.before);
      SystemReceiptLegal(db, a.writes, c, op);
      ValidSessionRow(a.writes, c.after);
      OngoingLegal(db, a.writes, c.after);
  }

  lemma ActionEndedLegal(db: Tables, room: Room, next: Room, c: ActionCommit)
    requires Known(db, c.before) && Advances(c.before, c.after, c.batch) && c.after.status == Finished
    requires room.id in db.rooms && db.rooms[room.id] == room && c.before.room == room.id
    requires Successor(room, next) && next.Reachable() && next.activeSession == NIL && next.pause == NO_PAUSE
    requires room.activeSession == c.before.id
    requires NewActionCommit(c.before, c.after, c.batch, c.receipt, c.events).Ok? && CommitActionLocked(db, c).Ok?
    requires !CommitActionLocked(db, c).value.replayed
    ensures var writes := CommitActionLocked(db, c).value.writes.(rooms := map[room.id := next]);
      Legal(db, writes) && LegalPauses(db, writes)
  {
    var rows := CommitActionLocked(db, c).value.writes;
    ActionStored(db, c);
    ActionReceiptLegal(db, rows, c);
    FinishInboxLegal(db, rows, c.after);
    ValidPairRows(rows.(rooms := map[room.id := next]), c.after, next);
    EndedLegal(db, rows, c.after, room, next);
  }

  lemma FinishActionAnswer(db: Tables, room: Room, next: Room, c: ActionCommit)
    requires FinishAction(db, room, next, c).Ok?
    ensures var a := FinishAction(db, room, next, c).value;
      || a.writes == NOTHING
      || (&& room.id in db.rooms && db.rooms[room.id] == room && c.before.room == room.id
          && CommitActionLocked(db, c).Ok? && !CommitActionLocked(db, c).value.replayed
          && a.writes == CommitActionLocked(db, c).value.writes.(rooms := map[room.id := next]))
  {
  }

  lemma FinishActionLegal(db: Tables, room: Room, next: Room, c: ActionCommit)
    requires Known(db, c.before) && Advances(c.before, c.after, c.batch) && c.after.status == Finished
    requires Successor(room, next) && next.Reachable() && next.activeSession == NIL && next.pause == NO_PAUSE
    requires room.activeSession == c.before.id
    requires NewActionCommit(c.before, c.after, c.batch, c.receipt, c.events).Ok? && FinishAction(db, room, next, c).Ok?
    ensures Legal(db, FinishAction(db, room, next, c).value.writes)
    ensures LegalPauses(db, FinishAction(db, room, next, c).value.writes)
  {
    FinishActionAnswer(db, room, next, c);
    if FinishAction(db, room, next, c).value.writes == NOTHING {
      NothingLegal(db);
    } else {
      ActionEndedLegal(db, room, next, c);
    }
  }

  lemma TimerEndedLegal(db: Tables, room: Room, next: Room, c: TimerCommit)
    requires Known(db, c.before) && Advances(c.before, c.after, c.batch) && c.after.status == Finished
    requires room.id in db.rooms && db.rooms[room.id] == room && c.before.room == room.id
    requires Successor(room, next) && next.Reachable() && next.activeSession == NIL && next.pause == NO_PAUSE
    requires room.activeSession == c.before.id
    requires NewTimerCommit(c.before, c.after, c.batch, c.receipt, c.events).Ok? && CommitTimer(db, c).Ok?
    requires !CommitTimer(db, c).value.replayed
    ensures var writes := CommitTimer(db, c).value.writes.(rooms := map[room.id := next]);
      Legal(db, writes) && LegalPauses(db, writes)
  {
    var rows := CommitTimer(db, c).value.writes;
    TimerStored(db, c);
    TimerReceiptLegal(db, rows, c);
    FinishInboxLegal(db, rows, c.after);
    ValidPairRows(rows.(rooms := map[room.id := next]), c.after, next);
    EndedLegal(db, rows, c.after, room, next);
  }

  lemma FinishTimerAnswer(db: Tables, room: Room, next: Room, c: TimerCommit)
    requires FinishTimer(db, room, next, c).Ok?
    ensures var a := FinishTimer(db, room, next, c).value;
      || a.writes == NOTHING
      || (&& room.id in db.rooms && db.rooms[room.id] == room && c.before.room == room.id
          && CommitTimer(db, c).Ok? && !CommitTimer(db, c).value.replayed
          && a.writes == CommitTimer(db, c).value.writes.(rooms := map[room.id := next]))
  {
  }

  lemma FinishTimerLegal(db: Tables, room: Room, next: Room, c: TimerCommit)
    requires Known(db, c.before) && Advances(c.before, c.after, c.batch) && c.after.status == Finished
    requires Successor(room, next) && next.Reachable() && next.activeSession == NIL && next.pause == NO_PAUSE
    requires room.activeSession == c.before.id
    requires NewTimerCommit(c.before, c.after, c.batch, c.receipt, c.events).Ok? && FinishTimer(db, room, next, c).Ok?
    ensures Legal(db, FinishTimer(db, room, next, c).value.writes)
    ensures LegalPauses(db, FinishTimer(db, room, next, c).value.writes)
  {
    FinishTimerAnswer(db, room, next, c);
    if FinishTimer(db, room, next, c).value.writes == NOTHING {
      NothingLegal(db);
    } else {
      TimerEndedLegal(db, room, next, c);
    }
  }

  lemma SystemEndedLegal(db: Tables, room: Room, next: Room, c: SystemCommit, op: Operation, rows: Tables)
    requires Known(db, c.before) && Advances(c.before, c.after, c.batch) && c.after.status == Finished
    requires OperationsAnswered(db)
    requires room.id in db.rooms && db.rooms[room.id] == room && c.before.room == room.id
    requires Successor(room, next) && next.Reachable() && next.activeSession == NIL && next.pause == NO_PAUSE
    requires room.activeSession == c.before.id
    requires NewSystemCommit(c.before, c.after, c.batch, c.receipt, c.events).Ok?
    requires LockOperation(db, c.receipt.key, c.receipt.request) == Ok(op) && op.answer.None?
    requires rows ==
      NOTHING.(sessions := map[c.after.id := c.after],
               batches := map[BatchKey(c.after.id, c.after.Version()) := c.batch],
                              operations := map[OperationKey(c.receipt.key.session, c.receipt.key.operation) :=
                                                  op.(answer := Some(c.receipt), applied := true)])
    requires LegalSessions(db, rows) && LegalBatches(db, rows)
    requires !PendingInbox(db, c.after.id, c.receipt.key.source.eventId)
    ensures Legal(db, rows.(rooms := map[room.id := next])) && LegalPauses(db, rows.(rooms := map[room.id := next]))
  {
    var key := c.receipt.key;
    LockedOperationFresh(db, key, c.receipt.request, op);
    SystemReceiptLegal(db, rows, c, op);
    SystemFinishInboxLegal(db, rows, c.after, OperationKey(key.session, key.operation));
    ValidPairRows(rows.(rooms := map[room.id := next]), c.after, next);
    EndedLegal(db, rows, c.after, room, next);
  }

  lemma FinishSystemAnswer(db: Tables, room: Room, next: Room, actor: Id, c: SystemCommit, noopResult: Digest)
    requires FinishSystem(db, room, next, actor, c, noopResult).Ok?
    ensures var a := FinishSystem(db, room, next, actor, c, noopResult).value;
      || (a.replayed && a.writes == NOTHING)
      || (&& room.id in db.rooms && db.rooms[room.id] == room && c.before.room == room.id
          && CommitSystem(db, c, noopResult).Ok?
          && var b := CommitSystem(db, c, noopResult).value;
             if b.retry
             then a.writes == b.writes else !b.replayed && a.writes == b.writes.(rooms := map[room.id := next]))
  {
  }

  /** The no-op branch cannot be reached here: a playing room's session is live. */
  lemma EndingSystemLegal(db: Tables, room: Room, next: Room, c: SystemCommit, noopResult: Digest)
    requires Agreement(db) && OperationsAnswered(db) && Known(db, c.before) && Advances(c.before, c.after, c.batch)
    requires c.after.status == Finished
    requires room.id in db.rooms && db.rooms[room.id] == room && c.before.room == room.id
    requires Successor(room, next) && next.Reachable() && next.activeSession == NIL && next.pause == NO_PAUSE
    requires room.activeSession == c.before.id
    requires NewSystemCommit(c.before, c.after, c.batch, c.receipt, c.events).Ok?
    requires CommitSystem(db, c, noopResult).Ok? && !CommitSystem(db, c, noopResult).value.replayed
    ensures var b := CommitSystem(db, c, noopResult).value;
      var writes := if b.retry then b.writes else b.writes.(rooms := map[room.id := next]);
      Legal(db, writes) && LegalPauses(db, writes)
  {
    var b := CommitSystem(db, c, noopResult).value;
    SystemStored(db, c, noopResult);
    RoomOf(db, c.before);
    assert SessionAgrees(db, c.before.id);
    var op := LockOperation(db, c.receipt.key, c.receipt.request).value;
    if OutcomeOf(db, c, op).SystemWaiting? {
      OperationAloneLegal(db, c.receipt.key, c.receipt.request, op, op);
      OperationsOnlyLegal(db, b.writes);
    } else {
      SystemEndedLegal(db, room, next, c, op, b.writes);
    }
  }

  lemma FinishSystemLegal(db: Tables, room: Room, next: Room, actor: Id, c: SystemCommit, noopResult: Digest)
    requires Agreement(db) && OperationsAnswered(db) && Known(db, c.before) && Advances(c.before, c.after, c.batch)
    requires c.after.status == Finished
    requires Successor(room, next) && next.Reachable() && next.activeSession == NIL && next.pause == NO_PAUSE
    requires room.activeSession == c.before.id
    requires NewSystemCommit(c.before, c.after, c.batch, c.receipt, c.events).Ok?
    requires FinishSystem(db, room, next, actor, c, noopResult).Ok?
    ensures Legal(db, FinishSystem(db, room, next, actor, c, noopResult).value.writes)
    ensures LegalPauses(db, FinishSystem(db, room, next, actor, c, noopResult).value.writes)
  {
    FinishSystemAnswer(db, room, next, actor, c, noopResult);
    if FinishSystem(db, room, next, actor, c, noopResult).value.writes == NOTHING {
      NothingLegal(db);
    } else {
      EndingSystemLegal(db, room, next, c, noopResult);
    }
  }

  // ----- lifecycle -----

  lemma NoReceiptsLegal(db: Tables, writes: Tables)
    requires writes.batches == map[] && writes.actions == map[] && writes.timers == map[] && writes.operations == map[]
    requires writes.starts == map[]
    ensures LegalReceipts(db, writes)
  {
  }

  /** A live session whose row changes alone, with no batch: a claim, a suspension or a session-only resume. */
  lemma QuietAloneLegal(db: Tables, t: Session)
    requires Agreement(db) && t.Valid() && Live(t) && QuietRow(db, NOTHING.(sessions := map[t.id := t]), t)
    requires Live(db.sessions[t.id])
    requires t.Identity() == db.sessions[t.id].Identity()
    ensures Legal(db, NOTHING.(sessions := map[t.id := t])) && t.room in db.rooms
    ensures PausedTogether(db.rooms[t.room], t) ==> LegalPauses(db, NOTHING.(sessions := map[t.id := t]))
  {
    var writes := NOTHING.(sessions := map[t.id := t]);
    QuietRowLegal(db, writes, t);
    NoReceiptsLegal(db, writes);
    ValidSessionRow(writes, t);
    SessionAloneLegal(db, writes, t);
  }

  lemma CommitLifecycleLegal(db: Tables, c: LifecycleCommit)
    requires Agreement(db) && Known(db, c.before) && c.after.Valid() && Live(c.after)
    requires NewLifecycleCommit(c.before, c.after, c.events).Ok? && CommitLifecycle(db, c).Ok?
    ensures Legal(db, CommitLifecycle(db, c).value) && c.after.room in db.rooms
    ensures CommitLifecycle(db, c).value == NOTHING.(sessions := map[c.after.id := c.after])
    ensures PausedTogether(db.rooms[c.after.room], c.after) ==> LegalPauses(db, CommitLifecycle(db, c).value)
  {
    LifecyclePersisted(db, c);
    LifecycleRowQuiet(db, NOTHING.(sessions := map[c.after.id := c.after]), c);
    RoomOf(db, c.before);
    LifecycleCommitKeepsVersion(c.before, c.after, c.events);
    QuietAloneLegal(db, c.after);
  }

  lemma ClaimedRowQuiet(db: Tables, before: Session, t: Session)
    requires Known(db, before) && db.sessions[before.id].id == before.id && Live(db.sessions[before.id])
    requires Claims(db.sessions[before.id], t) && before.updatedAt < t.updatedAt
    requires before.Version() == db.sessions[before.id].Version()
    ensures QuietRow(db, NOTHING.(sessions := map[t.id := t]), t) && t.Identity() == db.sessions[t.id].Identity()
  {
    assert LegalSession(db, t.id, t);
  }

  lemma ClaimedLegal(db: Tables, before: Session, t: Session)
    requires Agreement(db) && Known(db, before) && db.sessions[before.id].id == before.id
    requires Live(db.sessions[before.id]) && t.Valid()
    requires Claims(db.sessions[before.id], t) && before.updatedAt < t.updatedAt
    requires before.Version() == db.sessions[before.id].Version()
    ensures Legal(db, NOTHING.(sessions := map[t.id := t]))
    ensures PauseAgreement(db) ==> LegalPauses(db, NOTHING.(sessions := map[t.id := t]))
  {
    ClaimedRowQuiet(db, before, t);
    RoomOf(db, before);
    QuietAloneLegal(db, t);
  }

  lemma ClaimLegal(db: Tables, before: Session, next: Session)
    requires Agreement(db) && Known(db, before) && db.sessions[before.id].Valid()
    requires db.sessions[before.id].id == before.id
    requires AcquireOwnershipCAS(db, before, next).Ok?
    ensures Legal(db, AcquireOwnershipCAS(db, before, next).value)
    ensures PauseAgreement(db) ==> LegalPauses(db, AcquireOwnershipCAS(db, before, next).value)
  {
    ClaimPersisted(db, before, next);
    var s := db.sessions[before.id];
    ClaimedLegal(db, before, s.(epoch := s.epoch + 1, updatedAt := next.updatedAt));
  }

  /** A room update that the caller computed from the row now stored. */
  lemma RoomStored(db: Tables, before: Room, next: Room)
    requires before.id in db.rooms && db.rooms[before.id] == before && next.Valid() && Successor(before, next)
    requires UpdateRoom(db, before, next).Ok?
    ensures UpdateRoom(db, before, next).value == NOTHING.(rooms := map[before.id := next])
  {
    assert next.(id := before.id, code := before.code, createdAt := before.createdAt) == next;
    PartyRoom.RestoreFixedPoint(next);
  }

  lemma PairReceiptsLegal(db: Tables, writes: Tables, c: LifecycleCommit)
    requires Known(db, c.before) && NewLifecycleCommit(c.before, c.after, c.events).Ok?
    requires LifecycleConflict(db.sessions[c.before.id], c.before).None?
    requires writes == NOTHING.(sessions := map[c.after.id := c.after], rooms := writes.rooms)
    ensures LegalSessions(db, writes) && LegalBatches(db, writes) && LegalReceipts(db, writes)
  {
    LifecycleRowQuiet(db, writes, c);
    QuietRowLegal(db, writes, c.after);
    NoReceiptsLegal(db, writes);
  }

  /** A host pause or resume: both aggregates move, pointer and players stay. */
  lemma GovernedPairLegal(db: Tables, room: Room, next: Room, c: LifecycleCommit)
    requires Known(db, c.before) && c.after.Valid() && next.Reachable() && Live(c.after)
    requires NewLifecycleCommit(c.before, c.after, c.events).Ok?
    requires LifecycleConflict(db.sessions[c.before.id], c.before).None?
    requires room.id in db.rooms && db.rooms[room.id] == room && Successor(room, next)
    requires room.activeSession == c.before.id && next.activeSession == c.before.id && next.members == room.members
    requires c.before.room == room.id
    requires PausedTogether(next, c.after)
    ensures var writes := NOTHING.(sessions := map[c.after.id := c.after], rooms := map[room.id := next]);
      Legal(db, writes) && LegalPauses(db, writes)
  {
    var writes := NOTHING.(sessions := map[c.after.id := c.after], rooms := map[room.id := next]);
    PairReceiptsLegal(db, writes, c);
    LifecycleCommitKeepsVersion(c.before, c.after, c.events);
    ValidPairRows(writes, c.after, next);
    GovernedLegal(db, writes, c.after, room, next);
  }

  lemma CancelledPairLegal(db: Tables, room: Room, next: Room, c: LifecycleCommit)
    requires Known(db, c.before) && c.after.Valid() && next.Reachable() && c.after.status == Cancelled
    requires NewLifecycleCommit(c.before, c.after, c.events).Ok?
    requires LifecycleConflict(db.sessions[c.before.id], c.before).None?
    requires room.id in db.rooms && db.rooms[room.id] == room && Successor(room, next)
    requires room.activeSession == c.before.id && next.activeSession == NIL && next.pause == NO_PAUSE
    requires c.before.room == room.id
    ensures var writes := NOTHING.(sessions := map[c.after.id := c.after], rooms := map[room.id := next]);
      Legal(db, writes) && LegalPauses(db, writes)
  {
    var rows := NOTHING.(sessions := map[c.after.id := c.after]);
    var writes := rows.(rooms := map[room.id := next]);
    PairReceiptsLegal(db, rows, c);
    LifecycleCommitKeepsVersion(c.before, c.after, c.events);
    LiveInboxLegal(db, rows, c.after);
    ValidPairRows(writes, c.after, next);
    EndedLegal(db, rows, c.after, room, next);
  }

  // ----- start -----

  lemma SeatedAreFrozen(ms: seq<Member>, ps: seq<Participant>)
    requires multiset(ps) == multiset(FrozenParticipants(ms))
    ensures AllFrozen(ms, ps)
  {
    forall user, seat | Seated(ms, user, seat) ensures Participant(user, seat) in ps {
      var p := Participant(user, seat);
      assert p in FrozenParticipants(ms);
      assert p in multiset(FrozenParticipants(ms));
    }
  }

  lemma StartedRoomLegal(db: Tables, writes: Tables, room: Room, next: Room, s: Session)
    requires room.id in db.rooms && db.rooms[room.id] == room && room.activeSession == NIL && Successor(room, next)
    requires writes.rooms == map[room.id := next] && writes.sessions == map[s.id := s] && Live(s) && s.room == room.id
    requires s.id != NIL
    requires next.activeSession == s.id && next.pause == NO_PAUSE
    ensures LegalRooms(db, writes) && LegalPointers(db, writes) && LegalPauses(db, writes)
  {
    PairLookups(db, writes, room.id, next, s);
    PairLegal(db, writes, s, room, next);
  }

  lemma StartedSeatsLegal(db: Tables, writes: Tables, room: Id, next: Room, s: Session)
    requires writes.rooms == map[room := next] && s.id in writes.sessions && writes.sessions[s.id] == s
    requires next.activeSession == s.id && AllFrozen(next.members, s.participants)
    ensures LegalSeats(db, writes)
  {
  }

  lemma StartedSessionLegal(db: Tables, writes: Tables, s: Session, b: Batch, receipt: StartReceipt)
    requires BatchesHome(db) && writes.sessions == map[s.id := s] && writes.batches == map[BatchKey(s.id, 1) := b]
    requires writes.actions == map[] && writes.timers == map[] && writes.operations == map[] && writes.inbox == map[]
    requires writes.starts == map[receipt.key := receipt] && receipt.key !in db.starts && receipt.session == s.id
    requires receipt.key.room == s.room
    requires s.id !in db.sessions && s.id != NIL && s.epoch == 0 && s.Version() == 1 && s.status == Active
    requires b.session == s.id && b.version == 1 && b.epoch == 0 && b.cause == Created && b.committedAt == s.updatedAt
    ensures LegalSessions(db, writes) && LegalBatches(db, writes) && LegalReceipts(db, writes) && LegalInbox(db, writes)
  {
    assert LegalSession(db, s.id, s);
    assert BatchKey(s.id, 1) !in db.batches;
  }

  lemma StartPrepared(room: Room, c: Command)
    requires room.Reachable() && c.StartSession? && Execute(room, c).Ok?
    ensures var next := Execute(room, c).value;
      && next.Reachable() && Successor(room, next) && room.activeSession == NIL && next.activeSession == c.session
      && next.pause == NO_PAUSE
      && next.members == room.members && next.updatedAt == Micros(c.at) && room.status != Playing && c.session != NIL
  {
    ExecuteExact(room, c);
    ExecuteSuccessor(room, c);
  }

  lemma StartGameStored(db: Tables, room: Room, next: Room, s: Session, b: Batch, events: seq<OutboxEvent>,
                        receipt: StartReceipt)
    requires next.Valid() && Successor(room, next) && s.Valid() && StartGame(db, room, next, s, b, events, receipt).Ok?
    requires !StartGame(db, room, next, s, b, events, receipt).value.replayed
    ensures StartGame(db, room, next, s, b, events, receipt).value.writes ==
      NOTHING.(rooms := map[room.id := next], sessions := map[s.id := s], batches := map[BatchKey(s.id, 1) := b],
               starts := map[receipt.key := receipt])
    ensures room.id in db.rooms && db.rooms[room.id] == room && s.id !in db.sessions && s.status == Active
    ensures receipt.key !in db.starts
  {
    RoomStored(db, room, next);
    GameSession.RestoreFixedPoint(s);
  }

  lemma StartedRowsLegal(db: Tables, writes: Tables, room: Room, next: Room, s: Session, b: Batch,
                         receipt: StartReceipt)
    requires BatchesHome(db) && room.id in db.rooms && db.rooms[room.id] == room && Successor(room, next)
    requires next.Reachable() && s.Valid()
    requires writes ==
      NOTHING.(rooms := map[room.id := next], sessions := map[s.id := s], batches := map[BatchKey(s.id, 1) := b],
               starts := map[receipt.key := receipt])
    requires receipt.key !in db.starts && receipt.session == s.id && receipt.key.room == s.room
    requires s.id !in db.sessions && s.id != NIL && s.epoch == 0 && s.Version() == 1 && s.status == Active
    requires s.room == room.id
    requires b.session == s.id && b.version == 1 && b.epoch == 0 && b.cause == Created && b.committedAt == s.updatedAt
    requires room.activeSession == NIL && next.activeSession == s.id && next.pause == NO_PAUSE
    requires AllFrozen(next.members, s.participants)
    ensures Legal(db, writes) && LegalPauses(db, writes)
  {
    ValidPairRows(writes, s, next);
    StartedRoomLegal(db, writes, room, next, s);
    StartedSeatsLegal(db, writes, room.id, next, s);
    StartedSessionLegal(db, writes, s, b, receipt);
  }

  lemma StartedLegal(db: Tables, room: Room, next: Room, s: Session, b: Batch, events: seq<OutboxEvent>,
                     receipt: StartReceipt)
    requires BatchesHome(db) && next.Reachable() && Successor(room, next) && s.Valid()
    requires s.id != NIL && s.epoch == 0 && s.Version() == 1 && s.room == room.id
    requires b.session == s.id && b.version == 1 && b.epoch == 0 && b.cause == Created && b.committedAt == s.updatedAt
    requires room.activeSession == NIL && next.activeSession == s.id && next.pause == NO_PAUSE
    requires AllFrozen(next.members, s.participants)
    requires StartGame(db, room, next, s, b, events, receipt).Ok?
    ensures Legal(db, StartGame(db, room, next, s, b, events, receipt).value.writes)
    ensures LegalPauses(db, StartGame(db, room, next, s, b, events, receipt).value.writes)
  {
    if StartGame(db, room, next, s, b, events, receipt).value.replayed {
      NothingLegal(db);
    } else {
      StartGameStored(db, room, next, s, b, events, receipt);
      StartedRowsLegal(db, StartGame(db, room, next, s, b, events, receipt).value.writes, room, next, s, b, receipt);
    }
  }

  // ----- rooms and inbox -----

  lemma NoInboxLegal(db: Tables, writes: Tables)
    requires writes.sessions == map[] && writes.inbox == map[]
    ensures LegalInbox(db, writes)
  {
  }

  lemma ValidRoomRow(writes: Tables, r: Room)
    requires writes.sessions == map[] && writes.rooms == map[r.id := r] && r.Reachable()
    ensures ValidRows(writes)
  {
  }

  /** The recheck of versions and host epoch is a recheck of the whole room: versions never repeat. */
  lemma RoomRemembered(w: World, before: Room, next: Room)
    requires RoomsOk(w) && NoAba(w) && before in w.rooms && UpdateRoom(w.db, before, next).Ok?
    ensures before.id in w.db.rooms && w.db.rooms[before.id] == before
  {
    var current := w.db.rooms[before.id];
    assert current in w.rooms && FencesOrdered(before, current);
  }

  lemma RoomRowLegal(db: Tables, before: Room, next: Room)
    requires before.id in db.rooms && db.rooms[before.id] == before && Successor(before, next) && next.Reachable()
    requires KeepsGame(before, next) && (before.activeSession != NIL ==> before.status == Playing)
    ensures var writes := NOTHING.(rooms := map[before.id := next]); Legal(db, writes) && LegalPauses(db, writes)
  {
    var writes := NOTHING.(rooms := map[before.id := next]);
    NoInboxLegal(db, writes);
    ValidRoomRow(writes, next);
    RoomAloneLegal(db, writes, before, next);
  }

  lemma RemovalRowsLegal(db: Tables, before: Room, next: Room, key: InboxKey, row: InboxRow)
    requires Agreement(db) && before.id in db.rooms && db.rooms[before.id] == before && Successor(before, next)
    requires next.Reachable()
    requires KeepsGame(before, next) && before.status == Playing && before.activeSession != NIL
    requires key.session == before.activeSession && key !in db.inbox && row.completed == None
    ensures var writes := NOTHING.(rooms := map[before.id := next], inbox := map[key := row]);
      Legal(db, writes) && LegalPauses(db, writes)
  {
    var writes := NOTHING.(rooms := map[before.id := next], inbox := map[key := row]);
    assert RoomAgrees(db, before.id) && SessionAgrees(db, key.session);
    assert LegalInbox(db, writes);
    ValidRoomRow(writes, next);
    RoomAloneLegal(db, writes, before, next);
  }

  lemma NewRoomRowLegal(db: Tables, r: Room)
    requires r.id !in db.rooms && r.Reachable() && r.status == Lobby && r.roomVersion == 1
    ensures var writes := NOTHING.(rooms := map[r.id := r]); Legal(db, writes) && LegalPauses(db, writes)
  {
    var writes := NOTHING.(rooms := map[r.id := r]);
    NoInboxLegal(db, writes);
    ValidRoomRow(writes, r);
    assert r.activeSession == NIL && r.pause == NO_PAUSE;
    NewRoomRowAlone(db, writes, r);
  }

  lemma NewRoomRowAlone(db: Tables, writes: Tables, r: Room)
    requires writes == NOTHING.(rooms := map[r.id := r]) && r.id !in db.rooms && r.roomVersion == 1
    requires r.activeSession == NIL && r.pause == NO_PAUSE
    ensures LegalRooms(db, writes) && LegalSessions(db, writes) && LegalBatches(db, writes) && LegalPointers(db, writes)
    ensures LegalReceipts(db, writes) && LegalSeats(db, writes) && LegalPauses(db, writes)
  {
  }

  lemma InboxRowLegal(db: Tables, key: InboxKey, row: InboxRow)
    requires key in db.inbox && db.inbox[key].completed.None? && row.payload == db.inbox[key].payload
    requires row.completed.Some? && AnsweredEvent(db, key, row.completed.value)
    ensures var writes := NOTHING.(inbox := map[key := row]); Legal(db, writes) && LegalPauses(db, writes)
  {
  }
}
