/**
 * When commands succeed. A command computed from the rows stored now commits exactly when its own guards hold, so
 * nothing that the safety theorems forbid is achieved by refusing too much.
 */
module RuntimeProgress {
  import opened Base
  import opened GameSdk
  import Sorting
  import opened GameSession
  import opened SessionSteps
  import opened Commits
  import opened PartyRoom
  import opened RoomCommands
  import opened RoomLaws
  import opened RuntimeStore
  import opened RuntimeService
  import opened RuntimeWorld
  import opened RuntimeRows
  import opened RuntimeLegal
  import opened RuntimeRuns
  import opened RuntimeGovernance
  import opened RuntimeInputs
  import opened RoomEffects
  import opened RuntimePauses

  // ----- transitions -----

  /** What a module must return, apart from validity: an end arms no timers. */
  predicate Playable(s: Session, execution: Execution, transition: Transition) {
    transition.Valid(s.Version(), execution.now) && (transition.finished ==> transition.timers == [])
  }

  lemma IntentsAcceptable(transition: Transition, previous: nat, now: Reading)
    requires transition.Valid(previous, now) && Micros(now) != ZERO_TIME
    ensures AcceptableTimers(FromIntents(transition.timers, previous + 1), previous + 1)
  {
    var raw := FromIntents(transition.timers, previous + 1);
    FromIntentsAt(transition.timers, previous + 1);
    forall i | 0 <= i < |raw| ensures AcceptableTimer(raw[i], previous + 1) {
      assert transition.timers[i].Valid(now);
    }
    forall i, j | 0 <= i < j < |raw| ensures OtherTimer(raw[i], raw[j]) {
      assert transition.timers[i].id != transition.timers[j].id;
    }
  }

  lemma SteppedIsValid(s: Session, execution: Execution, transition: Transition)
    requires s.Valid() && s.status == Active && s.updatedAt <= Micros(execution.now)
    requires Playable(s, execution, transition)
    ensures var v := s.Version() + 1; var armed := CanonicalTimers(FromIntents(transition.timers, v), v);
      armed.Ok? && RestoreSession(Stepped(s, transition, armed.value, Micros(execution.now))).Ok?
  {
    var v := s.Version() + 1;
    var raw := FromIntents(transition.timers, v);
    IntentsAcceptable(transition, s.Version(), execution.now);
    FromIntentsAt(transition.timers, v);
    CanonicalTimersValid(raw, v);
    var armed := CanonicalTimers(raw, v).value;
    var next := Stepped(s, transition, armed, Micros(execution.now));
    if transition.finished { assert raw == [] && armed.0 == []; }
    assert next.Valid();
    GameSession.RestoreFixedPoint(next);
  }

  lemma BatchRestores(s: Session, batchId: Id, epoch: nat, cause: Cause, execution: Execution, input: Message,
                      transition: Transition)
    requires s.Valid() && s.updatedAt <= Micros(execution.now) && batchId != NIL && execution.Valid() && input.Valid()
    requires cause.Valid(epoch)
    requires transition.Valid(s.Version(), execution.now)
    ensures RestoreBatch(Batch(batchId, s.id, s.Version() + 1, epoch, cause, execution, input, transition.events,
                               Micros(execution.now))).Ok?
  {
    TruncationKeepsOrder(execution.now, Micros(execution.now));
  }

  /** An active session takes a step exactly when the module returned something playable. */
  lemma TransitionAcceptedIff(s: Session, batchId: Id, epoch: nat, cause: Cause, execution: Execution, input: Message,
                              transition: Transition)
    requires s.Valid() && s.status == Active && s.updatedAt <= Micros(execution.now)
    requires batchId != NIL && execution.Valid() && input.Valid() && cause.Valid(epoch)
    ensures ApplyTransition(s, batchId, epoch, cause, execution, input, transition).Ok? <==>
      Playable(s, execution, transition)
  {
    if Playable(s, execution, transition) {
      SteppedIsValid(s, execution, transition);
      BatchRestores(s, batchId, epoch, cause, execution, input, transition);
    }
  }

  // ----- actions -----

  predicate ActionGuard(before: Session, i: ActionInput) {
    && i.actor != NIL && i.actionId != NIL && i.batchId != NIL && i.key == before.key && i.message.Valid()
    && before.status == Active && i.epoch != 0 && i.epoch == before.epoch && i.expectedVersion == before.Version()
    && i.execution.Valid() && before.updatedAt <= Micros(i.execution.now) && before.HasParticipant(i.actor)
    && Playable(before, i.execution, i.transition)
  }

  /** An action can be prepared exactly when its guards hold. */
  lemma ActionPreparedIff(before: Session, i: ActionInput)
    requires before.Valid()
    ensures PrepareAction(before, i).Ok? <==> ActionGuard(before, i)
  {
    if ActionGuard(before, i) {
      TransitionAcceptedIff(before, i.batchId, i.epoch, ByAction(i.actor, i.actionId), i.execution, i.message,
                            i.transition);
      ActionStepAdmitted(before, i.batchId, i.epoch, i.actor, i.actionId, i.execution, i.message, i.transition,
                         i.request, i.result);
    }
    if PrepareAction(before, i).Ok? {
      TransitionAcceptedIff(before, i.batchId, i.epoch, ByAction(i.actor, i.actionId), i.execution, i.message,
                            i.transition);
    }
  }

  /** The stored row is the caller's, and no batch is ahead of it. */
  predicate Current(db: Tables, before: Session) {
    before.id in db.sessions && db.sessions[before.id] == before
      && BatchKey(before.id, before.Version() + 1) !in db.batches
  }

  /** A row of this session that was stored at some time; no batch is ahead of the row stored now. */
  predicate Tracks(db: Tables, before: Session) {
    && before.id in db.sessions && db.sessions[before.id].Identity() == before.Identity()
    && BatchKey(before.id, db.sessions[before.id].Version() + 1) !in db.batches
  }

  lemma TracksInRun(steps: seq<Step>, worlds: seq<World>, n: nat, before: Session)
    requires Run(steps, worlds) && n < |worlds| && before in worlds[n].sessions
    ensures before.Valid() && Tracks(worlds[n].db, before) && before.room in worlds[n].db.rooms
    ensures worlds[n].db.sessions[before.id].Valid()
  {
    RunKeepsInv(steps, worlds, n);
    InvTracks(worlds[n], before);
  }

  lemma InvTracks(w: World, before: Session)
    requires Core(w) && before in w.sessions
    ensures before.Valid() && Tracks(w.db, before) && before.room in w.db.rooms && w.db.sessions[before.id].Valid()
  {
    Recall(w, before);
    assert SessionAgrees(w.db, before.id);
  }

  lemma StepPersists(db: Tables, before: Session, t: Session, b: Batch)
    requires Tracks(db, before) && TransitionConflict(db.sessions[before.id], before).None? && Advances(before, t, b)
    ensures PersistStep(db, db.sessions[before.id], t, b) ==
      Ok(NOTHING.(sessions := map[t.id := t], batches := map[BatchKey(t.id, t.Version()) := b]))
  {
    assert StateRow(db.sessions[before.id], t) == t;
    GameSession.RestoreFixedPoint(t);
  }

  /** Epoch, version and status are still those of the row that the command was computed from. */
  predicate Unmoved(db: Tables, before: Session)
    requires before.id in db.sessions
  {
    var now := db.sessions[before.id];
    now.epoch == before.epoch && now.Version() == before.Version() && now.status == Active
  }

  /** The game rows of one step: the row and the batch of its input. */
  predicate StepRows(before: Session, w: Tables, e: Engine) {
    var k := BatchKey(before.id, before.Version() + 1);
    && w.sessions.Keys == {before.id} && w.batches.Keys == {k} && w.sessions[before.id].id == before.id
    && StepsBy(before, w.sessions[before.id], w.batches[k], e)
  }

  /** The rows of one engine step alone. */
  function RowsOf(t: Session, b: Batch): Tables {
    NOTHING.(sessions := map[t.id := t], batches := map[BatchKey(t.id, t.Version()) := b])
  }

  lemma RowsOfStep(before: Session, w: Tables, t: Session, b: Batch, e: Engine)
    requires StepsBy(before, t, b, e) && e.session == before.id
    requires w.sessions == map[t.id := t] && w.batches == map[BatchKey(t.id, t.Version()) := b]
    ensures StepRows(before, w, e)
  {
  }

  function ReceiptFor(before: Session, i: ActionInput): ActionReceipt {
    ActionReceipt(ActionKey(before.id, i.actor, i.actionId), i.request, Accepted, i.result, before.Version() + 1,
                  Micros(i.execution.now))
  }

  /** Step and receipt, and nothing else. */
  predicate ActionWritten(before: Session, i: ActionInput, a: ActionAnswer) {
    var receipt := ReceiptFor(before, i);
    && a.receipt == receipt && !a.replayed && StepRows(before, a.writes, ActionEngine(before.id, i))
    && a.writes == NOTHING.(sessions := a.writes.sessions, batches := a.writes.batches,
                            actions := map[receipt.key := receipt])
  }

  lemma ActionStored(db: Tables, before: Session, i: ActionInput)
    requires before.Valid() && Tracks(db, before) && before.room in db.rooms && !i.transition.finished
    requires ActionKey(before.id, i.actor, i.actionId) !in db.actions && PrepareAction(before, i).Ok?
    ensures var c := PrepareAction(before, i).value;
      && (CommitAction(db, c).Ok? <==> db.rooms[before.room].IsParticipant(i.actor) && Unmoved(db, before))
      && (CommitAction(db, c).Ok? ==> ActionWritten(before, i, CommitAction(db, c).value))
  {
    ActionPrepared(before, i);
    ActionPreparedExact(before, i);
    var c := PrepareAction(before, i).value;
    if Unmoved(db, before) {
      StepPersists(db, before, c.after, c.batch);
      if CommitAction(db, c).Ok? {
        RowsOfStep(before, CommitAction(db, c).value.writes, c.after, c.batch, ActionEngine(before.id, i));
      }
    }
  }

  /**
   * A first attempt of an ongoing action, computed from any row ever stored, commits exactly when its guards hold on
   * that row, the actor still plays, and epoch, version and status are still those of the row. It then writes the row
   * with the module's state and timers, the batch that records the input, and the receipt.
   */
  lemma ActionCommitsIff(db: Tables, before: Session, room: Room, i: ActionInput)
    requires before.Valid() && Tracks(db, before) && before.room in db.rooms && !i.transition.finished
    requires ActionKey(before.id, i.actor, i.actionId) !in db.actions
    ensures ExecuteAction(db, before, room, i).Ok? <==>
      ActionGuard(before, i) && db.rooms[before.room].IsParticipant(i.actor) && Unmoved(db, before)
    ensures ExecuteAction(db, before, room, i).Ok? ==>
      ActionWritten(before, i, ExecuteAction(db, before, room, i).value)
  {
    ActionPreparedIff(before, i);
    if PrepareAction(before, i).Ok? {
      ActionStored(db, before, i);
      OngoingAction(before, i);
    }
  }

  lemma OngoingAction(before: Session, i: ActionInput)
    requires before.Valid() && PrepareAction(before, i).Ok?
    ensures PrepareAction(before, i).value.after.status == Finished <==> i.transition.finished
  {
    ApplyTransitionAdvances(before, i.batchId, i.epoch, ByAction(i.actor, i.actionId), i.execution, i.message,
                            i.transition);
  }

  // ----- timers -----

  /** The row has this timer armed, with this message, and due. */
  predicate ArmedAndDue(s: Session, i: TimerInput) {
    exists k :: 0 <= k < |s.timers| && s.timers[k].id == i.timerId && s.timers[k].message == i.message
                && s.timers[k].due <= Micros(i.execution.now)
  }

  predicate TimerGuard(before: Session, i: TimerInput) {
    && i.batchId != NIL && ValidIdentifier(i.timerId) && i.message.Valid() && i.execution.Valid()
    && before.status == Active && i.epoch != 0 && i.epoch == before.epoch && i.expectedVersion == before.Version()
    && before.updatedAt <= Micros(i.execution.now) && Playable(before, i.execution, i.transition)
    && ArmedAndDue(before, i)
  }

  lemma TimersUnique(s: Session, j: nat, k: nat)
    requires s.Valid() && j < |s.timers| && k < |s.timers| && s.timers[j].id == s.timers[k].id
    ensures j == k
  {
    var a, b := s.timers[j], s.timers[k];
    assert j < k ==> OtherTimer(a, b);
    assert k < j ==> OtherTimer(b, a);
  }

  lemma TimerCanBePrepared(before: Session, i: TimerInput)
    requires before.Valid() && TimerGuard(before, i)
    ensures PrepareTimer(before, i).Ok?
  {
    var k :| 0 <= k < |before.timers| && before.timers[k].id == i.timerId && before.timers[k].message == i.message
             && before.timers[k].due <= Micros(i.execution.now);
    FoundTimer(before, i.timerId, k);
    TransitionAcceptedIff(before, i.batchId, i.epoch, ByTimer(i.timerId), i.execution, i.message, i.transition);
    TimerStepAdmitted(before, i.batchId, i.epoch, i.timerId, i.expectedVersion, i.execution, i.message, i.transition,
                      i.result);
  }

  lemma PreparedTimerIsGuarded(before: Session, i: TimerInput)
    requires before.Valid() && PrepareTimer(before, i).Ok?
    ensures TimerGuard(before, i)
  {
    TransitionAcceptedIff(before, i.batchId, i.epoch, ByTimer(i.timerId), i.execution, i.message, i.transition);
    var armed := FindTimer(before.timers, i.timerId).value;
    var k :| 0 <= k < |before.timers| && before.timers[k] == armed;
  }

  lemma TimerPreparedIff(before: Session, i: TimerInput)
    requires before.Valid()
    ensures PrepareTimer(before, i).Ok? <==> TimerGuard(before, i)
  {
    if TimerGuard(before, i) { TimerCanBePrepared(before, i); }
    if PrepareTimer(before, i).Ok? { PreparedTimerIsGuarded(before, i); }
  }

  lemma FoundTimer(s: Session, id: string, k: nat)
    requires s.Valid() && k < |s.timers| && s.timers[k].id == id
    ensures FindTimer(s.timers, id) == Some(s.timers[k]) && s.timers[k].expectedVersion == s.Version()
  {
    var found := FindTimer(s.timers, id).value;
    var j :| 0 <= j < |s.timers| && s.timers[j] == found;
    TimersUnique(s, j, k);
    assert AcceptableTimer(s.timers[k], s.Version());
  }

  lemma ArmedIff(s: Session, i: TimerInput)
    requires s.Valid()
    ensures ArmedAndDue(s, i) <==>
      var found := FindTimer(s.timers, i.timerId);
      found.Some? && found.value.expectedVersion == s.Version() && found.value.due <= Micros(i.execution.now)
        && found.value.message == i.message
  {
    if ArmedAndDue(s, i) {
      var k :| 0 <= k < |s.timers| && s.timers[k].id == i.timerId && s.timers[k].message == i.message
               && s.timers[k].due <= Micros(i.execution.now);
      FoundTimer(s, i.timerId, k);
    }
    if FindTimer(s.timers, i.timerId).Some? {
      var k :| 0 <= k < |s.timers| && s.timers[k] == FindTimer(s.timers, i.timerId).value;
    }
  }

  function TimerReceiptFor(before: Session, i: TimerInput): TimerReceipt {
    TimerReceipt(TimerKey(before.id, i.timerId, i.expectedVersion), Accepted, i.result, before.Version() + 1,
                 Micros(i.execution.now))
  }

  predicate TimerWritten(before: Session, i: TimerInput, a: TimerAnswer) {
    var receipt := TimerReceiptFor(before, i);
    && a.receipt == receipt && !a.replayed && StepRows(before, a.writes, TimerEngine(before.id, i))
    && a.writes == NOTHING.(sessions := a.writes.sessions, batches := a.writes.batches,
                            timers := map[receipt.key := receipt])
  }

  lemma TimerSwaps(db: Tables, before: Session, i: TimerInput, c: TimerCommit)
    requires Tracks(db, before) && db.sessions[before.id].Valid() && before.status == Active
    requires i.expectedVersion == before.Version() && c.receipt == TimerReceiptFor(before, i)
    requires c.before == before && c.receipt.key !in db.timers && !c.after.status.Terminal()
    requires c.batch.committedAt == Micros(i.execution.now) && c.batch.input == i.message
    requires Advances(before, c.after, c.batch)
    ensures CommitTimer(db, c).Ok? <==> Unmoved(db, before) && ArmedAndDue(db.sessions[before.id], i)
    ensures CommitTimer(db, c).Ok? ==>
      CommitTimer(db, c).value == TimerAnswer(RowsOf(c.after, c.batch).(timers := map[c.receipt.key := c.receipt]),
                                              c.receipt, false)
  {
    ArmedIff(db.sessions[before.id], i);
    if Unmoved(db, before) {
      StepPersists(db, before, c.after, c.batch);
    }
  }

  lemma TimerStoredIff(db: Tables, before: Session, i: TimerInput)
    requires before.Valid() && Tracks(db, before) && db.sessions[before.id].Valid() && !i.transition.finished
    requires TimerKey(before.id, i.timerId, i.expectedVersion) !in db.timers && PrepareTimer(before, i).Ok?
    requires i.expectedVersion == before.Version()
    ensures var c := PrepareTimer(before, i).value;
      && (CommitTimer(db, c).Ok? <==> Unmoved(db, before) && ArmedAndDue(db.sessions[before.id], i))
      && (CommitTimer(db, c).Ok? ==> TimerWritten(before, i, CommitTimer(db, c).value))
  {
    TimerPrepared(before, i);
    TimerPreparedExact(before, i);
    OngoingTimer(before, i);
    var c := PrepareTimer(before, i).value;
    TimerSwaps(db, before, i, c);
    RowsOfStep(before, RowsOf(c.after, c.batch).(timers := map[c.receipt.key := c.receipt]), c.after, c.batch,
               TimerEngine(before.id, i));
  }

  /**
   * The first firing of a timer, computed from any row ever stored, commits exactly when its guards hold on that row,
   * epoch, version and status are still those of the row, and the stored row still has the timer armed and due.
   */
  lemma TimerCommitsIff(db: Tables, before: Session, room: Room, i: TimerInput)
    requires before.Valid() && Tracks(db, before) && db.sessions[before.id].Valid() && !i.transition.finished
    requires TimerKey(before.id, i.timerId, i.expectedVersion) !in db.timers
    ensures ExecuteTimer(db, before, room, i).Ok? <==>
      TimerGuard(before, i) && Unmoved(db, before) && ArmedAndDue(db.sessions[before.id], i)
    ensures ExecuteTimer(db, before, room, i).Ok? ==>
      TimerWritten(before, i, ExecuteTimer(db, before, room, i).value)
  {
    TimerPreparedIff(before, i);
    if PrepareTimer(before, i).Ok? {
      TimerStoredIff(db, before, i);
      OngoingTimer(before, i);
    }
  }

  lemma OngoingTimer(before: Session, i: TimerInput)
    requires before.Valid() && PrepareTimer(before, i).Ok?
    ensures var c := PrepareTimer(before, i).value;
      (c.after.status == Finished <==> i.transition.finished) && c.batch.input == i.message
  {
    ApplyTransitionAdvances(before, i.batchId, i.epoch, ByTimer(i.timerId), i.execution, i.message, i.transition);
  }

  // ----- system facts -----

  predicate SystemGuard(before: Session, i: SystemInput) {
    && i.operation != NIL && i.source.Valid() && i.batchId != NIL && i.key == before.key && i.message.Valid()
    && i.execution.Valid()
    && before.status == Active && i.epoch != 0 && i.epoch == before.epoch && i.expectedVersion != 0
    && (i.source.kind == HostApi ==> i.expectedVersion == before.Version())
    && before.updatedAt <= Micros(i.execution.now) && Playable(before, i.execution, i.transition)
  }

  lemma SystemPreparedIff(before: Session, i: SystemInput)
    requires before.Valid() && i.key == before.key && i.expectedVersion != 0
    requires (i.source.kind == HostApi ==> i.expectedVersion == before.Version())
    ensures PrepareSystem(before, i).Ok? <==> SystemGuard(before, i)
  {
    if SystemGuard(before, i) {
      TransitionAcceptedIff(before, i.batchId, i.epoch, BySystem(i.operation, i.source, i.request), i.execution,
                            i.message, i.transition);
      SystemStepAdmitted(before, i.batchId, i.epoch, before.Version(), i.operation, i.source, i.request, i.execution,
                         i.message, i.transition, i.result);
    }
    if PrepareSystem(before, i).Ok? {
      TransitionAcceptedIff(before, i.batchId, i.epoch, BySystem(i.operation, i.source, i.request), i.execution,
                            i.message, i.transition);
    }
  }

  /** The operation was never answered: it is pending under the same binding, or neither it nor its event was seen. */
  predicate Undecided(db: Tables, session: Id, i: SystemInput) {
    var k := OperationKey(session, i.operation);
    if k in db.operations
    then db.operations[k].source == i.source && db.operations[k].request == i.request && db.operations[k].answer.None?
    else forall o :: o in db.operations && o.session == session ==> db.operations[o].source.eventId != i.source.eventId
  }

  lemma OngoingSystem(before: Session, i: SystemInput)
    requires before.Valid() && PrepareSystem(before, i).Ok?
    ensures PrepareSystem(before, i).value.after.status == Finished <==> i.transition.finished
  {
    ApplyTransitionAdvances(before, i.batchId, i.epoch, BySystem(i.operation, i.source, i.request), i.execution,
                            i.message, i.transition);
  }

  function SystemReceiptFor(before: Session, i: SystemInput): SystemReceipt {
    SystemReceipt(SystemKey(before.id, i.operation, i.source), i.request, Accepted, i.result, before.Version() + 1,
                  Micros(i.execution.now))
  }

  /** The answer to a fact that reaches a game after its end: nothing changes, the version is the last one. */
  function NoopFor(now: Session, i: SystemInput): SystemReceipt {
    SystemReceipt(SystemKey(now.id, i.operation, i.source), i.request, NoopTerminal, i.noopResult, now.Version(),
                  Max(Micros(i.execution.now), now.updatedAt + 1))
  }

  /** Only the operation is written: with this answer, or as pending. */
  predicate OperationWritten(session: Id, i: SystemInput, w: Tables, answer: Option<SystemReceipt>) {
    w == NOTHING.(operations := map[OperationKey(session, i.operation) :=
                                      Operation(i.source, i.request, answer, false)])
  }

  predicate SystemWritten(before: Session, i: SystemInput, a: SystemAnswer) {
    var receipt := SystemReceiptFor(before, i);
    && a.receipt == receipt && !a.replayed && !a.retry && StepRows(before, a.writes, SystemEngine(before.id, i))
    && a.writes == NOTHING.(sessions := a.writes.sessions, batches := a.writes.batches,
                            operations := map[OperationKey(before.id, i.operation) :=
                                                Operation(i.source, i.request, Some(receipt), true)])
  }

  lemma UndecidedLocks(db: Tables, session: Id, i: SystemInput)
    requires Undecided(db, session, i)
    requires OperationKey(session, i.operation) in db.operations ==>
      !db.operations[OperationKey(session, i.operation)].applied
    ensures LockOperation(db, SystemKey(session, i.operation, i.source), i.request) ==
      Ok(Operation(i.source, i.request, None, false))
  {
  }

  /** What happens to a prepared fact, whatever became of the row it was computed from. */
  predicate SystemOutcome(db: Tables, before: Session, i: SystemInput, r: Result<SystemAnswer>)
    requires before.id in db.sessions
  {
    var now := db.sessions[before.id];
    if !Live(now) then
      r.Ok? && r.value.receipt == NoopFor(now, i) && !r.value.retry && !r.value.replayed
        && OperationWritten(before.id, i, r.value.writes, Some(NoopFor(now, i)))
    else if now.epoch != before.epoch || now.Version() != before.Version() then
      r.Ok? && r.value.retry && !r.value.replayed && OperationWritten(before.id, i, r.value.writes, None)
    else if now.status == Suspended then r == Err(SessionSuspended)
    else r.Ok? && SystemWritten(before, i, r.value)
  }

  /** The operation row of this fact, if there is one, is not marked as applied. */
  predicate NotApplied(db: Tables, session: Id, i: SystemInput) {
    OperationKey(session, i.operation) in db.operations ==>
      !db.operations[OperationKey(session, i.operation)].applied
  }

  lemma SystemStored(db: Tables, before: Session, i: SystemInput)
    requires before.Valid() && Tracks(db, before) && !i.transition.finished && PrepareSystem(before, i).Ok?
    requires Undecided(db, before.id, i) && NotApplied(db, before.id, i) && db.sessions[before.id].id == before.id
    ensures SystemOutcome(db, before, i, CommitSystem(db, PrepareSystem(before, i).value, i.noopResult))
  {
    SystemPrepared(before, i);
    SystemPreparedExact(before, i);
    OngoingSystem(before, i);
    UndecidedLocks(db, before.id, i);
    var c := PrepareSystem(before, i).value;
    if Unmoved(db, before) {
      StepPersists(db, before, c.after, c.batch);
      RowsOfStep(before, CommitSystem(db, c, i.noopResult).value.writes, c.after, c.batch, SystemEngine(before.id, i));
    }
  }

  /**
   * A fact never answered before, computed from any active row ever stored, fails exactly when its guards do, or it
   * is a host's and does not finish the game. Otherwise what became of the row decides: after the end it is answered
   * as a no-op, after a claim or a step it asks for another round, under a pause it is refused, and else it is
   * applied.
   */
  lemma SystemCommitsIff(db: Tables, before: Session, room: Room, i: SystemInput)
    requires before.Valid() && Tracks(db, before) && before.status == Active && !i.transition.finished
    requires Undecided(db, before.id, i) && NotApplied(db, before.id, i) && db.sessions[before.id].id == before.id
    ensures if SystemGuard(before, i) && i.source.kind != HostApi
      then SystemOutcome(db, before, i, HandleSystemOnce(db, before, room, i))
      else HandleSystemOnce(db, before, room, i).Err?
  {
    if i.key == before.key && i.expectedVersion != 0
       && (i.source.kind == HostApi ==> i.expectedVersion == before.Version()) {
      SystemPreparedIff(before, i);
      if PrepareSystem(before, i).Ok? {
        OngoingSystem(before, i);
        SystemStored(db, before, i);
      }
    }
  }

  // ----- the end of a game -----

  /** The stored room plays this session, and its counters are within the database's integers. */
  predicate Plays(db: Tables, room: Room, s: Session) {
    && room.id in db.rooms && db.rooms[room.id] == room && room.Reachable() && room.status == Playing
    && room.id == s.room && room.activeSession == s.id && room.activeGame == s.key.game
    && room.roomVersion < MAX_INT64 && room.membershipVersion <= MAX_INT64 && room.hostEpoch <= MAX_INT64
  }

  /** The room as a finished game leaves it. */
  function FinishedRoom(room: Room, at: Time): Room {
    Dated(GameOver(room, PostGame).(lastSession := room.activeSession, lastGame := room.activeGame), false, at)
  }

  lemma FinishPrepares(db: Tables, room: Room, s: Session, now: Reading)
    requires Plays(db, room, s) && s.id != NIL && room.updatedAt <= Micros(now)
    ensures PrepareFinish(room, s.id, now) == Ok(FinishedRoom(room, Micros(now)))
    ensures Unpaused(room) ==>
      FinishRoom(db, room, FinishedRoom(room, Micros(now))) ==
        Ok(NOTHING.(rooms := map[room.id := FinishedRoom(room, Micros(now))]))
  {
    var c := FinishSession(s.id, room.Versions(), now);
    assert Guard(room, c).Ok?;
    GuardSuffices(room, c);
    AcceptedDoes(room, c);
    PartyRoom.RestoreFixedPoint(Execute(room, c).value);
  }

  /** No room fact of this session is waiting to be acknowledged, other than this one. */
  predicate NothingElseWaits(db: Tables, session: Id, event: Option<Id>) {
    forall k :: k in db.inbox && k.session == session && db.inbox[k].completed.None? ==> event == Some(k.eventId)
  }

  lemma WaitingIff(db: Tables, session: Id, event: Id)
    ensures PendingInbox(db, session, NIL) <==> !NothingElseWaits(db, session, None)
    ensures event != NIL ==> (PendingInbox(db, session, event) <==> !NothingElseWaits(db, session, Some(event)))
  {
  }

  /** The step and the end of the game in its room. */
  predicate FinishRows(before: Session, room: Room, w: Tables, e: Engine) {
    StepRows(before, w, e) && w.rooms == map[room.id := FinishedRoom(room, Micros(e.execution.now))]
  }

  /** What the three finishing commands have in common, on current rows. */
  predicate Finishing(db: Tables, room: Room, before: Session, t: Session, b: Batch, e: Engine) {
    && before.Valid() && Current(db, before) && Plays(db, room, before) && room.updatedAt <= Micros(e.execution.now)
    && Advances(before, t, b) && StepsBy(before, t, b, e) && e.transition.finished && before.status == Active
    && e.session == before.id
  }

  lemma FinishingStep(db: Tables, room: Room, before: Session, t: Session, b: Batch, e: Engine)
    requires Finishing(db, room, before, t, b, e)
    ensures var next := FinishedRoom(room, Micros(e.execution.now));
      && PrepareFinish(room, before.id, e.execution.now) == Ok(next)
      && (TerminationMatches(room, next, before, t, Finished) <==> Unpaused(room))
      && (Unpaused(room) ==> FinishRoom(db, room, next) == Ok(NOTHING.(rooms := map[room.id := next])))
      && TransitionConflict(before, before).None? && t.status == Finished && t.id == before.id
      && PersistStep(db, before, t, b) ==
         Ok(NOTHING.(sessions := map[t.id := t], batches := map[BatchKey(t.id, t.Version()) := b]))
  {
    FinishPrepares(db, room, before, e.execution.now);
    FinishAdmittedIffUnpaused(room, before, t, e.execution.now);
    StepPersists(db, before, t, b);
  }

  lemma FinishActionIff(db: Tables, room: Room, before: Session, i: ActionInput)
    requires before.Valid() && PrepareAction(before, i).Ok? && ActionKey(before.id, i.actor, i.actionId) !in db.actions
    requires var c := PrepareAction(before, i).value;
      Finishing(db, room, before, c.after, c.batch, ActionEngine(before.id, i))
    requires PrepareAction(before, i).value.before == before
    requires PrepareAction(before, i).value.receipt == ReceiptFor(before, i)
    ensures var r := FinishAction(db, room, FinishedRoom(room, Micros(i.execution.now)),
                                  PrepareAction(before, i).value);
      && (r.Ok? <==> room.IsParticipant(i.actor) && NothingElseWaits(db, before.id, None) && Unpaused(room))
      && (r.Ok? ==>
            && FinishRows(before, room, r.value.writes, ActionEngine(before.id, i))
            && r.value.receipt == ReceiptFor(before, i) && !r.value.replayed
            && r.value.writes.actions == map[ReceiptFor(before, i).key := ReceiptFor(before, i)])
  {
    var c := PrepareAction(before, i).value;
    var next := FinishedRoom(room, Micros(i.execution.now));
    FinishingStep(db, room, before, c.after, c.batch, ActionEngine(before.id, i));
    WaitingIff(db, before.id, NIL);
    if FinishAction(db, room, next, c).Ok? {
      RowsOfStep(before, FinishAction(db, room, next, c).value.writes, c.after, c.batch, ActionEngine(before.id, i));
    }
  }

  /**
   * A finishing action on current rows commits exactly when its guards hold, no room fact waits and no pause is pending
   * or in force; it then ends session and room in one transaction.
   */
  lemma FinishingActionCommitsIff(db: Tables, before: Session, room: Room, i: ActionInput)
    requires before.Valid() && Current(db, before) && Plays(db, room, before) && i.transition.finished
    requires room.updatedAt <= Micros(i.execution.now)
    requires ActionKey(before.id, i.actor, i.actionId) !in db.actions
    ensures var r := ExecuteAction(db, before, room, i);
      && (r.Ok? <==> ActionGuard(before, i) && room.IsParticipant(i.actor) && NothingElseWaits(db, before.id, None)
                     && Unpaused(room))
      && (r.Ok? ==>
            && FinishRows(before, room, r.value.writes, ActionEngine(before.id, i))
            && r.value.receipt == ReceiptFor(before, i) && !r.value.replayed
            && r.value.writes.actions == map[ReceiptFor(before, i).key := ReceiptFor(before, i)])
  {
    ActionPreparedIff(before, i);
    if PrepareAction(before, i).Ok? {
      ActionPrepared(before, i);
      ActionPreparedExact(before, i);
      OngoingAction(before, i);
      FinishPrepares(db, room, before, i.execution.now);
      FinishActionIff(db, room, before, i);
    }
  }

  lemma FinishedTimerStored(db: Tables, before: Session, i: TimerInput, c: TimerCommit)
    requires before.Valid() && Current(db, before) && before.status == Active && ArmedAndDue(before, i)
    requires c.before == before && c.after.id == before.id && c.after.status == Finished
    requires c.receipt.key == TimerKey(before.id, i.timerId, before.Version()) && c.receipt.key !in db.timers
    requires c.batch.committedAt == Micros(i.execution.now) && c.batch.input == i.message
    requires PersistStep(db, before, c.after, c.batch) == Ok(RowsOf(c.after, c.batch))
    ensures CommitTimer(db, c).Ok? <==> NothingElseWaits(db, before.id, None)
    ensures CommitTimer(db, c).Ok? ==>
      CommitTimer(db, c).value == TimerAnswer(RowsOf(c.after, c.batch).(timers := map[c.receipt.key := c.receipt]),
                                              c.receipt, false)
  {
    ArmedIff(before, i);
    WaitingIff(db, before.id, NIL);
  }

  lemma FinishTimerIff(db: Tables, room: Room, before: Session, i: TimerInput)
    requires before.Valid() && PrepareTimer(before, i).Ok? && TimerReceiptFor(before, i).key !in db.timers
    requires ArmedAndDue(before, i) && i.expectedVersion == before.Version()
    requires var c := PrepareTimer(before, i).value;
      && Finishing(db, room, before, c.after, c.batch, TimerEngine(before.id, i))
      && c.before == before && c.receipt == TimerReceiptFor(before, i)
    ensures var r := FinishTimer(db, room, FinishedRoom(room, Micros(i.execution.now)), PrepareTimer(before, i).value);
      && (r.Ok? <==> NothingElseWaits(db, before.id, None) && Unpaused(room))
      && (r.Ok? ==>
            && FinishRows(before, room, r.value.writes, TimerEngine(before.id, i))
            && r.value.receipt == TimerReceiptFor(before, i) && !r.value.replayed
            && r.value.writes.timers == map[TimerReceiptFor(before, i).key := TimerReceiptFor(before, i)])
  {
    var c := PrepareTimer(before, i).value;
    var next := FinishedRoom(room, Micros(i.execution.now));
    FinishingStep(db, room, before, c.after, c.batch, TimerEngine(before.id, i));
    FinishedTimerStored(db, before, i, c);
    if FinishTimer(db, room, next, c).Ok? {
      RowsOfStep(before, FinishTimer(db, room, next, c).value.writes, c.after, c.batch, TimerEngine(before.id, i));
    }
  }

  /** The same for a timer whose module ends the game. */
  lemma FinishingTimerCommitsIff(db: Tables, before: Session, room: Room, i: TimerInput)
    requires before.Valid() && Current(db, before) && Plays(db, room, before) && i.transition.finished
    requires room.updatedAt <= Micros(i.execution.now)
    requires TimerKey(before.id, i.timerId, i.expectedVersion) !in db.timers
    ensures var r := ExecuteTimer(db, before, room, i);
      && (r.Ok? <==> TimerGuard(before, i) && NothingElseWaits(db, before.id, None) && Unpaused(room))
      && (r.Ok? ==>
            && FinishRows(before, room, r.value.writes, TimerEngine(before.id, i))
            && r.value.receipt == TimerReceiptFor(before, i) && !r.value.replayed
            && r.value.writes.timers == map[TimerReceiptFor(before, i).key := TimerReceiptFor(before, i)])
  {
    TimerPreparedIff(before, i);
    if PrepareTimer(before, i).Ok? {
      TimerPrepared(before, i);
      TimerPreparedExact(before, i);
      OngoingTimer(before, i);
      FinishPrepares(db, room, before, i.execution.now);
      FinishTimerIff(db, room, before, i);
    }
  }

  /** A host may end the game only as the host of the stored room. */
  predicate HostMayEnd(room: Room, i: SystemInput) { i.source.kind == HostApi ==> room.host == i.source.requestedBy }

  lemma FinishedSystemStored(db: Tables, before: Session, i: SystemInput, c: SystemCommit)
    requires before.Valid() && Current(db, before) && before.status == Active && i.source.Valid()
    requires Undecided(db, before.id, i) && NotApplied(db, before.id, i)
    requires c.before == before && c.after.id == before.id && c.after.status == Finished
    requires c.receipt.key == SystemKey(before.id, i.operation, i.source) && c.receipt.request == i.request
    requires PersistStep(db, before, c.after, c.batch) == Ok(RowsOf(c.after, c.batch))
    ensures var r := CommitSystem(db, c, i.noopResult);
      && (r.Ok? <==> NothingElseWaits(db, before.id, Some(i.source.eventId)))
      && (r.Ok? ==>
            r.value == SystemAnswer(RowsOf(c.after, c.batch).(operations := map[OperationKey(before.id, i.operation) :=
                                      Operation(i.source, i.request, Some(c.receipt), true)]), c.receipt, false, false))
  {
    WaitingIff(db, before.id, i.source.eventId);
    UndecidedLocks(db, before.id, i);
  }

  lemma FinishSystemIff(db: Tables, room: Room, before: Session, i: SystemInput)
    requires before.Valid() && PrepareSystem(before, i).Ok? && i.source.Valid()
    requires Undecided(db, before.id, i) && NotApplied(db, before.id, i)
    requires var c := PrepareSystem(before, i).value;
      && Finishing(db, room, before, c.after, c.batch, SystemEngine(before.id, i))
      && c.before == before && c.receipt == SystemReceiptFor(before, i)
    ensures var r := FinishSystem(db, room, FinishedRoom(room, Micros(i.execution.now)), i.source.requestedBy,
                                  PrepareSystem(before, i).value, i.noopResult);
      && (r.Ok? <==> HostMayEnd(room, i) && NothingElseWaits(db, before.id, Some(i.source.eventId)) && Unpaused(room))
      && (r.Ok? ==>
            && FinishRows(before, room, r.value.writes, SystemEngine(before.id, i)) && !r.value.replayed
            && !r.value.retry
            && r.value.receipt == SystemReceiptFor(before, i)
            && r.value.writes.operations == map[OperationKey(before.id, i.operation) :=
                 Operation(i.source, i.request, Some(SystemReceiptFor(before, i)), true)])
  {
    var c := PrepareSystem(before, i).value;
    var next := FinishedRoom(room, Micros(i.execution.now));
    FinishingStep(db, room, before, c.after, c.batch, SystemEngine(before.id, i));
    FinishedSystemStored(db, before, i, c);
    var a := CommitSystem(db, c, i.noopResult);
    if a.Ok? && Unpaused(room) && HostMayEnd(room, i) {
      FinishSystemComposes(db, room, next, c, i.noopResult);
      RowsOfStep(before, a.value.writes.(rooms := map[room.id := next]), c.after, c.batch, SystemEngine(before.id, i));
    } else {
      FinishSystemNeeds(db, room, next, c, i.noopResult);
    }
  }

  lemma FinishSystemNeeds(db: Tables, room: Room, next: Room, c: SystemCommit, noop: Digest)
    requires room.id in db.rooms && db.rooms[room.id] == room
    ensures FinishSystem(db, room, next, c.receipt.key.source.requestedBy, c, noop).Ok? ==>
      && TerminationMatches(room, next, c.before, c.after, Finished) && CommitSystem(db, c, noop).Ok?
      && (c.receipt.key.source.kind == HostApi ==> room.host == c.receipt.key.source.requestedBy)
  {
  }

  lemma FinishSystemComposes(db: Tables, room: Room, next: Room, c: SystemCommit, noop: Digest)
    requires room.id in db.rooms && db.rooms[room.id] == room
    requires TerminationMatches(room, next, c.before, c.after, Finished)
    requires c.receipt.key.source.kind == HostApi ==> room.host == c.receipt.key.source.requestedBy
    requires CommitSystem(db, c, noop).Ok? && FinishRoom(db, room, next) == Ok(NOTHING.(rooms := map[room.id := next]))
    requires var a := CommitSystem(db, c, noop).value;
      !a.retry && !a.replayed && a.writes.sessions == map[c.before.id := c.after] && c.after.status == Finished
    ensures var a := CommitSystem(db, c, noop).value;
      FinishSystem(db, room, next, c.receipt.key.source.requestedBy, c, noop) ==
        Ok(a.(writes := a.writes.(rooms := map[room.id := next])))
  {
    var a := CommitSystem(db, c, noop).value;
    assert c.before.id in a.writes.sessions;
    assert db.Write(a.writes).sessions[c.before.id] == c.after;
  }

  /**
   * A fact that ends the game, on current rows, commits exactly when its guards hold, a host is still host, no other
   * room fact waits and no pause is pending or in force.
   */
  lemma FinishingSystemCommitsIff(db: Tables, before: Session, room: Room, i: SystemInput)
    requires before.Valid() && Current(db, before) && Plays(db, room, before) && i.transition.finished
    requires room.updatedAt <= Micros(i.execution.now) && before.status == Active
    requires Undecided(db, before.id, i) && NotApplied(db, before.id, i)
    ensures var r := HandleSystemOnce(db, before, room, i);
      && (r.Ok? <==> && SystemGuard(before, i) && HostMayEnd(room, i)
                     && NothingElseWaits(db, before.id, Some(i.source.eventId)) && Unpaused(room))
      && (r.Ok? ==>
            && FinishRows(before, room, r.value.writes, SystemEngine(before.id, i)) && !r.value.replayed
            && !r.value.retry
            && r.value.receipt == SystemReceiptFor(before, i)
            && r.value.writes.operations == map[OperationKey(before.id, i.operation) :=
                 Operation(i.source, i.request, Some(SystemReceiptFor(before, i)), true)])
  {
    if i.key == before.key && i.expectedVersion != 0
       && (i.source.kind == HostApi ==> i.expectedVersion == before.Version()) {
      SystemPreparedIff(before, i);
      if PrepareSystem(before, i).Ok? {
        SystemPrepared(before, i);
        SystemPreparedExact(before, i);
        OngoingSystem(before, i);
        FinishPrepares(db, room, before, i.execution.now);
        FinishSystemIff(db, room, before, i);
      }
    }
  }

  // ----- pauses -----

  lemma PauseExecutesIff(room: Room, c: Command)
    requires room.Reachable() && c.Pause? && room.updatedAt <= Micros(c.at)
    requires room.roomVersion < MAX_INT64 && room.membershipVersion <= MAX_INT64
    ensures Execute(room, c).Ok? <==> Guard(room, c).Ok?
    ensures Execute(room, c).Ok? ==>
      Execute(room, c).value == Dated(Guard(room, c).value.next, false, Micros(c.at)) && Execute(room, c).value.Valid()
  {
    if Guard(room, c).Ok? { PauseGuardSuffices(room, c); }
  }

  lemma SuspendPreparesIff(before: Session, epoch: nat, at: Reading)
    requires before.Valid()
    ensures PrepareSuspend(before, epoch, at).Ok? <==>
      before.status == Active && epoch != 0 && epoch == before.epoch && before.updatedAt < Micros(at)
  {
    SuspendShape(before, epoch, at);
    if Suspend(before, epoch, at).Ok? { SuspendAdmitted(before, epoch, at); }
  }

  /** The room and the session as a pause leaves them. */
  function PausedRoom(room: Room, pauseId: Id, requestId: Id, at: Time): Room {
    Dated(room.(request := NO_REQUEST,
                pause := ActivePause(pauseId, room.activeSession,
                                     if requestId == NIL then HostPause else ApprovedRequest,
                                     if requestId == NIL then NIL else room.request.requestedBy, room.host, at)),
          false, at)
  }

  function PausedSession(before: Session, at: Time): Session {
    before.(status := Suspended, updatedAt := at, suspendedAt := at)
  }

  lemma PauseGoverns(db: Tables, room: Room, before: Session, epoch: nat, c: Command)
    requires before.Valid() && Current(db, before) && Plays(db, room, before)
    requires c.Pause? && c.session == before.id && room.updatedAt <= Micros(c.at)
    requires Guard(room, c).Ok? && PrepareSuspend(before, epoch, c.at).Ok? && Execute(room, c).Ok?
    requires Execute(room, c).value == PausedRoom(room, c.pauseId, c.requestId, Micros(c.at))
    ensures GovernGame(db, room, Execute(room, c).value, PrepareSuspend(before, epoch, c.at).value, true) ==
      Ok(BothRows(PausedRoom(room, c.pauseId, c.requestId, Micros(c.at)), PausedSession(before, Micros(c.at))))
  {
    PauseExecutesIff(room, c);
    SuspendShape(before, epoch, c.at);
    LifecycleStores(db, before, Suspend(before, epoch, c.at).value);
    GuardIff(room, c);
    PauseMatches(room, before, c.pauseId, c.requestId, Micros(c.at));
    GovernsIff(db, room, PausedRoom(room, c.pauseId, c.requestId, Micros(c.at)),
               PrepareSuspend(before, epoch, c.at).value, true);
  }

  lemma PauseMatches(room: Room, before: Session, pauseId: Id, requestId: Id, at: Time)
    requires room.Valid() && room.status == Playing && room.activeSession == before.id && before.id != NIL
    requires room.id == before.room && room.activeGame == before.key.game && before.status == Active && pauseId != NIL
    requires room.pause == NO_PAUSE && room.roomVersion < MAX_INT64 && room.membershipVersion <= MAX_INT64
    requires room.hostEpoch <= MAX_INT64
    ensures GovernanceMatches(room, PausedRoom(room, pauseId, requestId, at), before, PausedSession(before, at), true)
  {
  }

  lemma PausedAs(room: Room, c: Command)
    requires room.Reachable() && c.Pause? && Execute(room, c).Ok? && PlaysNow(room, c.session)
    ensures Execute(room, c).value == PausedRoom(room, c.pauseId, c.requestId, Micros(c.at))
  {
    GuardIff(room, c);
    AcceptedDoes(room, c);
  }

  /**
   * A pause by the room on current rows commits exactly for the current host and versions, an unpaused game, the
   * request it names if it names one, and the owner of the active session, whatever the clock; it then suspends the
   * session and records who paused and who asked, both at one instant.
   */
  lemma PauseCommitsIff(db: Tables, room: Room, before: Session, actor: Id, pauseId: Id, requestId: Id,
                        expected: RoomVersions, epoch: nat, now: Reading)
    requires before.Valid() && Current(db, before) && Plays(db, room, before)
    ensures var time := GovernedTime(now, room.updatedAt, before.updatedAt);
      var r := PauseRoom(db, room, before, actor, pauseId, requestId, expected, epoch, now);
      && (r.Ok? <==>
            && actor == room.host && expected == room.Versions() && pauseId != NIL && room.pause == NO_PAUSE
            && (requestId != NIL ==> room.request.id == requestId)
            && before.status == Active && epoch != 0 && epoch == before.epoch)
      && (r.Ok? ==> r.value == BothRows(PausedRoom(room, pauseId, requestId, time), PausedSession(before, time)))
  {
    var time := GovernedTime(now, room.updatedAt, before.updatedAt);
    var at := Nanos(time);
    GovernedTimeFitsBoth(now, room.updatedAt, before.updatedAt);
    TruncationKeepsOrder(at, time);
    var c := RoomCommands.Pause(actor, pauseId, before.id, requestId, expected, at);
    SuspendPreparesIff(before, epoch, at);
    GuardIff(room, c);
    PauseExecutesIff(room, c);
    if Guard(room, c).Ok? && PrepareSuspend(before, epoch, at).Ok? {
      PausedAs(room, c);
      PauseGoverns(db, room, before, epoch, c);
    }
  }

  lemma PauseGuardSuffices(room: Room, c: Command)
    requires room.Reachable() && (c.Pause? || c.ResumeSession?) && Guard(room, c).Ok? && room.updatedAt <= Micros(c.at)
    requires room.roomVersion < MAX_INT64 && room.membershipVersion <= MAX_INT64
    ensures Execute(room, c).Ok? && Execute(room, c).value.Valid()
    ensures Execute(room, c).value == Dated(Guard(room, c).value.next, false, Micros(c.at))
    ensures Guard(room, c).value.Change?
  {
    GuardSuffices(room, c);
    ExecuteExact(room, c);
  }

  lemma LifecycleStores(db: Tables, before: Session, after: Session)
    requires before.Valid() && after.Valid() && Current(db, before) && !before.status.Terminal()
    requires after.Identity() == before.Identity()
    requires after.epoch == before.epoch && after.Version() == before.Version()
    ensures LifecycleConflict(before, before).None? && Reread(LifecycleRow(before, after)) == Ok(after)
  {
    assert LifecycleRow(before, after) == after;
    GameSession.RestoreFixedPoint(after);
  }

  lemma RoomStores(db: Tables, room: Room, next: Room)
    requires room.id in db.rooms && db.rooms[room.id] == room && next.Valid() && next.id == room.id
    requires next.code == room.code && next.createdAt == room.createdAt
    ensures UpdateRoom(db, room, next) == Ok(NOTHING.(rooms := map[next.id := next]))
  {
    assert next.(id := room.id, code := room.code, createdAt := room.createdAt) == next;
    PartyRoom.RestoreFixedPoint(next);
  }

  /**
   * What a module's resume hook must return: the state in its envelope, and timers that, in canonical order, are those
   * of the session moved by the pause. Without a hook the service moves them itself.
   */
  predicate AdjustmentFits(before: Session, at: Time, adjustment: Adjustment) {
    match adjustment
    case NoAdjuster => true
    case AdjustmentFailed => false
    case Adjusted(state, timers) =>
      var moved := FromIntents(timers, before.Version());
      && before.state.SameEnvelope(state) && state.state.Valid() && AcceptableTimers(moved, before.Version())
      && ShiftedBy(before.timers, Sorting.Sort(moved, TimerLess), at - before.suspendedAt)
  }

  lemma AdjustedReactivates(before: Session, at: Time, state: GameState, timers: seq<TimerIntent>)
    requires before.Valid() && before.status == Suspended && before.updatedAt < at
    requires AdjustmentFits(before, at, Adjusted(state, timers))
    ensures Reactivate(before, at, state, timers).Ok?
    ensures Reactivate(before, at, state, timers).value.timers ==
      Sorting.Sort(FromIntents(timers, before.Version()), TimerLess)
  {
    var moved := FromIntents(timers, before.Version());
    Sorting.SortKeeps(moved, TimerLess);
    assert |moved| == |multiset(moved)|
           && |Sorting.Sort(moved, TimerLess)| == |multiset(Sorting.Sort(moved, TimerLess))|;
    CanonicalTimersValid(moved, before.Version());
    var armed := CanonicalTimers(moved, before.Version()).value;
    GameSession.RestoreFixedPoint(before.(state := state, timers := armed.0, deadline := armed.1, status := Active,
                                          updatedAt := at,
                                          suspendedAt := ZERO_TIME));
  }

  lemma AdjustedTimers(before: Session, at: Time, state: GameState, timers: seq<TimerIntent>)
    requires before.Valid() && before.status == Suspended && before.updatedAt < at
    requires Reactivate(before, at, state, timers).Ok?
    ensures var moved := FromIntents(timers, before.Version());
      && before.state.SameEnvelope(state) && state.state.Valid() && AcceptableTimers(moved, before.Version())
      && Reactivate(before, at, state, timers).value.timers == Sorting.Sort(moved, TimerLess)
  {
    var moved := FromIntents(timers, before.Version());
    var armed := CanonicalTimers(moved, before.Version()).value;
    RestoreYieldsValid(before.(state := state, timers := armed.0, deadline := armed.1, status := Active,
                               updatedAt := at, suspendedAt := ZERO_TIME));
    Sorting.SortKeeps(moved, TimerLess);
    assert |moved| == |multiset(moved)| && |armed.0| == |multiset(armed.0)|;
    CanonicalTimersValid(moved, before.Version());
    Sorting.SortFixed(armed.0, TimerLess);
  }

  /**
   * A resume can be prepared exactly by the owner of a suspended session, later than it, with an adjustment that fits.
   */
  lemma ResumePreparesIff(before: Session, epoch: nat, at: Reading, adjustment: Adjustment)
    requires before.Valid() && before.updatedAt < Micros(at)
    ensures PrepareResume(before, epoch, at, adjustment).Ok? <==>
      before.status == Suspended && epoch != 0 && epoch == before.epoch
        && AdjustmentFits(before, Micros(at), adjustment)
    ensures PrepareResume(before, epoch, at, adjustment).Ok? ==>
      Resumes(before, PrepareResume(before, epoch, at, adjustment).value, Micros(at))
  {
    if before.status == Suspended && epoch != 0 && epoch == before.epoch {
      ResumeGuardPasses(before, epoch, Micros(at));
      ResumeSucceedsIff(before, epoch, at, adjustment);
    }
    if Resume(before, epoch, at, adjustment).Ok? { ResumeShape(before, epoch, at, adjustment); }
  }

  lemma ResumeSucceedsIff(before: Session, epoch: nat, at: Reading, adjustment: Adjustment)
    requires before.Valid() && before.status == Suspended && before.updatedAt < Micros(at) && epoch != 0
    requires epoch == before.epoch
    ensures PrepareResume(before, epoch, at, adjustment).Ok? <==> AdjustmentFits(before, Micros(at), adjustment)
  {
    ResumeGuardPasses(before, epoch, Micros(at));
    match adjustment
    case NoAdjuster =>
      PlainResumeExact(before, epoch, at);
      PlainResumeAdmitted(before, epoch, at);
    case AdjustmentFailed =>
    case Adjusted(state, timers) =>
      if AdjustmentFits(before, Micros(at), adjustment) { AdjustedReactivates(before, Micros(at), state, timers); }
      if Reactivate(before, Micros(at), state, timers).Ok? {
        AdjustedTimers(before, Micros(at), state, timers);
        AdjustedResumeAdmitted(before, epoch, at, adjustment);
      }
  }

  predicate Resumes(before: Session, c: LifecycleCommit, at: Time) {
    && c.before == before && c.after.Valid() && c.after.Identity() == before.Identity() && c.after.epoch == before.epoch
    && before.state.SameEnvelope(c.after.state) && c.after.status == Active && c.after.updatedAt == at
  }

  /** One room and one session, written together. */
  function BothRows(room: Room, s: Session): Tables {
    NOTHING.(rooms := map[room.id := room], sessions := map[s.id := s])
  }

  lemma GovernsIff(db: Tables, room: Room, next: Room, c: LifecycleCommit, pausing: bool)
    requires room.id in db.rooms && db.rooms[room.id] == room && next.Valid() && next.id == room.id
    requires next.code == room.code && next.createdAt == room.createdAt
    requires Current(db, c.before) && LifecycleConflict(c.before, c.before).None?
    requires Reread(LifecycleRow(c.before, c.after)) == Ok(c.after)
    ensures GovernGame(db, room, next, c, pausing).Ok? <==> GovernanceMatches(room, next, c.before, c.after, pausing)
    ensures GovernGame(db, room, next, c, pausing).Ok? ==>
      GovernGame(db, room, next, c, pausing).value == BothRows(next, c.after)
  {
    RoomStores(db, room, next);
  }

  lemma ResumeMatchesIff(db: Tables, room: Room, before: Session, c: LifecycleCommit, at: Time)
    requires Plays(db, room, before) && before.status == Suspended && Resumes(before, c, at) && room.pause.id != NIL
    requires room.pause.session == before.id
    requires room.Valid() && before.id != NIL
    ensures GovernanceMatches(room, Dated(room.(pause := NO_PAUSE), false, at), before, c.after, false) <==>
      room.pause.pausedAt == before.suspendedAt
  {
  }

  lemma ResumeRoomIff(db: Tables, room: Room, before: Session, actor: Id, expected: RoomVersions, epoch: nat,
                      now: Reading, adjustment: Adjustment)
    requires before.room == room.id
    ensures var at := Nanos(GovernedTime(now, room.updatedAt, before.updatedAt));
      var next := Execute(room, ResumeSession(actor, before.id, expected, at));
      var c := PrepareResume(before, epoch, at, adjustment);
      var r := ResumeRoom(db, room, before, actor, expected, epoch, now, adjustment);
      && (r.Ok? <==> next.Ok? && c.Ok? && GovernGame(db, room, next.value, c.value, false).Ok?)
      && (r.Ok? ==> r == GovernGame(db, room, next.value, c.value, false))
  {
  }

  lemma ResumeExecutesIff(room: Room, c: Command)
    requires room.Reachable() && c.ResumeSession? && room.updatedAt <= Micros(c.at)
    requires room.roomVersion < MAX_INT64 && room.membershipVersion <= MAX_INT64
    ensures Execute(room, c).Ok? <==> Guard(room, c).Ok?
    ensures Execute(room, c).Ok? ==>
      && Execute(room, c).value == Dated(room.(pause := NO_PAUSE), false, Micros(c.at))
      && Execute(room, c).value.Valid()
      && room.pause.id != NIL && room.pause.session == c.session
  {
    if Guard(room, c).Ok? { PauseGuardSuffices(room, c); }
  }

  /** The running session after a pause that ended at this instant. */
  predicate ResumedAt(before: Session, t: Session, at: Time, adjustment: Adjustment) {
    && t == before.(state := t.state, timers := t.timers, deadline := t.deadline, status := Active, updatedAt := at,
                    suspendedAt := ZERO_TIME)
    && ShiftedBy(before.timers, t.timers, at - before.suspendedAt) && FirstDue(t.deadline, t.timers)
    && (if adjustment.Adjusted? then t.state == adjustment.state && Arms(t.timers, adjustment.timers, before.Version())
        else t.state == before.state)
  }

  lemma ResumeYields(before: Session, epoch: nat, at: Reading, adjustment: Adjustment)
    requires before.Valid() && PrepareResume(before, epoch, at, adjustment).Ok?
    ensures ResumedAt(before, PrepareResume(before, epoch, at, adjustment).value.after, Micros(at), adjustment)
  {
    ResumeShape(before, epoch, at, adjustment);
    AdjustedResumeAdmitted(before, epoch, at, adjustment);
  }

  /**
   * A room resume on current rows commits exactly for the current host and versions, the owner of the session suspended
   * by that pause, and an adjustment that fits, whatever the clock; it then ends the pause and moves every timer by it.
   */
  lemma ResumeCommitsIff(db: Tables, room: Room, before: Session, actor: Id, expected: RoomVersions, epoch: nat,
                         now: Reading, adjustment: Adjustment)
    requires before.Valid() && Current(db, before) && Plays(db, room, before)
    ensures var time := GovernedTime(now, room.updatedAt, before.updatedAt);
      var r := ResumeRoom(db, room, before, actor, expected, epoch, now, adjustment);
      && (r.Ok? <==>
            && actor == room.host && expected == room.Versions() && room.pause != NO_PAUSE && before.status == Suspended
            && epoch != 0 && epoch == before.epoch && room.pause.pausedAt == before.suspendedAt
            && AdjustmentFits(before, time, adjustment))
      && (r.Ok? ==> before.id in r.value.sessions && ResumedAt(before, r.value.sessions[before.id], time, adjustment)
                    && r.value == BothRows(Dated(room.(pause := NO_PAUSE), false, time), r.value.sessions[before.id]))
  {
    var time := GovernedTime(now, room.updatedAt, before.updatedAt);
    var at := Nanos(time);
    GovernedTimeFitsBoth(now, room.updatedAt, before.updatedAt);
    TruncationKeepsOrder(at, time);
    var c := ResumeSession(actor, before.id, expected, at);
    ResumePreparesIff(before, epoch, at, adjustment);
    GuardIff(room, c);
    ResumeExecutesIff(room, c);
    ResumeRoomIff(db, room, before, actor, expected, epoch, now, adjustment);
    if Guard(room, c).Ok? && PrepareResume(before, epoch, at, adjustment).Ok? {
      ResumeGoverns(db, room, before, PrepareResume(before, epoch, at, adjustment).value, time);
      ResumeYields(before, epoch, at, adjustment);
    }
  }

  lemma ResumeGoverns(db: Tables, room: Room, before: Session, c: LifecycleCommit, at: Time)
    requires before.Valid() && Current(db, before) && Plays(db, room, before) && before.status == Suspended
    requires Resumes(before, c, at)
    requires room.pause.id != NIL && room.pause.session == before.id
    requires var next := Dated(room.(pause := NO_PAUSE), false, at); next.Valid()
    ensures var r := GovernGame(db, room, Dated(room.(pause := NO_PAUSE), false, at), c, false);
      && (r.Ok? <==> room.pause.pausedAt == before.suspendedAt)
      && (r.Ok? ==> r.value == BothRows(Dated(room.(pause := NO_PAUSE), false, at), c.after))
  {
    LifecycleStores(db, before, c.after);
    GovernsIff(db, room, Dated(room.(pause := NO_PAUSE), false, at), c, false);
    ResumeMatchesIff(db, room, before, c, at);
  }

  /**
   * A session-only resume of the stored row, by its owner and without a hook, is refused exactly on the readings
   * strictly inside the microsecond after the last update, whatever the room says.
   */
  lemma ResumeOnlyRefusedIff(db: Tables, before: Session, now: Reading)
    requires before.Valid() && Current(db, before) && before.status == Suspended && before.epoch != 0
    ensures ResumeOnly(db, before, before.epoch, now, NoAdjuster).Err? <==>
      Nanos(before.updatedAt) < now < Nanos(before.updatedAt + 1)
  {
    var at := BumpedTime(now, before.updatedAt);
    BumpedTimeTooEarly(now, before.updatedAt);
    PlainResumeExact(before, before.epoch, at);
    if before.updatedAt < Micros(at) {
      ResumePreparesIff(before, before.epoch, at, NoAdjuster);
      LifecycleStores(db, before, PrepareResume(before, before.epoch, at, NoAdjuster).value.after);
    }
  }

  // ----- cancellation -----

  /** The room as a cancellation leaves it: its lobby again, or closed for good. */
  function CancelledRoom(room: Room, closeRoom: bool, at: Time): Room {
    Dated(if closeRoom then GameOver(room, Closed).(spectatorAdmission := AdmissionClosed) else GameOver(room, Lobby),
          false, at)
  }

  lemma CancelPrepares(room: Room, i: CancelInput)
    requires room.Reachable() && room.status == Playing && room.activeSession == i.session && i.session != NIL
    requires room.updatedAt <= Micros(i.now)
    requires room.roomVersion < MAX_INT64 && room.membershipVersion <= MAX_INT64
    ensures Execute(room, CancelCommand(room, i)) == Ok(CancelledRoom(room, i.closeRoom, Micros(i.now)))
    ensures CancelledRoom(room, i.closeRoom, Micros(i.now)).Valid()
  {
    assert Guard(room, CancelCommand(room, i)).Ok?;
    GuardSuffices(room, CancelCommand(room, i));
    AcceptedDoes(room, CancelCommand(room, i));
  }

  lemma CancelStores(db: Tables, room: Room, before: Session, next: Room, c: LifecycleCommit)
    requires before.Valid() && Current(db, before) && !before.status.Terminal() && c.before == before && c.after.Valid()
    requires c.after.Identity() == before.Identity() && c.after.epoch == before.epoch
    requires c.after.Version() == before.Version()
    requires room.id in db.rooms && db.rooms[room.id] == room && next.Valid() && next.id == room.id
    requires next.code == room.code && next.createdAt == room.createdAt
    ensures var r := CancelGame(db, room, next, c);
      && (r.Ok? <==> TerminationMatches(room, next, before, c.after, Cancelled))
      && (r.Ok? ==> r.value == BothRows(next, c.after))
  {
    LifecycleStores(db, before, c.after);
    RoomStores(db, room, next);
  }

  /**
   * A first cancellation of current rows commits exactly for the owner of a live game, later than it, with a proper
   * reason and no pause; it then ends both, in the mode that was asked for and with the reason given or the platform's.
   */
  lemma CancelCommitsIff(db: Tables, room: Room, before: Session, i: CancelInput)
    requires before.Valid() && Current(db, before) && Plays(db, room, before) && i.session == before.id
    requires i.expected == room.Versions()
    requires i.epoch != 0 && room.updatedAt <= Micros(i.now)
    ensures var r := RuntimeService.Cancel(db, room, before, i); var at := Micros(i.now);
      && (r.Ok? <==>
            && !before.status.Terminal() && i.epoch == before.epoch && before.updatedAt < at
            && (i.reason == "" || ValidIdentifier(i.reason)) && Unpaused(room))
      && (r.Ok? ==>
            r.value == BothRows(CancelledRoom(room, i.closeRoom, at),
                                before.(status := Cancelled, timers := [], deadline := ZERO_TIME, updatedAt := at,
                                        suspendedAt := ZERO_TIME, endedAt := at,
                                        cancelReason := if i.reason == "" then "platform_cancelled" else i.reason)))
  {
    CancelShape(before, i.epoch, i.now, i.reason);
    if SessionSteps.Cancel(before, i.epoch, i.now, i.reason).Ok? {
      var after := SessionSteps.Cancel(before, i.epoch, i.now, i.reason).value;
      CancelAdmitted(before, i.epoch, i.now, i.reason);
      CancelPrepares(room, i);
      CancelAdmittedIffUnpaused(room, before, after, i);
      CancelStores(db, room, before, CancelledRoom(room, i.closeRoom, Micros(i.now)),
                   PrepareCancel(before, i.epoch, i.now, i.reason).value);
    }
  }

  // ----- in runs -----

  /** The same of a fact never answered before, in every reachable state and from any active row ever stored. */
  lemma ReachableSystemCommitsIff(steps: seq<Step>, worlds: seq<World>, n: nat, before: Session, room: Room,
                                  i: SystemInput)
    requires Run(steps, worlds) && n < |worlds| && before in worlds[n].sessions && before.status == Active
    requires !i.transition.finished && Undecided(worlds[n].db, before.id, i)
    ensures before.id in worlds[n].db.sessions
    ensures if SystemGuard(before, i) && i.source.kind != HostApi
      then SystemOutcome(worlds[n].db, before, i, HandleSystemOnce(worlds[n].db, before, room, i))
      else HandleSystemOnce(worlds[n].db, before, room, i).Err?
  {
    TracksInRun(steps, worlds, n, before);
    NotAppliedInRun(steps, worlds, n, before, i);
    SystemCommitsIff(worlds[n].db, before, room, i);
  }

  lemma NotAppliedInRun(steps: seq<Step>, worlds: seq<World>, n: nat, before: Session, i: SystemInput)
    requires Run(steps, worlds) && n < |worlds| && before in worlds[n].sessions && Undecided(worlds[n].db, before.id, i)
    ensures NotApplied(worlds[n].db, before.id, i)
    ensures before.id in worlds[n].db.sessions && worlds[n].db.sessions[before.id].id == before.id
  {
    RunKeepsInv(steps, worlds, n);
    Recall(worlds[n], before);
  }

  /**
   * In every reachable state and from any row ever stored, a first attempt of an ongoing action commits exactly then.
   */
  lemma ReachableActionCommitsIff(steps: seq<Step>, worlds: seq<World>, n: nat, before: Session, room: Room,
                                  i: ActionInput)
    requires Run(steps, worlds) && n < |worlds| && before in worlds[n].sessions && !i.transition.finished
    requires ActionKey(before.id, i.actor, i.actionId) !in worlds[n].db.actions
    ensures var db := worlds[n].db;
      && before.id in db.sessions && before.room in db.rooms
      && (ExecuteAction(db, before, room, i).Ok? <==>
            ActionGuard(before, i) && db.rooms[before.room].IsParticipant(i.actor) && Unmoved(db, before))
      && (ExecuteAction(db, before, room, i).Ok? ==> ActionWritten(before, i, ExecuteAction(db, before, room, i).value))
  {
    TracksInRun(steps, worlds, n, before);
    ActionCommitsIff(worlds[n].db, before, room, i);
  }
}
