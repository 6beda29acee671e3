/**
 * Retries. Once a command has been answered, every later call for its key gets that answer, a call for the key with
 * another request is refused, and neither changes anything: whatever became of the session meanwhile.
 */
module RuntimeRetries {
  import opened Base
  import opened GameSdk
  import opened GameSession
  import opened SessionSteps
  import opened Commits
  import opened PartyRoom
  import opened RuntimeStore
  import opened RuntimeService
  import opened RuntimeCalls
  import opened RuntimeWorld
  import opened RuntimeRows
  import opened RuntimeLegal
  import opened RuntimeRuns
  import opened RuntimeTheorems
  import opened RuntimeGovernance

  /** What the invariant says about answers, without the rest of it. */
  lemma AnswersInRun(steps: seq<Step>, worlds: seq<World>, i: nat)
    requires Run(steps, worlds) && i < |worlds|
    ensures Answered(worlds[i].db) && OperationsAnswered(worlds[i].db) && TimersAnswered(worlds[i].db)
    ensures Agreement(worlds[i].db) && BatchesHome(worlds[i].db)
  {
    RunKeepsInv(steps, worlds, i);
  }

  // ----- actions -----

  /** The answer to a retry, from the stored receipt and the room as it is at the lookup. */
  function ActionRetryAnswer(looked: Tables, session: Id, i: ActionInput,
                             original: ActionReceipt): Result<ActionAnswer> {
    if !ActionWellFormed(session, i) then Err(InvalidSessionInput)
    else if !StillPlays(looked, session, i.actor) then Err(ParticipantNotActive)
    else if i.request != original.request then Err(IdempotencyConflict)
    else Ok(ActionAnswer(NOTHING, original, true))
  }

  lemma RetriedAction(looked: Tables, db: Tables, before: Session, room: Room, i: ActionInput)
    requires PlayersActed(looked) && Agreement(looked) && PlayersActed(db) && AnswersKept(looked, db)
    requires ActionKey(before.id, i.actor, i.actionId) in looked.actions && ActionsNamed(looked)
    ensures HandleAction(looked, db, before, room, i) ==
      ActionRetryAnswer(looked, before.id, i, looked.actions[ActionKey(before.id, i.actor, i.actionId)])
  {
    var key := ActionKey(before.id, i.actor, i.actionId);
    assert key in db.actions;
    assert SessionAgrees(looked, before.id);
  }

  ghost predicate ActionsNamed(db: Tables) {
    forall k :: k in db.actions ==> db.actions[k].key == k
  }

  lemma ActionsNamedInRun(steps: seq<Step>, worlds: seq<World>, i: nat)
    requires Run(steps, worlds) && i < |worlds|
    ensures ActionsNamed(worlds[i].db)
  {
    RunKeepsInv(steps, worlds, i);
  }

  /**
   * A call for an action answered by state i, looked up at state l and shown from state j, has exactly the retry
   * answer. Neither the session's version nor its status matters, nor any row the caller holds.
   */
  lemma AnsweredActionReplays(steps: seq<Step>, worlds: seq<World>, i: nat, l: nat, j: nat, before: Session, room: Room,
                              action: ActionInput)
    requires Run(steps, worlds) && i <= l <= j < |worlds|
    requires ActionKey(before.id, action.actor, action.actionId) in worlds[i].db.actions
    ensures HandleAction(worlds[l].db, worlds[j].db, before, room, action) ==
      ActionRetryAnswer(worlds[l].db, before.id, action,
                        worlds[i].db.actions[ActionKey(before.id, action.actor, action.actionId)])
  {
    RunKeepsAnswers(steps, worlds, i, l);
    RunKeepsAnswers(steps, worlds, l, j);
    AnswersInRun(steps, worlds, l);
    AnswersInRun(steps, worlds, j);
    ActionsNamedInRun(steps, worlds, l);
    RetriedAction(worlds[l].db, worlds[j].db, before, room, action);
  }

  lemma AnsweredActionCommit(db: Tables, room: Room, next: Room, c: ActionCommit)
    requires c.receipt.key in db.actions
    ensures CommitAction(db, c).Ok? ==>
      CommitAction(db, c).value == ActionAnswer(NOTHING, db.actions[c.receipt.key], true)
    ensures FinishAction(db, room, next, c).Ok? ==>
      FinishAction(db, room, next, c).value == ActionAnswer(NOTHING, db.actions[c.receipt.key], true)
    ensures CommitAction(db, c).Ok? || FinishAction(db, room, next, c).Ok? ==>
      c.receipt.request == db.actions[c.receipt.key].request
  {
  }

  /** What the store itself does with an action it has answered, when the lookup came too early to see it. */
  lemma LateActionCommit(db: Tables, before: Session, room: Room, action: ActionInput)
    requires before.Valid() && ActionKey(before.id, action.actor, action.actionId) in db.actions
    ensures ExecuteAction(db, before, room, action).Ok? ==>
      var original := db.actions[ActionKey(before.id, action.actor, action.actionId)];
      && ExecuteAction(db, before, room, action).value == ActionAnswer(NOTHING, original, true)
      && action.request == original.request
  {
    if PrepareAction(before, action).Ok? {
      ActionPrepared(before, action);
      var next := PrepareFinish(room, before.id, action.execution.now);
      AnsweredActionCommit(db, room, if next.Ok? then next.value else room, PrepareAction(before, action).value);
    }
  }

  lemma AnyActionAnswer(looked: Tables, db: Tables, before: Session, room: Room, i: ActionInput)
    requires before.Valid() && AnswersKept(looked, db) && ActionKey(before.id, i.actor, i.actionId) in db.actions
    requires HandleAction(looked, db, before, room, i).Ok?
    ensures var original := db.actions[ActionKey(before.id, i.actor, i.actionId)];
      && HandleAction(looked, db, before, room, i).value == ActionAnswer(NOTHING, original, true)
      && i.request == original.request
  {
    LateActionCommit(db, before, room, i);
  }

  /** However early a call looked, if it gets any answer after the first commit, it is the original. */
  lemma LaterActionAnswers(steps: seq<Step>, worlds: seq<World>, i: nat, l: nat, j: nat, before: Session, room: Room,
                           action: ActionInput)
    requires Run(steps, worlds) && i <= j < |worlds| && l <= j && before in worlds[j].sessions
    requires ActionKey(before.id, action.actor, action.actionId) in worlds[i].db.actions
    requires HandleAction(worlds[l].db, worlds[j].db, before, room, action).Ok?
    ensures var original := worlds[i].db.actions[ActionKey(before.id, action.actor, action.actionId)];
      && HandleAction(worlds[l].db, worlds[j].db, before, room, action).value == ActionAnswer(NOTHING, original, true)
      && action.request == original.request
  {
    RunKeepsAnswers(steps, worlds, i, j);
    RunKeepsAnswers(steps, worlds, l, j);
    SessionsValidInRun(steps, worlds, j, before);
    AnyActionAnswer(worlds[l].db, worlds[j].db, before, room, action);
  }

  lemma SessionsValidInRun(steps: seq<Step>, worlds: seq<World>, j: nat, before: Session)
    requires Run(steps, worlds) && j < |worlds| && before in worlds[j].sessions
    ensures before.Valid() && before.id in worlds[j].db.sessions
  {
    RunKeepsInv(steps, worlds, j);
    Recall(worlds[j], before);
  }

  // ----- timers -----

  lemma TimerHome(db: Tables, key: TimerKey)
    requires TimersAnswered(db) && BatchesHome(db) && key in db.timers
    ensures key.session in db.sessions
  {
    assert TimerAnswered(db, key);
  }

  lemma RetriedTimer(looked: Tables, db: Tables, before: Session, room: Room, i: TimerInput, original: TimerReceipt)
    requires TimerKey(before.id, i.timerId, i.expectedVersion) in looked.timers && before.id in db.sessions
    requires looked.timers[TimerKey(before.id, i.timerId, i.expectedVersion)] == original
    ensures HandleTimer(looked, db, before, room, i) ==
      if !TimerWellFormed(before.id, i) then Err(InvalidSessionInput) else Ok(TimerAnswer(NOTHING, original, true))
  {
  }

  /**
   * A call for a timer answered by state i and looked up at state l gets that answer, whatever became of the session.
   */
  lemma AnsweredTimerReplays(steps: seq<Step>, worlds: seq<World>, i: nat, l: nat, j: nat, before: Session, room: Room,
                             timer: TimerInput)
    requires Run(steps, worlds) && i <= l <= j < |worlds|
    requires TimerKey(before.id, timer.timerId, timer.expectedVersion) in worlds[i].db.timers
    ensures HandleTimer(worlds[l].db, worlds[j].db, before, room, timer) ==
      if !TimerWellFormed(before.id, timer) then Err(InvalidSessionInput)
      else Ok(TimerAnswer(NOTHING, worlds[i].db.timers[TimerKey(before.id, timer.timerId, timer.expectedVersion)],
                          true))
  {
    RunKeepsAnswers(steps, worlds, i, l);
    RunKeepsAnswers(steps, worlds, l, j);
    AnswersInRun(steps, worlds, j);
    var key := TimerKey(before.id, timer.timerId, timer.expectedVersion);
    TimerHome(worlds[j].db, key);
    RetriedTimer(worlds[l].db, worlds[j].db, before, room, timer, worlds[i].db.timers[key]);
  }

  lemma AnsweredTimerCommit(db: Tables, room: Room, next: Room, c: TimerCommit)
    requires c.receipt.key in db.timers
    ensures CommitTimer(db, c).Ok? ==> CommitTimer(db, c).value == TimerAnswer(NOTHING, db.timers[c.receipt.key], true)
    ensures FinishTimer(db, room, next, c).Ok? ==>
      FinishTimer(db, room, next, c).value == TimerAnswer(NOTHING, db.timers[c.receipt.key], true)
  {
  }

  lemma LateTimerCommit(db: Tables, before: Session, room: Room, timer: TimerInput)
    requires before.Valid() && TimerKey(before.id, timer.timerId, timer.expectedVersion) in db.timers
    ensures ExecuteTimer(db, before, room, timer).Ok? ==>
      ExecuteTimer(db, before, room, timer).value ==
        TimerAnswer(NOTHING, db.timers[TimerKey(before.id, timer.timerId, timer.expectedVersion)], true)
  {
    if PrepareTimer(before, timer).Ok? {
      TimerPrepared(before, timer);
      var next := PrepareFinish(room, before.id, timer.execution.now);
      AnsweredTimerCommit(db, room, if next.Ok? then next.value else room, PrepareTimer(before, timer).value);
    }
  }

  /** The same for a call that looked too early. */
  lemma LaterTimerAnswers(steps: seq<Step>, worlds: seq<World>, i: nat, l: nat, j: nat, before: Session, room: Room,
                          timer: TimerInput)
    requires Run(steps, worlds) && i <= j < |worlds| && l <= j && before in worlds[j].sessions
    requires TimerKey(before.id, timer.timerId, timer.expectedVersion) in worlds[i].db.timers
    requires HandleTimer(worlds[l].db, worlds[j].db, before, room, timer).Ok?
    ensures HandleTimer(worlds[l].db, worlds[j].db, before, room, timer).value ==
      TimerAnswer(NOTHING, worlds[i].db.timers[TimerKey(before.id, timer.timerId, timer.expectedVersion)], true)
  {
    RunKeepsAnswers(steps, worlds, i, j);
    RunKeepsAnswers(steps, worlds, l, j);
    SessionsValidInRun(steps, worlds, j, before);
    LateTimerCommit(worlds[j].db, before, room, timer);
  }

  // ----- system facts -----

  function SystemRetryAnswer(asked: Tables, session: Id, i: SystemInput, original: Operation): Result<SystemAnswer>
    requires original.answer.Some?
  {
    if !SystemWellFormed(session, i) then Err(InvalidSessionInput)
    else if HostRefusal(asked, session, i).Some? then Err(HostRefusal(asked, session, i).value)
    else if i.source != original.source || i.request != original.request then Err(IdempotencyConflict)
    else Ok(SystemAnswer(NOTHING, original.answer.value, true, false))
  }

  lemma OperationHome(db: Tables, k: OperationKey)
    requires OperationsAnswered(db) && NoopsEnded(db) && BatchesHome(db) && k in db.operations
    requires db.operations[k].answer.Some?
    ensures k.session in db.sessions
  {
    assert AnsweredUnapplied(db, k, db.operations[k]);
  }

  lemma RetriedSystem(asked: Tables, looked: Tables, session: Id, i: SystemInput)
    requires OperationKey(session, i.operation) in looked.operations && session in looked.sessions
    requires looked.operations[OperationKey(session, i.operation)].answer.Some?
    ensures EarlyAnswer(asked, looked, session, i) ==
      Some(SystemRetryAnswer(asked, session, i, looked.operations[OperationKey(session, i.operation)]))
  {
  }

  /** A call for an answered operation takes no round and gets exactly the retry answer; a host must still be host. */
  lemma AnsweredSystemReplays(steps: seq<Step>, worlds: seq<World>, i: nat, l: nat, asked: Tables, session: Id,
                              handle: Handler,
                              rounds: nat -> Round, system: SystemInput, r: Result<SystemAnswer>, taken: nat)
    requires Run(steps, worlds) && i <= l < |worlds|
    requires OperationKey(session, system.operation) in worlds[i].db.operations
    requires worlds[i].db.operations[OperationKey(session, system.operation)].answer.Some?
    requires SystemHandled(asked, worlds[l].db, session, handle, rounds, system, r, taken)
    ensures taken == 0
    ensures r ==
      SystemRetryAnswer(asked, session, system, worlds[i].db.operations[OperationKey(session, system.operation)])
  {
    RunKeepsAnswers(steps, worlds, i, l);
    AnswersInRun(steps, worlds, l);
    OperationHome(worlds[l].db, OperationKey(session, system.operation));
    RetriedSystem(asked, worlds[l].db, session, system);
  }

  lemma LockFindsOperation(db: Tables, key: SystemKey, request: Digest)
    requires OperationKey(key.session, key.operation) in db.operations
    ensures var original := db.operations[OperationKey(key.session, key.operation)];
      LockOperation(db, key, request) ==
        (if original.source == key.source && original.request == request then Ok(original)
         else Err(IdempotencyConflict))
  {
  }

  /** The answer that an answered operation must get. */
  predicate RepeatsAnswer(original: Operation, source: SystemSource, request: Digest, a: SystemAnswer) {
    && original.answer.Some? && a == SystemAnswer(NOTHING, original.answer.value, true, false)
    && request == original.request && source == original.source
  }

  lemma AnsweredSystemCommit(db: Tables, c: SystemCommit, noopResult: Digest)
    requires OperationKey(c.receipt.key.session, c.receipt.key.operation) in db.operations
    requires CommitSystem(db, c, noopResult).Ok?
    requires db.operations[OperationKey(c.receipt.key.session, c.receipt.key.operation)].answer.Some?
    ensures RepeatsAnswer(db.operations[OperationKey(c.receipt.key.session, c.receipt.key.operation)],
                          c.receipt.key.source, c.receipt.request, CommitSystem(db, c, noopResult).value)
  {
    LockFindsOperation(db, c.receipt.key, c.receipt.request);
  }

  lemma AnsweredFinishSystem(db: Tables, room: Room, next: Room, actor: Id, c: SystemCommit, noopResult: Digest)
    requires OperationKey(c.receipt.key.session, c.receipt.key.operation) in db.operations
    requires FinishSystem(db, room, next, actor, c, noopResult).Ok?
    requires db.operations[OperationKey(c.receipt.key.session, c.receipt.key.operation)].answer.Some?
    ensures RepeatsAnswer(db.operations[OperationKey(c.receipt.key.session, c.receipt.key.operation)],
                          c.receipt.key.source, c.receipt.request, FinishSystem(db, room, next, actor, c,
                                                                                noopResult).value)
  {
    if CommitSystem(db, c, noopResult).Ok? { AnsweredSystemCommit(db, c, noopResult); }
  }

  lemma LateSystemRound(db: Tables, before: Session, room: Room, system: SystemInput)
    requires before.Valid() && OperationKey(before.id, system.operation) in db.operations
    requires db.operations[OperationKey(before.id, system.operation)].answer.Some?
    requires HandleSystemOnce(db, before, room, system).Ok?
    ensures RepeatsAnswer(db.operations[OperationKey(before.id, system.operation)], system.source, system.request,
                          HandleSystemOnce(db, before, room, system).value)
  {
    if before.status.Terminal() {
      LockFindsOperation(db, SystemKey(before.id, system.operation, system.source), system.request);
    } else {
      SystemPrepared(before, system);
      var c := PrepareSystem(before, system).value;
      if c.after.status == Finished {
        AnsweredFinishSystem(db, room, PrepareFinish(room, before.id, system.execution.now).value,
                             system.source.requestedBy, c, system.noopResult);
      } else {
        AnsweredSystemCommit(db, c, system.noopResult);
      }
    }
  }

  /** A round that started before the first answer gets it too, if it gets any, also after the game has ended. */
  lemma LaterSystemAnswers(steps: seq<Step>, worlds: seq<World>, i: nat, j: nat, before: Session, room: Room,
                           system: SystemInput)
    requires Run(steps, worlds) && i <= j < |worlds| && before in worlds[j].sessions
    requires OperationKey(before.id, system.operation) in worlds[i].db.operations
    requires worlds[i].db.operations[OperationKey(before.id, system.operation)].answer.Some?
    requires HandleSystemOnce(worlds[j].db, before, room, system).Ok?
    ensures RepeatsAnswer(worlds[i].db.operations[OperationKey(before.id, system.operation)], system.source,
                          system.request,
                          HandleSystemOnce(worlds[j].db, before, room, system).value)
  {
    RunKeepsAnswers(steps, worlds, i, j);
    SessionsValidInRun(steps, worlds, j, before);
    LateSystemRound(worlds[j].db, before, room, system);
  }

  /** Any answer but a retry is on record for its source event: what an acknowledgement relies on. */
  lemma RoundIsOnRecord(db: Tables, before: Session, room: Room, i: SystemInput)
    requires before.Valid() && HandleSystemOnce(db, before, room, i).Ok?
    requires !HandleSystemOnce(db, before, room, i).value.retry
    ensures var a := HandleSystemOnce(db, before, room, i).value;
      AnsweredEvent(db.Write(a.writes), InboxKey(before.id, i.source.eventId), a.receipt.version)
  {
    var a := HandleSystemOnce(db, before, room, i).value;
    if before.status.Terminal() {
      NoopOnRecord(db, SystemKey(before.id, i.operation, i.source), i.request, i.noopResult, i.execution.now);
    } else {
      SystemPrepared(before, i);
      var c := PrepareSystem(before, i).value;
      if c.after.status == Finished {
        FinishOnRecord(db, room, PrepareFinish(room, before.id, i.execution.now).value, i.source.requestedBy, c,
                       i.noopResult);
      } else {
        CommitOnRecord(db, c, i.noopResult);
      }
    }
  }

  predicate OnRecord(db: Tables, key: SystemKey, a: SystemAnswer) {
    var k := OperationKey(key.session, key.operation);
    k in db.operations && db.operations[k].source == key.source && db.operations[k].answer == Some(a.receipt)
  }

  lemma RecordAnswers(db: Tables, key: SystemKey, a: SystemAnswer)
    requires OnRecord(db, key, a)
    ensures AnsweredEvent(db, InboxKey(key.session, key.source.eventId), a.receipt.version)
  {
    var k := OperationKey(key.session, key.operation);
    assert k in db.operations && k.session == key.session;
  }

  lemma NoopOnRecord(db: Tables, key: SystemKey, request: Digest, result: Digest, at: Reading)
    requires CompleteSystemNoop(db, key, request, result, at).Ok?
    ensures var a := CompleteSystemNoop(db, key, request, result, at).value;
      AnsweredEvent(db.Write(a.writes), InboxKey(key.session, key.source.eventId), a.receipt.version)
  {
    var a := CompleteSystemNoop(db, key, request, result, at).value;
    assert OnRecord(db.Write(a.writes), key, a);
    RecordAnswers(db.Write(a.writes), key, a);
  }

  lemma CommitRecords(db: Tables, c: SystemCommit, noopResult: Digest)
    requires CommitSystem(db, c, noopResult).Ok? && !CommitSystem(db, c, noopResult).value.retry
    ensures OnRecord(db.Write(CommitSystem(db, c, noopResult).value.writes), c.receipt.key,
                     CommitSystem(db, c, noopResult).value)
  {
  }

  lemma CommitOnRecord(db: Tables, c: SystemCommit, noopResult: Digest)
    requires CommitSystem(db, c, noopResult).Ok? && !CommitSystem(db, c, noopResult).value.retry
    ensures var a := CommitSystem(db, c, noopResult).value;
      AnsweredEvent(db.Write(a.writes), InboxKey(c.receipt.key.session, c.receipt.key.source.eventId),
                    a.receipt.version)
  {
    var a := CommitSystem(db, c, noopResult).value;
    CommitRecords(db, c, noopResult);
    RecordAnswers(db.Write(a.writes), c.receipt.key, a);
  }

  lemma FinishCases(db: Tables, room: Room, next: Room, actor: Id, c: SystemCommit, noopResult: Digest)
    requires FinishSystem(db, room, next, actor, c, noopResult).Ok?
    requires !FinishSystem(db, room, next, actor, c, noopResult).value.retry
    ensures var a := FinishSystem(db, room, next, actor, c, noopResult).value; var b := CommitSystem(db, c, noopResult);
      || (a.writes == NOTHING && OnRecord(db, c.receipt.key, a))
      || (b.Ok? && !b.value.retry && a.receipt == b.value.receipt && a.writes.operations == b.value.writes.operations)
  {
  }

  lemma FinishOnRecord(db: Tables, room: Room, next: Room, actor: Id, c: SystemCommit, noopResult: Digest)
    requires FinishSystem(db, room, next, actor, c, noopResult).Ok?
    requires !FinishSystem(db, room, next, actor, c, noopResult).value.retry
    ensures var a := FinishSystem(db, room, next, actor, c, noopResult).value;
      AnsweredEvent(db.Write(a.writes), InboxKey(c.receipt.key.session, c.receipt.key.source.eventId),
                    a.receipt.version)
  {
    var a := FinishSystem(db, room, next, actor, c, noopResult).value;
    FinishCases(db, room, next, actor, c, noopResult);
    if !OnRecord(db, c.receipt.key, a) {
      CommitRecords(db, c, noopResult);
    }
    RecordAnswers(db.Write(a.writes), c.receipt.key, a);
  }

  // ----- start -----

  /** A claim of the stored row of an unowned session, at a time that was pushed past it before truncation. */
  lemma BumpedClaimIff(db: Tables, read: Session, now: Reading)
    requires read.Valid() && read.id in db.sessions && db.sessions[read.id] == read && read.epoch == 0
    requires read.status == Active && read.Version() == 1
    ensures Claim(db, read, 0, BumpedTime(now, read.updatedAt)).Ok? <==>
      !(Nanos(read.updatedAt) < now < Nanos(read.updatedAt + 1))
    ensures Claim(db, read, 0, BumpedTime(now, read.updatedAt)).Ok? ==>
      var at := Micros(BumpedTime(now, read.updatedAt));
      Claim(db, read, 0,
          BumpedTime(now,
                     read.updatedAt)).value == NOTHING.(sessions := map[read.id := read.(epoch := 1, updatedAt := at)])
  {
    var at := BumpedTime(now, read.updatedAt);
    BumpedTimeTooEarly(now, read.updatedAt);
    AcquireShape(read, 0, at);
    if AcquireOwnership(read, 0, at).Ok? { ClaimRowRestores(read, Micros(at)); }
  }

  /** A start whose commit is stored can always be claimed one microsecond later. */
  lemma FreshStartIsClaimed(db: Tables, s: Session)
    requires s.Valid() && s.id in db.sessions && db.sessions[s.id] == s && s.epoch == 0 && s.status == Active
    requires s.Version() == 1 && s.updatedAt == s.startedAt
    ensures Claim(db, s, 0, Nanos(s.startedAt + 1)).Ok?
  {
    BumpedClaimIff(db, s, 0);
  }

  lemma RetriedStart(looked: Tables, db: Tables, read: Session, room: Room, i: StartInput, original: StartReceipt)
    requires StartKey(i.actor, room.id, i.operation) in looked.starts
    requires looked.starts[StartKey(i.actor, room.id, i.operation)] == original
    requires original.key == StartKey(i.actor, room.id, i.operation) && read.room == room.id
    ensures Start(looked, db, read, room, i) ==
      if !StartWellFormed(room.id, i) then Err(InvalidSessionInput)
      else if i.request != original.request then Err(IdempotencyConflict)
      else if read.epoch > 0 then Ok(StartAnswer(NOTHING, original.session, true))
      else match Claim(db, read, 0, BumpedTime(i.now, read.updatedAt))
        case Err(e) => Err(e)
        case Ok(writes) => Ok(StartAnswer(writes, original.session, true))
  {
  }

  lemma StartedSession(steps: seq<Step>, worlds: seq<World>, i: nat, k: StartKey)
    requires Run(steps, worlds) && i < |worlds| && k in worlds[i].db.starts
    ensures var db := worlds[i].db; var r := db.starts[k];
      && r.key == k && r.session in db.sessions && db.sessions[r.session].room == k.room
      && db.sessions[r.session].id == r.session
      && db.sessions[r.session].Valid()
      && (db.sessions[r.session].epoch == 0 ==>
            db.sessions[r.session].status == Active && db.sessions[r.session].Version() == 1)
  {
    RunKeepsInv(steps, worlds, i);
    StartedRow(worlds[i], k);
  }

  lemma StartedRow(w: World, k: StartKey)
    requires StartsAnswered(w.db) && UnownedFresh(w.db) && AllValid(w) && SessionsOk(w) && k in w.db.starts
    ensures var r := w.db.starts[k];
      && r.key == k && r.session in w.db.sessions && w.db.sessions[r.session].room == k.room
      && w.db.sessions[r.session].id == r.session
      && w.db.sessions[r.session].Valid()
      && (w.db.sessions[r.session].epoch == 0 ==>
            w.db.sessions[r.session].status == Active && w.db.sessions[r.session].Version() == 1)
  {
    assert StartAnswered(w.db, k);
    assert w.db.sessions[w.db.starts[k].session] in w.sessions;
  }

  /**
   * A start answered by state i names its session for ever. A retry looked up at state l, with the session as stored at
   * state j, gets that session: as it is if it is owned, and otherwise claimed, unless the clock reads strictly inside
   * the microsecond after the start.
   */
  lemma AnsweredStartReplays(steps: seq<Step>, worlds: seq<World>, i: nat, l: nat, j: nat, room: Room,
                             start: StartInput)
    requires Run(steps, worlds) && i <= l <= j < |worlds|
    requires StartKey(start.actor, room.id, start.operation) in worlds[i].db.starts
    requires StartWellFormed(room.id, start)
    ensures var original := worlds[i].db.starts[StartKey(start.actor, room.id, start.operation)];
      && original.session in worlds[j].db.sessions
      && var read := worlds[j].db.sessions[original.session];
         var r := Start(worlds[l].db, worlds[j].db, read, room, start);
         if start.request != original.request then r == Err(IdempotencyConflict)
         else if read.epoch > 0 then r == Ok(StartAnswer(NOTHING, original.session, true))
         else
           && (r.Ok? <==> !(Nanos(read.updatedAt) < start.now < Nanos(read.updatedAt + 1)))
           && (r.Ok? ==> r.value.session == original.session && r.value.replayed)
  {
    RunKeepsAnswers(steps, worlds, i, l);
    RunKeepsAnswers(steps, worlds, l, j);
    var key := StartKey(start.actor, room.id, start.operation);
    StartedSession(steps, worlds, j, key);
    var original := worlds[i].db.starts[key];
    var read := worlds[j].db.sessions[original.session];
    RetriedStart(worlds[l].db, worlds[j].db, read, room, start, original);
    if read.epoch == 0 { BumpedClaimIff(worlds[j].db, read, start.now); }
  }

  // ----- calls within runs -----

  /** Some run goes on from this one and ends with these tables. */
  ghost predicate Continues(steps: seq<Step>, worlds: seq<World>, db: Tables) {
    exists s: seq<Step>, ws: seq<World> :: Run(s, ws) && steps <= s && worlds <= ws && ws[|ws| - 1].db == db
  }

  lemma StillRunsAt(steps: seq<Step>, worlds: seq<World>, s: seq<Step>, ws: seq<World>, i: nat)
    requires Run(steps, worlds) && i < |steps| && |ws| == |s| + 1 && steps <= s && worlds <= ws
    ensures RunsAt(s, ws, i)
  {
    assert RunsAt(steps, worlds, i);
    assert s[i] == steps[i] && ws[i] == worlds[i] && ws[i + 1] == worlds[i + 1];
  }

  lemma LastRunsAt(s: seq<Step>, ws: seq<World>)
    requires 0 < |s| && |ws| == |s| + 1 && Allowed(ws[|s| - 1], s[|s| - 1])
    requires ws[|s|] == Next(ws[|s| - 1], s[|s| - 1])
    ensures RunsAt(s, ws, |s| - 1)
  {
  }

  lemma RunExtends(steps: seq<Step>, worlds: seq<World>, step: Step)
    requires Run(steps, worlds) && Allowed(worlds[|steps|], step)
    ensures Run(steps + [step], worlds + [Next(worlds[|steps|], step)])
  {
    var s, ws := steps + [step], worlds + [Next(worlds[|steps|], step)];
    forall i | 0 <= i < |s| ensures RunsAt(s, ws, i) {
      if i < |steps| { StillRunsAt(steps, worlds, s, ws, i); } else { LastRunsAt(s, ws); }
    }
  }

  lemma EndsWith(steps: seq<Step>, worlds: seq<World>, s: seq<Step>, ws: seq<World>)
    requires Run(s, ws) && steps <= s && worlds <= ws
    ensures Continues(steps, worlds, ws[|ws| - 1].db)
  {
  }

  lemma NothingWritten(db: Tables)
    ensures db.Write(NOTHING) == db
  {
    assert db.rooms + map[] == db.rooms && db.sessions + map[] == db.sessions && db.batches + map[] == db.batches;
    assert db.actions + map[] == db.actions && db.timers + map[] == db.timers;
    assert db.operations + map[] == db.operations && db.starts + map[] == db.starts && db.inbox + map[] == db.inbox;
  }

  /** The world lets this step happen, and it writes this. */
  ghost predicate Takes(w: World, step: Step, writes: Tables) {
    Allowed(w, step) && Perform(w.db, step) == Ok(writes)
  }

  lemma WritesContinue(steps: seq<Step>, worlds: seq<World>, step: Step, writes: Tables)
    requires Run(steps, worlds) && Takes(worlds[|steps|], step, writes)
    ensures Continues(steps, worlds, worlds[|steps|].db.Write(writes))
  {
    RunExtends(steps, worlds, step);
    EndsWith(steps, worlds, steps + [step], worlds + [Next(worlds[|steps|], step)]);
  }

  lemma NothingContinues(steps: seq<Step>, worlds: seq<World>)
    requires Run(steps, worlds)
    ensures Continues(steps, worlds, worlds[|steps|].db.Write(NOTHING))
  {
    NothingWritten(worlds[|steps|].db);
    EndsWith(steps, worlds, steps, worlds);
  }

  lemma ActionTaken(w: World, before: Session, room: Room, action: ActionInput)
    requires before in w.sessions && room in w.rooms && ExecuteAction(w.db, before, room, action).Ok?
    ensures Takes(w, Acting(before, room, action), ExecuteAction(w.db, before, room, action).value.writes)
  {
  }

  /**
   * A call for an action, whenever its lookup was, leaves tables that some continuation of the run has.
   * So whatever holds
   * in every run holds also where callers make whole calls.
   */
  lemma ActionCallContinues(steps: seq<Step>, worlds: seq<World>, looked: Tables, before: Session, room: Room,
                            action: ActionInput)
    requires Run(steps, worlds) && before in worlds[|steps|].sessions && room in worlds[|steps|].rooms
    requires HandleAction(looked, worlds[|steps|].db, before, room, action).Ok?
    ensures Continues(steps, worlds, worlds[|steps|].db.Write(
              HandleAction(looked, worlds[|steps|].db, before, room, action).value.writes))
  {
    var a := HandleAction(looked, worlds[|steps|].db, before, room, action);
    if a == ExecuteAction(worlds[|steps|].db, before, room, action) {
      ActionTaken(worlds[|steps|], before, room, action);
      WritesContinue(steps, worlds, Acting(before, room, action), a.value.writes);
    } else {
      NothingContinues(steps, worlds);
    }
  }

  lemma TimerTaken(w: World, before: Session, room: Room, timer: TimerInput)
    requires before in w.sessions && room in w.rooms && ExecuteTimer(w.db, before, room, timer).Ok?
    ensures Takes(w, Firing(before, room, timer), ExecuteTimer(w.db, before, room, timer).value.writes)
  {
  }

  lemma TimerCallContinues(steps: seq<Step>, worlds: seq<World>, looked: Tables, before: Session, room: Room,
                           timer: TimerInput)
    requires Run(steps, worlds) && before in worlds[|steps|].sessions && room in worlds[|steps|].rooms
    requires HandleTimer(looked, worlds[|steps|].db, before, room, timer).Ok?
    ensures Continues(steps, worlds, worlds[|steps|].db.Write(
              HandleTimer(looked, worlds[|steps|].db, before, room, timer).value.writes))
  {
    var a := HandleTimer(looked, worlds[|steps|].db, before, room, timer);
    if a == ExecuteTimer(worlds[|steps|].db, before, room, timer) {
      TimerTaken(worlds[|steps|], before, room, timer);
      WritesContinue(steps, worlds, Firing(before, room, timer), a.value.writes);
    } else {
      NothingContinues(steps, worlds);
    }
  }

  lemma SystemTaken(w: World, before: Session, room: Room, system: SystemInput)
    requires before in w.sessions && room in w.rooms && HandleSystemOnce(w.db, before, room, system).Ok?
    ensures Takes(w, Applying(before, room, system), HandleSystemOnce(w.db, before, room, system).value.writes)
  {
  }

  /** The same for each round of a call for a system fact. */
  lemma SystemRoundContinues(steps: seq<Step>, worlds: seq<World>, system: SystemInput, round: Round)
    requires Run(steps, worlds) && round.db == worlds[|steps|].db
    requires round.before in worlds[|steps|].sessions && round.room in worlds[|steps|].rooms
    requires AnswerOf(system, round).Ok?
    ensures Continues(steps, worlds, worlds[|steps|].db.Write(AnswerOf(system, round).value.writes))
  {
    SystemTaken(worlds[|steps|], round.before, round.room, InputOf(system, round));
    WritesContinue(steps, worlds, Applying(round.before, round.room, InputOf(system, round)),
                   AnswerOf(system, round).value.writes);
  }

  lemma ClaimContinues(steps: seq<Step>, worlds: seq<World>, read: Session, at: Reading)
    requires Run(steps, worlds) && read in worlds[|steps|].sessions
    requires Claim(worlds[|steps|].db, read, 0, at).Ok?
    ensures Continues(steps, worlds, worlds[|steps|].db.Write(Claim(worlds[|steps|].db, read, 0, at).value))
  {
    WritesContinue(steps, worlds, Claiming(read, 0, at), Claim(worlds[|steps|].db, read, 0, at).value);
  }

  /** The same for a retried start, which writes nothing or claims the session. A first start is a step by itself. */
  lemma RetriedStartContinues(steps: seq<Step>, worlds: seq<World>, read: Session, receipt: StartReceipt, now: Reading)
    requires Run(steps, worlds) && read in worlds[|steps|].sessions
    requires ReplayStart(worlds[|steps|].db, read, receipt, now).Ok?
    ensures Continues(steps, worlds, worlds[|steps|].db.Write(
              ReplayStart(worlds[|steps|].db, read, receipt, now).value.writes))
  {
    if read.epoch > 0 {
      NothingContinues(steps, worlds);
    } else {
      ClaimContinues(steps, worlds, read, BumpedTime(now, read.updatedAt));
    }
  }
}
