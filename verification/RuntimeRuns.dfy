/**
 * Runs: any number of runtimes, each holding values it read at some time, issue commands one store call at a
 * time, in any order, with retries and crashes anywhere. Every run keeps the invariant.
 */
module RuntimeRuns {
  import opened Base
  import opened GameSdk
  import opened GameSession
  import opened SessionSteps
  import opened Commits
  import opened PartyRoom
  import opened RoomCommands
  import opened RoomLaws
  import opened RuntimeStore
  import opened RuntimeService
  import opened RuntimeWorld
  import opened RuntimeRows
  import opened RuntimeLegal

  datatype Step =
    | Opening(id: Id, host: Id, code: string, visibility: Visibility, capacity: nat, participant: Admission,
              spectator: Admission, at: Reading)
    | Editing(room: Room, command: Command)
    | Removing(room: Room, authority: Authority, user: Id, expected: RoomVersions, at: Reading, eventId: Id,
               payload: Digest)
    | Starting(room: Room, start: StartInput)
    | Claiming(before: Session, epoch: nat, at: Reading)
    | Acting(before: Session, room: Room, action: ActionInput)
    | Firing(before: Session, room: Room, timer: TimerInput)
    | Applying(before: Session, room: Room, system: SystemInput)
    | Suspending(before: Session, epoch: nat, now: Reading)
    | ResumingOnly(before: Session, epoch: nat, now: Reading, adjustment: Adjustment)
    | Pausing(room: Room, before: Session, actor: Id, pauseId: Id, requestId: Id, expected: RoomVersions, epoch: nat,
              now: Reading)
    | Resuming(room: Room, before: Session, actor: Id, expected: RoomVersions, epoch: nat, now: Reading,
               adjustment: Adjustment)
    | Cancelling(room: Room, before: Session, cancel: CancelInput)
    | Acknowledging(key: InboxKey, payload: Digest, version: nat)
  {
    /** Commands that act on a session and on a room. */
    predicate HoldsSession() {
      || Claiming? || Acting? || Firing? || Applying? || Suspending? || ResumingOnly? || Pausing? || Resuming?
      || Cancelling?
    }

    predicate HoldsRoom() {
      Editing? || Removing? || Starting? || Acting? || Firing? || Applying? || Pausing? || Resuming? || Cancelling?
    }
  }

  /** Commands that claim a session or run its engine. */
  predicate EngineStep(step: Step) { step.Claiming? || step.Acting? || step.Firing? || step.Applying? }

  /** Commands that change a room or start a game in it. */
  predicate RoomStep(step: Step) {
    step.Opening? || step.Editing? || step.Removing? || step.Starting? || step.Acknowledging?
  }

  function PerformEngine(db: Tables, step: Step): Result<Tables>
    requires EngineStep(step)
  {
    match step
    case Claiming(before, epoch, at) => Claim(db, before, epoch, at)
    case Acting(before, room, action) =>
      (match ExecuteAction(db, before, room, action) case Ok(a) => Ok(a.writes) case Err(e) => Err(e))
    case Firing(before, room, timer) =>
      (match ExecuteTimer(db, before, room, timer) case Ok(a) => Ok(a.writes) case Err(e) => Err(e))
    case Applying(before, room, system) =>
      (match HandleSystemOnce(db, before, room, system) case Ok(a) => Ok(a.writes) case Err(e) => Err(e))
  }

  function PerformRoom(db: Tables, step: Step): Result<Tables>
    requires RoomStep(step)
  {
    match step
    case Opening(id, host, code, visibility, capacity, participant, spectator, at) =>
      OpenRoom(db, id, host, code, visibility, capacity, participant, spectator, at)
    case Editing(room, command) => EditRoom(db, room, command)
    case Removing(room, authority, user, expected, at, eventId, payload) =>
      RemovePlayer(db, room, authority, user, expected, at, eventId, payload)
    case Starting(room, start) => (match ExecuteStart(db, room, start) case Ok(a) => Ok(a.writes) case Err(e) => Err(e))
    case Acknowledging(key, payload, version) => CompleteInbox(db, key, payload, version)
  }

  function PerformGovernor(db: Tables, step: Step): Result<Tables>
    requires !EngineStep(step) && !RoomStep(step)
  {
    match step
    case Suspending(before, epoch, now) => SuspendSession(db, before, epoch, now)
    case ResumingOnly(before, epoch, now, adjustment) => ResumeOnly(db, before, epoch, now, adjustment)
    case Pausing(room, before, actor, pauseId, requestId, expected, epoch, now) =>
      PauseRoom(db, room, before, actor, pauseId, requestId, expected, epoch, now)
    case Resuming(room, before, actor, expected, epoch, now, adjustment) =>
      ResumeRoom(db, room, before, actor, expected, epoch, now, adjustment)
    case Cancelling(room, before, cancel) => RuntimeService.Cancel(db, room, before, cancel)
  }

  function Perform(db: Tables, step: Step): Result<Tables> {
    if EngineStep(step)
    then PerformEngine(db, step) else if RoomStep(step) then PerformRoom(db, step) else PerformGovernor(db, step)
  }

  function Next(w: World, step: Step): World {
    match Perform(w.db, step)
    case Ok(writes) => After(w, writes)
    case Err(_) => w
  }

  /**
   * A command works on values that the store returned at some time, however long ago. A room fact is acknowledged with
   * the version of an answer that its operation got.
   */
  ghost predicate Allowed(w: World, step: Step) {
    && (step.HoldsSession() ==> step.before in w.sessions) && (step.HoldsRoom() ==> step.room in w.rooms)
    && (step.Acknowledging? ==> AnsweredEvent(w.db, step.key, step.version))
  }

  /** A session-only resume whose room is paused when it commits. */
  predicate Ungoverned(db: Tables, step: Step) {
    step.ResumingOnly? && step.before.room in db.rooms && db.rooms[step.before.room].pause != NO_PAUSE
  }

  const EMPTY_WORLD: World := World(NOTHING, {}, {})

  ghost predicate RunsAt(steps: seq<Step>, worlds: seq<World>, i: nat)
    requires i < |steps| < |worlds|
  {
    Allowed(worlds[i], steps[i]) && worlds[i + 1] == Next(worlds[i], steps[i])
  }

  ghost predicate Run(steps: seq<Step>, worlds: seq<World>) {
    && |worlds| == |steps| + 1 && worlds[0] == EMPTY_WORLD
    && forall i :: 0 <= i < |steps| ==> RunsAt(steps, worlds, i)
  }

  // ----- what the service prepares -----

  lemma ActionPrepared(before: Session, i: ActionInput)
    requires before.Valid() && PrepareAction(before, i).Ok?
    ensures var c := PrepareAction(before, i).value;
      && c.before == before && Advances(before, c.after, c.batch)
      && NewActionCommit(c.before, c.after, c.batch, c.receipt, c.events).Ok?
      && c.receipt.key == ActionKey(before.id, i.actor, i.actionId) && c.receipt.request == i.request
      && i.epoch == before.epoch
      && c.batch.committedAt == Micros(i.execution.now)
  {
    ApplyTransitionAdvances(before, i.batchId, i.epoch, ByAction(i.actor, i.actionId), i.execution, i.message,
                            i.transition);
  }

  lemma TimerPrepared(before: Session, i: TimerInput)
    requires before.Valid() && PrepareTimer(before, i).Ok?
    ensures var c := PrepareTimer(before, i).value;
      && c.before == before && Advances(before, c.after, c.batch)
      && NewTimerCommit(c.before, c.after, c.batch, c.receipt, c.events).Ok?
      && c.receipt.key == TimerKey(before.id, i.timerId, i.expectedVersion) && i.epoch == before.epoch
      && c.batch.committedAt == Micros(i.execution.now)
  {
    ApplyTransitionAdvances(before, i.batchId, i.epoch, ByTimer(i.timerId), i.execution, i.message, i.transition);
  }

  lemma SystemPrepared(before: Session, i: SystemInput)
    requires before.Valid() && PrepareSystem(before, i).Ok?
    ensures var c := PrepareSystem(before, i).value;
      && c.before == before && Advances(before, c.after, c.batch)
      && NewSystemCommit(c.before, c.after, c.batch, c.receipt, c.events).Ok?
      && c.receipt.key == SystemKey(before.id, i.operation, i.source) && c.receipt.request == i.request
      && i.epoch == before.epoch
      && c.batch.committedAt == Micros(i.execution.now)
  {
    ApplyTransitionAdvances(before, i.batchId, i.epoch, BySystem(i.operation, i.source, i.request), i.execution,
                            i.message, i.transition);
  }

  // ----- each command writes legal rows -----

  lemma ActingLegal(db: Tables, before: Session, room: Room, i: ActionInput)
    requires Agreement(db) && Known(db, before) && before.Valid() && room.Reachable()
    requires ExecuteAction(db, before, room, i).Ok?
    ensures Legal(db, ExecuteAction(db, before, room, i).value.writes)
    ensures PauseAgreement(db) ==> LegalPauses(db, ExecuteAction(db, before, room, i).value.writes)
  {
    ActionPrepared(before, i);
    var c := PrepareAction(before, i).value;
    if c.after.status == Finished {
      FinishPrepared(room, before.id, i.execution.now);
      FinishActionLegal(db, room, PrepareFinish(room, before.id, i.execution.now).value, c);
    } else {
      CommitActionLegal(db, c);
    }
  }

  lemma FiringLegal(db: Tables, before: Session, room: Room, i: TimerInput)
    requires Agreement(db) && Known(db, before) && before.Valid() && room.Reachable()
    requires ExecuteTimer(db, before, room, i).Ok?
    ensures Legal(db, ExecuteTimer(db, before, room, i).value.writes)
    ensures PauseAgreement(db) ==> LegalPauses(db, ExecuteTimer(db, before, room, i).value.writes)
  {
    TimerPrepared(before, i);
    var c := PrepareTimer(before, i).value;
    if c.after.status == Finished {
      FinishPrepared(room, before.id, i.execution.now);
      FinishTimerLegal(db, room, PrepareFinish(room, before.id, i.execution.now).value, c);
    } else {
      CommitTimerLegal(db, c);
    }
  }

  lemma NoopLegal(db: Tables, key: SystemKey, request: Digest, result: Digest, at: Reading)
    requires OperationsAnswered(db) && CompleteSystemNoop(db, key, request, result, at).Ok?
    ensures Legal(db, CompleteSystemNoop(db, key, request, result, at).value.writes)
    ensures LegalPauses(db, CompleteSystemNoop(db, key, request, result, at).value.writes)
  {
    var a := CompleteSystemNoop(db, key, request, result, at).value;
    var op := LockOperation(db, key, request).value;
    if op.answer.Some? {
      NothingLegal(db);
    } else {
      OperationAloneLegal(db, key, request, op, op.(answer := Some(a.receipt)));
      OperationsOnlyLegal(db, a.writes);
    }
  }

  lemma ApplyingLegal(db: Tables, before: Session, room: Room, i: SystemInput)
    requires Agreement(db) && OperationsAnswered(db) && Known(db, before) && before.Valid() && room.Reachable()
    requires HandleSystemOnce(db, before, room, i).Ok?
    ensures Legal(db, HandleSystemOnce(db, before, room, i).value.writes)
    ensures PauseAgreement(db) ==> LegalPauses(db, HandleSystemOnce(db, before, room, i).value.writes)
  {
    if before.status.Terminal() {
      NoopLegal(db, SystemKey(before.id, i.operation, i.source), i.request, i.noopResult, i.execution.now);
    } else {
      SystemPrepared(before, i);
      var c := PrepareSystem(before, i).value;
      if c.after.status == Finished {
        FinishPrepared(room, before.id, i.execution.now);
        FinishSystemLegal(db, room, PrepareFinish(room, before.id, i.execution.now).value, i.source.requestedBy, c,
                          i.noopResult);
      } else {
        CommitSystemLegal(db, c, i.noopResult);
      }
    }
  }

  lemma ClaimingLegal(db: Tables, before: Session, epoch: nat, at: Reading)
    requires Agreement(db) && Known(db, before) && before.Valid() && db.sessions[before.id].Valid()
    requires db.sessions[before.id].id == before.id
    requires Claim(db, before, epoch, at).Ok?
    ensures Legal(db, Claim(db, before, epoch, at).value)
    ensures PauseAgreement(db) ==> LegalPauses(db, Claim(db, before, epoch, at).value)
  {
    AcquireShape(before, epoch, at);
    ClaimLegal(db, before, AcquireOwnership(before, epoch, at).value);
  }

  lemma SuspendPrepared(before: Session, epoch: nat, at: Reading)
    requires before.Valid() && PrepareSuspend(before, epoch, at).Ok?
    ensures var c := PrepareSuspend(before, epoch, at).value;
      && c.before == before && c.after.Valid() && NewLifecycleCommit(c.before, c.after, c.events).Ok?
      && c.after == before.(status := Suspended, updatedAt := Micros(at), suspendedAt := Micros(at))
      && before.status == Active
      && epoch == before.epoch
  {
    SuspendShape(before, epoch, at);
  }

  lemma ResumePrepared(before: Session, epoch: nat, at: Reading, adjustment: Adjustment)
    requires before.Valid() && PrepareResume(before, epoch, at, adjustment).Ok?
    ensures var c := PrepareResume(before, epoch, at, adjustment).value;
      && c.before == before && c.after.Valid() && NewLifecycleCommit(c.before, c.after, c.events).Ok?
      && before.status == Suspended && c.after.status == Active && c.after.room == before.room
      && c.after.id == before.id
      && c.after.updatedAt == Micros(at) && epoch == before.epoch
  {
    ResumeShape(before, epoch, at, adjustment);
  }

  lemma CancelPrepared(before: Session, epoch: nat, at: Reading, reason: string)
    requires before.Valid() && PrepareCancel(before, epoch, at, reason).Ok?
    ensures var c := PrepareCancel(before, epoch, at, reason).value;
      && c.before == before && c.after.Valid() && NewLifecycleCommit(c.before, c.after, c.events).Ok?
      && c.after.status == Cancelled && epoch == before.epoch
  {
    CancelShape(before, epoch, at, reason);
  }

  lemma SuspendingLegal(db: Tables, before: Session, epoch: nat, now: Reading)
    requires Agreement(db) && Known(db, before) && before.Valid() && SuspendSession(db, before, epoch, now).Ok?
    ensures Legal(db, SuspendSession(db, before, epoch, now).value)
    ensures PauseAgreement(db) ==> LegalPauses(db, SuspendSession(db, before, epoch, now).value)
  {
    var at := BumpedTime(now, before.updatedAt);
    SuspendPrepared(before, epoch, at);
    var c := PrepareSuspend(before, epoch, at).value;
    LifecyclePersisted(db, c);
    RoomOf(db, before);
    CommitLifecycleLegal(db, c);
  }

  /** The session-only resume agrees with the room's pause exactly when there is none. */
  lemma ResumingOnlyLegal(db: Tables, before: Session, epoch: nat, now: Reading, adjustment: Adjustment)
    requires Agreement(db) && Known(db, before) && before.Valid() && ResumeOnly(db, before, epoch, now, adjustment).Ok?
    ensures Legal(db, ResumeOnly(db, before, epoch, now, adjustment).value) && before.room in db.rooms
    ensures db.rooms[before.room].pause == NO_PAUSE ==>
      LegalPauses(db, ResumeOnly(db, before, epoch, now, adjustment).value)
    ensures db.rooms[before.room].pause != NO_PAUSE ==>
      !PauseAgreement(db.Write(ResumeOnly(db, before, epoch, now, adjustment).value))
  {
    var at := BumpedTime(now, before.updatedAt);
    ResumePrepared(before, epoch, at, adjustment);
    var c := PrepareResume(before, epoch, at, adjustment).value;
    CommitLifecycleLegal(db, c);
    if db.rooms[before.room].pause != NO_PAUSE {
      LifecyclePersisted(db, c);
      ResumedUnderPause(db, c.after);
    }
  }

  lemma ResumedUnderPause(db: Tables, t: Session)
    requires Agreement(db) && t.id in db.sessions && Live(db.sessions[t.id]) && db.sessions[t.id].room == t.room
    requires t.status == Active
    requires t.room in db.rooms && db.rooms[t.room].pause != NO_PAUSE
    ensures !PauseAgreement(db.Write(NOTHING.(sessions := map[t.id := t])))
  {
    var writes := NOTHING.(sessions := map[t.id := t]);
    var post := db.Write(writes);
    assert SessionAgrees(db, t.id);
    assert t.id in writes.sessions && post.sessions[t.id] == writes.sessions[t.id];
    assert post.rooms[t.room] == db.rooms[t.room];
    assert !RoomPaused(post, t.room);
  }

  // ----- both aggregates -----

  lemma GovernStored(db: Tables, room: Room, next: Room, c: LifecycleCommit, pausing: bool)
    requires Known(db, c.before) && c.after.Valid() && NewLifecycleCommit(c.before, c.after, c.events).Ok?
    requires Successor(room, next) && next.Valid() && GovernGame(db, room, next, c, pausing).Ok?
    ensures GovernGame(db, room, next, c, pausing).value ==
      NOTHING.(sessions := map[c.after.id := c.after], rooms := map[room.id := next])
    ensures LifecycleConflict(db.sessions[c.before.id], c.before).None? && room.id in db.rooms
    ensures db.rooms[room.id] == room
    ensures GovernanceMatches(room, next, c.before, c.after, pausing)
  {
    LifecyclePersisted(db, c);
    RoomStored(db, room, next);
  }

  lemma CancelStored(db: Tables, room: Room, next: Room, c: LifecycleCommit)
    requires Known(db, c.before) && c.after.Valid() && NewLifecycleCommit(c.before, c.after, c.events).Ok?
    requires Successor(room, next) && next.Valid() && CancelGame(db, room, next, c).Ok?
    ensures TerminationMatches(room, next, c.before, c.after, Cancelled)
    ensures CancelGame(db, room, next, c).value != NOTHING ==>
      && CancelGame(db, room, next, c).value == NOTHING.(sessions := map[c.after.id := c.after],
                                                         rooms := map[room.id := next])
      && LifecycleConflict(db.sessions[c.before.id], c.before).None? && room.id in db.rooms && db.rooms[room.id] == room
  {
    if room.id in db.rooms && db.rooms[room.id] == room {
      LifecyclePersisted(db, c);
      RoomStored(db, room, next);
    }
  }

  lemma PausePrepared(room: Room, c: Command)
    requires room.Reachable() && (c.Pause? || c.ResumeSession?) && Execute(room, c).Ok?
    ensures var next := Execute(room, c).value;
      && next.Reachable() && Successor(room, next) && room.activeSession == c.session && next.activeSession == c.session
      && next.members == room.members && room.status == Playing && (c.ResumeSession? ==> next.pause == NO_PAUSE)
  {
    ExecuteExact(room, c);
    ExecuteSuccessor(room, c);
  }

  lemma CancelRoomPrepared(room: Room, c: Command)
    requires room.Reachable() && (c.CancelSession? || c.CancelSessionAndClose?) && Execute(room, c).Ok?
    ensures var next := Execute(room, c).value;
      && next.Reachable() && Successor(room, next) && room.activeSession == c.session && next.activeSession == NIL
      && next.pause == NO_PAUSE
  {
    ExecuteExact(room, c);
    ExecuteSuccessor(room, c);
  }

  lemma PausingLegal(db: Tables, room: Room, before: Session, actor: Id, pauseId: Id, requestId: Id,
                     expected: RoomVersions, epoch: nat, now: Reading)
    requires Known(db, before) && before.Valid() && room.Reachable()
    requires PauseRoom(db, room, before, actor, pauseId, requestId, expected, epoch, now).Ok?
    ensures Legal(db, PauseRoom(db, room, before, actor, pauseId, requestId, expected, epoch, now).value)
    ensures LegalPauses(db, PauseRoom(db, room, before, actor, pauseId, requestId, expected, epoch, now).value)
  {
    var at := Nanos(GovernedTime(now, room.updatedAt, before.updatedAt));
    var command := RoomCommands.Pause(actor, pauseId, before.id, requestId, expected, at);
    PausePrepared(room, command);
    var next := Execute(room, command).value;
    SuspendPrepared(before, epoch, at);
    var c := PrepareSuspend(before, epoch, at).value;
    GovernStored(db, room, next, c, true);
    GovernedPairLegal(db, room, next, c);
  }

  lemma ResumingLegal(db: Tables, room: Room, before: Session, actor: Id, expected: RoomVersions, epoch: nat,
                      now: Reading, adjustment: Adjustment)
    requires Known(db, before) && before.Valid() && room.Reachable()
    requires ResumeRoom(db, room, before, actor, expected, epoch, now, adjustment).Ok?
    ensures Legal(db, ResumeRoom(db, room, before, actor, expected, epoch, now, adjustment).value)
    ensures LegalPauses(db, ResumeRoom(db, room, before, actor, expected, epoch, now, adjustment).value)
  {
    var at := Nanos(GovernedTime(now, room.updatedAt, before.updatedAt));
    var command := ResumeSession(actor, before.id, expected, at);
    PausePrepared(room, command);
    var next := Execute(room, command).value;
    ResumePrepared(before, epoch, at, adjustment);
    var c := PrepareResume(before, epoch, at, adjustment).value;
    GovernStored(db, room, next, c, false);
    GovernedPairLegal(db, room, next, c);
  }

  lemma CancellingLegal(db: Tables, room: Room, before: Session, i: CancelInput)
    requires Known(db, before) && before.Valid() && room.Reachable() && RuntimeService.Cancel(db, room, before, i).Ok?
    ensures Legal(db, RuntimeService.Cancel(db, room, before, i).value)
    ensures LegalPauses(db, RuntimeService.Cancel(db, room, before, i).value)
  {
    NothingLegal(db);
    if room.Versions() == i.expected && room.activeSession == i.session {
      CancelPrepared(before, i.epoch, i.now, i.reason);
      CancelRoomPrepared(room, CancelCommand(room, i));
      var c := PrepareCancel(before, i.epoch, i.now, i.reason).value;
      var next := Execute(room, CancelCommand(room, i)).value;
      CancelStored(db, room, next, c);
      if CancelGame(db, room, next, c).value != NOTHING { CancelledPairLegal(db, room, next, c); }
    }
  }

  lemma StartingLegal(db: Tables, room: Room, i: StartInput)
    requires Agreement(db) && BatchesHome(db) && room.Reachable() && ExecuteStart(db, room, i).Ok?
    ensures Legal(db, ExecuteStart(db, room, i).value.writes) && LegalPauses(db, ExecuteStart(db, room, i).value.writes)
  {
    var command := StartCommand(i);
    StartPrepared(room, command);
    var next := Execute(room, command).value;
    var at := Micros(i.now);
    var request := CreationOf(room, i);
    NewSessionShape(request);
    var made := NewSession(request).value;
    SeatedAreFrozen(next.members, made.0.participants);
    StartedLegal(db, room, next, made.0, made.1, [NewEvent(SessionCreatedEvent, i.session, Nanos(at))],
                 StartReceipt(StartKey(i.actor, room.id, i.operation), i.request, i.session, at));
  }

  // ----- rooms and inbox -----

  lemma EditingLegal(w: World, room: Room, c: Command)
    requires RoomsOk(w) && NoAba(w) && room in w.rooms && room.Reachable() && EditRoom(w.db, room, c).Ok?
    ensures Legal(w.db, EditRoom(w.db, room, c).value) && LegalPauses(w.db, EditRoom(w.db, room, c).value)
  {
    var next := Execute(room, c).value;
    if next == room {
      NothingLegal(w.db);
    } else {
      ExecuteSuccessor(room, c);
      FreeCommandKeepsGame(room, c);
      RoomRemembered(w, room, next);
      RoomStored(w.db, room, next);
      RoomRowLegal(w.db, room, next);
    }
  }

  lemma RemovingLegal(w: World, room: Room, authority: Authority, user: Id, expected: RoomVersions, at: Reading,
                      eventId: Id, payload: Digest)
    requires RoomsOk(w) && NoAba(w) && Agreement(w.db) && room in w.rooms && room.Reachable()
    requires RemovePlayer(w.db, room, authority, user, expected, at, eventId, payload).Ok?
    ensures Legal(w.db, RemovePlayer(w.db, room, authority, user, expected, at, eventId, payload).value)
    ensures LegalPauses(w.db, RemovePlayer(w.db, room, authority, user, expected, at, eventId, payload).value)
  {
    var c := RemoveMember(authority, user, expected, at);
    var next := Execute(room, c).value;
    ExecuteSuccessor(room, c);
    FreeCommandKeepsGame(room, c);
    RoomRemembered(w, room, next);
    RoomStored(w.db, room, next);
    RemovalRowsLegal(w.db, room, next, InboxKey(room.activeSession, eventId), InboxRow(payload, None));
  }

  /** The writes are legal, and fit the pauses where the command is governed. */
  ghost predicate GoodWrites(db: Tables, writes: Tables, governed: bool) {
    Legal(db, writes) && (PauseAgreement(db) && governed ==> LegalPauses(db, writes))
  }

  lemma EngineStepLegal(db: Tables, step: Step)
    requires EngineStep(step) && Agreement(db) && OperationsAnswered(db) && Known(db, step.before)
    requires step.before.Valid()
    requires db.sessions[step.before.id].Valid() && db.sessions[step.before.id].id == step.before.id
    requires (step.HoldsRoom() ==> step.room.Reachable()) && PerformEngine(db, step).Ok?
    ensures GoodWrites(db, PerformEngine(db, step).value, true)
  {
    match step
    case Claiming(before, epoch, at) => ClaimingLegal(db, before, epoch, at);
    case Acting(before, room, action) => ActingLegal(db, before, room, action);
    case Firing(before, room, timer) => FiringLegal(db, before, room, timer);
    case Applying(before, room, system) => ApplyingLegal(db, before, room, system);
  }

  lemma RoomStepLegal(w: World, step: Step)
    requires RoomStep(step) && RoomsOk(w) && NoAba(w) && Agreement(w.db) && BatchesHome(w.db) && Allowed(w, step)
    requires (step.HoldsRoom() ==> step.room.Reachable()) && PerformRoom(w.db, step).Ok?
    ensures GoodWrites(w.db, PerformRoom(w.db, step).value, true)
  {
    match step
    case Opening(id, host, code, visibility, capacity, participant, spectator, at) =>
      NewRoomReachable(id, host, code, visibility, capacity, participant, spectator, at);
      NewRoomRowLegal(w.db, NewRoom(id, host, code, visibility, capacity, participant, spectator, at).value);
    case Editing(room, command) => EditingLegal(w, room, command);
    case Removing(room, authority, user, expected, at, eventId, payload) =>
      RemovingLegal(w, room, authority, user, expected, at, eventId, payload);
    case Starting(room, start) => StartingLegal(w.db, room, start);
    case Acknowledging(key, payload, version) =>
      NothingLegal(w.db);
      if w.db.inbox[key].completed.None? { InboxRowLegal(w.db, key, InboxRow(payload, Some(version))); }
  }

  lemma GovernStepLegal(db: Tables, step: Step)
    requires !EngineStep(step) && !RoomStep(step) && Agreement(db) && Known(db, step.before) && step.before.Valid()
    requires (step.HoldsRoom() ==> step.room.Reachable()) && PerformGovernor(db, step).Ok?
    ensures GoodWrites(db, PerformGovernor(db, step).value, !Ungoverned(db, step))
  {
    match step
    case Suspending(before, epoch, now) => SuspendingLegal(db, before, epoch, now);
    case ResumingOnly(before, epoch, now, adjustment) => ResumingOnlyLegal(db, before, epoch, now, adjustment);
    case Pausing(room, before, actor, pauseId, requestId, expected, epoch, now) =>
      PausingLegal(db, room, before, actor, pauseId, requestId, expected, epoch, now);
    case Resuming(room, before, actor, expected, epoch, now, adjustment) =>
      ResumingLegal(db, room, before, actor, expected, epoch, now, adjustment);
    case Cancelling(room, before, cancel) => CancellingLegal(db, room, before, cancel);
  }

  /** Whatever a command writes is legal; only a session-only resume under a room pause can break pause agreement. */
  lemma StepLegal(w: World, step: Step)
    requires Inv(w) && Allowed(w, step) && Perform(w.db, step).Ok?
    ensures GoodWrites(w.db, Perform(w.db, step).value, !Ungoverned(w.db, step))
  {
    if step.HoldsSession() { Recall(w, step.before); }
    if EngineStep(step) {
      EngineStepLegal(w.db, step);
    } else if RoomStep(step) {
      RoomStepLegal(w, step);
    } else {
      GovernStepLegal(w.db, step);
    }
  }

  /** One move of the world: nothing, or legal rows. */
  ghost predicate Moves(w: World, next: World, governed: bool) {
    next == w || exists writes :: GoodWrites(w.db, writes, governed) && next == After(w, writes)
  }

  lemma StepMoves(w: World, step: Step)
    requires Inv(w) && Allowed(w, step)
    ensures Moves(w, Next(w, step), !Ungoverned(w.db, step))
  {
    if Perform(w.db, step).Ok? { StepLegal(w, step); }
  }

  lemma MoveKeepsInv(w: World, next: World, governed: bool)
    requires Inv(w) && Moves(w, next, governed)
    ensures Inv(next)
    ensures PauseAgreement(w.db) && governed ==> PauseAgreement(next.db)
    ensures w.sessions <= next.sessions && w.rooms <= next.rooms
  {
    if next != w {
      var writes :| GoodWrites(w.db, writes, governed) && next == After(w, writes);
      LegalKeepsInv(w, writes);
    }
  }

  lemma EmptyTablesAnswered()
    ensures ActionsAnswered(NOTHING) && TimersAnswered(NOTHING) && OperationsAnswered(NOTHING)
    ensures SourcesUnique(NOTHING) && SeatsFrozen(NOTHING) && InboxFence(NOTHING) && PauseAgreement(NOTHING)
    ensures Acknowledged(NOTHING) && NoopsEnded(NOTHING) && PlayersActed(NOTHING) && StartsAnswered(NOTHING)
    ensures UnownedFresh(NOTHING)
  {
  }

  lemma EmptyWorldIsSound()
    ensures Core(EMPTY_WORLD)
  {
  }

  lemma EmptyWorldHasInv()
    ensures Inv(EMPTY_WORLD) && PauseAgreement(EMPTY_WORLD.db)
  {
    EmptyWorldIsSound();
    EmptyTablesAnswered();
  }

  lemma RunAt(steps: seq<Step>, worlds: seq<World>, i: nat)
    requires Run(steps, worlds) && i < |steps|
    ensures Allowed(worlds[i], steps[i]) && worlds[i + 1] == Next(worlds[i], steps[i])
  {
    assert RunsAt(steps, worlds, i);
  }

  lemma RunBefore(steps: seq<Step>, worlds: seq<World>, i: nat)
    requires Run(steps, worlds) && 0 < i < |worlds|
    ensures Allowed(worlds[i - 1], steps[i - 1]) && worlds[i] == Next(worlds[i - 1], steps[i - 1])
  {
    RunAt(steps, worlds, i - 1);
  }

  /** No session-only resume under a room pause among the first i steps. */
  ghost predicate Governed(steps: seq<Step>, worlds: seq<World>, i: nat)
    requires i <= |steps| < |worlds|
  {
    forall j :: 0 <= j < i ==> GovernedAt(steps, worlds, j)
  }

  ghost predicate GovernedAt(steps: seq<Step>, worlds: seq<World>, j: nat)
    requires j < |steps| < |worlds|
  {
    !Ungoverned(worlds[j].db, steps[j])
  }

  lemma StepKeepsInv(w: World, step: Step)
    requires Inv(w) && Allowed(w, step)
    ensures Inv(Next(w, step))
    ensures PauseAgreement(w.db) && !Ungoverned(w.db, step) ==> PauseAgreement(Next(w, step).db)
    ensures w.sessions <= Next(w, step).sessions && w.rooms <= Next(w, step).rooms
  {
    StepMoves(w, step);
    MoveKeepsInv(w, Next(w, step), !Ungoverned(w.db, step));
  }

  lemma RunBegins(steps: seq<Step>, worlds: seq<World>)
    requires Run(steps, worlds)
    ensures |worlds| == |steps| + 1 && Inv(worlds[0]) && PauseAgreement(worlds[0].db)
  {
    EmptyWorldHasInv();
  }

  lemma RunStepKeepsInv(steps: seq<Step>, worlds: seq<World>, i: nat)
    requires Run(steps, worlds) && 0 < i < |worlds| && Inv(worlds[i - 1])
    ensures Inv(worlds[i])
    ensures PauseAgreement(worlds[i - 1].db) && GovernedAt(steps, worlds, i - 1) ==> PauseAgreement(worlds[i].db)
  {
    RunBefore(steps, worlds, i);
    StepKeepsInv(worlds[i - 1], steps[i - 1]);
  }

  /** Every state of every run satisfies the invariant. */
  lemma {:induction false} RunKeepsInv(steps: seq<Step>, worlds: seq<World>, i: nat)
    requires Run(steps, worlds) && i < |worlds|
    ensures Inv(worlds[i])
    ensures Governed(steps, worlds, i) ==> PauseAgreement(worlds[i].db)
  {
    if i == 0 {
      RunBegins(steps, worlds);
    } else {
      RunKeepsInv(steps, worlds, i - 1);
      RunStepKeepsInv(steps, worlds, i);
      assert Governed(steps, worlds, i) ==> Governed(steps, worlds, i - 1) && GovernedAt(steps, worlds, i - 1);
    }
  }

  /** The run seen from the database alone: each state follows by legal rows or not at all. */
  ghost predicate Chain(worlds: seq<World>) {
    forall i :: 0 <= i < |worlds| - 1 ==> Linked(worlds, i)
  }

  ghost predicate Linked(worlds: seq<World>, i: nat)
    requires i + 1 < |worlds|
  {
    Inv(worlds[i]) && Moves(worlds[i], worlds[i + 1], false)
  }

  lemma RunIsChain(steps: seq<Step>, worlds: seq<World>)
    requires Run(steps, worlds)
    ensures Chain(worlds)
  {
    forall i | 0 <= i < |worlds| - 1 ensures Linked(worlds, i) {
      RunKeepsInv(steps, worlds, i);
      RunAt(steps, worlds, i);
      StepMoves(worlds[i], steps[i]);
      AnyMove(worlds[i], worlds[i + 1], !Ungoverned(worlds[i].db, steps[i]));
    }
  }

  lemma AnyMove(w: World, next: World, governed: bool)
    requires Moves(w, next, governed)
    ensures Moves(w, next, false)
  {
    if next != w {
      var writes :| GoodWrites(w.db, writes, governed) && next == After(w, writes);
      assert GoodWrites(w.db, writes, false);
    }
  }
}
