/** A game whose room has a pause pending or in force can neither finish nor be cancelled. */
module RuntimePauses {
  import opened Base
  import opened GameSdk
  import opened GameSession
  import opened SessionSteps
  import opened Commits
  import opened PartyRoom
  import opened RoomCommands
  import opened RoomLaws
  import opened RuntimeStore
  import opened RuntimeService
  import opened RuntimeWorld
  import opened RuntimeLegal
  import opened RuntimeRuns
  import opened RuntimeGovernance

  predicate Unpaused(r: Room) { r.request == NO_REQUEST && r.pause == NO_PAUSE }

  predicate PointerLeft(db: Tables, writes: Tables, id: Id) {
    && id in db.rooms && id in writes.rooms && db.rooms[id].activeSession != NIL
    && writes.rooms[id].activeSession != db.rooms[id].activeSession
  }

  /** Whatever room row is written, it keeps the pointer or leaves an unpaused room. */
  ghost predicate LeavesOnlyUnpaused(db: Tables, writes: Tables) {
    forall id :: PointerLeft(db, writes, id) ==> Unpaused(db.rooms[id])
  }

  lemma FinishRoomUnpaused(db: Tables, before: Room, after: Room, s: Session, t: Session)
    requires TerminationMatches(before, after, s, t, Finished) && FinishRoom(db, before, after).Ok?
    requires before.id in db.rooms && db.rooms[before.id] == before
    ensures Unpaused(before) && FinishRoom(db, before, after).value.rooms == map[before.id := after]
  {
    assert after.request == NO_REQUEST && after.pause == NO_PAUSE;
  }

  lemma SingleRoomUnpaused(db: Tables, writes: Tables, before: Room, after: Room)
    requires writes.rooms == map[before.id := after] && before.id in db.rooms && db.rooms[before.id] == before
    requires Unpaused(before)
    ensures LeavesOnlyUnpaused(db, writes)
  {
  }

  lemma FinishActionUnpaused(db: Tables, before: Room, after: Room, c: ActionCommit)
    requires FinishAction(db, before, after, c).Ok?
    ensures LeavesOnlyUnpaused(db, FinishAction(db, before, after, c).value.writes)
  {
    var a := FinishAction(db, before, after, c).value;
    if db.rooms[before.id] == before {
      FinishRoomUnpaused(db, before, after, c.before, c.after);
      SingleRoomUnpaused(db, a.writes, before, after);
    }
  }

  lemma FinishTimerUnpaused(db: Tables, before: Room, after: Room, c: TimerCommit)
    requires FinishTimer(db, before, after, c).Ok?
    ensures LeavesOnlyUnpaused(db, FinishTimer(db, before, after, c).value.writes)
  {
    var a := FinishTimer(db, before, after, c).value;
    if db.rooms[before.id] == before {
      FinishRoomUnpaused(db, before, after, c.before, c.after);
      SingleRoomUnpaused(db, a.writes, before, after);
    }
  }

  lemma FinishSystemUnpaused(db: Tables, before: Room, after: Room, actor: Id, c: SystemCommit, noopResult: Digest)
    requires FinishSystem(db, before, after, actor, c, noopResult).Ok?
    ensures LeavesOnlyUnpaused(db, FinishSystem(db, before, after, actor, c, noopResult).value.writes)
  {
    var a := FinishSystem(db, before, after, actor, c, noopResult).value;
    if db.rooms[before.id] == before {
      SystemWritesNoRoom(db, c, noopResult);
      if !a.retry {
        FinishRoomUnpaused(db, before, after, c.before, c.after);
        SingleRoomUnpaused(db, a.writes, before, after);
      }
    }
  }

  lemma ActingUnpaused(db: Tables, before: Session, room: Room, i: ActionInput)
    requires ExecuteAction(db, before, room, i).Ok?
    ensures LeavesOnlyUnpaused(db, ExecuteAction(db, before, room, i).value.writes)
  {
    var c := PrepareAction(before, i).value;
    if c.after.status == Finished {
      FinishActionUnpaused(db, room, PrepareFinish(room, before.id, i.execution.now).value, c);
    }
  }

  lemma FiringUnpaused(db: Tables, before: Session, room: Room, i: TimerInput)
    requires ExecuteTimer(db, before, room, i).Ok?
    ensures LeavesOnlyUnpaused(db, ExecuteTimer(db, before, room, i).value.writes)
  {
    var c := PrepareTimer(before, i).value;
    if c.after.status == Finished {
      FinishTimerUnpaused(db, room, PrepareFinish(room, before.id, i.execution.now).value, c);
    }
  }

  lemma ApplyingUnpaused(db: Tables, before: Session, room: Room, i: SystemInput)
    requires HandleSystemOnce(db, before, room, i).Ok?
    ensures LeavesOnlyUnpaused(db, HandleSystemOnce(db, before, room, i).value.writes)
  {
    if !before.status.Terminal() {
      var c := PrepareSystem(before, i).value;
      if c.after.status == Finished {
        FinishSystemUnpaused(db, room, PrepareFinish(room, before.id, i.execution.now).value, i.source.requestedBy, c,
                             i.noopResult);
      } else {
        SystemWritesNoRoom(db, c, i.noopResult);
      }
    }
  }

  lemma CancelGameUnpaused(db: Tables, before: Room, after: Room, c: LifecycleCommit)
    requires CancelGame(db, before, after, c).Ok? && after.request == NO_REQUEST && after.pause == NO_PAUSE
    ensures LeavesOnlyUnpaused(db, CancelGame(db, before, after, c).value)
  {
    forall id | PointerLeft(db, CancelGame(db, before, after, c).value, id) ensures Unpaused(db.rooms[id]) {
      CancelGameDrops(db, before, after, c, id);
    }
  }

  lemma CancellingUnpaused(db: Tables, room: Room, before: Session, i: CancelInput)
    requires room.Valid() && RuntimeService.Cancel(db, room, before, i).Ok?
    ensures LeavesOnlyUnpaused(db, RuntimeService.Cancel(db, room, before, i).value)
  {
    if room.Versions() == i.expected && room.activeSession == i.session {
      ExecuteExact(room, CancelCommand(room, i));
      CancelGameUnpaused(db, room, Execute(room, CancelCommand(room, i)).value,
                         PrepareCancel(before, i.epoch, i.now, i.reason).value);
    }
  }

  lemma UpdateStays(db: Tables, before: Room, after: Room)
    requires UpdateRoom(db, before, after).Ok? && db.rooms[before.id].id == before.id
    requires db.rooms[before.id].activeSession == after.activeSession
    ensures LeavesOnlyUnpaused(db, UpdateRoom(db, before, after).value)
  {
    forall id | id in UpdateRoom(db, before, after).value.rooms
      ensures UpdateRoom(db, before, after).value.rooms[id].activeSession == after.activeSession
    {
      UpdateKeepsPointer(db, before, after, id);
    }
  }

  lemma GovernStays(db: Tables, before: Room, after: Room, c: LifecycleCommit, pausing: bool)
    requires GovernGame(db, before, after, c, pausing).Ok?
    ensures LeavesOnlyUnpaused(db, GovernGame(db, before, after, c, pausing).value)
  {
    UpdateStays(db, before, after);
  }

  lemma StartUnpaused(db: Tables, before: Room, after: Room, s: Session, b: Batch, events: seq<OutboxEvent>,
                      receipt: StartReceipt)
    requires StartGame(db, before, after, s, b, events, receipt).Ok?
    ensures LeavesOnlyUnpaused(db, StartGame(db, before, after, s, b, events, receipt).value.writes)
  {
    var a := StartGame(db, before, after, s, b, events, receipt).value;
    if !a.replayed {
      forall id | id in a.writes.rooms ensures db.rooms[id].activeSession == NIL {}
    }
  }

  lemma StartingUnpaused(db: Tables, room: Room, i: StartInput)
    requires ExecuteStart(db, room, i).Ok?
    ensures LeavesOnlyUnpaused(db, ExecuteStart(db, room, i).value.writes)
  {
    var at := Micros(i.now);
    var next := Execute(room, StartSession(i.actor, i.session, i.game, i.minimum, i.maximum, i.expected, i.now)).value;
    var made := NewSession(CreationOf(room, i)).value;
    StartUnpaused(db, room, next, made.0, made.1, [NewEvent(SessionCreatedEvent, i.session, Nanos(at))],
                  StartReceipt(StartKey(i.actor, room.id, i.operation), i.request, i.session, at));
  }

  lemma EditingStays(w: World, room: Room, c: Command)
    requires RoomsOk(w) && NoAba(w) && room in w.rooms && room.Valid() && EditRoom(w.db, room, c).Ok?
    ensures LeavesOnlyUnpaused(w.db, EditRoom(w.db, room, c).value)
  {
    var next := Execute(room, c).value;
    if next != room {
      FreeCommandKeepsGame(room, c);
      RoomRemembered(w, room, next);
      UpdateStays(w.db, room, next);
    }
  }

  lemma RemovingStays(w: World, room: Room, authority: Authority, user: Id, expected: RoomVersions, at: Reading,
                      eventId: Id, payload: Digest)
    requires RoomsOk(w) && NoAba(w) && room in w.rooms && room.Valid()
    requires RemovePlayer(w.db, room, authority, user, expected, at, eventId, payload).Ok?
    ensures LeavesOnlyUnpaused(w.db, RemovePlayer(w.db, room, authority, user, expected, at, eventId, payload).value)
  {
    var c := RemoveMember(authority, user, expected, at);
    var next := Execute(room, c).value;
    FreeCommandKeepsGame(room, c);
    RoomRemembered(w, room, next);
    UpdateStays(w.db, room, next);
  }

  lemma EngineLeavesOnlyUnpaused(db: Tables, step: Step)
    requires EngineStep(step) && PerformEngine(db, step).Ok?
    ensures LeavesOnlyUnpaused(db, PerformEngine(db, step).value)
  {
    match step
    case Acting(before, room, action) => ActingUnpaused(db, before, room, action);
    case Firing(before, room, timer) => FiringUnpaused(db, before, room, timer);
    case Applying(before, room, system) => ApplyingUnpaused(db, before, room, system);
    case _ =>
  }

  lemma RoomStepLeavesOnlyUnpaused(w: World, step: Step)
    requires RoomStep(step) && RoomsOk(w) && NoAba(w) && Allowed(w, step) && (step.HoldsRoom() ==> step.room.Valid())
    requires PerformRoom(w.db, step).Ok?
    ensures LeavesOnlyUnpaused(w.db, PerformRoom(w.db, step).value)
  {
    match step
    case Editing(room, command) => EditingStays(w, room, command);
    case Removing(room, authority, user, expected, at, eventId, payload) =>
      RemovingStays(w, room, authority, user, expected, at, eventId, payload);
    case Starting(room, start) => StartingUnpaused(w.db, room, start);
    case _ =>
  }

  lemma GovernorLeavesOnlyUnpaused(db: Tables, step: Step)
    requires !EngineStep(step) && !RoomStep(step) && (step.HoldsRoom() ==> step.room.Valid())
    requires PerformGovernor(db, step).Ok?
    ensures LeavesOnlyUnpaused(db, PerformGovernor(db, step).value)
  {
    match step
    case Pausing(room, before, actor, pauseId, requestId, expected, epoch, now) =>
      var at := Nanos(GovernedTime(now, room.updatedAt, before.updatedAt));
      GovernStays(db, room, Execute(room, RoomCommands.Pause(actor, pauseId, before.id, requestId, expected, at)).value,
                  PrepareSuspend(before, epoch, at).value, true);
    case Resuming(room, before, actor, expected, epoch, now, adjustment) =>
      var at := Nanos(GovernedTime(now, room.updatedAt, before.updatedAt));
      GovernStays(db, room, Execute(room, ResumeSession(actor, before.id, expected, at)).value,
                  PrepareResume(before, epoch, at, adjustment).value, false);
    case Cancelling(room, before, cancel) => CancellingUnpaused(db, room, before, cancel);
    case _ =>
  }

  lemma StepLeavesOnlyUnpaused(w: World, step: Step)
    requires RoomsOk(w) && NoAba(w) && Allowed(w, step) && (step.HoldsRoom() ==> step.room.Valid())
    requires Perform(w.db, step).Ok?
    ensures LeavesOnlyUnpaused(w.db, Perform(w.db, step).value)
  {
    if EngineStep(step) {
      EngineLeavesOnlyUnpaused(w.db, step);
    } else if RoomStep(step) {
      RoomStepLeavesOnlyUnpaused(w, step);
    } else {
      GovernorLeavesOnlyUnpaused(w.db, step);
    }
  }

  lemma StillPointed(db: Tables, writes: Tables, session: Id)
    requires Agreement(db) && Agreement(db.Write(writes)) && LeavesOnlyUnpaused(db, writes) && LegalSessions(db, writes)
    requires session in db.sessions && Live(db.sessions[session]) && db.sessions[session].room in db.rooms
    requires !Unpaused(db.rooms[db.sessions[session].room])
    ensures Live(db.Write(writes).sessions[session])
  {
    var room := db.sessions[session].room;
    assert SessionAgrees(db, session) && SessionAgrees(db.Write(writes), session);
    assert !PointerLeft(db, writes, room);
    if session in writes.sessions { assert LegalSession(db, session, writes.sessions[session]); }
  }

  lemma SurvivesWrites(w: World, step: Step, session: Id)
    requires Inv(w) && Allowed(w, step) && Perform(w.db, step).Ok? && session in w.db.sessions
    requires Live(w.db.sessions[session])
    requires w.db.sessions[session].room in w.db.rooms && !Unpaused(w.db.rooms[w.db.sessions[session].room])
    ensures Live(w.db.Write(Perform(w.db, step).value).sessions[session])
  {
    StepLeavesOnlyUnpaused(w, step);
    StepLegal(w, step);
    AgreementStays(w.db, Perform(w.db, step).value);
    StillPointed(w.db, Perform(w.db, step).value, session);
  }

  /** While its room has a pause request or a pause, a running game survives every command. */
  lemma PauseGovernanceKeepsGameRunning(w: World, step: Step, session: Id)
    requires Inv(w) && Allowed(w, step) && session in w.db.sessions && Live(w.db.sessions[session])
    requires w.db.sessions[session].room in w.db.rooms && !Unpaused(w.db.rooms[w.db.sessions[session].room])
    ensures session in Next(w, step).db.sessions && Live(Next(w, step).db.sessions[session])
  {
    if Perform(w.db, step).Ok? { SurvivesWrites(w, step, session); }
  }
}
