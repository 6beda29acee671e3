/** Room versions, cancellation retries, pauses and the clocks that keep both aggregates in step. */
module RuntimeGovernance {
  import opened Base
  import opened GameSdk
  import opened GameSession
  import opened SessionSteps
  import opened Commits
  import opened PartyRoom
  import opened RoomCommands
  import opened RoomLaws
  import opened RuntimeStore
  import opened RuntimeService
  import opened RuntimeWorld
  import opened RuntimeLegal
  import opened RuntimeRuns
  import opened RuntimeTheorems

  /** Equal room versions mean equal rooms, and equal fences mean equal members and equal hosts, over a whole run. */
  lemma VersionsNameStates(steps: seq<Step>, worlds: seq<World>, i: nat, a: Room, b: Room)
    requires Run(steps, worlds) && i < |worlds| && a in worlds[i].rooms && b in worlds[i].rooms && a.id == b.id
    ensures a.roomVersion == b.roomVersion ==> a == b
    ensures a.membershipVersion == b.membershipVersion ==> a.members == b.members
    ensures a.hostEpoch == b.hostEpoch ==> a.host == b.host
  {
    RunKeepsInv(steps, worlds, i);
    assert FencesOrdered(a, b) && FencesOrdered(b, a);
  }

  // ----- which command took a room off its game -----

  /** The active session went from one to none and left no finished game behind. */
  predicate DroppedGame(db: Tables, writes: Tables, id: Id) {
    && id in db.rooms && id in writes.rooms && db.rooms[id].activeSession != NIL
    && writes.rooms[id].activeSession == NIL && writes.rooms[id].lastSession == NIL
  }

  lemma EditKeepsPointer(w: World, room: Room, c: Command, id: Id)
    requires RoomsOk(w) && NoAba(w) && room in w.rooms && room.Reachable() && EditRoom(w.db, room, c).Ok?
    ensures !DroppedGame(w.db, EditRoom(w.db, room, c).value, id)
  {
    var next := Execute(room, c).value;
    if next != room {
      ExecuteSuccessor(room, c);
      FreeCommandKeepsGame(room, c);
      RoomRemembered(w, room, next);
      RoomStored(w.db, room, next);
    }
  }

  lemma RemovalKeepsPointer(w: World, room: Room, authority: Authority, user: Id, expected: RoomVersions, at: Reading,
                            eventId: Id, payload: Digest, id: Id)
    requires RoomsOk(w) && NoAba(w) && room in w.rooms && room.Reachable()
    requires RemovePlayer(w.db, room, authority, user, expected, at, eventId, payload).Ok?
    ensures !DroppedGame(w.db, RemovePlayer(w.db, room, authority, user, expected, at, eventId, payload).value, id)
  {
    var c := RemoveMember(authority, user, expected, at);
    var next := Execute(room, c).value;
    ExecuteSuccessor(room, c);
    FreeCommandKeepsGame(room, c);
    RoomRemembered(w, room, next);
    RoomStored(w.db, room, next);
  }

  /** Every room row written names a running or a finished game. */
  ghost predicate GameNamed(writes: Tables) {
    forall id :: id in writes.rooms ==> writes.rooms[id].activeSession != NIL || writes.rooms[id].lastSession != NIL
  }

  lemma StartNamesGame(db: Tables, before: Room, after: Room, s: Session, b: Batch, events: seq<OutboxEvent>,
                       receipt: StartReceipt)
    requires StartGame(db, before, after, s, b, events, receipt).Ok?
    ensures GameNamed(StartGame(db, before, after, s, b, events, receipt).value.writes)
  {
  }

  lemma FinishRoomNamesGame(db: Tables, before: Room, after: Room)
    requires FinishRoom(db, before, after).Ok? && before.activeSession != NIL
    ensures GameNamed(FinishRoom(db, before, after).value)
  {
    assert after.lastSession == before.activeSession;
  }

  lemma FinishActionNamesGame(db: Tables, before: Room, after: Room, c: ActionCommit)
    requires FinishAction(db, before, after, c).Ok?
    ensures GameNamed(FinishAction(db, before, after, c).value.writes)
  {
    if FinishRoom(db, before, after).Ok? && before.activeSession != NIL { FinishRoomNamesGame(db, before, after); }
  }

  lemma FinishTimerNamesGame(db: Tables, before: Room, after: Room, c: TimerCommit)
    requires FinishTimer(db, before, after, c).Ok?
    ensures GameNamed(FinishTimer(db, before, after, c).value.writes)
  {
    if FinishRoom(db, before, after).Ok? && before.activeSession != NIL { FinishRoomNamesGame(db, before, after); }
  }

  lemma SystemWritesNoRoom(db: Tables, c: SystemCommit, noopResult: Digest)
    requires CommitSystem(db, c, noopResult).Ok?
    ensures CommitSystem(db, c, noopResult).value.writes.rooms == map[]
  {
  }

  lemma FinishSystemNamesGame(db: Tables, before: Room, after: Room, actor: Id, c: SystemCommit, noopResult: Digest)
    requires FinishSystem(db, before, after, actor, c, noopResult).Ok?
    ensures GameNamed(FinishSystem(db, before, after, actor, c, noopResult).value.writes)
  {
    if CommitSystem(db, c, noopResult).Ok? { SystemWritesNoRoom(db, c, noopResult); }
    if FinishRoom(db, before, after).Ok? && before.activeSession != NIL { FinishRoomNamesGame(db, before, after); }
  }

  lemma UpdateKeepsPointer(db: Tables, before: Room, after: Room, id: Id)
    requires UpdateRoom(db, before, after).Ok? && id in UpdateRoom(db, before, after).value.rooms
    ensures UpdateRoom(db, before, after).value.rooms[id].activeSession == after.activeSession
    ensures UpdateRoom(db, before, after).value.rooms[id].status == after.status
  {
  }

  lemma GovernNamesGame(db: Tables, before: Room, after: Room, c: LifecycleCommit, pausing: bool)
    requires GovernGame(db, before, after, c, pausing).Ok?
    ensures GameNamed(GovernGame(db, before, after, c, pausing).value)
  {
    if UpdateRoom(db, before, after).Ok? {
      forall id | id in UpdateRoom(db, before, after).value.rooms
        ensures UpdateRoom(db, before, after).value.rooms[id].activeSession != NIL
      {
        UpdateKeepsPointer(db, before, after, id);
      }
    }
  }

  lemma ActingNamesGame(db: Tables, before: Session, room: Room, i: ActionInput)
    requires ExecuteAction(db, before, room, i).Ok?
    ensures GameNamed(ExecuteAction(db, before, room, i).value.writes)
  {
    var c := PrepareAction(before, i).value;
    if c.after.status == Finished {
      FinishActionNamesGame(db, room, PrepareFinish(room, before.id, i.execution.now).value, c);
    }
  }

  lemma FiringNamesGame(db: Tables, before: Session, room: Room, i: TimerInput)
    requires ExecuteTimer(db, before, room, i).Ok?
    ensures GameNamed(ExecuteTimer(db, before, room, i).value.writes)
  {
    var c := PrepareTimer(before, i).value;
    if c.after.status == Finished {
      FinishTimerNamesGame(db, room, PrepareFinish(room, before.id, i.execution.now).value, c);
    }
  }

  lemma ApplyingNamesGame(db: Tables, before: Session, room: Room, i: SystemInput)
    requires HandleSystemOnce(db, before, room, i).Ok?
    ensures GameNamed(HandleSystemOnce(db, before, room, i).value.writes)
  {
    if !before.status.Terminal() {
      var c := PrepareSystem(before, i).value;
      if c.after.status == Finished {
        FinishSystemNamesGame(db, room, PrepareFinish(room, before.id, i.execution.now).value, i.source.requestedBy, c,
                              i.noopResult);
      } else {
        SystemWritesNoRoom(db, c, i.noopResult);
      }
    }
  }

  lemma StartingNamesGame(db: Tables, room: Room, i: StartInput)
    requires ExecuteStart(db, room, i).Ok?
    ensures GameNamed(ExecuteStart(db, room, i).value.writes)
  {
    var at := Micros(i.now);
    var next := Execute(room, StartSession(i.actor, i.session, i.game, i.minimum, i.maximum, i.expected, i.now)).value;
    var made := NewSession(CreationOf(room, i)).value;
    StartNamesGame(db, room, next, made.0, made.1, [NewEvent(SessionCreatedEvent, i.session, Nanos(at))],
                   StartReceipt(StartKey(i.actor, room.id, i.operation), i.request, i.session, at));
  }

  lemma CancelGameDrops(db: Tables, room: Room, next: Room, c: LifecycleCommit, id: Id)
    requires CancelGame(db, room, next, c).Ok? && id in CancelGame(db, room, next, c).value.rooms
    ensures id == room.id && id in db.rooms && db.rooms[id] == room
    ensures CancelGame(db, room, next, c).value.rooms[id].status == next.status
  {
    UpdateKeepsPointer(db, room, next, id);
  }

  lemma CancelCommandMode(room: Room, i: CancelInput)
    requires room.Valid() && Execute(room, CancelCommand(room, i)).Ok?
    ensures Execute(room, CancelCommand(room, i)).value.status == (if i.closeRoom then Closed else Lobby)
  {
    ExecuteExact(room, CancelCommand(room, i));
  }

  /** A cancellation that wrote a room did so from the room it was asked about, in the mode it was asked for. */
  lemma CancellingDrops(db: Tables, room: Room, before: Session, i: CancelInput, id: Id)
    requires room.Valid() && RuntimeService.Cancel(db, room, before, i).Ok?
    requires id in RuntimeService.Cancel(db, room, before, i).value.rooms
    ensures var next := RuntimeService.Cancel(db, room, before, i).value.rooms[id];
      && id == room.id && id in db.rooms && db.rooms[id] == room && room.activeSession == i.session
      && (if i.closeRoom then next.status == Closed else next.status == Lobby)
  {
    CancelGameDrops(db, room, Execute(room, CancelCommand(room, i)).value,
                    PrepareCancel(before, i.epoch, i.now, i.reason).value, id);
    CancelCommandMode(room, i);
  }

  lemma EngineNamesGame(db: Tables, step: Step)
    requires EngineStep(step) && PerformEngine(db, step).Ok?
    ensures GameNamed(PerformEngine(db, step).value)
  {
    match step
    case Acting(before, room, action) => ActingNamesGame(db, before, room, action);
    case Firing(before, room, timer) => FiringNamesGame(db, before, room, timer);
    case Applying(before, room, system) => ApplyingNamesGame(db, before, room, system);
    case _ =>
  }

  lemma GovernorNamesGame(db: Tables, step: Step)
    requires !EngineStep(step) && !RoomStep(step) && !step.Cancelling? && PerformGovernor(db, step).Ok?
    ensures GameNamed(PerformGovernor(db, step).value)
  {
    match step
    case Pausing(room, before, actor, pauseId, requestId, expected, epoch, now) =>
      var at := Nanos(GovernedTime(now, room.updatedAt, before.updatedAt));
      GovernNamesGame(db, room,
                      Execute(room, RoomCommands.Pause(actor, pauseId, before.id, requestId, expected, at)).value,
                      PrepareSuspend(before, epoch, at).value, true);
    case Resuming(room, before, actor, expected, epoch, now, adjustment) =>
      var at := Nanos(GovernedTime(now, room.updatedAt, before.updatedAt));
      GovernNamesGame(db, room, Execute(room, ResumeSession(actor, before.id, expected, at)).value,
                      PrepareResume(before, epoch, at, adjustment).value, false);
    case _ =>
  }

  lemma RoomStepDropsNothing(w: World, step: Step, id: Id)
    requires RoomStep(step) && RoomsOk(w) && NoAba(w) && Allowed(w, step) && PerformRoom(w.db, step).Ok?
    requires step.HoldsRoom() ==> step.room.Reachable()
    ensures !DroppedGame(w.db, PerformRoom(w.db, step).value, id)
  {
    match step
    case Editing(room, command) => EditKeepsPointer(w, room, command, id);
    case Removing(room, authority, user, expected, at, eventId, payload) =>
      RemovalKeepsPointer(w, room, authority, user, expected, at, eventId, payload, id);
    case Starting(room, start) => StartingNamesGame(w.db, room, start);
    case _ =>
  }

  /** Only a cancellation leaves a room without a running and without a finished game. */
  lemma OnlyCancelDropsGame(w: World, step: Step, id: Id)
    requires RoomsOk(w) && NoAba(w) && Allowed(w, step) && Perform(w.db, step).Ok?
    requires DroppedGame(w.db, Perform(w.db, step).value, id)
    requires step.HoldsRoom() ==> step.room.Reachable()
    ensures step.Cancelling? && step.room == w.db.rooms[id] && step.cancel.session == w.db.rooms[id].activeSession
    ensures step.cancel.closeRoom <==> Perform(w.db, step).value.rooms[id].status == Closed
  {
    if EngineStep(step) {
      EngineNamesGame(w.db, step);
    } else if RoomStep(step) {
      RoomStepDropsNothing(w, step, id);
    } else if step.Cancelling? {
      CancellingDrops(w.db, step.room, step.before, step.cancel, id);
    } else {
      GovernorNamesGame(w.db, step);
    }
  }

  lemma RowOf(w: World, writes: Tables, room: Room)
    requires LegalRooms(w.db, writes) && room !in w.rooms && room in After(w, writes).rooms
    ensures room.id in writes.rooms && writes.rooms[room.id] == room
  {
    var id :| id in writes.rooms && writes.rooms[id] == room;
    assert LegalRoom(w.db, id, room);
  }

  /** The command stores this very room. */
  predicate Stores(db: Tables, step: Step, room: Room) {
    && Perform(db, step).Ok?
    && room.id in Perform(db, step).value.rooms && Perform(db, step).value.rooms[room.id] == room
  }

  lemma NewRoomRow(w: World, step: Step, room: Room)
    requires Inv(w) && Allowed(w, step) && room !in w.rooms && room in Next(w, step).rooms
    ensures Stores(w.db, step, room)
  {
    StepLegal(w, step);
    RowOf(w, Perform(w.db, step).value, room);
  }

  lemma NewRoomInRun(steps: seq<Step>, worlds: seq<World>, k: nat, room: Room)
    requires Run(steps, worlds) && k < |steps| && room !in worlds[k].rooms && room in worlds[k + 1].rooms
    ensures Stores(worlds[k].db, steps[k], room)
  {
    RunKeepsInv(steps, worlds, k);
    RunAt(steps, worlds, k);
    NewRoomRow(worlds[k], steps[k], room);
  }

  /** A room value was written by some step. */
  lemma {:induction false} WhenStored(steps: seq<Step>, worlds: seq<World>, n: nat, room: Room) returns (k: nat)
    requires Run(steps, worlds) && n < |worlds| && room in worlds[n].rooms
    ensures k < n && Stores(worlds[k].db, steps[k], room)
  {
    if room in worlds[n - 1].rooms {
      k := WhenStored(steps, worlds, n - 1, room);
    } else {
      k := n - 1;
      NewRoomInRun(steps, worlds, k, room);
    }
  }

  /** The row it replaced is the version before it, and that version is unique. */
  lemma WroteFrom(w: World, later: World, step: Step, room: Room, was: Room)
    requires Inv(w) && Allowed(w, step) && Stores(w.db, step, room) && NoAba(later) && w.rooms <= later.rooms
    requires was in later.rooms
    requires was.id == room.id && room.roomVersion == was.roomVersion + 1 && was.roomVersion > 0
    ensures room.id in w.db.rooms && w.db.rooms[room.id] == was
  {
    StepLegal(w, step);
    assert LegalRoom(w.db, room.id, room);
    var current := w.db.rooms[room.id];
    assert current in w.rooms;
    assert FencesOrdered(current, was);
  }

  lemma CancelledFrom(w: World, step: Step, room: Room, was: Room, i: CancelInput)
    requires Inv(w) && Allowed(w, step) && Stores(w.db, step, room) && room.id in w.db.rooms
    requires w.db.rooms[room.id] == was
    requires was.activeSession == i.session && i.session != NIL && CancelledRoomMatches(room, i)
    ensures step.Cancelling? && step.cancel.session == i.session && step.cancel.closeRoom == i.closeRoom
    ensures step.room == was
  {
    OnlyCancelDropsGame(w, step, room.id);
  }

  lemma StoredThen(w: World, step: Step, room: Room)
    requires Stores(w.db, step, room)
    ensures room.id in Next(w, step).db.rooms && Next(w, step).db.rooms[room.id] == room
  {
  }

  /** What a later state still knows about the rooms of an earlier one. */
  lemma LaterRooms(steps: seq<Step>, worlds: seq<World>, k: nat, n: nat)
    requires Run(steps, worlds) && k <= n < |worlds|
    ensures NoAba(worlds[n]) && worlds[k].rooms <= worlds[n].rooms && forall r :: r in worlds[n].rooms ==>
      r.roomVersion > 0
  {
    RunKeepsInv(steps, worlds, n);
    ValuesStayKnown(steps, worlds, k, n);
  }

  lemma MatchedCancel(w: World, later: World, step: Step, room: Room, was: Room, i: CancelInput)
    requires Inv(w) && Allowed(w, step) && Stores(w.db, step, room) && NoAba(later) && w.rooms <= later.rooms
    requires was in later.rooms
    requires was.id == room.id && was.roomVersion > 0 && was.Versions() == i.expected && was.activeSession == i.session
    requires i.session != NIL
    requires CancelledRoomMatches(room, i)
    ensures room.id in w.db.rooms && w.db.rooms[room.id] == was
    ensures step.Cancelling? && step.cancel.session == i.session && step.cancel.closeRoom == i.closeRoom
    ensures step.room == was
  {
    WroteFrom(w, later, step, room, was);
    CancelledFrom(w, step, room, was, i);
  }

  /**
   * A retry that is answered because the room matches repeats the very cancellation that moved the room:
   * if the session was the room's active one at the expected version, the one step since then was a cancel of
   * that session in the requested mode.
   */
  lemma CancelRetryMatchesItsCancel(steps: seq<Step>, worlds: seq<World>, n: nat, room: Room, was: Room, i: CancelInput)
    returns (k: nat)
    requires Run(steps, worlds) && n < |worlds| && room in worlds[n].rooms && was in worlds[n].rooms
    requires was.id == room.id
    requires was.Versions() == i.expected && was.activeSession == i.session && i.session != NIL
    requires CancelledRoomMatches(room, i)
    ensures k < n && room.id in worlds[k].db.rooms && worlds[k].db.rooms[room.id] == was
    ensures steps[k].Cancelling? && steps[k].cancel.session == i.session && steps[k].cancel.closeRoom == i.closeRoom
    ensures steps[k].room == was
    ensures room.id in worlds[k + 1].db.rooms && worlds[k + 1].db.rooms[room.id] == room
  {
    k := WhenStored(steps, worlds, n, room);
    LaterRooms(steps, worlds, k, n);
    RunKeepsInv(steps, worlds, k);
    RunAt(steps, worlds, k);
    MatchedCancel(worlds[k], worlds[n], steps[k], room, was, i);
    StoredThen(worlds[k], steps[k], room);
  }

  // ----- ending a game under pause governance -----

  /**
   * Room and session belong together and end at the same time: everything the end of a game needs besides the pause
   * fields.
   */
  predicate EndsTogether(room: Room, next: Room, s: Session, t: Session) {
    && room.activeSession == s.id && s.room == room.id && s.key.game == room.activeGame && SameTerminating(s, t)
    && t.updatedAt == next.updatedAt && room.roomVersion < MAX_INT64 && room.membershipVersion <= MAX_INT64
    && room.hostEpoch <= MAX_INT64
  }

  /** A finished step is admitted beside its room exactly when no pause is pending or in force. */
  lemma FinishAdmittedIffUnpaused(room: Room, s: Session, t: Session, now: Reading)
    requires room.Reachable() && PrepareFinish(room, s.id, now).Ok? && t.status == Finished && t.cancelReason == ""
    requires EndsTogether(room, PrepareFinish(room, s.id, now).value, s, t)
    ensures TerminationMatches(room, PrepareFinish(room, s.id, now).value, s, t, Finished) <==>
      room.request == NO_REQUEST && room.pause == NO_PAUSE
  {
    ExecuteExact(room, FinishSession(s.id, room.Versions(), now));
  }

  /** The same for both kinds of cancellation. */
  lemma CancelAdmittedIffUnpaused(room: Room, s: Session, t: Session, i: CancelInput)
    requires room.Reachable() && i.session == s.id && Execute(room, CancelCommand(room, i)).Ok? && t.status == Cancelled
    requires s.state == t.state
    requires EndsTogether(room, Execute(room, CancelCommand(room, i)).value, s, t)
    ensures TerminationMatches(room, Execute(room, CancelCommand(room, i)).value, s, t, Cancelled) <==>
      room.request == NO_REQUEST && room.pause == NO_PAUSE
  {
    ExecuteExact(room, CancelCommand(room, i));
  }

  /** Two players, a running game and one pending pause request. */
  const WAITING_ROOM: Room := Room(1, "ROOM1", Private, Playing, 1, 2, AdmissionClosed, AdmissionOpen,
    [Member(1, ParticipantRole, None, 0, 1000, 1000), Member(2, ParticipantRole, None, 1, 1000, 1000)],
    7, "dice", NIL, "", PauseRequest(3, 7, 2, 2000), NO_PAUSE, "dice", 1, 3, 2, 1000, 2000)

  /** The room accepts the end of this game, the termination check refuses it, whatever the sessions are. */
  lemma PendingRequestBlocksFinish(s: Session, t: Session)
    ensures PrepareFinish(WAITING_ROOM, 7, 5_000_000).Ok?
    ensures !TerminationMatches(WAITING_ROOM, PrepareFinish(WAITING_ROOM, 7, 5_000_000).value, s, t, Finished)
  {
    var r := WAITING_ROOM;
    assert r.members[0].user == 1 && r.members[1].user == 2;
    assert r.members[1..] == [r.members[1]];
    assert ParticipantCount(r.members) == 2;
    assert r.Reachable();
    assert Guard(r, FinishSession(7, r.Versions(), 5_000_000)).Ok?;
    GuardSuffices(r, FinishSession(7, r.Versions(), 5_000_000));
    ExecuteExact(r, FinishSession(7, r.Versions(), 5_000_000));
  }

  // ----- clocks -----

  /**
   * The governed time is later than both aggregates, so neither refuses it on time, and truncating it changes nothing.
   */
  lemma GovernedTimeFitsBoth(now: Reading, roomUpdatedAt: Time, sessionUpdatedAt: Time)
    ensures var at := GovernedTime(now, roomUpdatedAt, sessionUpdatedAt);
      && Micros(Nanos(at)) == at && roomUpdatedAt < at && sessionUpdatedAt < at
      && at == Max(Micros(now), Max(roomUpdatedAt, sessionUpdatedAt) + 1)
  {
    TruncationKeepsOrder(now, GovernedTime(now, roomUpdatedAt, sessionUpdatedAt));
  }

  /** Bumping before truncating fails on exactly the readings inside the microsecond after the last update. */
  lemma BumpedTimeTooEarly(now: Reading, updatedAt: Time)
    ensures Micros(BumpedTime(now, updatedAt)) <= updatedAt <==> Nanos(updatedAt) < now < Nanos(updatedAt + 1)
  {
    TruncationKeepsOrder(now, updatedAt + 1);
    TruncationKeepsOrder(now, updatedAt);
  }

  /** So a session-only suspension under the right epoch is refused exactly there. */
  lemma SuspendRefusedWithinTheMicrosecond(s: Session, now: Reading)
    requires s.Valid() && s.status == Active && s.epoch != 0
    ensures PrepareSuspend(s, s.epoch, BumpedTime(now, s.updatedAt)).Err? <==>
      Nanos(s.updatedAt) < now < Nanos(s.updatedAt + 1)
  {
    var at := BumpedTime(now, s.updatedAt);
    SuspendShape(s, s.epoch, at);
    BumpedTimeTooEarly(now, s.updatedAt);
    if Suspend(s, s.epoch, at).Ok? { SuspendAdmitted(s, s.epoch, at); }
  }
}
