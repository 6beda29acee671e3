/**
 * The remaining commands, exactly: claims and session-only pauses from any row ever stored, changes of a room from any
 * room ever stored, acknowledgements, first calls, and retries of an ending.
 */
module RuntimeOutcomes {
  import opened Base
  import opened GameSdk
  import opened GameSession
  import opened SessionSteps
  import opened Commits
  import opened PartyRoom
  import opened RoomCommands
  import opened RoomLaws
  import opened RoomEffects
  import opened RuntimeStore
  import opened RuntimeService
  import opened RuntimeCalls
  import opened RuntimeWorld
  import opened RuntimeRows
  import opened RuntimeRuns
  import opened RuntimeTheorems
  import opened RuntimeGovernance
  import opened RuntimeInputs
  import opened RuntimeProgress
  import opened RuntimeStarts

  // ----- claims -----

  /** Only the session is written. */
  function SessionRow(s: Session): Tables { NOTHING.(sessions := map[s.id := s]) }

  lemma ClaimedRowRestores(now: Session, at: Time)
    requires now.Valid() && !now.status.Terminal() && now.startedAt <= at
    ensures var t := now.(epoch := now.epoch + 1, updatedAt := at);
      && (Reread(t).Ok? <==> (now.status == Suspended ==> now.suspendedAt <= at))
      && (Reread(t).Ok? ==> Reread(t).value == t)
  {
    var t := now.(epoch := now.epoch + 1, updatedAt := at);
    RestoreAcceptsIff(t);
    RestoreAcceptsIff(now);
    GameSession.RestoreFixedPoint(now);
    if RestoreSession(t).Ok? { RestoreYieldsValid(t); }
  }

  /**
   * A claim, computed from any row ever stored, commits exactly when it names that row's epoch, comes later than the
   * row, and the stored row is live with that epoch and version, and not suspended after the claim. It raises the
   * epoch by one and touches nothing else.
   */
  lemma ClaimCommitsIff(db: Tables, before: Session, epoch: nat, at: Reading)
    requires before.Valid() && before.id in db.sessions && db.sessions[before.id].Valid()
    requires db.sessions[before.id].Identity() == before.Identity()
    ensures var r := Claim(db, before, epoch, at); var now := db.sessions[before.id];
      && (r.Ok? <==>
            && epoch == before.epoch && Live(before) && before.updatedAt < Micros(at) && Live(now)
            && now.epoch == before.epoch && now.Version() == before.Version()
            && (now.status == Suspended ==> now.suspendedAt <= Micros(at))
            && before.epoch < MAX_INT64 && before.Version() <= MAX_INT64)
      && (r.Ok? ==> r.value == SessionRow(now.(epoch := now.epoch + 1, updatedAt := Micros(at))))
  {
    AcquireShape(before, epoch, at);
    var now := db.sessions[before.id];
    assert now.id == before.id && now.startedAt == before.startedAt;
    if !now.status.Terminal() && before.updatedAt < Micros(at) { ClaimedRowRestores(now, Micros(at)); }
  }

  // ----- pauses of the session alone -----

  /**
   * A reading pushed past an instant lies after it, once truncated, unless it falls inside the microsecond after it.
   */
  lemma BumpedPast(now: Reading, latest: Time)
    ensures !(Nanos(latest) < now < Nanos(latest + 1)) ==>
      latest < Micros(BumpedTime(now, latest)) && Micros(BumpedTime(now, latest)) == Max(Micros(now), latest + 1)
    ensures Nanos(latest) < now < Nanos(latest + 1) ==> Micros(BumpedTime(now, latest)) == latest
  {
    TruncationKeepsOrder(now, latest);
    TruncationKeepsOrder(now, latest + 1);
    TruncationKeepsOrder(Nanos(latest + 1), latest + 1);
  }

  lemma SuspendIff(db: Tables, before: Session, epoch: nat, now: Reading)
    requires before.Valid() && NamedRow(db, before)
    ensures var r := SuspendSession(db, before, epoch, now);
      && (r.Ok? <==>
            && db.sessions[before.id] == before && before.status == Active && epoch != 0 && epoch == before.epoch
            && !(Nanos(before.updatedAt) < now < Nanos(before.updatedAt + 1)))
      && (r.Ok? ==> r.value == SessionRow(PausedSession(before, Max(Micros(now), before.updatedAt + 1))))
  {
    var at := BumpedTime(now, before.updatedAt);
    BumpedPast(now, before.updatedAt);
    SuspendPreparesIff(before, epoch, at);
    if PrepareSuspend(before, epoch, at).Ok? {
      SuspendPrepared(before, epoch, at);
      SwapsOnlyItsRow(db, PrepareSuspend(before, epoch, at).value);
    }
  }

  /**
   * In any run, a session-only suspension computed from any row ever stored commits exactly when that is still the
   * stored row, active and the caller's, and the clock does not read inside the microsecond after it.
   */
  lemma SuspendCommitsIff(steps: seq<Step>, worlds: seq<World>, n: nat, before: Session, epoch: nat, now: Reading)
    requires Run(steps, worlds) && n < |worlds| && before in worlds[n].sessions
    ensures var db := worlds[n].db; var r := SuspendSession(db, before, epoch, now);
      && before.id in db.sessions
      && (r.Ok? <==>
            && db.sessions[before.id] == before && before.status == Active && epoch != 0 && epoch == before.epoch
            && !(Nanos(before.updatedAt) < now < Nanos(before.updatedAt + 1)))
      && (r.Ok? ==> r.value == SessionRow(PausedSession(before, Max(Micros(now), before.updatedAt + 1))))
  {
    RunNamed(steps, worlds, n, before);
    TracksInRun(steps, worlds, n, before);
    SuspendIff(worlds[n].db, before, epoch, now);
  }

  lemma ResumeOnlyIff(db: Tables, before: Session, epoch: nat, now: Reading, adjustment: Adjustment)
    requires before.Valid() && NamedRow(db, before)
    ensures var r := ResumeOnly(db, before, epoch, now, adjustment); var at := Max(Micros(now), before.updatedAt + 1);
      && (r.Ok? <==>
            && db.sessions[before.id] == before && before.status == Suspended && epoch != 0 && epoch == before.epoch
            && !(Nanos(before.updatedAt) < now < Nanos(before.updatedAt + 1)) && AdjustmentFits(before, at, adjustment))
      && (r.Ok? ==> before.id in r.value.sessions && r.value == SessionRow(r.value.sessions[before.id])
                    && ResumedAt(before, r.value.sessions[before.id], at, adjustment))
  {
    var at := BumpedTime(now, before.updatedAt);
    BumpedPast(now, before.updatedAt);
    if before.updatedAt < Micros(at) {
      ResumePreparesIff(before, epoch, at, adjustment);
      if PrepareResume(before, epoch, at, adjustment).Ok? {
        ResumePrepared(before, epoch, at, adjustment);
        ResumeYields(before, epoch, at, adjustment);
        SwapsOnlyItsRow(db, PrepareResume(before, epoch, at, adjustment).value);
      }
    } else if PrepareResume(before, epoch, at, adjustment).Ok? {
      ResumeShape(before, epoch, at, adjustment);
    }
  }

  /** The same for a session-only resume, whose module's adjustment must fit; no room is asked. */
  lemma ResumeOnlyCommitsIff(steps: seq<Step>, worlds: seq<World>, n: nat, before: Session, epoch: nat, now: Reading,
                             adjustment: Adjustment)
    requires Run(steps, worlds) && n < |worlds| && before in worlds[n].sessions
    ensures var db := worlds[n].db; var r := ResumeOnly(db, before, epoch, now, adjustment);
      var at := Max(Micros(now), before.updatedAt + 1);
      && before.id in db.sessions
      && (r.Ok? <==>
            && db.sessions[before.id] == before && before.status == Suspended && epoch != 0 && epoch == before.epoch
            && !(Nanos(before.updatedAt) < now < Nanos(before.updatedAt + 1)) && AdjustmentFits(before, at, adjustment))
      && (r.Ok? ==> before.id in r.value.sessions && r.value == SessionRow(r.value.sessions[before.id])
                    && ResumedAt(before, r.value.sessions[before.id], at, adjustment))
  {
    RunNamed(steps, worlds, n, before);
    TracksInRun(steps, worlds, n, before);
    ResumeOnlyIff(worlds[n].db, before, epoch, now, adjustment);
  }

  // ----- rooms -----

  function RoomRow(r: Room): Tables { NOTHING.(rooms := map[r.id := r]) }

  /** The database's signed counters can hold the next version of the room. */
  predicate Storable(next: Room) {
    next.roomVersion <= MAX_INT64 && next.membershipVersion <= MAX_INT64 && next.hostEpoch <= MAX_INT64
  }

  /** In any run a room ever stored that still has the stored versions is the stored room. */
  lemma RoomNamed(steps: seq<Step>, worlds: seq<World>, n: nat, room: Room)
    requires Run(steps, worlds) && n < |worlds| && room in worlds[n].rooms
    ensures room.Reachable() && room.id in worlds[n].db.rooms
    ensures worlds[n].db.rooms[room.id].roomVersion == room.roomVersion ==> worlds[n].db.rooms[room.id] == room
  {
    RunKeepsInv(steps, worlds, n);
    RoomNamedIn(worlds[n], room);
  }

  lemma RoomNamedIn(w: World, room: Room)
    requires Core(w) && room in w.rooms
    ensures room.Reachable() && room.id in w.db.rooms
    ensures w.db.rooms[room.id].roomVersion == room.roomVersion ==> w.db.rooms[room.id] == room
  {
    var now := w.db.rooms[room.id];
    assert now in w.rooms && FencesOrdered(room, now);
  }

  lemma UpdateIff(db: Tables, room: Room, next: Room)
    requires room.id in db.rooms && (db.rooms[room.id].roomVersion == room.roomVersion ==> db.rooms[room.id] == room)
    requires next.Valid() && Successor(room, next)
    ensures UpdateCAS(db, room, next).Ok? <==> db.rooms[room.id] == room && Storable(next)
    ensures UpdateCAS(db, room, next).Ok? ==> UpdateCAS(db, room, next).value == RoomRow(next)
    ensures UpdateRoom(db, room, next).Ok? <==> db.rooms[room.id] == room
    ensures UpdateRoom(db, room, next).Ok? ==> UpdateRoom(db, room, next).value == RoomRow(next)
  {
    if db.rooms[room.id] == room { RoomStores(db, room, next); }
  }

  lemma EditIff(db: Tables, room: Room, c: Command)
    requires room.Reachable() && room.id in db.rooms
    requires db.rooms[room.id].roomVersion == room.roomVersion ==> db.rooms[room.id] == room
    ensures var r := EditRoom(db, room, c); var next := Execute(room, c);
      && (r.Ok? <==> RoomTakesAlone(room, c) && next.Ok?
                     && (next.value == room || (db.rooms[room.id] == room && Storable(next.value))))
      && (r.Ok? ==> r.value == if next.value == room then NOTHING else RoomRow(next.value))
  {
    if Execute(room, c).Ok? && Execute(room, c).value != room {
      ExecuteSuccessor(room, c);
      ExecuteExact(room, c);
      UpdateIff(db, room, Execute(room, c).value);
    }
  }

  /**
   * In any run, a room command that leaves the game alone, computed from any room ever stored, commits exactly when the
   * room accepts it and either nothing is to be changed or that room is still the stored one. It stores what the
   * command does, and nothing else.
   */
  lemma EditCommitsIff(steps: seq<Step>, worlds: seq<World>, n: nat, room: Room, c: Command)
    requires Run(steps, worlds) && n < |worlds| && room in worlds[n].rooms
    ensures var db := worlds[n].db; var r := EditRoom(db, room, c); var next := Execute(room, c);
      && room.id in db.rooms
      && (r.Ok? <==> RoomTakesAlone(room, c) && next.Ok?
                     && (next.value == room || (db.rooms[room.id] == room && Storable(next.value))))
      && (r.Ok? ==> Does(room, c, next.value) && r.value == if next.value == room then NOTHING else RoomRow(next.value))
  {
    RoomNamed(steps, worlds, n, room);
    EditIff(worlds[n].db, room, c);
    if Execute(room, c).Ok? { AcceptedDoes(room, c); }
  }

  lemma RemovalIff(db: Tables, room: Room, authority: Authority, user: Id, expected: RoomVersions, at: Reading,
                   eventId: Id, payload: Digest)
    requires room.Reachable() && room.id in db.rooms
    requires db.rooms[room.id].roomVersion == room.roomVersion ==> db.rooms[room.id] == room
    ensures var r := RemovePlayer(db, room, authority, user, expected, at, eventId, payload);
      var next := Execute(room, RemoveMember(authority, user, expected, at));
      && (r.Ok? <==>
            && next.Ok? && room.status == Playing && room.IsParticipant(user) && eventId != NIL
            && db.rooms[room.id] == room && Storable(next.value) && InboxKey(room.activeSession, eventId) !in db.inbox)
      && (r.Ok? ==> r.value == RoomRow(next.value).(inbox := map[InboxKey(room.activeSession, eventId) :=
                                                                   InboxRow(payload, None)]))
  {
    var c := RemoveMember(authority, user, expected, at);
    if Execute(room, c).Ok? {
      ExecuteSuccessor(room, c);
      AcceptedDoes(room, c);
      ExecuteExact(room, c);
      UpdateIff(db, room, Execute(room, c).value);
      GoneAfterRemoval(room, Execute(room, c).value, user);
    }
  }

  lemma GoneAfterRemoval(room: Room, next: Room, user: Id)
    requires room.Valid() && Leaves(room.members, next.members, user)
    ensures forall i :: 0 <= i < |next.members| ==> next.members[i].user != user
  {
    var k :| 0 <= k < |room.members| && room.members[k].user == user
             && next.members == room.members[..k] + room.members[k + 1..];
    forall i | 0 <= i < |next.members| ensures next.members[i].user != user {
      var at := if i < k then i else i + 1;
      assert next.members[i] == room.members[at];
      if room.members[at].user == user { OnlyMember(room, at, k); }
    }
  }

  /**
   * In any run, removing a player from a running game, computed from any room ever stored, commits exactly when the
   * room accepts it, that room is still the stored one and the event is new; room and pending room fact are stored
   * together.
   */
  lemma RemovalCommitsIff(steps: seq<Step>, worlds: seq<World>, n: nat, room: Room, authority: Authority, user: Id,
                          expected: RoomVersions, at: Reading, eventId: Id, payload: Digest)
    requires Run(steps, worlds) && n < |worlds| && room in worlds[n].rooms
    ensures var db := worlds[n].db; var r := RemovePlayer(db, room, authority, user, expected, at, eventId, payload);
      var c := RemoveMember(authority, user, expected, at); var next := Execute(room, c);
      && room.id in db.rooms
      && (r.Ok? <==>
            && next.Ok? && room.status == Playing && room.IsParticipant(user) && eventId != NIL
            && db.rooms[room.id] == room && Storable(next.value) && InboxKey(room.activeSession, eventId) !in db.inbox)
      && (r.Ok? ==>
            && Does(room, c, next.value)
            && r.value == RoomRow(next.value).(inbox := map[InboxKey(room.activeSession, eventId) :=
                                                              InboxRow(payload, None)]))
  {
    RoomNamed(steps, worlds, n, room);
    RemovalIff(worlds[n].db, room, authority, user, expected, at, eventId, payload);
    if Execute(room, RemoveMember(authority, user, expected, at)).Ok? {
      AcceptedDoes(room, RemoveMember(authority, user, expected, at));
    }
  }

  /** A room is opened exactly for proper input under a new identifier, with its host alone at the first seat. */
  lemma OpensIff(db: Tables, id: Id, host: Id, code: string, visibility: Visibility, capacity: nat,
                 participant: Admission, spectator: Admission, at: Reading)
    ensures var r := OpenRoom(db, id, host, code, visibility, capacity, participant, spectator, at);
      && (r.Ok? <==> id != NIL && host != NIL && Micros(at) != ZERO_TIME && ValidCode(code) && capacity > 0
                     && id !in db.rooms)
      && (r.Ok? ==> r.value == RoomRow(
            Room(id, code, visibility, Lobby, host, capacity, participant, spectator,
                 [Member(host, ParticipantRole, None, 0, Micros(at), Micros(at))],
                 NIL, "", NIL, "", NO_REQUEST, NO_PAUSE,
                 "liars-dice", 1, 1, 1, Micros(at), Micros(at))))
  {
    NewRoomReachable(id, host, code, visibility, capacity, participant, spectator, at);
  }

  // ----- the inbox -----

  /** In any run a recorded room fact stays recorded, and an acknowledged one keeps its version. */
  lemma FactsStay(steps: seq<Step>, worlds: seq<World>, i: nat, j: nat, key: InboxKey)
    requires Run(steps, worlds) && i <= j < |worlds| && key in worlds[i].db.inbox
    ensures FactKept(worlds[i].db, worlds[j].db, key)
  {
    RunKeepsAnswers(steps, worlds, i, j);
  }

  /**
   * In any run, an acknowledgement that was taken holds for good: the fact keeps that version at every later state, and
   * another acknowledgement is accepted exactly if it says the same, and then writes nothing.
   */
  lemma AcknowledgedForGood(steps: seq<Step>, worlds: seq<World>, k: nat, j: nat, key: InboxKey, payload: Digest,
                            version: nat, again: nat)
    requires Run(steps, worlds) && k < j < |worlds| && steps[k] == Acknowledging(key, payload, version)
    requires Perform(worlds[k].db, steps[k]).Ok?
    ensures key in worlds[j].db.inbox && worlds[j].db.inbox[key] == InboxRow(payload, Some(version))
    ensures var r := CompleteInbox(worlds[j].db, key, payload, again);
      (r.Ok? <==> again == version) && (r.Ok? ==> r.value == NOTHING)
  {
    RunAt(steps, worlds, k);
    AcknowledgesIff(worlds[k].db, key, payload, version);
    assert worlds[k + 1].db.inbox[key] == InboxRow(payload, Some(version));
    FactsStay(steps, worlds, k + 1, j, key);
    AcknowledgesIff(worlds[j].db, key, payload, again);
  }

  /**
   * A room fact is acknowledged exactly if it was recorded with this payload and not acknowledged with another version;
   * the first time stores the version, any other time nothing.
   */
  lemma AcknowledgesIff(db: Tables, key: InboxKey, payload: Digest, version: nat)
    ensures var r := CompleteInbox(db, key, payload, version);
      && (r.Ok? <==>
            && key.session != NIL && key.eventId != NIL && 0 < version <= MAX_INT64 && key in db.inbox
            && db.inbox[key].payload == payload && db.inbox[key].completed in {None, Some(version)})
      && (r.Ok? ==> r.value == if db.inbox[key].completed.Some? then NOTHING
                               else NOTHING.(inbox := map[key := InboxRow(payload, Some(version))]))
  {
  }

  // ----- first calls -----

  lemma ActionCallExecutes(looked: Tables, db: Tables, before: Session, room: Room, i: ActionInput)
    requires ActionKey(before.id, i.actor, i.actionId) !in looked.actions
    requires before.id in looked.sessions ==> looked.sessions[before.id].room in looked.rooms
    ensures var r := HandleAction(looked, db, before, room, i);
      if ActionWellFormed(before.id, i) && StillPlays(looked, before.id, i.actor)
      then r == ExecuteAction(db, before, room, i) else r.Err?
  {
  }

  lemma RoomsOfSessions(steps: seq<Step>, worlds: seq<World>, l: nat, id: Id)
    requires Run(steps, worlds) && l < |worlds| && id in worlds[l].db.sessions
    ensures worlds[l].db.sessions[id].room in worlds[l].db.rooms
  {
    RunKeepsInv(steps, worlds, l);
    assert SessionAgrees(worlds[l].db, id);
  }

  /**
   * In any run, a call for an action that no one has answered, looked up at state l and executed at state n from any
   * row ever stored, commits exactly when the actor played at the lookup and the action commits at its execution.
   */
  lemma FirstActionCallCommitsIff(steps: seq<Step>, worlds: seq<World>, l: nat, n: nat, before: Session, room: Room,
                                  i: ActionInput)
    requires Run(steps, worlds) && l <= n < |worlds| && before in worlds[n].sessions && !i.transition.finished
    requires ActionKey(before.id, i.actor, i.actionId) !in worlds[n].db.actions
    ensures var db := worlds[n].db; var r := HandleAction(worlds[l].db, db, before, room, i);
      && before.id in db.sessions && before.room in db.rooms
      && (r.Ok? <==>
            && StillPlays(worlds[l].db, before.id, i.actor) && ActionGuard(before, i)
            && db.rooms[before.room].IsParticipant(i.actor) && Unmoved(db, before))
      && (r.Ok? ==> ActionWritten(before, i, r.value))
  {
    RunKeepsAnswers(steps, worlds, l, n);
    TracksInRun(steps, worlds, n, before);
    if before.id in worlds[l].db.sessions { RoomsOfSessions(steps, worlds, l, before.id); }
    ActionCallExecutes(worlds[l].db, worlds[n].db, before, room, i);
    ActionCommitsIff(worlds[n].db, before, room, i);
  }

  lemma TimerCallExecutes(looked: Tables, db: Tables, before: Session, room: Room, i: TimerInput)
    requires TimerKey(before.id, i.timerId, i.expectedVersion) !in looked.timers
    ensures var r := HandleTimer(looked, db, before, room, i);
      if TimerWellFormed(before.id, i) then r == ExecuteTimer(db, before, room, i) else r.Err?
  {
  }

  /** The same for a timer. */
  lemma FirstTimerCallCommitsIff(steps: seq<Step>, worlds: seq<World>, l: nat, n: nat, before: Session, room: Room,
                                 i: TimerInput)
    requires Run(steps, worlds) && l <= n < |worlds| && before in worlds[n].sessions && !i.transition.finished
    requires TimerKey(before.id, i.timerId, i.expectedVersion) !in worlds[n].db.timers
    ensures var db := worlds[n].db; var r := HandleTimer(worlds[l].db, db, before, room, i);
      && before.id in db.sessions
      && (r.Ok? <==> TimerGuard(before, i) && Unmoved(db, before) && ArmedAndDue(db.sessions[before.id], i))
      && (r.Ok? ==> TimerWritten(before, i, r.value))
  {
    RunKeepsAnswers(steps, worlds, l, n);
    TracksInRun(steps, worlds, n, before);
    TimerCallExecutes(worlds[l].db, worlds[n].db, before, room, i);
    TimerCommitsIff(worlds[n].db, before, room, i);
  }

  lemma StartCallExecutes(looked: Tables, db: Tables, read: Session, room: Room, i: StartInput)
    requires StartKey(i.actor, room.id, i.operation) !in looked.starts
    ensures var r := Start(looked, db, read, room, i);
      if StartWellFormed(room.id, i) then r == ExecuteStart(db, room, i) else r.Err?
  {
  }

  /** A call for a start that no one has answered commits exactly when the start does. */
  lemma FirstStartCallCommitsIff(looked: Tables, db: Tables, read: Session, room: Room, i: StartInput)
    requires FreshStart(db, room, i) && StartKey(i.actor, room.id, i.operation) !in looked.starts
    ensures var r := Start(looked, db, read, room, i);
      && (r.Ok? <==> StartGuard(room, i) && !i.transition.finished) && (r.Ok? ==> StartWritten(room, i, r.value))
  {
    StartCallExecutes(looked, db, read, room, i);
    StartCommitsIff(db, room, i);
  }

  // ----- calls that are overtaken between their lookup and their execution -----

  /**
   * An action that was answered after its lookup gets that answer, whatever became of the session, exactly if it
   * could be prepared from its row, the actor still plays and the request is the same; nothing is written.
   */
  lemma OvertakenActionIff(db: Tables, before: Session, room: Room, i: ActionInput)
    requires before.Valid() && before.id in db.sessions && before.room in db.rooms && !i.transition.finished
    requires ActionKey(before.id, i.actor, i.actionId) in db.actions
    ensures
      var r := ExecuteAction(db, before, room, i);
      var stored := db.actions[ActionKey(before.id, i.actor, i.actionId)];
      && (r.Ok? <==>
            ActionGuard(before, i) && db.rooms[before.room].IsParticipant(i.actor) && stored.request == i.request)
      && (r.Ok? ==> r.value == ActionAnswer(NOTHING, stored, true))
  {
    ActionPreparedIff(before, i);
    if PrepareAction(before, i).Ok? {
      ActionPreparedExact(before, i);
      OngoingAction(before, i);
    }
  }

  /** The same for a timer, which has no request to compare. */
  lemma OvertakenTimerIff(db: Tables, before: Session, room: Room, i: TimerInput)
    requires before.Valid() && before.id in db.sessions && !i.transition.finished
    requires TimerKey(before.id, i.timerId, i.expectedVersion) in db.timers
    ensures var r := ExecuteTimer(db, before, room, i);
      && (r.Ok? <==> TimerGuard(before, i))
      && (r.Ok? ==>
            r.value == TimerAnswer(NOTHING, db.timers[TimerKey(before.id, i.timerId, i.expectedVersion)], true))
  {
    TimerPreparedIff(before, i);
    if PrepareTimer(before, i).Ok? {
      TimerPreparedExact(before, i);
      OngoingTimer(before, i);
    }
  }

  /** The same for a system fact, whose source and request must be those of the answered operation. */
  lemma OvertakenSystemIff(db: Tables, before: Session, room: Room, i: SystemInput)
    requires before.Valid() && before.id in db.sessions && before.status == Active && !i.transition.finished
    requires var k := OperationKey(before.id, i.operation); k in db.operations && db.operations[k].answer.Some?
    ensures
      var r := HandleSystemOnce(db, before, room, i);
      var op := db.operations[OperationKey(before.id, i.operation)];
      && (r.Ok? <==>
            SystemGuard(before, i) && i.source.kind != HostApi && op.source == i.source && op.request == i.request)
      && (r.Ok? ==> r.value == SystemAnswer(NOTHING, op.answer.value, true, false))
  {
    if i.key == before.key && i.expectedVersion != 0
       && (i.source.kind == HostApi ==> i.expectedVersion == before.Version()) {
      SystemPreparedIff(before, i);
      if PrepareSystem(before, i).Ok? {
        SystemPreparedExact(before, i);
        OngoingSystem(before, i);
      }
    }
  }

  /** What a start needs of the rooms it read and stores: the counters fit, and the room still exists. */
  predicate StartReaches(db: Tables, room: Room) {
    && room.Reachable() && room.id in db.rooms
    && room.roomVersion < MAX_INT64 && room.membershipVersion <= MAX_INT64 && room.hostEpoch <= MAX_INT64
  }

  /** The same for a start, from any room ever read: it names the session of the first one. */
  lemma OvertakenStartIff(db: Tables, room: Room, i: StartInput)
    requires StartReaches(db, room) && StartKey(i.actor, room.id, i.operation) in db.starts
    ensures var r := ExecuteStart(db, room, i); var stored := db.starts[StartKey(i.actor, room.id, i.operation)];
      && (r.Ok? <==> StartGuard(room, i) && !i.transition.finished && stored.request == i.request)
      && (r.Ok? ==> r.value == StartAnswer(NOTHING, stored.session, true))
  {
    RuntimeStarts.StartUnfolds(db, room, i);
    PreparesIff(room, i);
    if StartGuard(room, i) {
      var at := Micros(i.now);
      var made := NewSession(CreationOf(room, i)).value;
      CreatedFields(CreationOf(room, i), room.members);
      TruncationKeepsOrder(Nanos(at), at);
      StartedFields(room, StartCommand(i));
      MatchesIffActive(room, made.0, i.game, at);
      AnsweredStartStored(db, room, StartedRoom(room, i.session, i.game, at), made.0, made.1,
                          StartReceipt(StartKey(i.actor, room.id, i.operation), i.request, i.session, at));
    }
  }

  lemma AnsweredStartStored(db: Tables, room: Room, next: Room, s: Session, b: Batch, receipt: StartReceipt)
    requires room.id in db.rooms && RoomTransition(room, next) && receipt.key in db.starts
    requires receipt.key.room == room.id
    requires receipt.key.actor == room.host && receipt.session == s.id && receipt.committedAt == s.startedAt
    requires CreationValid(s, b, [NewEvent(SessionCreatedEvent, s.id, Nanos(s.startedAt))])
    ensures var r := StartGame(db, room, next, s, b, [NewEvent(SessionCreatedEvent, s.id, Nanos(s.startedAt))],
                               receipt);
      && (r.Ok? <==> StartMatches(room, next, s) && db.starts[receipt.key].request == receipt.request)
      && (r.Ok? ==> r.value == StartAnswer(NOTHING, db.starts[receipt.key].session, true))
  {
  }

  // ----- retried endings -----

  /**
   * A cancellation that committed is recognised: as long as room and session are as it left them, asking for it
   * again, with any reason and at any time, is answered as done and writes nothing.
   */
  lemma CancelRetryIsAnswered(db: Tables, room: Room, before: Session, i: CancelInput, later: Tables, reason: string,
                              now: Reading)
    requires before.Valid() && Current(db, before) && Plays(db, room, before) && i.session == before.id
    requires i.expected == room.Versions() && i.epoch != 0 && room.updatedAt <= Micros(i.now)
    requires RuntimeService.Cancel(db, room, before, i).Ok?
    ensures var w := RuntimeService.Cancel(db, room, before, i).value;
      && room.id in w.rooms && before.id in w.sessions
      && RuntimeService.Cancel(later, w.rooms[room.id], w.sessions[before.id],
                               i.(reason := reason, now := now)) == Ok(NOTHING)
  {
    CancelCommitsIff(db, room, before, i);
  }

  /** The stored session was cancelled from this very row of it, for this reason. */
  predicate CancelledFrom(current: Session, before: Session, reason: string) {
    && current.status == Cancelled && current.endedAt == current.updatedAt && current.cancelReason == reason
    && current.id == before.id && current.room == before.room && current.key == before.key
    && current.epoch == before.epoch && current.Version() == before.Version()
  }

  /**
   * A cancellation overtaken between its reads and its transaction is answered as done exactly when what overtook it
   * was the same cancellation: the room is as this one would have left it, to the microsecond, and so is the
   * session's reason.
   */
  lemma OvertakenCancelIff(db: Tables, read: Tables, room: Room, before: Session, i: CancelInput)
    requires before.Valid() && Current(read, before) && Plays(read, room, before) && i.session == before.id
    requires i.expected == room.Versions() && i.epoch != 0 && room.updatedAt <= Micros(i.now)
    requires room.id in db.rooms && db.rooms[room.id] != room && before.id in db.sessions
    ensures var r := RuntimeService.Cancel(db, room, before, i);
      && (r.Ok? <==>
            && RuntimeService.Cancel(read, room, before, i).Ok?
            && db.rooms[room.id] == CancelledRoom(room, i.closeRoom, Micros(i.now))
            && CancelledFrom(db.sessions[before.id], before, if i.reason == "" then "platform_cancelled" else i.reason))
      && (r.Ok? ==> r.value == NOTHING)
  {
    CancelCommitsIff(read, room, before, i);
    CancelShape(before, i.epoch, i.now, i.reason);
    if SessionSteps.Cancel(before, i.epoch, i.now, i.reason).Ok? {
      var after := SessionSteps.Cancel(before, i.epoch, i.now, i.reason).value;
      CancelAdmitted(before, i.epoch, i.now, i.reason);
      CancelPrepares(room, i);
      CancelAdmittedIffUnpaused(room, before, after, i);
      LateCancelStores(db, room, CancelledRoom(room, i.closeRoom, Micros(i.now)),
                       PrepareCancel(before, i.epoch, i.now, i.reason).value);
    }
  }

  lemma LateCancelStores(db: Tables, room: Room, next: Room, c: LifecycleCommit)
    requires room.id in db.rooms && db.rooms[room.id] != room && c.before.id in db.sessions
    ensures var r := CancelGame(db, room, next, c);
      && (r.Ok? <==>
            && TerminationMatches(room, next, c.before, c.after, Cancelled) && db.rooms[room.id] == next
            && SamePersistedTerminal(db.sessions[c.before.id], c.after, Cancelled))
      && (r.Ok? ==> r.value == NOTHING)
  {
  }

  /** What a late caller of a finishing step finds: the room has moved on, the session ended with this very step. */
  predicate EndedBy(db: Tables, room: Room, after: Session, version: nat) {
    && room.id in db.rooms && db.rooms[room.id] != room && after.id in db.sessions && db.sessions[after.id] == after
    && after.status == Finished && after.endedAt == after.updatedAt && version == after.Version()
  }

  lemma EndingReplays(db: Tables, after: Session, version: nat)
    requires after.id in db.sessions && db.sessions[after.id] == after && after.Valid() && after.status == Finished
    requires version == after.Version()
    ensures ReplayFinish(db, after, version).None?
  {
  }

  lemma LateActionReplays(db: Tables, room: Room, next: Room, c: ActionCommit)
    requires c.after.Valid() && EndedBy(db, room, c.after, c.receipt.version)
    requires c.receipt.key in db.actions && db.actions[c.receipt.key] == c.receipt
    requires db.rooms[room.id].IsParticipant(c.receipt.key.actor)
    requires TerminationMatches(room, next, c.before, c.after, Finished)
    ensures FinishAction(db, room, next, c) == Ok(ActionAnswer(NOTHING, c.receipt, true))
  {
    EndingReplays(db, c.after, c.receipt.version);
  }

  lemma LateTimerReplays(db: Tables, room: Room, next: Room, c: TimerCommit)
    requires c.after.Valid() && EndedBy(db, room, c.after, c.receipt.version)
    requires c.receipt.key in db.timers && db.timers[c.receipt.key] == c.receipt
    requires TerminationMatches(room, next, c.before, c.after, Finished)
    ensures FinishTimer(db, room, next, c) == Ok(TimerAnswer(NOTHING, c.receipt, true))
  {
    EndingReplays(db, c.after, c.receipt.version);
  }

  lemma ActionFinishRows(db: Tables, room: Room, next: Room, c: ActionCommit)
    requires FinishAction(db, room, next, c).Ok? && c.receipt.key !in db.actions && c.before.id in db.sessions
    requires Unmoved(db, c.before) ==>
      PersistStep(db, db.sessions[c.before.id], c.after, c.batch) == Ok(RowsOf(c.after, c.batch))
    ensures TerminationMatches(room, next, c.before, c.after, Finished)
    ensures FinishAction(db, room, next, c).value.writes ==
      RowsOf(c.after, c.batch).(rooms := map[room.id := next], actions := map[c.receipt.key := c.receipt])
  {
  }

  lemma TimerFinishRows(db: Tables, room: Room, next: Room, c: TimerCommit)
    requires FinishTimer(db, room, next, c).Ok? && c.receipt.key !in db.timers && c.before.id in db.sessions
    requires Unmoved(db, c.before) ==>
      PersistStep(db, db.sessions[c.before.id], c.after, c.batch) == Ok(RowsOf(c.after, c.batch))
    ensures TerminationMatches(room, next, c.before, c.after, Finished)
    ensures FinishTimer(db, room, next, c).value.writes ==
      RowsOf(c.after, c.batch).(rooms := map[room.id := next], timers := map[c.receipt.key := c.receipt])
  {
  }

  lemma FirstFinishWrote(db: Tables, before: Session, room: Room, i: ActionInput)
    requires before.Valid() && Tracks(db, before) && i.transition.finished && ExecuteAction(db, before, room, i).Ok?
    requires ActionKey(before.id, i.actor, i.actionId) !in db.actions
    ensures var w := ExecuteAction(db, before, room, i).value.writes; var c := PrepareAction(before, i).value;
      && PrepareAction(before, i).Ok? && PrepareFinish(room, before.id, i.execution.now).Ok?
      && var next := PrepareFinish(room, before.id, i.execution.now).value;
      && TerminationMatches(room, next, before, c.after, Finished) && c.after.status == Finished && c.after.Valid()
      && w.sessions == map[c.after.id := c.after] && w.actions == map[c.receipt.key := c.receipt]
      && w.rooms == map[room.id := next] && c.receipt == ReceiptFor(before, i) && c.after.Version() == c.receipt.version
  {
    ActionPrepared(before, i);
    ActionPreparedExact(before, i);
    OngoingAction(before, i);
    var c := PrepareAction(before, i).value;
    if Unmoved(db, before) { StepPersists(db, before, c.after, c.batch); }
    ActionFinishRows(db, room, PrepareFinish(room, before.id, i.execution.now).value, c);
  }

  lemma FirstTimerFinishWrote(db: Tables, before: Session, room: Room, i: TimerInput)
    requires before.Valid() && Tracks(db, before) && i.transition.finished && ExecuteTimer(db, before, room, i).Ok?
    requires TimerKey(before.id, i.timerId, i.expectedVersion) !in db.timers
    ensures var w := ExecuteTimer(db, before, room, i).value.writes; var c := PrepareTimer(before, i).value;
      && PrepareTimer(before, i).Ok? && PrepareFinish(room, before.id, i.execution.now).Ok?
      && var next := PrepareFinish(room, before.id, i.execution.now).value;
      && TerminationMatches(room, next, before, c.after, Finished) && c.after.status == Finished && c.after.Valid()
      && w.sessions == map[c.after.id := c.after] && w.timers == map[c.receipt.key := c.receipt]
      && w.rooms == map[room.id := next] && c.receipt == TimerReceiptFor(before, i)
      && c.after.Version() == c.receipt.version
  {
    TimerPrepared(before, i);
    TimerPreparedExact(before, i);
    OngoingTimer(before, i);
    var c := PrepareTimer(before, i).value;
    if Unmoved(db, before) { StepPersists(db, before, c.after, c.batch); }
    TimerFinishRows(db, room, PrepareFinish(room, before.id, i.execution.now).value, c);
  }

  /** The rows that turned one state of a run into the next. */
  predicate Between(worlds: seq<World>, k: nat, w: Tables) {
    k + 1 < |worlds| && worlds[k + 1].db == worlds[k].db.Write(w)
  }

  lemma StepWrote(steps: seq<Step>, worlds: seq<World>, k: nat)
    requires Run(steps, worlds) && k < |steps| && Perform(worlds[k].db, steps[k]).Ok?
    ensures Between(worlds, k, Perform(worlds[k].db, steps[k]).value) && Allowed(worlds[k], steps[k])
  {
    RunAt(steps, worlds, k);
  }

  /** What a step wrote that no later step changes: the row of an ended session, and that its room has moved on. */
  lemma EndingLasts(steps: seq<Step>, worlds: seq<World>, k: nat, j: nat, w: Tables, room: Room, next: Room,
                    after: Session)
    requires Run(steps, worlds) && k < j < |worlds| && Between(worlds, k, w)
    requires w.sessions == map[after.id := after] && w.rooms == map[room.id := next]
    requires after.status == Finished && next.id == room.id && next.roomVersion == room.roomVersion + 1
    requires after.endedAt == after.updatedAt
    ensures EndedBy(worlds[j].db, room, after, after.Version())
  {
    assert after.id in w.sessions && room.id in w.rooms;
    assert worlds[k + 1].db.sessions[after.id] == after && worlds[k + 1].db.rooms[room.id] == next;
    SessionsOnlyMoveForward(steps, worlds, k + 1, j, after.id);
    RoomOnlyMovesForward(steps, worlds, k + 1, j, room.id);
  }

  lemma RoomOnlyMovesForward(steps: seq<Step>, worlds: seq<World>, k: nat, j: nat, id: Id)
    requires Run(steps, worlds) && k <= j < |worlds| && id in worlds[k].db.rooms
    ensures id in worlds[j].db.rooms && worlds[k].db.rooms[id].roomVersion <= worlds[j].db.rooms[id].roomVersion
  {
    RunKeepsInv(steps, worlds, k);
    ValuesStayKnown(steps, worlds, k, j);
    RunKeepsInv(steps, worlds, j);
    RoomNotAhead(worlds[k], worlds[j], id);
  }

  lemma RoomNotAhead(w: World, next: World, id: Id)
    requires RoomsOk(w) && RoomsOk(next) && NoAba(next) && w.rooms <= next.rooms && id in w.db.rooms
    ensures id in next.db.rooms && w.db.rooms[id].roomVersion <= next.db.rooms[id].roomVersion
  {
    assert w.db.rooms[id] in next.rooms;
  }

  /**
   * In any run, the action that ended a game can be sent again from the same old values for as long as its actor is
   * in the room: it gets its receipt, and nothing is written.
   */
  lemma FinishingActionRetried(steps: seq<Step>, worlds: seq<World>, k: nat, j: nat, before: Session, room: Room,
                               i: ActionInput)
    requires Run(steps, worlds) && k < j < |worlds| && steps[k] == Acting(before, room, i) && i.transition.finished
    requires Perform(worlds[k].db, steps[k]).Ok? && ActionKey(before.id, i.actor, i.actionId) !in worlds[k].db.actions
    requires room.id in worlds[j].db.rooms && worlds[j].db.rooms[room.id].IsParticipant(i.actor)
    ensures ExecuteAction(worlds[j].db, before, room, i) == Ok(ActionAnswer(NOTHING, ReceiptFor(before, i), true))
  {
    StepWrote(steps, worlds, k);
    TracksInRun(steps, worlds, k, before);
    FirstFinishWrote(worlds[k].db, before, room, i);
    var c := PrepareAction(before, i).value;
    var next := PrepareFinish(room, before.id, i.execution.now).value;
    var w := ExecuteAction(worlds[k].db, before, room, i).value.writes;
    EndingLasts(steps, worlds, k, j, w, room, next, c.after);
    ActionAnswerLasts(steps, worlds, k, j, w, c.receipt);
    LateActionReplays(worlds[j].db, room, next, c);
  }

  lemma ActionAnswerLasts(steps: seq<Step>, worlds: seq<World>, k: nat, j: nat, w: Tables, receipt: ActionReceipt)
    requires Run(steps, worlds) && k < j < |worlds| && Between(worlds, k, w)
    requires w.actions == map[receipt.key := receipt]
    ensures receipt.key in worlds[j].db.actions && worlds[j].db.actions[receipt.key] == receipt
  {
    assert receipt.key in w.actions;
    assert worlds[k + 1].db.actions[receipt.key] == receipt;
    RunKeepsAnswers(steps, worlds, k + 1, j);
  }

  lemma TimerAnswerLasts(steps: seq<Step>, worlds: seq<World>, k: nat, j: nat, w: Tables, receipt: TimerReceipt)
    requires Run(steps, worlds) && k < j < |worlds| && Between(worlds, k, w)
    requires w.timers == map[receipt.key := receipt]
    ensures receipt.key in worlds[j].db.timers && worlds[j].db.timers[receipt.key] == receipt
  {
    assert receipt.key in w.timers;
    assert worlds[k + 1].db.timers[receipt.key] == receipt;
    RunKeepsAnswers(steps, worlds, k + 1, j);
  }

  /** The same for the timer that ended a game. */
  lemma FinishingTimerRetried(steps: seq<Step>, worlds: seq<World>, k: nat, j: nat, before: Session, room: Room,
                              i: TimerInput)
    requires Run(steps, worlds) && k < j < |worlds| && steps[k] == Firing(before, room, i) && i.transition.finished
    requires Perform(worlds[k].db, steps[k]).Ok?
    requires TimerKey(before.id, i.timerId, i.expectedVersion) !in worlds[k].db.timers
    ensures ExecuteTimer(worlds[j].db, before, room, i) == Ok(TimerAnswer(NOTHING, TimerReceiptFor(before, i), true))
  {
    StepWrote(steps, worlds, k);
    TracksInRun(steps, worlds, k, before);
    FirstTimerFinishWrote(worlds[k].db, before, room, i);
    var c := PrepareTimer(before, i).value;
    var next := PrepareFinish(room, before.id, i.execution.now).value;
    var w := ExecuteTimer(worlds[k].db, before, room, i).value.writes;
    EndingLasts(steps, worlds, k, j, w, room, next, c.after);
    TimerAnswerLasts(steps, worlds, k, j, w, c.receipt);
    LateTimerReplays(worlds[j].db, room, next, c);
  }

  lemma LateSystemReplays(db: Tables, room: Room, next: Room, c: SystemCommit, noop: Digest)
    requires c.after.Valid() && EndedBy(db, room, c.after, c.receipt.version)
    requires var k := OperationKey(c.receipt.key.session, c.receipt.key.operation);
      && k in db.operations && db.operations[k].source == c.receipt.key.source
      && db.operations[k].request == c.receipt.request && db.operations[k].answer == Some(c.receipt)
    requires c.receipt.key.source.kind == HostApi ==> db.rooms[room.id].host == c.receipt.key.source.requestedBy
    requires TerminationMatches(room, next, c.before, c.after, Finished)
    ensures FinishSystem(db, room, next, c.receipt.key.source.requestedBy, c, noop) ==
      Ok(SystemAnswer(NOTHING, c.receipt, true, false))
  {
    EndingReplays(db, c.after, c.receipt.version);
  }

  lemma EndingNeedsLive(db: Tables, room: Room, next: Room, c: SystemCommit, noop: Digest)
    requires Agreement(db) && c.before.id in db.sessions && db.sessions[c.before.id].room == c.before.room
    requires var r := FinishSystem(db, room, next, c.receipt.key.source.requestedBy, c, noop);
      r.Ok? && r.value.writes.rooms != map[]
    ensures room.id in db.rooms && db.rooms[room.id] == room && Live(db.sessions[c.before.id])
    ensures TerminationMatches(room, next, c.before, c.after, Finished) && CommitSystem(db, c, noop).Ok?
    ensures !CommitSystem(db, c, noop).value.retry && !CommitSystem(db, c, noop).value.replayed
    ensures FinishRoom(db, room, next).Ok?
    ensures FinishSystem(db, room, next, c.receipt.key.source.requestedBy, c, noop).value ==
      var a := CommitSystem(db, c, noop).value;
      a.(writes := a.writes.(rooms := FinishRoom(db, room, next).value.rooms))
  {
    assert SessionAgrees(db, c.before.id);
  }

  lemma SystemCommitRows(db: Tables, c: SystemCommit, noop: Digest)
    requires CommitSystem(db, c, noop).Ok? && c.before.id in db.sessions && Live(db.sessions[c.before.id])
    requires !CommitSystem(db, c, noop).value.retry && !CommitSystem(db, c, noop).value.replayed
    requires c.before.status == Active
    requires Unmoved(db, c.before) ==>
      PersistStep(db, db.sessions[c.before.id], c.after, c.batch) == Ok(RowsOf(c.after, c.batch))
    ensures var w := CommitSystem(db, c, noop).value.writes;
      var k := OperationKey(c.receipt.key.session, c.receipt.key.operation);
      && w.sessions == map[c.after.id := c.after] && w.rooms == map[] && w.operations.Keys == {k}
      && w.operations[k].source == c.receipt.key.source && w.operations[k].request == c.receipt.request
      && w.operations[k].answer == Some(c.receipt)
  {
  }

  /** What the fact that finished a game left in the tables. */
  predicate FinishedByFact(w: Tables, room: Room, next: Room, c: SystemCommit) {
    var k := OperationKey(c.receipt.key.session, c.receipt.key.operation);
    && w.sessions == map[c.after.id := c.after] && w.rooms == map[room.id := next] && k in w.operations
    && w.operations[k].source == c.receipt.key.source && w.operations[k].request == c.receipt.request
    && w.operations[k].answer == Some(c.receipt)
  }

  lemma FinishWroteFact(db: Tables, room: Room, next: Room, c: SystemCommit, noop: Digest)
    requires Agreement(db) && c.before.id in db.sessions && db.sessions[c.before.id].room == c.before.room
    requires var r := FinishSystem(db, room, next, c.receipt.key.source.requestedBy, c, noop);
      r.Ok? && r.value.writes.rooms != map[]
    requires c.before.status == Active
    requires Unmoved(db, c.before) ==>
      PersistStep(db, db.sessions[c.before.id], c.after, c.batch) == Ok(RowsOf(c.after, c.batch))
    ensures TerminationMatches(room, next, c.before, c.after, Finished)
    ensures FinishedByFact(FinishSystem(db, room, next, c.receipt.key.source.requestedBy, c, noop).value.writes, room,
                           next, c)
  {
    EndingNeedsLive(db, room, next, c, noop);
    SystemCommitRows(db, c, noop);
    FinishRoomWrites(db, room, next);
  }

  lemma FinishRoomWrites(db: Tables, room: Room, next: Room)
    requires FinishRoom(db, room, next).Ok?
    ensures FinishRoom(db, room, next).value == NOTHING.(rooms := map[room.id := next])
  {
  }

  lemma PreparedFact(before: Session, i: SystemInput)
    requires before.Valid() && before.status == Active && PrepareSystem(before, i).Ok? && i.key == before.key
    requires i.expectedVersion != 0 && (i.source.kind == HostApi ==> i.expectedVersion == before.Version())
    ensures var c := PrepareSystem(before, i).value;
      && SystemGuard(before, i) && c.before == before && c.after.Valid() && Advances(before, c.after, c.batch)
      && c.receipt == SystemReceiptFor(before, i) && c.after.Version() == c.receipt.version
  {
    SystemPreparedIff(before, i);
    SystemPrepared(before, i);
    SystemPreparedExact(before, i);
  }

  lemma FirstSystemFinishWrote(db: Tables, before: Session, room: Room, i: SystemInput)
    requires before.Valid() && Tracks(db, before) && FinishedAt(db, before, room, i) && Agreement(db)
    ensures PrepareSystem(before, i).Ok? && PrepareFinish(room, before.id, i.execution.now).Ok?
    ensures var c := PrepareSystem(before, i).value; var next := PrepareFinish(room, before.id, i.execution.now).value;
      && TerminationMatches(room, next, before, c.after, Finished) && c.after.Valid()
      && FinishedByFact(HandleSystemOnce(db, before, room, i).value.writes, room, next, c)
      && c.receipt == SystemReceiptFor(before, i) && c.after.Version() == c.receipt.version && c.before == before
      && SystemGuard(before, i) && (i.source.kind == HostApi ==> i.transition.finished)
  {
    FinishedRound(db, before, room, i);
    PreparedFact(before, i);
    var c := PrepareSystem(before, i).value;
    if Unmoved(db, before) { StepPersists(db, before, c.after, c.batch); }
    FinishWroteFact(db, room, PrepareFinish(room, before.id, i.execution.now).value, c, i.noopResult);
  }

  lemma FinishedRound(db: Tables, before: Session, room: Room, i: SystemInput)
    requires before.status == Active && HandleSystemOnce(db, before, room, i).Ok?
    requires HandleSystemOnce(db, before, room, i).value.writes.rooms != map[]
    ensures PrepareSystem(before, i).Ok? && PrepareFinish(room, before.id, i.execution.now).Ok?
    ensures i.key == before.key && i.expectedVersion != 0
    ensures i.source.kind == HostApi ==> i.expectedVersion == before.Version() && i.transition.finished
    ensures HandleSystemOnce(db, before, room, i) ==
      FinishSystem(db, room, PrepareFinish(room, before.id, i.execution.now).value, i.source.requestedBy,
                   PrepareSystem(before, i).value, i.noopResult)
  {
    RoomlessCommit(db, PrepareSystem(before, i).value, i.noopResult);
  }

  lemma RoomlessCommit(db: Tables, c: SystemCommit, noop: Digest)
    ensures CommitSystem(db, c, noop).Ok? ==> CommitSystem(db, c, noop).value.writes.rooms == map[]
  {
  }

  lemma OperationAnswerLasts(steps: seq<Step>, worlds: seq<World>, k: nat, j: nat, w: Tables, room: Room, next: Room,
                             c: SystemCommit)
    requires Run(steps, worlds) && k < j < |worlds| && Between(worlds, k, w) && FinishedByFact(w, room, next, c)
    ensures var o := OperationKey(c.receipt.key.session, c.receipt.key.operation); var db := worlds[j].db;
      && o in db.operations && db.operations[o].source == c.receipt.key.source
      && db.operations[o].request == c.receipt.request && db.operations[o].answer == Some(c.receipt)
  {
    var o := OperationKey(c.receipt.key.session, c.receipt.key.operation);
    assert worlds[k + 1].db.operations[o] == w.operations[o];
    RunKeepsAnswers(steps, worlds, k + 1, j);
  }

  /** This round of a fact at state k finished the game. */
  predicate FinishedAt(db: Tables, before: Session, room: Room, i: SystemInput) {
    && before.status == Active && HandleSystemOnce(db, before, room, i).Ok?
    && HandleSystemOnce(db, before, room, i).value.writes.rooms != map[]
  }

  /** The same for the fact that ended a game; a host must still be host. */
  lemma FinishingSystemRetried(steps: seq<Step>, worlds: seq<World>, k: nat, j: nat, before: Session, room: Room,
                               i: SystemInput)
    requires Run(steps, worlds) && k < j < |worlds| && steps[k] == Applying(before, room, i)
    requires FinishedAt(worlds[k].db, before, room, i)
    requires i.source.kind == HostApi ==>
      room.id in worlds[j].db.rooms && worlds[j].db.rooms[room.id].host == i.source.requestedBy
    ensures HandleSystemOnce(worlds[j].db, before, room, i) ==
      Ok(SystemAnswer(NOTHING, SystemReceiptFor(before, i), true, false))
  {
    ApplyingWrote(steps, worlds, k, before, room, i);
    TracksInRun(steps, worlds, k, before);
    RunAgrees(steps, worlds, k);
    FirstSystemFinishWrote(worlds[k].db, before, room, i);
    var c := PrepareSystem(before, i).value;
    var next := PrepareFinish(room, before.id, i.execution.now).value;
    var w := HandleSystemOnce(worlds[k].db, before, room, i).value.writes;
    EndingLasts(steps, worlds, k, j, w, room, next, c.after);
    OperationAnswerLasts(steps, worlds, k, j, w, room, next, c);
    RetriedFinish(worlds[j].db, before, room, i);
  }

  lemma ApplyingWrote(steps: seq<Step>, worlds: seq<World>, k: nat, before: Session, room: Room, i: SystemInput)
    requires Run(steps, worlds) && k < |steps| && steps[k] == Applying(before, room, i)
    requires HandleSystemOnce(worlds[k].db, before, room, i).Ok?
    ensures Between(worlds, k, HandleSystemOnce(worlds[k].db, before, room, i).value.writes)
    ensures before in worlds[k].sessions
  {
    StepWrote(steps, worlds, k);
  }

  lemma RetriedFinish(db: Tables, before: Session, room: Room, i: SystemInput)
    requires before.Valid() && before.status == Active && SystemGuard(before, i)
    requires i.source.kind == HostApi ==> i.transition.finished
    requires PrepareSystem(before, i).Ok? && PrepareFinish(room, before.id, i.execution.now).Ok?
    requires var c := PrepareSystem(before, i).value;
      && EndedBy(db, room, c.after, c.receipt.version) && c.after.Valid() && c.before == before
      && TerminationMatches(room, PrepareFinish(room, before.id, i.execution.now).value, before, c.after, Finished)
      && c.receipt == SystemReceiptFor(before, i)
      && var k := OperationKey(c.receipt.key.session, c.receipt.key.operation);
      && k in db.operations && db.operations[k].source == c.receipt.key.source
      && db.operations[k].request == c.receipt.request && db.operations[k].answer == Some(c.receipt)
    requires i.source.kind == HostApi ==> db.rooms[room.id].host == i.source.requestedBy
    ensures HandleSystemOnce(db, before, room, i) == Ok(SystemAnswer(NOTHING, SystemReceiptFor(before, i), true, false))
  {
    var c := PrepareSystem(before, i).value;
    LateSystemReplays(db, room, PrepareFinish(room, before.id, i.execution.now).value, c, i.noopResult);
  }

  lemma RunAgrees(steps: seq<Step>, worlds: seq<World>, k: nat)
    requires Run(steps, worlds) && k < |worlds|
    ensures Agreement(worlds[k].db)
  {
    RunKeepsInv(steps, worlds, k);
  }

  // ----- facts for a game that has ended -----

  /**
   * A fact never answered before that finds a game ended is answered as a no-op exactly if it is well formed and
   * names the game's version key, and a host's also the version; the answer is recorded and nothing else is written.
   */
  lemma EndedGameAnswersNoop(db: Tables, before: Session, room: Room, i: SystemInput)
    requires before.id != NIL && before.id in db.sessions && db.sessions[before.id] == before
    requires before.status.Terminal()
    requires Undecided(db, before.id, i) && NotApplied(db, before.id, i)
    ensures var r := HandleSystemOnce(db, before, room, i);
      && (r.Ok? <==>
            && i.operation != NIL && i.source.Valid() && i.expectedVersion != 0 && i.epoch != 0 && i.key.Valid()
            && i.message.Valid() && i.key == before.key && i.execution.now != 0
            && (i.source.kind == HostApi ==> i.expectedVersion == before.Version()))
      && (r.Ok? ==> r.value.receipt == NoopFor(before, i) && !r.value.retry && !r.value.replayed
                    && OperationWritten(before.id, i, r.value.writes, Some(NoopFor(before, i))))
  {
    UndecidedLocks(db, before.id, i);
  }
}
