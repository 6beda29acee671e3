/** When a game starts: the guards of a first start, written out, and that they are exact. */
module RuntimeStarts {
  import opened Base
  import opened GameSdk
  import opened GameSession
  import opened SessionSteps
  import opened Commits
  import opened PartyRoom
  import opened RoomCommands
  import opened RoomLaws
  import opened RuntimeStore
  import opened RuntimeService
  import opened RuntimeProgress
  import opened RuntimeInputs

  /** Nobody was seen in the room after this instant. */
  predicate SeenBy(room: Room, at: Time) {
    room.createdAt <= at && forall k :: 0 <= k < |room.members| ==> room.members[k].lastSeenAt <= at
  }

  /** What the room asks of a start. */
  predicate RoomAdmitsStart(room: Room, i: StartInput) {
    && i.actor == room.host && i.session != NIL && i.expected == room.Versions() && room.status.AdmissionMutable()
    && 0 < i.minimum <= ParticipantCount(room.members) <= i.maximum && SeenBy(room, Micros(i.now))
  }

  /** What the new session asks of the module's first transition and of the generated values. */
  predicate GameCanBegin(room: Room, i: StartInput) {
    var at := Nanos(Micros(i.now));
    && i.batchId != NIL && i.key.Valid() && i.key.game == i.game && i.config.Valid() && i.execution.(now := at).Valid()
    && ParticipantCount(room.members) <= MAX_PARTICIPANTS
    && i.transition.Valid(0, at) && (i.transition.finished ==> i.transition.timers == [])
  }

  predicate StartGuard(room: Room, i: StartInput) {
    i.operation != NIL && ValidIdentifier(i.game) && RoomAdmitsStart(room, i) && GameCanBegin(room, i)
  }

  /** Nothing has been stored yet for this start, and the room is the stored one. */
  predicate FreshStart(db: Tables, room: Room, i: StartInput) {
    && room.id in db.rooms && db.rooms[room.id] == room && room.Reachable() && i.session !in db.sessions
    && BatchKey(i.session, 1) !in db.batches
    && StartKey(i.actor, room.id, i.operation) !in db.starts
    && room.roomVersion < MAX_INT64 && room.membershipVersion <= MAX_INT64 && room.hostEpoch <= MAX_INT64
  }

  lemma FrozenSeatsMatch(ms: seq<Member>, ps: seq<Participant>)
    requires multiset(ps) == multiset(FrozenParticipants(ms))
    ensures SameSeats(ms, ps)
  {
    assert |ps| == |multiset(ps)| && |FrozenParticipants(ms)| == |multiset(FrozenParticipants(ms))|;
    forall i | 0 <= i < |ps|
      ensures exists k ::
        0 <= k < |ms| && ms[k].role == ParticipantRole && ms[k].user == ps[i].user && ms[k].seat == ps[i].seat
    {
      assert ps[i] in multiset(ps);
      assert ps[i] in FrozenParticipants(ms);
    }
  }

  function StartRows(room: Room, s: Session, b: Batch, receipt: StartReceipt): Tables {
    NOTHING.(rooms := map[room.id := room], sessions := map[s.id := s], batches := map[BatchKey(s.id, 1) := b],
             starts := map[receipt.key := receipt])
  }

  lemma StartStores(db: Tables, room: Room, next: Room, s: Session, b: Batch, receipt: StartReceipt)
    requires FreshRows(db, room, next, s, receipt) && s.Valid() && next.Valid()
    requires CreationValid(s, b, [NewEvent(SessionCreatedEvent, s.id, Nanos(s.startedAt))])
    ensures StartGame(db, room, next, s, b, [NewEvent(SessionCreatedEvent, s.id, Nanos(s.startedAt))], receipt).Ok? <==>
      StartMatches(room, next, s)
    ensures StartMatches(room, next, s) ==>
      StartGame(db, room, next, s, b, [NewEvent(SessionCreatedEvent, s.id, Nanos(s.startedAt))], receipt).value ==
        StartAnswer(StartRows(next, s, b, receipt), s.id, false)
  {
    GameSession.RestoreFixedPoint(s);
    assert next.(id := room.id, code := room.code, createdAt := room.createdAt) == next;
    PartyRoom.RestoreFixedPoint(next);
  }

  predicate FreshRows(db: Tables, room: Room, next: Room, s: Session, receipt: StartReceipt) {
    && room.id in db.rooms && db.rooms[room.id] == room && RoomTransition(room, next) && s.id !in db.sessions
    && BatchKey(s.id, 1) !in db.batches
    && receipt.key !in db.starts && receipt.key.room == room.id && receipt.key.actor == room.host
    && receipt.session == s.id && receipt.committedAt == s.startedAt
  }

  /** The room after an accepted start. */
  function StartedRoom(room: Room, session: Id, game: string, at: Time): Room {
    room.(status := Playing, activeSession := session, activeGame := game, participantAdmission := AdmissionClosed,
          lastSession := NIL,
          lastGame := "", roomVersion := room.roomVersion + 1, updatedAt := at)
  }

  lemma StartedFields(room: Room, c: Command)
    requires room.Reachable() && c.StartSession? && Execute(room, c).Ok?
    ensures Execute(room, c).value == StartedRoom(room, c.session, c.game, Micros(c.at))
    ensures Execute(room, c).value.Valid()
    ensures room.status.AdmissionMutable() && room.activeSession == NIL && room.activeGame == "" && c.actor == room.host
    ensures c.session != NIL && c.game != ""
  {
    ExecuteExact(room, c);
  }

  lemma MatchesIffActive(room: Room, s: Session, game: string, at: Time)
    requires room.status.AdmissionMutable() && room.activeSession == NIL && room.activeGame == "" && s.id != NIL
    requires game != ""
    requires s.room == room.id && s.key.game == game && s.startedAt == at && SameSeats(room.members, s.participants)
    ensures StartMatches(room, StartedRoom(room, s.id, game, at), s) <==> s.status == Active
  {
  }

  lemma CreatedFields(r: CreateRequest, ms: seq<Member>)
    requires NewSession(r).Ok? && r.participants == FrozenParticipants(ms)
    ensures var s := NewSession(r).value.0; var b := NewSession(r).value.1; var at := Micros(r.execution.now);
      && s.Valid() && s.id == r.id && s.room == r.room && s.key == r.key && s.startedAt == at
      && SameSeats(ms, s.participants)
      && s.status == (if r.transition.finished then Finished else Active)
      && CreationValid(s, b, [NewEvent(SessionCreatedEvent, s.id, Nanos(at))])
  {
    NewSessionShape(r);
    FrozenSeatsMatch(ms, NewSession(r).value.0.participants);
    TruncationKeepsOrder(r.execution.now, Micros(r.execution.now));
  }

  /** Both aggregates accept the start. */
  predicate Prepares(room: Room, i: StartInput) {
    && i.actor != NIL && i.operation != NIL && i.config.Valid() && i.expected.room != 0 && i.expected.membership != 0
    && ValidIdentifier(i.game) && i.key.game == i.game && Execute(room, StartCommand(i)).Ok?
    && NewSession(CreationOf(room, i)).Ok?
  }

  lemma StartedValidIff(room: Room, session: Id, game: string, at: Time)
    requires room.Reachable() && room.status.AdmissionMutable() && session != NIL && game != ""
    ensures StartedRoom(room, session, game, at).Valid() <==> SeenBy(room, at)
  {
    var next := StartedRoom(room, session, game, at);
    if SeenBy(room, at) {
      forall k | 0 <= k < |room.members| ensures MemberOk(room.members[k], room.createdAt, at) {
        assert MemberOk(room.members[k], room.createdAt, room.updatedAt);
      }
      assert room.IsParticipant(room.host);
      assert next.IsParticipant(next.host);
    }
    if next.Valid() {
      forall k | 0 <= k < |room.members| ensures room.members[k].lastSeenAt <= at {
        assert MemberOk(next.members[k], room.createdAt, at);
      }
    }
  }

  lemma RoomStartsIff(room: Room, i: StartInput)
    requires room.Reachable() && i.game != "" && room.roomVersion < MAX_UINT64
    ensures Execute(room, StartCommand(i)).Ok? <==> RoomAdmitsStart(room, i)
  {
    var at := Micros(i.now);
    if room.status.AdmissionMutable() && i.session != NIL {
      StartedValidIff(room, i.session, i.game, at);
      assert Normalise(StartedRoom(room, i.session, i.game, at)) == StartedRoom(room, i.session, i.game, at);
    }
  }

  lemma {:induction false} FrozenDistinct(ms: seq<Member>, createdAt: Time, updatedAt: Time)
    requires RosterOk(ms, createdAt, updatedAt)
    ensures DistinctParticipants(FrozenParticipants(ms))
  {
    if ms == [] {
    } else {
      var rest := ms[1..];
      RosterTail(ms, createdAt, updatedAt);
      FrozenDistinct(rest, createdAt, updatedAt);
      var frozen := FrozenParticipants(rest);
      assert MemberOk(ms[0], createdAt, updatedAt);
      forall j | 0 <= j < |frozen| && ms[0].role == ParticipantRole
        ensures Apart(Participant(ms[0].user, ms[0].seat), frozen[j])
      {
        assert frozen[j] in frozen;
        var k :| 0 <= k < |rest| && rest[k].role == ParticipantRole
                 && Participant(rest[k].user, rest[k].seat) == frozen[j];
        assert SeparateMembers(ms[0], ms[k + 1]);
      }
      if ms[0].role == ParticipantRole { ApartFromAll(Participant(ms[0].user, ms[0].seat), frozen); }
    }
  }

  lemma RosterTail(ms: seq<Member>, createdAt: Time, updatedAt: Time)
    requires RosterOk(ms, createdAt, updatedAt) && ms != []
    ensures RosterOk(ms[1..], createdAt, updatedAt)
  {
    forall i, j | 0 <= i < j < |ms[1..]| ensures SeparateMembers(ms[1..][i], ms[1..][j]) {
      assert SeparateMembers(ms[i + 1], ms[j + 1]);
    }
  }

  lemma ApartFromAll(p: Participant, ps: seq<Participant>)
    requires DistinctParticipants(ps) && p.user != NIL && forall j :: 0 <= j < |ps| ==> Apart(p, ps[j])
    ensures DistinctParticipants([p] + ps)
  {
    var all := [p] + ps;
    forall i, j | 0 <= i < j < |all| ensures Apart(all[i], all[j]) {
      if i > 0 { assert Apart(ps[i - 1], ps[j - 1]); }
    }
  }

  lemma FirstSessionValid(r: CreateRequest, ps: seq<Participant>, armed: (seq<Timer>, Time), start: StartConfig)
    requires r.id != NIL && r.room != NIL && r.key.Valid() && Micros(r.execution.now) != ZERO_TIME
    requires r.transition.Valid(0, r.execution.now)
    requires ValidParticipants(ps) && ValidTimers(armed.0, 1) && armed.1 == EarliestDue(armed.0) && start.Acceptable()
    requires r.transition.finished ==> armed.0 == []
    ensures RestoreSession(FirstSession(r, ps, armed, start)).Ok?
  {
    GameSession.RestoreFixedPoint(FirstSession(r, ps, armed, start));
  }

  function FirstSession(r: CreateRequest, ps: seq<Participant>, armed: (seq<Timer>, Time),
                        start: StartConfig): Session {
    var at := Micros(r.execution.now);
    Session(r.id, r.room, r.key, 0, ps, start, r.transition.snapshot, armed.0, armed.1,
            if r.transition.finished then Finished else Active,
            at, at, ZERO_TIME, if r.transition.finished then at else ZERO_TIME, "")
  }

  lemma FirstTimers(transition: Transition, now: Reading)
    requires transition.Valid(0, now) && Micros(now) != ZERO_TIME
    ensures var armed := CanonicalTimers(FromIntents(transition.timers, 1), 1);
      armed.Ok? && ValidTimers(armed.value.0, 1) && armed.value.1 == EarliestDue(armed.value.0)
        && (transition.timers == [] ==> armed.value.0 == [])
  {
    IntentsAcceptable(transition, 0, now);
    FromIntentsAt(transition.timers, 1);
    CanonicalTimersValid(FromIntents(transition.timers, 1), 1);
  }

  lemma FirstBatch(r: CreateRequest)
    requires r.batchId != NIL && r.id != NIL && r.execution.Valid() && Micros(r.execution.now) != ZERO_TIME
    requires r.input.Valid()
    requires r.transition.Valid(0, r.execution.now)
    ensures RestoreBatch(Batch(r.batchId, r.id, 1, 0, Created, r.execution, r.input, r.transition.events,
                               Micros(r.execution.now))).Ok?
  {
    TruncationKeepsOrder(r.execution.now, Micros(r.execution.now));
  }

  lemma GameBegins(room: Room, i: StartInput)
    requires room.Reachable() && RoomAdmitsStart(room, i) && GameCanBegin(room, i)
    ensures NewSession(CreationOf(room, i)).Ok?
  {
    var r := CreationOf(room, i);
    var at := Micros(i.now);
    TruncationKeepsOrder(Nanos(at), at);
    FrozenDistinct(room.members, room.createdAt, room.updatedAt);
    CanonicalParticipantsValid(r.participants);
    FirstTimers(r.transition, r.execution.now);
    FirstSessionValid(r, CanonicalParticipants(r.participants).value,
                      CanonicalTimers(FromIntents(r.transition.timers, 1), 1).value,
                      r.start.(config := r.input));
    FirstBatch(r);
  }

  lemma PreparesIff(room: Room, i: StartInput)
    requires room.Reachable() && room.roomVersion < MAX_UINT64
    ensures Prepares(room, i) <==> StartGuard(room, i)
  {
    if ValidIdentifier(i.game) {
      RoomStartsIff(room, i);
      if StartGuard(room, i) { GameBegins(room, i); }
    }
  }

  lemma StartUnfolds(db: Tables, room: Room, i: StartInput)
    ensures !Prepares(room, i) ==> ExecuteStart(db, room, i).Err?
    ensures Prepares(room, i) ==>
      var made := NewSession(CreationOf(room, i)).value;
      ExecuteStart(db, room, i) == StartGame(db, room, Execute(room, StartCommand(i)).value, made.0, made.1,
                                             [NewEvent(SessionCreatedEvent, i.session, Nanos(Micros(i.now)))],
                                      StartReceipt(StartKey(i.actor, room.id, i.operation), i.request, i.session,
                                                   Micros(i.now)))
  {
  }

  /** The players of the session are exactly those seated in the room, in the order of their seats. */
  ghost predicate SeatsFrozenFrom(ms: seq<Member>, ps: seq<Participant>) {
    && (forall user, seat :: Participant(user, seat) in ps <==> Seated(ms, user, seat))
    && (forall i, j :: 0 <= i < j < |ps| ==> ps[i].seat < ps[j].seat)
  }

  /** The first row: the module's first state and timers, and the configuration with the room's own fences. */
  ghost predicate FirstRow(room: Room, i: StartInput, s: Session) {
    var at := Micros(i.now);
    && s == Session(i.session, room.id, i.key, 0, s.participants,
                    StartConfig(i.config, i.revision, room.roomVersion, room.membershipVersion, room.hostEpoch),
                    i.transition.snapshot, s.timers, s.deadline, Active, at, at, ZERO_TIME, ZERO_TIME, "")
    && Arms(s.timers, i.transition.timers, 1) && FirstDue(s.deadline, s.timers)
    && SeatsFrozenFrom(room.members, s.participants)
  }

  lemma FrozenExactly(ms: seq<Member>, ps: seq<Participant>)
    requires multiset(ps) == multiset(FrozenParticipants(ms))
    ensures forall user, seat :: Participant(user, seat) in ps <==> Seated(ms, user, seat)
  {
    forall user, seat ensures Participant(user, seat) in ps <==> Seated(ms, user, seat) {
      assert Participant(user, seat) in ps <==> Participant(user, seat) in multiset(ps);
      assert Participant(user, seat) in FrozenParticipants(ms) <==>
        Participant(user, seat) in multiset(FrozenParticipants(ms));
    }
  }

  lemma FirstRowExact(room: Room, i: StartInput)
    requires NewSession(CreationOf(room, i)).Ok? && i.expected == room.Versions() && !i.transition.finished
    ensures FirstRow(room, i, NewSession(CreationOf(room, i)).value.0)
    ensures Records(NewSession(CreationOf(room, i)).value.1, StartEngine(i), 1)
  {
    TruncationKeepsOrder(Nanos(Micros(i.now)), Micros(i.now));
    NewSessionExact(CreationOf(room, i));
    FrozenExactly(room.members, NewSession(CreationOf(room, i)).value.0.participants);
  }

  /** The room that now plays, the first row and batch of the session, and the receipt; nothing else. */
  ghost predicate StartWritten(room: Room, i: StartInput, a: StartAnswer) {
    var at := Micros(i.now); var k := BatchKey(i.session, 1);
    var receipt := StartReceipt(StartKey(i.actor, room.id, i.operation), i.request, i.session, at);
    && a.session == i.session && !a.replayed && i.session in a.writes.sessions && k in a.writes.batches
    && FirstRow(room, i, a.writes.sessions[i.session]) && Records(a.writes.batches[k], StartEngine(i), 1)
    && a.writes == StartRows(StartedRoom(room, i.session, i.game, at), a.writes.sessions[i.session],
                             a.writes.batches[k], receipt)
  }

  lemma StartRowsWritten(room: Room, i: StartInput, a: StartAnswer, s: Session, b: Batch)
    requires FirstRow(room, i, s) && Records(b, StartEngine(i), 1)
    requires
      var at := Micros(i.now);
      var receipt := StartReceipt(StartKey(i.actor, room.id, i.operation), i.request, i.session, at);
      a == StartAnswer(StartRows(StartedRoom(room, i.session, i.game, at), s, b, receipt), i.session, false)
    ensures StartWritten(room, i, a)
  {
    assert s.id == i.session;
    assert i.session in a.writes.sessions && BatchKey(i.session, 1) in a.writes.batches;
  }

  /**
   * A first start from the stored room commits exactly when its guards hold and the module does not finish the game at
   * once. It then freezes the seated players, stores the module's first state and lets the room play it.
   */
  lemma StartCommitsIff(db: Tables, room: Room, i: StartInput)
    requires FreshStart(db, room, i)
    ensures ExecuteStart(db, room, i).Ok? <==> StartGuard(room, i) && !i.transition.finished
    ensures ExecuteStart(db, room, i).Ok? ==> StartWritten(room, i, ExecuteStart(db, room, i).value)
  {
    StartUnfolds(db, room, i);
    PreparesIff(room, i);
    if StartGuard(room, i) {
      var at := Micros(i.now);
      var made := NewSession(CreationOf(room, i)).value;
      CreatedFields(CreationOf(room, i), room.members);
      TruncationKeepsOrder(Nanos(at), at);
      StartedFields(room, StartCommand(i));
      MatchesIffActive(room, made.0, i.game, at);
      StartStores(db, room, StartedRoom(room, i.session, i.game, at), made.0, made.1,
                  StartReceipt(StartKey(i.actor, room.id, i.operation), i.request, i.session, at));
      if !i.transition.finished {
        FirstRowExact(room, i);
        StartRowsWritten(room, i, ExecuteStart(db, room, i).value, made.0, made.1);
      }
    }
  }
}
