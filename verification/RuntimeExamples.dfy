/** Two concrete situations: a step computed before a pause, and a session-only resume under a room's pause. */
module RuntimeExamples {
  import opened Base
  import opened GameSdk
  import opened GameSession
  import opened SessionSteps
  import opened Commits
  import opened PartyRoom
  import opened RuntimeStore
  import opened RuntimeService
  import opened RuntimeWorld
  import opened RuntimeRuns
  import opened RuntimeProgress

  const MOVE: Message := Message("move", 1, [])
  const GAME: VersionKey := VersionKey("dice", "1", "1", "1")

  /** One player alone at the table, while the game runs. */
  const ROOM: Room := Room(1, "ROOM1", Private, Playing, 1, 2, AdmissionClosed, AdmissionOpen,
    [Member(1, ParticipantRole, None, 0, 1, 1)], 1, "dice", NIL, "", NO_REQUEST, NO_PAUSE, "dice", 1, 3, 2, 1, 2)

  /** The session as read at 10, as suspended at 20, and as resumed at 30. */
  const READ: Session := Session(1, 1, GAME, 1, [Participant(1, 0)], StartConfig(MOVE, 0, 0, 0, 0),
                                 GameState(1, 1, MOVE), [], 0,
    Active, 5, 10, 0, 0, "")
  const PAUSED: Session := READ.(status := Suspended, updatedAt := 20, suspendedAt := 20)
  const RESUMED: Session := READ.(updatedAt := 30)

  lemma NamesAreIdentifiers()
    ensures ValidIdentifier("move") && ValidIdentifier("dice") && ValidIdentifier("turn")
  {
    assert |"move"| == 4 && |"dice"| == 4 && |"turn"| == 4;
    assert forall i :: 0 <= i < 4 ==>
      IdentifierChar("move"[i]) && IdentifierChar("dice"[i]) && IdentifierChar("turn"[i]);
  }

  lemma RowsAreValid()
    ensures READ.Valid() && PAUSED.Valid() && RESUMED.Valid()
  {
    NamesAreIdentifiers();
    assert READ.participants[0] == Participant(1, 0);
  }

  // ----- a step computed at 12 from the row read at 10 -----

  const STALE_ACTION: ActionInput := ActionInput(1, 2, 1, 1, GAME, MOVE, 0, 3, Execution(12_000, 1, []),
    Transition(GameState(1, 2, MOVE), [MOVE], [TimerIntent("turn", 40_000, MOVE)], false), 0)

  const AFTER_RESUME: Tables := NOTHING.(rooms := map[1 := ROOM], sessions := map[1 := RESUMED])

  const STEPPED: Session :=
    READ.(state := GameState(1, 2, MOVE), timers := [Timer("turn", 2, 40, MOVE)], deadline := 40, updatedAt := 12)

  lemma StaleGuards()
    ensures ActionGuard(READ, STALE_ACTION) && ROOM.IsParticipant(1)
  {
    NamesAreIdentifiers();
    assert READ.participants[0].user == 1 && ROOM.members[0].user == 1;
    assert Playable(READ, STALE_ACTION.execution, STALE_ACTION.transition) by {
      assert STALE_ACTION.transition.timers[0].Valid(12_000);
    }
  }

  lemma StaleRow(t: Session)
    requires TakesTransition(READ, t, STALE_ACTION.transition, 12)
    ensures t == STEPPED
  {
    var timer := Timer("turn", 2, 40, MOVE);
    var intent := STALE_ACTION.transition.timers[0];
    assert Timer(intent.id, 2, Micros(intent.due), intent.message) == timer;
    assert timer in t.timers;
    assert t.timers == [timer];
  }

  lemma StaleActionCommits()
    ensures ExecuteAction(AFTER_RESUME, READ, ROOM, STALE_ACTION).Ok?
    ensures ActionWritten(READ, STALE_ACTION, ExecuteAction(AFTER_RESUME, READ, ROOM, STALE_ACTION).value)
  {
    RowsAreValid();
    StaleGuards();
    assert READ.id in AFTER_RESUME.sessions && AFTER_RESUME.sessions[READ.id] == RESUMED;
    assert READ.room in AFTER_RESUME.rooms && AFTER_RESUME.rooms[READ.room] == ROOM;
    ActionCommitsIff(AFTER_RESUME, READ, ROOM, STALE_ACTION);
  }

  lemma WrittenRow(a: ActionAnswer)
    requires ActionWritten(READ, STALE_ACTION, a)
    ensures a.writes.sessions == map[1 := STEPPED]
  {
    StaleRow(a.writes.sessions[1]);
  }

  lemma ActingPerforms(db: Tables, before: Session, room: Room, i: ActionInput)
    requires ExecuteAction(db, before, room, i).Ok?
    ensures Perform(db, Acting(before, room, i)) == Ok(ExecuteAction(db, before, room, i).value.writes)
  {
  }

  /** The store takes the step over the row that the resume stored at 30. */
  lemma StaleStepCommits()
    ensures Perform(AFTER_RESUME, Acting(READ, ROOM, STALE_ACTION)).Ok?
    ensures Perform(AFTER_RESUME, Acting(READ, ROOM, STALE_ACTION)).value.sessions == map[1 := STEPPED]
  {
    StaleActionCommits();
    ActingPerforms(AFTER_RESUME, READ, ROOM, STALE_ACTION);
    WrittenRow(ExecuteAction(AFTER_RESUME, READ, ROOM, STALE_ACTION).value);
  }

  // ----- a session-only resume while the room is paused -----

  const PAUSED_ROOM: Room := ROOM.(pause := ActivePause(4, 1, HostPause, NIL, 1, 20), updatedAt := 20, roomVersion := 4)

  const UNDER_PAUSE: Tables := NOTHING.(rooms := map[1 := PAUSED_ROOM], sessions := map[1 := PAUSED])

  lemma PausedRoomReachable()
    ensures PAUSED_ROOM.Reachable()
  {
    var r := PAUSED_ROOM;
    assert r.members[0].user == 1 && r.members[1..] == [];
    assert ParticipantCount(r.members) == 1;
  }

  /**
   * Room and session agree about the pause; the resume commits at every later microsecond, and they no longer agree.
   */
  lemma SessionOnlyResumeSplitsThem(now: Reading)
    requires Nanos(21) <= now
    ensures Agreement(UNDER_PAUSE) && PauseAgreement(UNDER_PAUSE) && PAUSED_ROOM.Reachable() && PAUSED.Valid()
    ensures ResumeOnly(UNDER_PAUSE, PAUSED, 1, now, NoAdjuster).Ok?
    ensures !PauseAgreement(UNDER_PAUSE.Write(ResumeOnly(UNDER_PAUSE, PAUSED, 1, now, NoAdjuster).value))
  {
    RowsAreValid();
    PausedRoomReachable();
    assert UNDER_PAUSE.sessions[1] == PAUSED && UNDER_PAUSE.rooms[1] == PAUSED_ROOM;
    assert SessionAgrees(UNDER_PAUSE, 1) && RoomAgrees(UNDER_PAUSE, 1) && RoomPaused(UNDER_PAUSE, 1);
    ResumeOnlyRefusedIff(UNDER_PAUSE, PAUSED, now);
    ResumingOnlyLegal(UNDER_PAUSE, PAUSED, 1, now, NoAdjuster);
  }
}
