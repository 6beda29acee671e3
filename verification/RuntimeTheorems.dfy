/** What the invariant means for callers, over whole runs. */
module RuntimeTheorems {
  import opened Base
  import opened GameSdk
  import opened GameSession
  import opened SessionSteps
  import opened Commits
  import opened PartyRoom
  import opened RoomCommands
  import opened RoomLaws
  import opened RuntimeStore
  import opened RuntimeService
  import opened RuntimeWorld
  import opened RuntimeLegal
  import opened RuntimeRuns

  // ----- agreement of the two aggregates -----

  /** In every reachable state a room plays session s exactly when s is a live session of that room. */
  lemma PlayingMeansLive(steps: seq<Step>, worlds: seq<World>, i: nat, room: Id, session: Id)
    requires Run(steps, worlds) && i < |worlds| && room in worlds[i].db.rooms && session in worlds[i].db.sessions
    ensures var db := worlds[i].db;
      (db.rooms[room].status == Playing && db.rooms[room].activeSession == session) <==>
        (Live(db.sessions[session]) && db.sessions[session].room == room)
  {
    RunKeepsInv(steps, worlds, i);
    var w := worlds[i];
    assert SessionAgrees(w.db, session) && RoomAgrees(w.db, room);
    assert w.db.rooms[room] in w.rooms;
  }

  predicate LiveIn(db: Tables, room: Id, session: Id) {
    session in db.sessions && Live(db.sessions[session]) && db.sessions[session].room == room
  }

  /** A playing room always names a stored session, and a room never has two live sessions. */
  lemma AtMostOneLiveSession(steps: seq<Step>, worlds: seq<World>, i: nat, room: Id, a: Id, b: Id)
    requires Run(steps, worlds) && i < |worlds| && room in worlds[i].db.rooms
    ensures var db := worlds[i].db;
      && (db.rooms[room].status == Playing <==> db.rooms[room].activeSession in db.sessions)
      && (LiveIn(db, room, a) && LiveIn(db, room, b) ==> a == b)
  {
    RunKeepsInv(steps, worlds, i);
    var w := worlds[i];
    assert RoomAgrees(w.db, room) && w.db.rooms[room] in w.rooms;
    if a in w.db.sessions { assert SessionAgrees(w.db, a); }
    if b in w.db.sessions { assert SessionAgrees(w.db, b); }
  }

  /** Unless a session-only resume went past a room pause, room and session have been paused and resumed together. */
  lemma PausesAgree(steps: seq<Step>, worlds: seq<World>, i: nat, room: Id)
    requires Run(steps, worlds) && i < |worlds| && Governed(steps, worlds, i)
    requires room in worlds[i].db.rooms && worlds[i].db.rooms[room].activeSession in worlds[i].db.sessions
    ensures PausedTogether(worlds[i].db.rooms[room], worlds[i].db.sessions[worlds[i].db.rooms[room].activeSession])
  {
    RunKeepsInv(steps, worlds, i);
    assert RoomPaused(worlds[i].db, room);
  }

  /** A finished game has applied every room fact ever recorded for it, acknowledged or still waiting. */
  lemma FinishedGameTookEveryFact(steps: seq<Step>, worlds: seq<World>, i: nat, key: InboxKey)
    requires Run(steps, worlds) && i < |worlds| && key in worlds[i].db.inbox
    requires key.session in worlds[i].db.sessions && worlds[i].db.sessions[key.session].status == Finished
    ensures AppliedEvent(worlds[i].db, key.session, key.eventId)
  {
    RunKeepsInv(steps, worlds, i);
    assert InboxFence(worlds[i].db);
  }

  /**
   * An acknowledged fact was answered at the version it was acknowledged with: applied, or a no-op on a game that has
   * ended.
   */
  lemma AcknowledgedFactWasAnswered(steps: seq<Step>, worlds: seq<World>, i: nat, key: InboxKey)
    requires Run(steps, worlds) && i < |worlds| && key in worlds[i].db.inbox && worlds[i].db.inbox[key].completed.Some?
    ensures var db := worlds[i].db;
      && AnsweredEvent(db, key, db.inbox[key].completed.value)
      && (AppliedEvent(db, key.session, key.eventId) || WasCancelled(db, key.session))
  {
    RunKeepsInv(steps, worlds, i);
    AnsweredFact(worlds[i].db, key);
  }

  predicate WasCancelled(db: Tables, session: Id) {
    session in db.sessions && db.sessions[session].status == Cancelled
  }

  lemma AnsweredFact(db: Tables, key: InboxKey)
    requires Acknowledged(db) && NoopsEnded(db) && InboxFence(db) && key in db.inbox && db.inbox[key].completed.Some?
    ensures AnsweredEvent(db, key, db.inbox[key].completed.value)
    ensures AppliedEvent(db, key.session, key.eventId) || WasCancelled(db, key.session)
  {
    var v := db.inbox[key].completed.value;
    assert AnsweredEvent(db, key, v);
    var o :| o in db.operations && o.session == key.session && db.operations[o].source.eventId == key.eventId
             && db.operations[o].answer.Some? && db.operations[o].answer.value.version == v;
    assert AnsweredUnapplied(db, o, db.operations[o]);
  }

  // ----- history -----

  /** The batches of a session are exactly versions 1 to its state version, in commit order. */
  lemma HistoryContiguous(steps: seq<Step>, worlds: seq<World>, i: nat, session: Id, v: nat)
    requires Run(steps, worlds) && i < |worlds| && session in worlds[i].db.sessions
    ensures var db := worlds[i].db;
      && (BatchKey(session, v) in db.batches <==> 1 <= v <= db.sessions[session].Version())
      && (1 <= v < db.sessions[session].Version() ==>
            && BatchKey(session, v + 1) in db.batches
            && db.batches[BatchKey(session, v)].committedAt <= db.batches[BatchKey(session, v + 1)].committedAt
            && db.batches[BatchKey(session, v)].epoch <= db.batches[BatchKey(session, v + 1)].epoch)
  {
    RunKeepsInv(steps, worlds, i);
  }

  // ----- exactly once -----

  lemma ActionChangesStateOnce(steps: seq<Step>, worlds: seq<World>, i: nat, j: BatchKey, k: BatchKey)
    requires Run(steps, worlds) && i < |worlds| && j in worlds[i].db.batches && k in worlds[i].db.batches
    requires j.session == k.session
    requires worlds[i].db.batches[j].cause.ByAction? && worlds[i].db.batches[k].cause == worlds[i].db.batches[j].cause
    ensures j == k
  {
    RunKeepsInv(steps, worlds, i);
    assert ActionsAnswered(worlds[i].db);
  }

  /** One operation, and one source event, change the session at most once, however often they are delivered. */
  lemma SystemFactAppliedOnce(steps: seq<Step>, worlds: seq<World>, i: nat, j: BatchKey, k: BatchKey)
    requires Run(steps, worlds) && i < |worlds| && j in worlds[i].db.batches && k in worlds[i].db.batches
    requires j.session == k.session
    requires worlds[i].db.batches[j].cause.BySystem? && worlds[i].db.batches[k].cause.BySystem?
    requires var a := worlds[i].db.batches[j].cause; var b := worlds[i].db.batches[k].cause;
      a.operation == b.operation || a.source.eventId == b.source.eventId
    ensures j == k
  {
    RunKeepsInv(steps, worlds, i);
    var db := worlds[i].db;
    var a := OperationKey(j.session, db.batches[j].cause.operation);
    var b := OperationKey(k.session, db.batches[k].cause.operation);
    assert BatchesHome(db) && OperationsAnswered(db) && SourcesUnique(db);
    assert a in db.operations && AppliedAs(a, db.operations[a], db.batches[j]);
    assert b in db.operations && AppliedAs(b, db.operations[b], db.batches[k]);
  }

  /** A timer firing is the one batch after the version that armed it. */
  lemma TimerFiresOnce(steps: seq<Step>, worlds: seq<World>, i: nat, k: TimerKey)
    requires Run(steps, worlds) && i < |worlds| && k in worlds[i].db.timers
    ensures var db := worlds[i].db; var b := BatchKey(k.session, k.expectedVersion + 1);
      b in db.batches && db.batches[b].cause == ByTimer(k.timerId) && db.timers[k].version == b.version
  {
    RunKeepsInv(steps, worlds, i);
    TimerReceiptsAnswered(worlds[i].db, k);
  }

  lemma TimerReceiptsAnswered(db: Tables, k: TimerKey)
    requires TimersAnswered(db) && k in db.timers
    ensures var b := BatchKey(k.session, k.expectedVersion + 1);
      b in db.batches && db.batches[b].cause == ByTimer(k.timerId) && db.timers[k].version == b.version
  {
    assert TimerAnswered(db, k);
  }

  // ----- answers never change -----

  /** Receipts only accumulate; an answered operation keeps its answer and its binding. */
  ghost predicate AnswersKept(a: Tables, b: Tables) {
    && (forall k :: k in a.actions ==> k in b.actions && b.actions[k] == a.actions[k])
    && (forall k :: k in a.timers ==> k in b.timers && b.timers[k] == a.timers[k])
    && (forall k :: k in a.operations ==> k in b.operations && BindingKept(a.operations[k], b.operations[k]))
    && (forall k :: k in a.starts ==> k in b.starts && b.starts[k] == a.starts[k])
    && (forall k :: k in a.inbox ==> FactKept(a, b, k))
  }

  /** A recorded room fact stays recorded with its payload, and once acknowledged keeps the version. */
  predicate FactKept(a: Tables, b: Tables, k: InboxKey) {
    k in a.inbox ==>
      && k in b.inbox && b.inbox[k].payload == a.inbox[k].payload
      && (a.inbox[k].completed.Some? ==> b.inbox[k] == a.inbox[k])
  }

  predicate BindingKept(a: Operation, b: Operation) {
    a.source == b.source && a.request == b.request && (a.answer.Some? ==> a == b)
  }

  lemma LegalKeepsAnswers(db: Tables, writes: Tables)
    requires LegalReceipts(db, writes) && LegalInbox(db, writes)
    ensures AnswersKept(db, db.Write(writes))
  {
  }

  lemma AnswersKeptSame(a: Tables, b: Tables)
    requires a == b
    ensures AnswersKept(a, b)
  {
  }

  lemma MoveKeepsAnswers(w: World, next: World)
    requires Moves(w, next, false)
    ensures AnswersKept(w.db, next.db)
  {
    if next == w {
      AnswersKeptSame(w.db, next.db);
    } else {
      var writes :| GoodWrites(w.db, writes, false) && next == After(w, writes);
      LegalKeepsAnswers(w.db, writes);
    }
  }

  lemma AnswersKeptTwice(a: Tables, b: Tables, c: Tables)
    requires AnswersKept(a, b) && AnswersKept(b, c)
    ensures AnswersKept(a, c)
  {
    forall k | k in a.inbox ensures FactKept(a, c, k) { assert FactKept(a, b, k) && FactKept(b, c, k); }
  }

  lemma LinkKeepsAnswers(worlds: seq<World>, i: nat)
    requires Chain(worlds) && i + 1 < |worlds|
    ensures AnswersKept(worlds[i].db, worlds[i + 1].db)
  {
    ChainMoves(worlds, i);
    MoveKeepsAnswers(worlds[i], worlds[i + 1]);
  }

  lemma {:induction false} ChainKeepsAnswers(worlds: seq<World>, i: nat, j: nat)
    requires Chain(worlds) && i <= j < |worlds|
    ensures AnswersKept(worlds[i].db, worlds[j].db)
    decreases j
  {
    if i == j {
      AnswersKeptSame(worlds[i].db, worlds[j].db);
    } else {
      ChainKeepsAnswers(worlds, i, j - 1);
      LinkKeepsAnswers(worlds, j - 1);
      AnswersKeptTwice(worlds[i].db, worlds[j - 1].db, worlds[j].db);
    }
  }

  lemma RunKeepsAnswers(steps: seq<Step>, worlds: seq<World>, i: nat, j: nat)
    requires Run(steps, worlds) && i <= j < |worlds|
    ensures AnswersKept(worlds[i].db, worlds[j].db)
  {
    RunIsChain(steps, worlds);
    ChainKeepsAnswers(worlds, i, j);
  }

  // ----- fencing -----

  function StepEpoch(step: Step): nat
    requires step.HoldsSession()
  {
    match step
    case Acting(_, _, action) => action.epoch
    case Firing(_, _, timer) => timer.epoch
    case Applying(_, _, system) => system.epoch
    case Cancelling(_, _, cancel) => cancel.epoch
    case Claiming(_, epoch, _) => epoch
    case Suspending(_, epoch, _) => epoch
    case ResumingOnly(_, epoch, _, _) => epoch
    case Pausing(_, _, _, _, _, _, epoch, _) => epoch
    case Resuming(_, _, _, _, epoch, _, _) => epoch
  }

  lemma StaleActionWritesNothing(db: Tables, before: Session, room: Room, i: ActionInput)
    requires Known(db, before) && before.Valid() && i.epoch != db.sessions[before.id].epoch
    requires ExecuteAction(db, before, room, i).Ok?
    ensures ExecuteAction(db, before, room, i).value.writes == NOTHING
  {
    ActionPrepared(before, i);
  }

  lemma StaleTimerWritesNothing(db: Tables, before: Session, room: Room, i: TimerInput)
    requires Known(db, before) && before.Valid() && i.epoch != db.sessions[before.id].epoch
    requires ExecuteTimer(db, before, room, i).Ok?
    ensures ExecuteTimer(db, before, room, i).value.writes == NOTHING
  {
    TimerPrepared(before, i);
  }

  lemma StaleSystemCommitWaits(db: Tables, c: SystemCommit, noopResult: Digest)
    requires c.before.id in db.sessions && c.before.epoch != db.sessions[c.before.id].epoch
    requires CommitSystem(db, c, noopResult).Ok?
    ensures CommitSystem(db, c, noopResult).value.writes.sessions == map[]
    ensures CommitSystem(db, c, noopResult).value.writes.batches == map[]
  {
  }

  /** A stale system round may still record its operation, but leaves the session and its history alone. */
  lemma StaleSystemOnlyWaits(db: Tables, before: Session, room: Room, i: SystemInput)
    requires before.id in db.sessions && before.Valid() && i.epoch != db.sessions[before.id].epoch
    requires HandleSystemOnce(db, before, room, i).Ok?
    ensures HandleSystemOnce(db, before, room, i).value.writes.sessions == map[]
    ensures HandleSystemOnce(db, before, room, i).value.writes.batches == map[]
  {
    if !before.status.Terminal() {
      SystemPrepared(before, i);
      var c := PrepareSystem(before, i).value;
      if CommitSystem(db, c, i.noopResult).Ok? { StaleSystemCommitWaits(db, c, i.noopResult); }
      if c.after.status == Finished {
        FinishSystemAnswer(db, room, PrepareFinish(room, before.id, i.execution.now).value, i.source.requestedBy, c,
                           i.noopResult);
      }
    }
  }

  lemma StaleSuspendRefused(db: Tables, before: Session, epoch: nat, now: Reading)
    requires before.Valid() && before.id in db.sessions && epoch != db.sessions[before.id].epoch
    ensures SuspendSession(db, before, epoch, now).Err?
  {
    if PrepareSuspend(before, epoch, BumpedTime(now, before.updatedAt)).Ok? {
      SuspendPrepared(before, epoch, BumpedTime(now, before.updatedAt));
    }
  }

  lemma StaleResumeOnlyRefused(db: Tables, before: Session, epoch: nat, now: Reading, adjustment: Adjustment)
    requires before.Valid() && before.id in db.sessions && epoch != db.sessions[before.id].epoch
    ensures ResumeOnly(db, before, epoch, now, adjustment).Err?
  {
    if PrepareResume(before, epoch, BumpedTime(now, before.updatedAt), adjustment).Ok? {
      ResumePrepared(before, epoch, BumpedTime(now, before.updatedAt), adjustment);
    }
  }

  lemma StalePauseRefused(db: Tables, room: Room, before: Session, actor: Id, pauseId: Id, requestId: Id,
                          expected: RoomVersions, epoch: nat, now: Reading)
    requires before.Valid() && before.id in db.sessions && epoch != db.sessions[before.id].epoch
    ensures PauseRoom(db, room, before, actor, pauseId, requestId, expected, epoch, now).Err?
  {
    var at := Nanos(GovernedTime(now, room.updatedAt, before.updatedAt));
    if PrepareSuspend(before, epoch, at).Ok? { SuspendPrepared(before, epoch, at); }
  }

  lemma StaleResumeRefused(db: Tables, room: Room, before: Session, actor: Id, expected: RoomVersions, epoch: nat,
                           now: Reading, adjustment: Adjustment)
    requires before.Valid() && before.id in db.sessions && epoch != db.sessions[before.id].epoch
    ensures ResumeRoom(db, room, before, actor, expected, epoch, now, adjustment).Err?
  {
    var at := Nanos(GovernedTime(now, room.updatedAt, before.updatedAt));
    if PrepareResume(before, epoch, at, adjustment).Ok? { ResumePrepared(before, epoch, at, adjustment); }
  }

  /** A stale cancel is refused, unless it repeats a cancellation that already happened. */
  lemma StaleCancelWritesNothing(db: Tables, room: Room, before: Session, i: CancelInput)
    requires before.Valid() && before.id in db.sessions && i.epoch != db.sessions[before.id].epoch
    requires RuntimeService.Cancel(db, room, before, i).Ok?
    ensures RuntimeService.Cancel(db, room, before, i).value == NOTHING
  {
    if PrepareCancel(before, i.epoch, i.now, i.reason).Ok? { CancelPrepared(before, i.epoch, i.now, i.reason); }
  }

  lemma StaleClaimRefused(db: Tables, before: Session, epoch: nat, at: Reading)
    requires before.Valid() && before.id in db.sessions && epoch != db.sessions[before.id].epoch
    ensures Claim(db, before, epoch, at).Err?
  {
    AcquireShape(before, epoch, at);
  }

  lemma StaleEngineStepKeepsSessions(db: Tables, step: Step)
    requires EngineStep(step) && Known(db, step.before) && step.before.Valid() && PerformEngine(db, step).Ok?
    requires StepEpoch(step) != db.sessions[step.before.id].epoch
    ensures PerformEngine(db, step).value.sessions == map[] && PerformEngine(db, step).value.batches == map[]
  {
    match step
    case Acting(before, room, action) => StaleActionWritesNothing(db, before, room, action);
    case Firing(before, room, timer) => StaleTimerWritesNothing(db, before, room, timer);
    case Applying(before, room, system) => StaleSystemOnlyWaits(db, before, room, system);
    case Claiming(before, epoch, at) => StaleClaimRefused(db, before, epoch, at);
  }

  lemma StaleGovernorKeepsSessions(db: Tables, step: Step)
    requires !EngineStep(step) && !RoomStep(step) && Known(db, step.before) && step.before.Valid()
    requires PerformGovernor(db, step).Ok?
    requires StepEpoch(step) != db.sessions[step.before.id].epoch
    ensures PerformGovernor(db, step).value.sessions == map[] && PerformGovernor(db, step).value.batches == map[]
  {
    match step
    case Suspending(before, epoch, now) => StaleSuspendRefused(db, before, epoch, now);
    case ResumingOnly(before, epoch, now, adjustment) => StaleResumeOnlyRefused(db, before, epoch, now, adjustment);
    case Pausing(room, before, actor, pauseId, requestId, expected, epoch, now) =>
      StalePauseRefused(db, room, before, actor, pauseId, requestId, expected, epoch, now);
    case Resuming(room, before, actor, expected, epoch, now, adjustment) =>
      StaleResumeRefused(db, room, before, actor, expected, epoch, now, adjustment);
    case Cancelling(room, before, cancel) => StaleCancelWritesNothing(db, room, before, cancel);
  }

  /** A command made under a superseded epoch never changes a session or its history. */
  lemma SupersededNeverCommits(w: World, step: Step)
    requires Inv(w) && Allowed(w, step) && step.HoldsSession() && Perform(w.db, step).Ok?
    requires step.before.id in w.db.sessions && StepEpoch(step) != w.db.sessions[step.before.id].epoch
    ensures Perform(w.db, step).value.sessions == map[] && Perform(w.db, step).value.batches == map[]
  {
    Recall(w, step.before);
    StaleStepKeepsSessions(w.db, step);
  }

  lemma StaleStepKeepsSessions(db: Tables, step: Step)
    requires step.HoldsSession() && Known(db, step.before) && step.before.Valid() && Perform(db, step).Ok?
    requires StepEpoch(step) != db.sessions[step.before.id].epoch
    ensures Perform(db, step).value.sessions == map[] && Perform(db, step).value.batches == map[]
  {
    if EngineStep(step) { StaleEngineStepKeepsSessions(db, step); } else { StaleGovernorKeepsSessions(db, step); }
  }

  /** Every batch is written under the epoch of its session at that moment; a first batch under epoch 0. */
  lemma BatchCarriesCurrentEpoch(w: World, step: Step, k: BatchKey)
    requires Inv(w) && Allowed(w, step) && Perform(w.db, step).Ok? && k in Perform(w.db, step).value.batches
    ensures var b := Perform(w.db, step).value.batches[k];
      if k.session in w.db.sessions then b.epoch == w.db.sessions[k.session].epoch
        && b.epoch != 0 && k.version == w.db.sessions[k.session].Version() + 1
      else b.epoch == 0 && k.version == 1
  {
    StepLegal(w, step);
    BatchEpoch(w.db, Perform(w.db, step).value, k);
  }

  lemma BatchEpoch(db: Tables, writes: Tables, k: BatchKey)
    requires BatchesFit(db, writes) && LegalSessions(db, writes) && k in writes.batches
    ensures if k.session in db.sessions
      then writes.batches[k].epoch == db.sessions[k.session].epoch
        && writes.batches[k].epoch != 0 && k.version == db.sessions[k.session].Version() + 1
      else writes.batches[k].epoch == 0 && k.version == 1
  {
    assert LegalSession(db, k.session, writes.sessions[k.session]);
  }

  lemma ChainMoves(worlds: seq<World>, i: nat)
    requires Chain(worlds) && i + 1 < |worlds|
    ensures Moves(worlds[i], worlds[i + 1], false)
  {
    assert Linked(worlds, i);
  }

  predicate Grows(w: World, next: World) {
    w.sessions <= next.sessions && w.rooms <= next.rooms
  }

  lemma MoveGrows(w: World, next: World)
    requires Moves(w, next, false)
    ensures Grows(w, next)
  {
  }

  lemma ChainGrows(worlds: seq<World>, i: nat)
    requires Chain(worlds) && i + 1 < |worlds|
    ensures Grows(worlds[i], worlds[i + 1])
  {
    ChainMoves(worlds, i);
    MoveGrows(worlds[i], worlds[i + 1]);
  }

  lemma {:induction false} ChainKeepsValues(worlds: seq<World>, i: nat, j: nat)
    requires Chain(worlds) && i <= j < |worlds|
    ensures Grows(worlds[i], worlds[j])
    decreases j
  {
    if i == j {
    } else {
      ChainKeepsValues(worlds, i, j - 1);
      ChainGrows(worlds, j - 1);
    }
  }

  lemma ValuesStayKnown(steps: seq<Step>, worlds: seq<World>, i: nat, j: nat)
    requires Run(steps, worlds) && i <= j < |worlds|
    ensures worlds[i].sessions <= worlds[j].sessions && worlds[i].rooms <= worlds[j].rooms
  {
    RunIsChain(steps, worlds);
    ChainKeepsValues(worlds, i, j);
  }

  /** Epochs and state versions never go back, identity never changes, and a session that ended stays as it ended. */
  lemma SessionsOnlyMoveForward(steps: seq<Step>, worlds: seq<World>, i: nat, j: nat, id: Id)
    requires Run(steps, worlds) && i <= j < |worlds| && id in worlds[i].db.sessions
    ensures id in worlds[j].db.sessions
    ensures var s := worlds[i].db.sessions[id]; var t := worlds[j].db.sessions[id];
      s.epoch <= t.epoch && s.Version() <= t.Version() && s.Identity() == t.Identity() && (!Live(s) ==> s == t)
  {
    RowRemembered(steps, worlds, i, id);
    ValuesStayKnown(steps, worlds, i, j);
    NotAheadInRun(steps, worlds, j, worlds[i].db.sessions[id]);
  }

  lemma RowRemembered(steps: seq<Step>, worlds: seq<World>, i: nat, id: Id)
    requires Run(steps, worlds) && i < |worlds| && id in worlds[i].db.sessions
    ensures worlds[i].db.sessions[id].id == id && worlds[i].db.sessions[id] in worlds[i].sessions
  {
    RunKeepsInv(steps, worlds, i);
  }

  lemma NotAheadInRun(steps: seq<Step>, worlds: seq<World>, j: nat, s: Session)
    requires Run(steps, worlds) && j < |worlds| && s in worlds[j].sessions
    ensures NotAhead(worlds[j].db, s)
  {
    RunKeepsInv(steps, worlds, j);
  }

  // ----- seats -----

  datatype ViewerKind = PlayerViewer | SpectatorViewer
  datatype Viewer = Viewer(kind: ViewerKind, user: Id, seat: nat, host: bool)

  function FindParticipant(ps: seq<Participant>, user: Id): (r: Option<nat>)
    ensures r.Some? ==> Participant(user, r.value) in ps
    ensures r.None? ==> forall p :: p in ps ==> p.user != user
  {
    if ps == []
    then None else if ps[0].user == user then assert ps[0] in ps; Some(ps[0].seat) else FindParticipant(ps[1..], user)
  }

  function AuthorizeLiveViewer(room: Room, s: Session, user: Id, kind: ViewerKind): Result<Viewer> {
    if user == NIL then Err(InvalidSessionInput)
    else if room.id == NIL || s.id == NIL || room.status != Playing || room.activeSession != s.id || s.room != room.id
       || s.status.Terminal()
    then Err(ParticipantNotActive)
    else match FindMember(room.members, user)
      case None => Err(ParticipantNotActive)
      case Some(k) =>
        match kind
        case PlayerViewer =>
          if room.members[k].role != ParticipantRole then Err(ParticipantNotActive)
          else (match FindParticipant(s.participants, user)
            case None => Err(ParticipantNotActive)
            case Some(seat) => Ok(Viewer(kind, user, seat, room.host == user)))
        case SpectatorViewer =>
          if room.members[k].role != SpectatorRole
          then Err(ParticipantNotActive) else Ok(Viewer(kind, user, 0, room.host == user))
  }

  lemma ParticipantOf(s: Session, user: Id, seat: nat)
    requires s.Valid()
    ensures FindParticipant(s.participants, user) == Some(seat) <==> Participant(user, seat) in s.participants
  {
    var found := FindParticipant(s.participants, user);
    if Participant(user, seat) in s.participants {
      var p :| 0 <= p < |s.participants| && s.participants[p] == Participant(user, seat);
      var q :| 0 <= q < |s.participants| && s.participants[q] == Participant(user, found.value);
      var a, b := s.participants[p], s.participants[q];
      assert p < q ==> Apart(a, b);
      assert q < p ==> Apart(b, a);
    }
  }

  /**
   * A live game is shown exactly to its room: to a member seated both in the room and in the session, from the
   * session's seat, and to a spectator, from no seat; in either case only while the room plays this very session.
   */
  lemma ViewerIff(room: Room, s: Session, user: Id, kind: ViewerKind, viewer: Viewer)
    requires room.Valid() && s.Valid()
    ensures AuthorizeLiveViewer(room, s, user, kind) == Ok(viewer) <==>
      && room.status == Playing && room.activeSession == s.id && s.room == room.id && !s.status.Terminal()
      && viewer.kind == kind && viewer.user == user && viewer.host == (room.host == user)
      && (exists k :: 0 <= k < |room.members| && room.members[k].user == user
                      && room.members[k].role == if kind.PlayerViewer? then ParticipantRole else SpectatorRole)
      && (if kind.PlayerViewer? then Participant(user, viewer.seat) in s.participants else viewer.seat == 0)
  {
    ParticipantOf(s, user, viewer.seat);
    forall k | 0 <= k < |room.members| ensures room.members[k].user != NIL {
      assert MemberOk(room.members[k], room.createdAt, room.updatedAt);
    }
    forall k | 0 <= k < |room.members| && room.members[k].user == user
      ensures FindMember(room.members, user) == Some(k)
    {
      var found := FindMember(room.members, user).value;
      var a, b := room.members[found], room.members[k];
      assert found < k ==> SeparateMembers(a, b);
    }
  }

  /** In every reachable state a current player of a playing room sees the game from the seat held in the room. */
  lemma PlayersAlwaysSeated(steps: seq<Step>, worlds: seq<World>, i: nat, room: Id, user: Id, seat: nat)
    requires Run(steps, worlds) && i < |worlds| && room in worlds[i].db.rooms
    requires worlds[i].db.rooms[room].status == Playing
    requires Seated(worlds[i].db.rooms[room].members, user, seat)
    ensures var db := worlds[i].db; var r := db.rooms[room];
      r.activeSession in db.sessions && AuthorizeLiveViewer(r, db.sessions[r.activeSession], user, PlayerViewer)
        == Ok(Viewer(PlayerViewer, user, seat, r.host == user))
  {
    RunKeepsInv(steps, worlds, i);
    var w := worlds[i];
    var r := w.db.rooms[room];
    assert r in w.rooms && RoomAgrees(w.db, room) && RoomFrozen(w.db, room);
    var s := w.db.sessions[r.activeSession];
    assert SessionAgrees(w.db, r.activeSession) && s in w.sessions;
    PlayerSeated(r, s, user, seat);
  }

  lemma PlayerSeated(r: Room, s: Session, user: Id, seat: nat)
    requires r.Valid() && s.Valid() && r.status == Playing && r.activeSession == s.id && s.room == r.id && Live(s)
    requires Seated(r.members, user, seat) && AllFrozen(r.members, s.participants)
    ensures AuthorizeLiveViewer(r, s, user, PlayerViewer) == Ok(Viewer(PlayerViewer, user, seat, r.host == user))
  {
    assert Participant(user, seat) in s.participants;
    ViewerIff(r, s, user, PlayerViewer, Viewer(PlayerViewer, user, seat, r.host == user));
  }
}
