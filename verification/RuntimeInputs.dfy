/**
 * Where the rows of a game come from. Every batch of every run records the input of one step of that run, and every
 * stored state is what a module returned for it. A lifecycle change compares seven fields and not the state; it still
 * replaces exactly the row it was computed from, because epoch, version and update time name a row.
 */
module RuntimeInputs {
  import opened Base
  import opened GameSdk
  import opened GameSession
  import opened SessionSteps
  import opened Commits
  import opened PartyRoom
  import opened RoomCommands
  import opened RuntimeStore
  import opened RuntimeService
  import opened RuntimeWorld
  import opened RuntimeRows
  import opened RuntimeLegal
  import opened RuntimeRuns

  // ----- rows are named -----

  /** Under the epoch and version stored now, this row is older than the stored one or is that one. */
  predicate NamedRow(db: Tables, s: Session) {
    s.id in db.sessions && var now := db.sessions[s.id];
    s.epoch == now.epoch && s.Version() == now.Version() ==>
      s.updatedAt <= now.updatedAt && (s.updatedAt == now.updatedAt ==> s == now)
  }

  ghost predicate Named(w: World) { forall s :: s in w.sessions ==> NamedRow(w.db, s) }

  lemma OldRowStaysNamed(db: Tables, writes: Tables, s: Session)
    requires NamedRow(db, s) && NotAhead(db, s) && LegalSessions(db, writes)
    ensures NamedRow(db.Write(writes), s)
  {
    if s.id in writes.sessions { assert LegalSession(db, s.id, writes.sessions[s.id]); }
  }

  lemma NewRowIsNamed(db: Tables, writes: Tables, s: Session)
    requires LegalSessions(db, writes) && s in writes.sessions.Values
    ensures NamedRow(db.Write(writes), s)
  {
    var id :| id in writes.sessions && writes.sessions[id] == s;
    assert LegalSession(db, id, s);
  }

  lemma MoveKeepsNamed(w: World, next: World)
    requires SessionsOk(w) && Named(w) && Moves(w, next, false)
    ensures Named(next)
  {
    if next != w {
      var writes :| GoodWrites(w.db, writes, false) && next == After(w, writes);
      forall s | s in next.sessions ensures NamedRow(next.db, s) {
        if s in w.sessions { OldRowStaysNamed(w.db, writes, s); } else { NewRowIsNamed(w.db, writes, s); }
      }
    }
  }

  lemma LinkKeepsNamed(worlds: seq<World>, i: nat)
    requires Chain(worlds) && 0 < i < |worlds| && Named(worlds[i - 1])
    ensures Named(worlds[i])
  {
    assert Linked(worlds, i - 1);
    MoveKeepsNamed(worlds[i - 1], worlds[i]);
  }

  lemma {:induction false} ChainNamed(worlds: seq<World>, i: nat)
    requires Chain(worlds) && i < |worlds| && worlds[0] == EMPTY_WORLD
    ensures Named(worlds[i])
  {
    if i == 0 {
    } else {
      ChainNamed(worlds, i - 1);
      LinkKeepsNamed(worlds, i);
    }
  }

  /**
   * In any run two values of one session with the same epoch, version and update time are one value, if the row stored
   * now has them too.
   */
  lemma RunNamed(steps: seq<Step>, worlds: seq<World>, n: nat, s: Session)
    requires Run(steps, worlds) && n < |worlds| && s in worlds[n].sessions
    ensures NamedRow(worlds[n].db, s)
  {
    RunIsChain(steps, worlds);
    ChainNamed(worlds, n);
  }

  lemma SameRow(db: Tables, before: Session)
    requires NamedRow(db, before) && LifecycleConflict(db.sessions[before.id], before).None?
    ensures db.sessions[before.id] == before
  {
  }

  lemma LifecycleWrites(db: Tables, c: LifecycleCommit)
    requires c.before.id in db.sessions && db.sessions[c.before.id] == c.before && c.after.Valid()
    requires NewLifecycleCommit(c.before, c.after, c.events).Ok?
    ensures CommitLifecycle(db, c) == Ok(NOTHING.(sessions := map[c.after.id := c.after]))
  {
    assert LifecycleRow(c.before, c.after) == c.after;
    GameSession.RestoreFixedPoint(c.after);
  }

  /**
   * In any run a lifecycle change that passed its constructor commits exactly when the row it was computed from is the
   * stored one, and then replaces it whole.
   */
  lemma LifecycleIsCompareAndSwap(steps: seq<Step>, worlds: seq<World>, n: nat, c: LifecycleCommit)
    requires Run(steps, worlds) && n < |worlds| && c.before in worlds[n].sessions && c.after.Valid()
    requires NewLifecycleCommit(c.before, c.after, c.events).Ok?
    ensures var db := worlds[n].db;
      && c.before.id in db.sessions
      && CommitLifecycle(db, c).Ok? == (db.sessions[c.before.id] == c.before)
      && (CommitLifecycle(db, c).Ok? ==>
            CommitLifecycle(db, c).value == NOTHING.(sessions := map[c.after.id := c.after]))
  {
    RunNamed(steps, worlds, n, c.before);
    SwapsOnlyItsRow(worlds[n].db, c);
  }

  lemma SwapsOnlyItsRow(db: Tables, c: LifecycleCommit)
    requires NamedRow(db, c.before) && c.after.Valid() && NewLifecycleCommit(c.before, c.after, c.events).Ok?
    ensures CommitLifecycle(db, c).Ok? <==> db.sessions[c.before.id] == c.before
    ensures CommitLifecycle(db, c).Ok? ==>
      CommitLifecycle(db, c).value == NOTHING.(sessions := map[c.after.id := c.after])
  {
    if CommitLifecycle(db, c).Ok? { SameRow(db, c.before); }
    if db.sessions[c.before.id] == c.before { LifecycleWrites(db, c); }
  }

  // ----- what a step hands to the engine -----

  /** An input of the engine, whatever command carried it. */
  datatype Engine = Engine(session: Id, batchId: Id, epoch: nat, cause: Cause, execution: Execution, message: Message,
                           transition: Transition)

  function StartEngine(i: StartInput): Engine {
    Engine(i.session, i.batchId, 0, Created, i.execution.(now := Nanos(Micros(i.now))), i.config, i.transition)
  }

  function ActionEngine(session: Id, i: ActionInput): Engine {
    Engine(session, i.batchId, i.epoch, ByAction(i.actor, i.actionId), i.execution, i.message, i.transition)
  }

  function TimerEngine(session: Id, i: TimerInput): Engine {
    Engine(session, i.batchId, i.epoch, ByTimer(i.timerId), i.execution, i.message, i.transition)
  }

  function SystemEngine(session: Id, i: SystemInput): Engine {
    Engine(session, i.batchId, i.epoch, BySystem(i.operation, i.source, i.request), i.execution, i.message,
           i.transition)
  }

  function EngineOf(step: Step): Option<Engine> {
    match step
    case Starting(_, start) => Some(StartEngine(start))
    case Acting(before, _, i) => Some(ActionEngine(before.id, i))
    case Firing(before, _, i) => Some(TimerEngine(before.id, i))
    case Applying(before, _, i) => Some(SystemEngine(before.id, i))
    case _ => None
  }

  /** The batch is the record of this input: its identifier, cause, clock, seed, message, and the module's events. */
  predicate Records(b: Batch, e: Engine, version: nat) {
    b == Batch(e.batchId, e.session, version, e.epoch, e.cause, e.execution.(now := Nanos(Micros(e.execution.now))),
               e.message, e.transition.events, Micros(e.execution.now))
  }

  /** The row is what the module returned for this input. */
  predicate ShowsInput(t: Session, e: Engine) {
    && t.state == e.transition.snapshot && Arms(t.timers, e.transition.timers, t.Version())
    && FirstDue(t.deadline, t.timers)
    && t.updatedAt == Micros(e.execution.now) && t.status == (if e.transition.finished then Finished else Active)
  }

  /** All batches and sessions among these rows come from this input. */
  ghost predicate FromInput(w: Tables, e: Engine) {
    && (forall k :: k in w.batches ==> k.session == e.session && Records(w.batches[k], e, k.version))
    && (w.batches != map[] ==> forall id :: id in w.sessions ==> ShowsInput(w.sessions[id], e))
    && (w.batches == map[] ==> w.sessions == map[]) && (forall a, b :: a in w.sessions && b in w.sessions ==> a == b)
  }

  lemma PersistTakes(db: Tables, current: Session, t: Session, b: Batch, e: Engine)
    requires PersistStep(db, current, t, b).Ok? && t.Valid() && ShowsInput(t, e) && Records(b, e, t.Version())
    ensures FromInput(PersistStep(db, current, t, b).value, e)
  {
    PersistedRow(db, current, t, b);
    var w := PersistStep(db, current, t, b).value;
    assert ShowsInput(w.sessions[current.id], e);
  }

  lemma PersistedRow(db: Tables, current: Session, t: Session, b: Batch)
    requires PersistStep(db, current, t, b).Ok? && t.Valid()
    ensures var w := PersistStep(db, current, t, b).value;
      && w.sessions.Keys == {current.id} && w.batches == map[BatchKey(b.session, b.version) := b]
      && var s := w.sessions[current.id];
      && s.state == t.state && s.timers == t.timers && s.deadline == t.deadline && s.updatedAt == t.updatedAt
      && s.status == t.status
  {
    RestoreYieldsValid(StateRow(current, t));
  }

  // ----- what the service prepares, in full -----

  /** The row and the batch of one input. */
  predicate StepsBy(before: Session, t: Session, b: Batch, e: Engine) {
    && TakesTransition(before, t, e.transition, Micros(e.execution.now)) && t.Valid() && ShowsInput(t, e)
    && t.Version() == before.Version() + 1 && Records(b, e, t.Version())
  }

  function Notice(before: Session, at: Time): seq<OutboxEvent> {
    [OutboxEvent(0, SessionTransitionedEvent, before.id, at)]
  }

  lemma TakenSteps(before: Session, r: (Session, Batch), e: Engine)
    requires StepTaken(before, r, e.batchId, e.epoch, e.cause, e.execution, e.message, e.transition)
    requires e.session == before.id
    ensures StepsBy(before, r.0, r.1, e)
  {
  }

  /**
   * A prepared action: the row and batch of its input, and a receipt that binds request and result to the new
   * version.
   */
  lemma ActionPreparedExact(before: Session, i: ActionInput)
    requires before.Valid() && PrepareAction(before, i).Ok?
    ensures var c := PrepareAction(before, i).value; var at := Micros(i.execution.now);
      && c.before == before && StepsBy(before, c.after, c.batch, ActionEngine(before.id, i))
      && c.events == Notice(before, at)
      && c.receipt == ActionReceipt(ActionKey(before.id, i.actor, i.actionId), i.request, Accepted, i.result,
                                    before.Version() + 1, at)
  {
    SessionSteps.ActionTaken(before, i.batchId, i.epoch, i.actor, i.actionId, i.execution, i.message, i.transition);
    TakenSteps(before,
               ApplyAction(before, i.batchId, i.epoch, i.actor, i.actionId, i.execution, i.message, i.transition).value,
               ActionEngine(before.id, i));
  }

  lemma TimerPreparedExact(before: Session, i: TimerInput)
    requires before.Valid() && PrepareTimer(before, i).Ok?
    ensures var c := PrepareTimer(before, i).value; var at := Micros(i.execution.now);
      && c.before == before && StepsBy(before, c.after, c.batch, TimerEngine(before.id, i))
      && c.events == Notice(before, at)
      && c.receipt == TimerReceipt(TimerKey(before.id, i.timerId, i.expectedVersion), Accepted, i.result,
                                    before.Version() + 1, at)
  {
    SessionSteps.TimerTaken(before, i.batchId, i.epoch, i.timerId, i.expectedVersion, i.execution, i.message,
                            i.transition);
    TakenSteps(before,
               ApplyTimer(before, i.batchId, i.epoch, i.timerId, i.expectedVersion, i.execution, i.message,
                          i.transition).value,
               TimerEngine(before.id, i));
  }

  lemma SystemPreparedExact(before: Session, i: SystemInput)
    requires before.Valid() && PrepareSystem(before, i).Ok?
    ensures var c := PrepareSystem(before, i).value; var at := Micros(i.execution.now);
      && c.before == before && StepsBy(before, c.after, c.batch, SystemEngine(before.id, i))
      && c.events == Notice(before, at)
      && c.receipt == SystemReceipt(SystemKey(before.id, i.operation, i.source), i.request, Accepted, i.result,
                                    before.Version() + 1, at)
  {
    SessionSteps.SystemTaken(before, i.batchId, i.epoch, before.Version(), i.operation, i.source, i.request,
                             i.execution, i.message, i.transition);
    TakenSteps(before,
               ApplySystem(before, i.batchId, i.epoch, before.Version(), i.operation, i.source, i.request, i.execution,
                           i.message, i.transition).value,
               SystemEngine(before.id, i));
  }

  // ----- what each command writes of a game -----

  /** The sessions and batches among these rows are none, or exactly those of one engine step. */
  predicate OneStep(db: Tables, w: Tables, id: Id, t: Session, b: Batch) {
    || (w.sessions == map[] && w.batches == map[])
    || (id in db.sessions && var p := PersistStep(db, db.sessions[id], t, b);
        p.Ok? && w.sessions == p.value.sessions && w.batches == p.value.batches)
  }

  lemma OneStepTakes(db: Tables, w: Tables, id: Id, t: Session, b: Batch, e: Engine)
    requires OneStep(db, w, id, t, b) && t.Valid() && ShowsInput(t, e) && Records(b, e, t.Version())
    ensures FromInput(w, e)
  {
    if id in db.sessions && PersistStep(db, db.sessions[id], t, b).Ok? {
      PersistTakes(db, db.sessions[id], t, b, e);
    }
  }

  lemma ActionIsOneStep(db: Tables, room: Room, next: Room, c: ActionCommit)
    ensures CommitAction(db, c).Ok? ==> OneStep(db, CommitAction(db, c).value.writes, c.before.id, c.after, c.batch)
    ensures FinishAction(db, room, next, c).Ok? ==>
      OneStep(db, FinishAction(db, room, next, c).value.writes, c.before.id, c.after, c.batch)
  {
  }

  lemma TimerIsOneStep(db: Tables, room: Room, next: Room, c: TimerCommit)
    ensures CommitTimer(db, c).Ok? ==> OneStep(db, CommitTimer(db, c).value.writes, c.before.id, c.after, c.batch)
    ensures FinishTimer(db, room, next, c).Ok? ==>
      OneStep(db, FinishTimer(db, room, next, c).value.writes, c.before.id, c.after, c.batch)
  {
  }

  lemma SystemIsOneStep(db: Tables, room: Room, next: Room, actor: Id, c: SystemCommit, noop: Digest)
    ensures CommitSystem(db, c, noop).Ok? ==>
      OneStep(db, CommitSystem(db, c, noop).value.writes, c.before.id, c.after, c.batch)
    ensures FinishSystem(db, room, next, actor, c, noop).Ok? ==>
      OneStep(db, FinishSystem(db, room, next, actor, c, noop).value.writes, c.before.id, c.after, c.batch)
  {
    SystemCommitIsOneStep(db, c, noop);
    SystemFinishGame(db, room, next, actor, c, noop);
  }

  lemma SystemCommitIsOneStep(db: Tables, c: SystemCommit, noop: Digest)
    ensures CommitSystem(db, c, noop).Ok? ==>
      OneStep(db, CommitSystem(db, c, noop).value.writes, c.before.id, c.after, c.batch)
  {
  }

  /** Finishing adds a room to what the commit writes, or replays. */
  lemma SystemFinishGame(db: Tables, room: Room, next: Room, actor: Id, c: SystemCommit, noop: Digest)
    ensures var r := FinishSystem(db, room, next, actor, c, noop);
      r.Ok? ==>
        || (r.value.writes.sessions == map[] && r.value.writes.batches == map[])
        || (CommitSystem(db, c, noop).Ok? && var a := CommitSystem(db, c, noop).value.writes;
            r.value.writes.sessions == a.sessions && r.value.writes.batches == a.batches)
  {
  }

  lemma ActionFromInput(db: Tables, before: Session, room: Room, i: ActionInput)
    requires before.Valid() && ExecuteAction(db, before, room, i).Ok?
    ensures FromInput(ExecuteAction(db, before, room, i).value.writes, ActionEngine(before.id, i))
  {
    ActionPreparedExact(before, i);
    var c := PrepareAction(before, i).value;
    var next := PrepareFinish(room, before.id, i.execution.now);
    ActionIsOneStep(db, room, if next.Ok? then next.value else room, c);
    OneStepTakes(db, ExecuteAction(db, before, room, i).value.writes, before.id, c.after, c.batch,
                 ActionEngine(before.id, i));
  }

  lemma TimerFromInput(db: Tables, before: Session, room: Room, i: TimerInput)
    requires before.Valid() && ExecuteTimer(db, before, room, i).Ok?
    ensures FromInput(ExecuteTimer(db, before, room, i).value.writes, TimerEngine(before.id, i))
  {
    TimerPreparedExact(before, i);
    var c := PrepareTimer(before, i).value;
    var next := PrepareFinish(room, before.id, i.execution.now);
    TimerIsOneStep(db, room, if next.Ok? then next.value else room, c);
    OneStepTakes(db, ExecuteTimer(db, before, room, i).value.writes, before.id, c.after, c.batch,
                 TimerEngine(before.id, i));
  }

  lemma SystemFromInput(db: Tables, before: Session, room: Room, i: SystemInput)
    requires before.Valid() && HandleSystemOnce(db, before, room, i).Ok?
    ensures FromInput(HandleSystemOnce(db, before, room, i).value.writes, SystemEngine(before.id, i))
  {
    if !before.status.Terminal() {
      SystemPreparedExact(before, i);
      var c := PrepareSystem(before, i).value;
      var next := PrepareFinish(room, before.id, i.execution.now);
      SystemIsOneStep(db, room, if next.Ok? then next.value else room, i.source.requestedBy, c, i.noopResult);
      OneStepTakes(db, HandleSystemOnce(db, before, room, i).value.writes, before.id, c.after, c.batch,
                   SystemEngine(before.id, i));
    }
  }

  lemma StartGameRows(db: Tables, room: Room, next: Room, s: Session, b: Batch, events: seq<OutboxEvent>,
                      receipt: StartReceipt)
    requires s.Valid() && StartGame(db, room, next, s, b, events, receipt).Ok?
    ensures var w := StartGame(db, room, next, s, b, events, receipt).value.writes;
      || (w.sessions == map[] && w.batches == map[])
      || (w.sessions == map[s.id := s] && w.batches == map[BatchKey(s.id, 1) := b])
  {
    GameSession.RestoreFixedPoint(s);
  }

  lemma CreatedFromInput(r: CreateRequest, e: Engine)
    requires NewSession(r).Ok?
    requires e == Engine(r.id, r.batchId, 0, Created, r.execution, r.input, r.transition)
    ensures var s := NewSession(r).value.0; s.Valid() && s.id == r.id && ShowsInput(s, e)
    ensures Records(NewSession(r).value.1, e, 1)
  {
    NewSessionExact(r);
    NewSessionShape(r);
  }

  lemma StartUnfolds(db: Tables, room: Room, i: StartInput)
    requires ExecuteStart(db, room, i).Ok?
    ensures Execute(room, StartCommand(i)).Ok? && NewSession(CreationOf(room, i)).Ok?
    ensures var made := NewSession(CreationOf(room, i)).value;
      ExecuteStart(db, room, i) ==
        StartGame(db, room, Execute(room, StartCommand(i)).value, made.0, made.1,
                  [NewEvent(SessionCreatedEvent, i.session, Nanos(Micros(i.now)))],
                  StartReceipt(StartKey(i.actor, room.id, i.operation), i.request, i.session, Micros(i.now)))
  {
  }

  lemma RowsFromInput(w: Tables, s: Session, b: Batch, e: Engine)
    requires w.sessions == map[s.id := s] && w.batches == map[BatchKey(s.id, 1) := b]
    requires ShowsInput(s, e) && Records(b, e, 1) && s.id == e.session
    ensures FromInput(w, e)
  {
    assert BatchKey(s.id, 1) in w.batches;
  }

  lemma StartFromInput(db: Tables, room: Room, i: StartInput)
    requires ExecuteStart(db, room, i).Ok?
    ensures FromInput(ExecuteStart(db, room, i).value.writes, StartEngine(i))
  {
    StartUnfolds(db, room, i);
    CreatedFromInput(CreationOf(room, i), StartEngine(i));
    var made := NewSession(CreationOf(room, i)).value;
    var w := ExecuteStart(db, room, i).value.writes;
    StartGameRows(db, room, Execute(room, StartCommand(i)).value, made.0, made.1,
                  [NewEvent(SessionCreatedEvent, i.session, Nanos(Micros(i.now)))],
                  StartReceipt(StartKey(i.actor, room.id, i.operation), i.request, i.session, Micros(i.now)));
    if w.batches != map[] { RowsFromInput(w, made.0, made.1, StartEngine(i)); }
  }

  // ----- what other commands do to a state -----

  /** A resume in which the module rewrote the state to this. */
  predicate Rewrites(step: Step, id: Id, state: GameState) {
    && (step.Resuming? || step.ResumingOnly?) && step.before.id == id
    && step.adjustment.Adjusted? && step.adjustment.state == state
  }

  /** Every session among these rows keeps the state it has, or gets the one a module rewrote it to. */
  ghost predicate KeepsStates(db: Tables, w: Tables, step: Step) {
    forall id :: id in w.sessions ==>
      id in db.sessions && (w.sessions[id].state == db.sessions[id].state || Rewrites(step, id, w.sessions[id].state))
  }

  lemma ClaimKeepsState(db: Tables, before: Session, epoch: nat, at: Reading)
    requires before.id in db.sessions && db.sessions[before.id].id == before.id && Claim(db, before, epoch, at).Ok?
    ensures KeepsStates(db, Claim(db, before, epoch, at).value, Claiming(before, epoch, at))
    ensures Claim(db, before, epoch, at).value.batches == map[]
  {
    var current := db.sessions[before.id];
    RestoreYieldsValid(current.(epoch := current.epoch + 1,
                                updatedAt := AcquireOwnership(before, epoch, at).value.updatedAt));
  }

  lemma LifecycleKeepsState(db: Tables, c: LifecycleCommit, step: Step)
    requires NamedRow(db, c.before) && c.after.Valid() && NewLifecycleCommit(c.before, c.after, c.events).Ok?
    requires CommitLifecycle(db, c).Ok?
    requires c.after.state == c.before.state || Rewrites(step, c.before.id, c.after.state)
    ensures KeepsStates(db, CommitLifecycle(db, c).value, step) && CommitLifecycle(db, c).value.batches == map[]
  {
    SwapsOnlyItsRow(db, c);
  }

  lemma SuspendKeepsState(db: Tables, before: Session, epoch: nat, now: Reading)
    requires NamedRow(db, before) && before.Valid() && SuspendSession(db, before, epoch, now).Ok?
    ensures KeepsStates(db, SuspendSession(db, before, epoch, now).value, Suspending(before, epoch, now))
    ensures SuspendSession(db, before, epoch, now).value.batches == map[]
  {
    SuspendPrepared(before, epoch, BumpedTime(now, before.updatedAt));
    LifecycleKeepsState(db, PrepareSuspend(before, epoch, BumpedTime(now, before.updatedAt)).value,
                        Suspending(before, epoch, now));
  }

  lemma ResumedState(before: Session, epoch: nat, at: Reading, adjustment: Adjustment)
    requires before.Valid() && PrepareResume(before, epoch, at, adjustment).Ok?
    ensures var c := PrepareResume(before, epoch, at, adjustment).value;
      c.after.state == if adjustment.Adjusted? then adjustment.state else before.state
  {
    ResumeShape(before, epoch, at, adjustment);
  }

  lemma ResumeOnlyKeepsState(db: Tables, before: Session, epoch: nat, now: Reading, adjustment: Adjustment)
    requires NamedRow(db, before) && before.Valid() && ResumeOnly(db, before, epoch, now, adjustment).Ok?
    ensures KeepsStates(db, ResumeOnly(db, before, epoch, now, adjustment).value,
                        ResumingOnly(before, epoch, now, adjustment))
    ensures ResumeOnly(db, before, epoch, now, adjustment).value.batches == map[]
  {
    var at := BumpedTime(now, before.updatedAt);
    ResumePrepared(before, epoch, at, adjustment);
    ResumedState(before, epoch, at, adjustment);
    LifecycleKeepsState(db, PrepareResume(before, epoch, at, adjustment).value,
                        ResumingOnly(before, epoch, now, adjustment));
  }

  lemma GovernedKeepsState(db: Tables, room: Room, next: Room, c: LifecycleCommit, pausing: bool, step: Step)
    requires NamedRow(db, c.before) && c.after.Valid() && NewLifecycleCommit(c.before, c.after, c.events).Ok?
    requires GovernGame(db, room, next, c, pausing).Ok?
    requires c.after.state == c.before.state || Rewrites(step, c.before.id, c.after.state)
    ensures KeepsStates(db, GovernGame(db, room, next, c, pausing).value, step)
    ensures GovernGame(db, room, next, c, pausing).value.batches == map[]
  {
    LifecycleKeepsState(db, c, step);
  }

  lemma PauseKeepsState(db: Tables, room: Room, before: Session, actor: Id, pauseId: Id, requestId: Id,
                        expected: RoomVersions, epoch: nat, now: Reading)
    requires NamedRow(db, before) && before.Valid()
    requires PauseRoom(db, room, before, actor, pauseId, requestId, expected, epoch, now).Ok?
    ensures var w := PauseRoom(db, room, before, actor, pauseId, requestId, expected, epoch, now).value;
      && KeepsStates(db, w, Pausing(room, before, actor, pauseId, requestId, expected, epoch, now))
      && w.batches == map[]
  {
    var at := Nanos(GovernedTime(now, room.updatedAt, before.updatedAt));
    SuspendPrepared(before, epoch, at);
    GovernedKeepsState(db, room,
                       Execute(room, RoomCommands.Pause(actor, pauseId, before.id, requestId, expected, at)).value,
                       PrepareSuspend(before, epoch, at).value, true,
                       Pausing(room, before, actor, pauseId, requestId, expected, epoch, now));
  }

  lemma ResumeKeepsState(db: Tables, room: Room, before: Session, actor: Id, expected: RoomVersions, epoch: nat,
                         now: Reading, adjustment: Adjustment)
    requires NamedRow(db, before) && before.Valid()
    requires ResumeRoom(db, room, before, actor, expected, epoch, now, adjustment).Ok?
    ensures var w := ResumeRoom(db, room, before, actor, expected, epoch, now, adjustment).value;
      && KeepsStates(db, w, Resuming(room, before, actor, expected, epoch, now, adjustment))
      && w.batches == map[]
  {
    var at := Nanos(GovernedTime(now, room.updatedAt, before.updatedAt));
    ResumePrepared(before, epoch, at, adjustment);
    ResumedState(before, epoch, at, adjustment);
    GovernedKeepsState(db, room, Execute(room, ResumeSession(actor, before.id, expected, at)).value,
                       PrepareResume(before, epoch, at, adjustment).value, false,
                       Resuming(room, before, actor, expected, epoch, now, adjustment));
  }

  lemma CancelGameKeepsState(db: Tables, room: Room, next: Room, c: LifecycleCommit, step: Step)
    requires NamedRow(db, c.before) && c.after.Valid() && NewLifecycleCommit(c.before, c.after, c.events).Ok?
    requires c.after.state == c.before.state
    ensures var r := CancelGame(db, room, next, c); r.Ok? ==> KeepsStates(db, r.value, step) && r.value.batches == map[]
  {
    if CommitLifecycle(db, c).Ok? { LifecycleKeepsState(db, c, step); }
  }

  lemma CancelKeepsState(db: Tables, room: Room, before: Session, i: CancelInput)
    requires NamedRow(db, before) && before.Valid() && RuntimeService.Cancel(db, room, before, i).Ok?
    ensures KeepsStates(db, RuntimeService.Cancel(db, room, before, i).value, Cancelling(room, before, i))
    ensures RuntimeService.Cancel(db, room, before, i).value.batches == map[]
  {
    if PrepareCancel(before, i.epoch, i.now, i.reason).Ok? {
      CancelPrepared(before, i.epoch, i.now, i.reason);
      CancelShape(before, i.epoch, i.now, i.reason);
      var next := Execute(room, CancelCommand(room, i));
      CancelGameKeepsState(db, room, if next.Ok? then next.value else room,
                           PrepareCancel(before, i.epoch, i.now, i.reason).value, Cancelling(room, before, i));
    }
  }

  // ----- every step -----

  /** Rows of a game come from the input of the step, or the step wrote no batch and kept the states. */
  ghost predicate Sourced(db: Tables, w: Tables, step: Step) {
    || (EngineOf(step).Some? && FromInput(w, EngineOf(step).value))
    || (w.batches == map[] && KeepsStates(db, w, step))
  }

  lemma ActingFromInput(db: Tables, before: Session, room: Room, i: ActionInput)
    requires before.Valid() && PerformEngine(db, Acting(before, room, i)).Ok?
    ensures FromInput(PerformEngine(db, Acting(before, room, i)).value, ActionEngine(before.id, i))
  {
    ActionFromInput(db, before, room, i);
  }

  lemma FiringFromInput(db: Tables, before: Session, room: Room, i: TimerInput)
    requires before.Valid() && PerformEngine(db, Firing(before, room, i)).Ok?
    ensures FromInput(PerformEngine(db, Firing(before, room, i)).value, TimerEngine(before.id, i))
  {
    TimerFromInput(db, before, room, i);
  }

  lemma ApplyingFromInput(db: Tables, before: Session, room: Room, i: SystemInput)
    requires before.Valid() && PerformEngine(db, Applying(before, room, i)).Ok?
    ensures FromInput(PerformEngine(db, Applying(before, room, i)).value, SystemEngine(before.id, i))
  {
    SystemFromInput(db, before, room, i);
  }

  lemma EngineStepSourced(db: Tables, step: Step)
    requires EngineStep(step) && PerformEngine(db, step).Ok? && step.before.Valid()
    requires step.before.id in db.sessions && db.sessions[step.before.id].id == step.before.id
    ensures Sourced(db, PerformEngine(db, step).value, step)
  {
    match step
    case Claiming(before, epoch, at) => ClaimKeepsState(db, before, epoch, at);
    case Acting(before, room, i) => ActingSourced(db, before, room, i);
    case Firing(before, room, i) => FiringSourced(db, before, room, i);
    case Applying(before, room, i) => ApplyingSourced(db, before, room, i);
  }

  lemma ActingSourced(db: Tables, before: Session, room: Room, i: ActionInput)
    requires before.Valid() && PerformEngine(db, Acting(before, room, i)).Ok?
    ensures Sourced(db, PerformEngine(db, Acting(before, room, i)).value, Acting(before, room, i))
  {
    ActingFromInput(db, before, room, i);
  }

  lemma FiringSourced(db: Tables, before: Session, room: Room, i: TimerInput)
    requires before.Valid() && PerformEngine(db, Firing(before, room, i)).Ok?
    ensures Sourced(db, PerformEngine(db, Firing(before, room, i)).value, Firing(before, room, i))
  {
    FiringFromInput(db, before, room, i);
  }

  lemma ApplyingSourced(db: Tables, before: Session, room: Room, i: SystemInput)
    requires before.Valid() && PerformEngine(db, Applying(before, room, i)).Ok?
    ensures Sourced(db, PerformEngine(db, Applying(before, room, i)).value, Applying(before, room, i))
  {
    ApplyingFromInput(db, before, room, i);
  }

  lemma RoomStepSourced(db: Tables, step: Step)
    requires RoomStep(step) && PerformRoom(db, step).Ok?
    ensures Sourced(db, PerformRoom(db, step).value, step)
  {
    if step.Starting? { StartFromInput(db, step.room, step.start); } else { NoGameWritten(db, step); }
  }

  lemma NoGameWritten(db: Tables, step: Step)
    requires RoomStep(step) && !step.Starting? && PerformRoom(db, step).Ok?
    ensures PerformRoom(db, step).value.sessions == map[] && PerformRoom(db, step).value.batches == map[]
  {
  }

  lemma GovernorSourced(db: Tables, step: Step)
    requires !EngineStep(step) && !RoomStep(step) && PerformGovernor(db, step).Ok?
    requires NamedRow(db, step.before) && step.before.Valid()
    ensures Sourced(db, PerformGovernor(db, step).value, step)
  {
    match step
    case Suspending(before, epoch, now) => SuspendKeepsState(db, before, epoch, now);
    case ResumingOnly(before, epoch, now, adjustment) => ResumeOnlyKeepsState(db, before, epoch, now, adjustment);
    case Pausing(room, before, actor, pauseId, requestId, expected, epoch, now) =>
      PauseKeepsState(db, room, before, actor, pauseId, requestId, expected, epoch, now);
    case Resuming(room, before, actor, expected, epoch, now, adjustment) =>
      ResumeKeepsState(db, room, before, actor, expected, epoch, now, adjustment);
    case Cancelling(room, before, cancel) => CancelKeepsState(db, room, before, cancel);
  }

  lemma StepSourced(db: Tables, step: Step)
    requires Perform(db, step).Ok?
    requires step.HoldsSession() ==>
      && step.before.Valid() && step.before.id in db.sessions && db.sessions[step.before.id].id == step.before.id
      && NamedRow(db, step.before)
    ensures Sourced(db, Perform(db, step).value, step)
  {
    if EngineStep(step) {
      EngineStepSourced(db, step);
    } else if RoomStep(step) {
      RoomStepSourced(db, step);
    } else {
      GovernorSourced(db, step);
    }
  }

  // ----- in every run -----

  /** This step wrote this batch, as the record of its input, beside the row that its module returned. */
  predicate Wrote(db: Tables, next: Tables, step: Step, k: BatchKey) {
    && k !in db.batches && k in next.batches && k.session in next.sessions && EngineOf(step).Some?
    && var e := EngineOf(step).value; var t := next.sessions[k.session];
    && e.session == k.session && Records(next.batches[k], e, k.version) && t.Version() == k.version && ShowsInput(t, e)
  }

  /** What a step did to a session that is there afterwards. */
  predicate Touched(db: Tables, next: Tables, step: Step, id: Id)
    requires id in next.sessions
  {
    var t := next.sessions[id];
    || Wrote(db, next, step, BatchKey(id, t.Version()))
    || (id in db.sessions && db.sessions[id].Version() == t.Version()
        && (t.state == db.sessions[id].state || Rewrites(step, id, t.state)))
  }

  lemma BatchWrote(db: Tables, w: Tables, step: Step, k: BatchKey)
    requires Sourced(db, w, step) && BatchesFit(db, w) && k in w.batches
    ensures Wrote(db, db.Write(w), step, k)
  {
    assert w.batches != map[];
    RecordedBatch(db, w, EngineOf(step).value, k);
  }

  lemma RecordedBatch(db: Tables, w: Tables, e: Engine, k: BatchKey)
    requires FromInput(w, e) && BatchesFit(db, w) && k in w.batches
    ensures k !in db.batches && k in db.Write(w).batches && db.Write(w).batches[k] == w.batches[k]
    ensures k.session in db.Write(w).sessions && db.Write(w).sessions[k.session].Version() == k.version
    ensures ShowsInput(db.Write(w).sessions[k.session], e) && e.session == k.session
    ensures Records(w.batches[k], e, k.version)
  {
    assert w.batches != map[];
  }

  lemma SessionTouched(db: Tables, w: Tables, step: Step, id: Id)
    requires Sourced(db, w, step) && LegalBatches(db, w) && id in db.Write(w).sessions
    ensures Touched(db, db.Write(w), step, id)
  {
    if id in w.sessions && w.batches != map[] {
      var k :| k in w.batches;
      assert k.session in w.sessions && k.session == id;
      BatchWrote(db, w, step, k);
    }
  }

  /** What a step of a run did, to sessions and to batches. */
  ghost predicate Explained(db: Tables, next: Tables, step: Step) {
    && (forall id :: id in next.sessions ==> Touched(db, next, step, id))
    && (forall k :: k in next.batches ==>
          if k in db.batches then next.batches[k] == db.batches[k] else Wrote(db, next, step, k))
  }

  lemma WritesExplained(db: Tables, w: Tables, step: Step)
    requires Sourced(db, w, step) && LegalBatches(db, w)
    ensures Explained(db, db.Write(w), step)
  {
    var next := db.Write(w);
    forall id | id in next.sessions ensures Touched(db, next, step, id) { SessionTouched(db, w, step, id); }
    forall k | k in next.batches
      ensures if k in db.batches then next.batches[k] == db.batches[k] else Wrote(db, next, step, k)
    {
      if k in w.batches { BatchWrote(db, w, step, k); }
    }
  }

  lemma StepRecalls(w: World, step: Step)
    requires Core(w) && Named(w) && Allowed(w, step) && step.HoldsSession()
    ensures step.before.Valid() && step.before.id in w.db.sessions && w.db.sessions[step.before.id].id == step.before.id
    ensures NamedRow(w.db, step.before)
  {
    Recall(w, step.before);
  }

  lemma NextExplained(w: World, step: Step)
    requires Inv(w) && Named(w) && Allowed(w, step)
    ensures Explained(w.db, Next(w, step).db, step)
  {
    if Perform(w.db, step).Ok? {
      NextSourced(w, step);
      NextLegal(w, step);
      WritesExplained(w.db, Perform(w.db, step).value, step);
    }
  }

  lemma NextSourced(w: World, step: Step)
    requires Core(w) && Named(w) && Allowed(w, step) && Perform(w.db, step).Ok?
    ensures Sourced(w.db, Perform(w.db, step).value, step)
  {
    if step.HoldsSession() { StepRecalls(w, step); }
    StepSourced(w.db, step);
  }

  lemma NextLegal(w: World, step: Step)
    requires Inv(w) && Allowed(w, step) && Perform(w.db, step).Ok?
    ensures LegalBatches(w.db, Perform(w.db, step).value)
  {
    StepLegal(w, step);
  }

  ghost predicate ExplainedAt(steps: seq<Step>, worlds: seq<World>, i: nat)
    requires i < |steps| < |worlds|
  {
    Explained(worlds[i].db, worlds[i + 1].db, steps[i])
  }

  /** The run seen from its steps and tables: each state is explained by the step before it. */
  ghost predicate Story(steps: seq<Step>, worlds: seq<World>) {
    && |worlds| == |steps| + 1 && worlds[0].db == NOTHING
    && forall i :: 0 <= i < |steps| ==> ExplainedAt(steps, worlds, i)
  }

  lemma RunIsStory(steps: seq<Step>, worlds: seq<World>)
    requires Run(steps, worlds)
    ensures Story(steps, worlds)
  {
    RunIsChain(steps, worlds);
    forall i | 0 <= i < |steps| ensures ExplainedAt(steps, worlds, i) {
      RunKeepsInv(steps, worlds, i);
      ChainNamed(worlds, i);
      RunAt(steps, worlds, i);
      NextExplained(worlds[i], steps[i]);
    }
  }

  /** Step i of the run wrote this batch. */
  ghost predicate WrittenBy(steps: seq<Step>, worlds: seq<World>, i: nat, k: BatchKey)
    requires |worlds| == |steps| + 1
  {
    i < |steps| && Wrote(worlds[i].db, worlds[i + 1].db, steps[i], k)
  }

  lemma {:induction false} BatchInStory(steps: seq<Step>, worlds: seq<World>, j: nat, k: BatchKey) returns (i: nat)
    requires Story(steps, worlds) && j < |worlds| && k in worlds[j].db.batches
    ensures i < j && WrittenBy(steps, worlds, i, k) && worlds[j].db.batches[k] == worlds[i + 1].db.batches[k]
  {
    assert j != 0;
    i := j - 1;
    assert ExplainedAt(steps, worlds, i);
    if k in worlds[i].db.batches { i := BatchInStory(steps, worlds, i, k); }
  }

  /** A module rewrote the state to this on a resume after step i and before state j. */
  predicate RewrittenSince(steps: seq<Step>, i: nat, j: nat, id: Id, state: GameState)
    requires j <= |steps|
  {
    exists m :: i < m < j && Rewrites(steps[m], id, state)
  }

  lemma {:induction false} StateInStory(steps: seq<Step>, worlds: seq<World>, j: nat, id: Id) returns (i: nat)
    requires Story(steps, worlds) && j < |worlds| && id in worlds[j].db.sessions
    ensures var s := worlds[j].db.sessions[id];
      && i < j && WrittenBy(steps, worlds, i, BatchKey(id, s.Version()))
      && (s.state == EngineOf(steps[i]).value.transition.snapshot || RewrittenSince(steps, i, j, id, s.state))
  {
    assert j != 0;
    i := j - 1;
    assert ExplainedAt(steps, worlds, i);
    assert Touched(worlds[i].db, worlds[j].db, steps[i], id);
    if !Wrote(worlds[i].db, worlds[j].db, steps[i], BatchKey(id, worlds[j].db.sessions[id].Version())) {
      i := StateInStory(steps, worlds, i, id);
    }
  }

  /**
   * In any run every stored batch records the input of one step: its identifier, cause, clock, seed, message and the
   * events its module returned; and the row stored with it had the state, timers and status that the module returned.
   */
  lemma EveryBatchRecordsItsInput(steps: seq<Step>, worlds: seq<World>, j: nat, k: BatchKey)
    requires Run(steps, worlds) && j < |worlds| && k in worlds[j].db.batches
    ensures exists i: nat ::
      i < j && WrittenBy(steps, worlds, i, k) && worlds[j].db.batches[k] == worlds[i + 1].db.batches[k]
  {
    RunIsStory(steps, worlds);
    var i := BatchInStory(steps, worlds, j, k);
  }

  /**
   * In any run every stored state is the snapshot that the module returned for the input that committed the latest
   * batch, or what the module made of it on a later resume.
   */
  lemma StateComesFromItsInput(steps: seq<Step>, worlds: seq<World>, j: nat, id: Id)
    requires Run(steps, worlds) && j < |worlds| && id in worlds[j].db.sessions
    ensures var s := worlds[j].db.sessions[id];
      exists i: nat :: && i < j && WrittenBy(steps, worlds, i, BatchKey(id, s.Version()))
        && (s.state == EngineOf(steps[i]).value.transition.snapshot || RewrittenSince(steps, i, j, id, s.state))
  {
    RunIsStory(steps, worlds);
    var i := StateInStory(steps, worlds, j, id);
  }
}
