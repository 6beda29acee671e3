/**
 * One authoritative game session: an immutable value that every accepted command replaces.
 * `RestoreSession` is the single gate that every snapshot passes; `Valid` says declaratively
 * which snapshots are its fixed points.
 */
module GameSession {
  import opened Base
  import opened GameSdk
  import Sorting

  datatype Status = Active | Suspended | Finished | Cancelled {
    predicate Terminal() { this == Finished || this == Cancelled }
  }

  datatype Participant = Participant(user: Id, seat: nat)

  datatype Timer = Timer(id: string, expectedVersion: nat, due: Time, message: Message)

  /** The configuration a game was started with; room fences of 0 mark an old config-only start. */
  datatype StartConfig = StartConfig(config: Message, revision: nat, roomVersion: nat, membershipVersion: nat,
                                     hostEpoch: nat) {
    predicate Unset() {
      !config.Valid() && revision == 0 && roomVersion == 0 && membershipVersion == 0 && hostEpoch == 0
    }

    predicate Acceptable() {
      && config.Valid()
      && if roomVersion == 0 && membershipVersion == 0 && hostEpoch == 0 then revision == 0
         else roomVersion > 0 && membershipVersion > 0 && hostEpoch > 0
    }
  }

  /** What no command may change about a session. */
  datatype SessionIdentity = SessionIdentity(id: Id, room: Id, key: VersionKey, startedAt: Time,
                                             participants: seq<Participant>, start: StartConfig)

  const PLATFORM_CANCELLED: string := "platform_cancelled"

  datatype Session = Session(
    id: Id, room: Id, key: VersionKey, epoch: nat,
    participants: seq<Participant>, start: StartConfig,
    state: GameState, timers: seq<Timer>, deadline: Time,
    status: Status, startedAt: Time, updatedAt: Time, suspendedAt: Time, endedAt: Time,
    cancelReason: string)
  {
    function Version(): nat { state.stateVersion }

    function Identity(): SessionIdentity {
      SessionIdentity(id, room, key, startedAt, participants, start)
    }

    predicate HasParticipant(user: Id) {
      exists i :: 0 <= i < |participants| && participants[i].user == user
    }

    /** The snapshots that `RestoreSession` returns unchanged. */
    predicate Valid() {
      && id != NIL && room != NIL && key.Valid() && state.Valid()
      && startedAt != ZERO_TIME && startedAt <= updatedAt
      && (start.Unset() || start.Acceptable())
      && ValidParticipants(participants)
      && ValidTimers(timers, state.stateVersion) && deadline == EarliestDue(timers)
      && (if status == Cancelled then ValidIdentifier(cancelReason) else cancelReason == "")
      && (if status.Terminal() then endedAt != ZERO_TIME && endedAt == updatedAt && timers == []
          else endedAt == ZERO_TIME)
      && (if status == Suspended then suspendedAt != ZERO_TIME && startedAt <= suspendedAt <= updatedAt
          else suspendedAt == ZERO_TIME)
    }
  }

  predicate ParticipantLess(a: Participant, b: Participant) {
    a.seat < b.seat || (a.seat == b.seat && a.user < b.user)
  }

  predicate TimerLess(a: Timer, b: Timer) {
    Sorting.TextLess(a.id, b.id)
  }

  predicate DistinctParticipants(ps: seq<Participant>) {
    && (forall i :: 0 <= i < |ps| ==> ps[i].user != NIL)
    && (forall i, j {:trigger Apart(ps[i], ps[j])} :: 0 <= i < j < |ps| ==> Apart(ps[i], ps[j]))
  }

  predicate Apart(a: Participant, b: Participant) {
    a.user != b.user && a.seat != b.seat
  }

  predicate ValidParticipants(ps: seq<Participant>) {
    && 0 < |ps| <= MAX_PARTICIPANTS && DistinctParticipants(ps)
    && Sorting.Increasing(ps, ParticipantLess)
  }

  predicate AcceptableTimer(t: Timer, version: nat) {
    ValidIdentifier(t.id) && t.expectedVersion == version && t.due != ZERO_TIME && t.message.Valid()
  }

  predicate AcceptableTimers(ts: seq<Timer>, version: nat) {
    && (forall i :: 0 <= i < |ts| ==> AcceptableTimer(ts[i], version))
    && (forall i, j {:trigger OtherTimer(ts[i], ts[j])} :: 0 <= i < j < |ts| ==> OtherTimer(ts[i], ts[j]))
  }

  predicate OtherTimer(a: Timer, b: Timer) {
    a.id != b.id
  }

  predicate ValidTimers(ts: seq<Timer>, version: nat) {
    && |ts| <= MAX_TIMERS && AcceptableTimers(ts, version)
    && Sorting.Increasing(ts, TimerLess)
  }

  /** The least due time, or the zero instant when no timer is armed. */
  function EarliestDue(ts: seq<Timer>): (due: Time) {
    if ts == [] then ZERO_TIME
    else if |ts| == 1 then ts[0].due
    else Min(ts[0].due, EarliestDue(ts[1..]))
  }

  lemma {:induction false} EarliestDueIsMinimum(ts: seq<Timer>)
    requires ts != []
    ensures forall i :: 0 <= i < |ts| ==> EarliestDue(ts) <= ts[i].due
    ensures exists i :: 0 <= i < |ts| && ts[i].due == EarliestDue(ts)
  {
    if |ts| == 1 {
    } else {
      EarliestDueIsMinimum(ts[1..]);
      var k :| 0 <= k < |ts[1..]| && ts[1..][k].due == EarliestDue(ts[1..]);
      assert ts[k + 1].due == EarliestDue(ts[1..]);
      forall i | 0 <= i < |ts| ensures EarliestDue(ts) <= ts[i].due {
        if i > 0 { assert ts[i] == ts[1..][i - 1]; }
      }
      assert EarliestDue(ts) == ts[0].due || EarliestDue(ts) == ts[k + 1].due;
    }
  }

  /** Checked and ordered by id, together with the next deadline. */
  function CanonicalTimers(ts: seq<Timer>, version: nat): Result<(seq<Timer>, Time)> {
    if AcceptableTimers(ts, version) then
      var sorted := Sorting.Sort(ts, TimerLess);
      Ok((sorted, EarliestDue(sorted)))
    else Err(InvalidSessionInput)
  }

  function FromIntents(intents: seq<TimerIntent>, version: nat): seq<Timer> {
    if intents == [] then []
    else [Timer(intents[0].id, version, Micros(intents[0].due), intents[0].message)] + FromIntents(intents[1..],
                                                                                                   version)
  }

  lemma {:induction false} FromIntentsAt(intents: seq<TimerIntent>, version: nat)
    ensures |FromIntents(intents, version)| == |intents|
    ensures forall i :: 0 <= i < |intents| ==>
      FromIntents(intents, version)[i] == Timer(intents[i].id, version, Micros(intents[i].due), intents[i].message)
  {
    if intents == [] {
    } else {
      FromIntentsAt(intents[1..], version);
    }
  }

  function CanonicalParticipants(ps: seq<Participant>): Result<seq<Participant>> {
    if DistinctParticipants(ps) then Ok(Sorting.Sort(ps, ParticipantLess)) else Err(InvalidSessionInput)
  }

  function CanonicalCancelReason(status: Status, reason: string): Result<string> {
    if status != Cancelled then (if reason == "" then Ok("") else Err(InvalidSessionInput))
    else if reason == "" then Ok(PLATFORM_CANCELLED)
    else if ValidIdentifier(reason) then Ok(reason)
    else Err(InvalidSessionInput)
  }

  predicate LifecycleTimesOk(s: Session, timers: seq<Timer>) {
    && (if s.status.Terminal() then s.endedAt != ZERO_TIME && s.endedAt == s.updatedAt && timers == []
        else s.endedAt == ZERO_TIME && s.cancelReason == "")
    && (if s.status == Suspended then s.suspendedAt != ZERO_TIME && s.startedAt <= s.suspendedAt <= s.updatedAt
        else s.suspendedAt == ZERO_TIME)
  }

  function RestoreSession(s: Session): Result<Session> {
    match CanonicalCancelReason(s.status, s.cancelReason)
    case Err(e) => Err(e)
    case Ok(reason) =>
      if !s.start.Unset() && !s.start.Acceptable() then Err(InvalidSessionInput)
      else if s.id == NIL || s.room == NIL || !s.key.Valid() || !s.state.Valid() || s.startedAt == ZERO_TIME
              || s.updatedAt < s.startedAt || |s.participants| == 0 || |s.participants| > MAX_PARTICIPANTS
              || |s.timers| > MAX_TIMERS then Err(InvalidSessionInput)
      else match CanonicalParticipants(s.participants)
        case Err(e) => Err(e)
        case Ok(participants) =>
          match CanonicalTimers(s.timers, s.state.stateVersion)
          case Err(e) => Err(InvalidSessionInput)
          case Ok(armed) =>
            var restored := s.(cancelReason := reason, participants := participants, timers := armed.0);
            if armed.1 != s.deadline || !LifecycleTimesOk(restored, armed.0) then Err(InvalidSessionInput)
            else Ok(restored)
  }

  lemma TimerOrderStrict()
    ensures Sorting.StrictOrder(TimerLess)
    ensures forall a: Timer, b: Timer :: a.id != b.id ==> TimerLess(a, b) || TimerLess(b, a)
  {
    forall a: Timer ensures !TimerLess(a, a) { Sorting.TextLessIrreflexive(a.id); }
    forall a: Timer, b: Timer, c: Timer | TimerLess(a, b) && TimerLess(b, c) ensures TimerLess(a, c) {
      Sorting.TextLessTransitive(a.id, b.id, c.id);
    }
    forall a: Timer, b: Timer | a.id != b.id ensures TimerLess(a, b) || TimerLess(b, a) {
      Sorting.TextLessTotal(a.id, b.id);
    }
  }

  lemma TimersSortIncreasing(ts: seq<Timer>, version: nat)
    requires AcceptableTimers(ts, version)
    ensures Sorting.Increasing(Sorting.Sort(ts, TimerLess), TimerLess)
  {
    TimerOrderStrict();
    forall i, j | 0 <= i < j < |ts| ensures TimerLess(ts[i], ts[j]) || TimerLess(ts[j], ts[i]) {
      assert OtherTimer(ts[i], ts[j]);
    }
    Sorting.SortIncreasing(ts, TimerLess);
  }

  /** Sorting accepted timers keeps them accepted, and the list is then in its final form. */
  lemma CanonicalTimersValid(ts: seq<Timer>, version: nat)
    requires CanonicalTimers(ts, version).Ok? && |ts| <= MAX_TIMERS
    ensures ValidTimers(CanonicalTimers(ts, version).value.0, version)
    ensures CanonicalTimers(ts, version).value.1 == EarliestDue(CanonicalTimers(ts, version).value.0)
    ensures |CanonicalTimers(ts, version).value.0| == |ts|
    ensures forall t :: t in CanonicalTimers(ts, version).value.0 <==> t in ts
  {
    var sorted := Sorting.Sort(ts, TimerLess);
    TimersSortIncreasing(ts, version);
    Sorting.SortKeeps(ts, TimerLess);
    forall i | 0 <= i < |sorted| ensures AcceptableTimer(sorted[i], version) { assert sorted[i] in ts; }
    forall i, j | 0 <= i < j < |sorted| ensures OtherTimer(sorted[i], sorted[j]) {
      assert TimerLess(sorted[i], sorted[j]);
      Sorting.TextLessIrreflexive(sorted[i].id);
    }
  }

  lemma CanonicalTimersFixed(ts: seq<Timer>, version: nat)
    requires ValidTimers(ts, version)
    ensures CanonicalTimers(ts, version) == Ok((ts, EarliestDue(ts)))
  {
    Sorting.SortFixed(ts, TimerLess);
  }

  lemma CanonicalParticipantsValid(ps: seq<Participant>)
    requires CanonicalParticipants(ps).Ok? && 0 < |ps| <= MAX_PARTICIPANTS
    ensures ValidParticipants(CanonicalParticipants(ps).value)
    ensures multiset(CanonicalParticipants(ps).value) == multiset(ps)
  {
    var sorted := Sorting.Sort(ps, ParticipantLess);
    forall i, j | 0 <= i < j < |ps| ensures ParticipantLess(ps[i], ps[j]) || ParticipantLess(ps[j], ps[i]) {
      assert Apart(ps[i], ps[j]);
    }
    Sorting.SortIncreasing(ps, ParticipantLess);
    Sorting.SortKeeps(ps, ParticipantLess);
    forall i | 0 <= i < |sorted| ensures sorted[i].user != NIL { assert sorted[i] in ps; }
    forall i, j | 0 <= i < j < |sorted| ensures Apart(sorted[i], sorted[j]) {
      assert sorted[i] in ps && sorted[j] in ps;
      assert ParticipantLess(sorted[i], sorted[j]);
      var a :| 0 <= a < |ps| && ps[a] == sorted[i];
      var b :| 0 <= b < |ps| && ps[b] == sorted[j];
      assert a != b;
      assert Apart(ps[a], ps[b]) || Apart(ps[b], ps[a]);
    }
  }

  /** Whatever `RestoreSession` accepts is valid, and it changed nothing but order and a missing cancel reason. */
  lemma RestoreYieldsValid(x: Session)
    requires RestoreSession(x).Ok?
    ensures var s := RestoreSession(x).value;
      && s.Valid()
      && s == x.(cancelReason := s.cancelReason, participants := s.participants, timers := s.timers)
      && multiset(s.participants) == multiset(x.participants)
      && (forall t :: t in s.timers <==> t in x.timers) && |s.timers| == |x.timers|
      && (x.status != Cancelled || x.cancelReason != "" ==> s.cancelReason == x.cancelReason)
      && (ValidParticipants(x.participants) ==> s.participants == x.participants)
      && (ValidTimers(x.timers, x.state.stateVersion) ==> s.timers == x.timers)
  {
    CanonicalParticipantsValid(x.participants);
    CanonicalTimersValid(x.timers, x.state.stateVersion);
    if ValidParticipants(x.participants) { Sorting.SortFixed(x.participants, ParticipantLess); }
    if ValidTimers(x.timers, x.state.stateVersion) { CanonicalTimersFixed(x.timers, x.state.stateVersion); }
    PlatformCancelledIsIdentifier();
  }

  /** The first instant at which one of these timers is due; the zero instant if there is none. */
  predicate FirstDue(due: Time, ts: seq<Timer>) {
    if ts == [] then due == ZERO_TIME
    else (forall i :: 0 <= i < |ts| ==> due <= ts[i].due) && exists i :: 0 <= i < |ts| && ts[i].due == due
  }

  /** What restoring asks of a snapshot, in whatever order its players and timers are listed. */
  predicate Restorable(x: Session) {
    && x.id != NIL && x.room != NIL && x.key.Valid() && x.state.Valid()
    && x.startedAt != ZERO_TIME && x.startedAt <= x.updatedAt && (x.start.Unset() || x.start.Acceptable())
    && 0 < |x.participants| <= 64 && DistinctParticipants(x.participants)
    && |x.timers| <= 64 && AcceptableTimers(x.timers, x.state.stateVersion) && FirstDue(x.deadline, x.timers)
    && (if x.status == Cancelled then x.cancelReason == "" || ValidIdentifier(x.cancelReason) else x.cancelReason == "")
    && (if x.status.Terminal() then x.endedAt != ZERO_TIME && x.endedAt == x.updatedAt && x.timers == []
        else x.endedAt == ZERO_TIME)
    && (if x.status == Suspended then x.suspendedAt != ZERO_TIME && x.startedAt <= x.suspendedAt <= x.updatedAt
        else x.suspendedAt == ZERO_TIME)
  }

  lemma FirstDueOfSame(due: Time, a: seq<Timer>, b: seq<Timer>)
    requires |a| == |b| && forall t :: t in a <==> t in b
    ensures FirstDue(due, a) ==> FirstDue(due, b)
  {
    if FirstDue(due, a) && a != [] {
      forall i | 0 <= i < |b| ensures due <= b[i].due { assert b[i] in a; }
      var k :| 0 <= k < |a| && a[k].due == due;
      assert a[k] in b;
    }
  }

  lemma EarliestDueIff(due: Time, ts: seq<Timer>)
    ensures due == EarliestDue(ts) <==> FirstDue(due, ts)
  {
    if ts != [] { EarliestDueIsMinimum(ts); }
  }

  /** Restoring accepts exactly these snapshots. */
  lemma RestoreAcceptsIff(x: Session)
    ensures RestoreSession(x).Ok? <==> Restorable(x)
  {
    if AcceptableTimers(x.timers, x.state.stateVersion) && |x.timers| <= MAX_TIMERS {
      CanonicalTimersValid(x.timers, x.state.stateVersion);
      var sorted := CanonicalTimers(x.timers, x.state.stateVersion).value.0;
      FirstDueOfSame(x.deadline, x.timers, sorted);
      FirstDueOfSame(x.deadline, sorted, x.timers);
      EarliestDueIff(x.deadline, sorted);
    }
    PlatformCancelledIsIdentifier();
  }

  lemma PlatformCancelledIsIdentifier()
    ensures ValidIdentifier(PLATFORM_CANCELLED)
  {
    var s := PLATFORM_CANCELLED;
    assert |s| == 18;
    assert forall i :: 0 <= i < |s| && i != 8 ==> IdentifierChar(s[i]);
    assert s[8] == '_';
  }

  /** Valid snapshots are exactly the fixed points of `RestoreSession`. */
  lemma RestoreFixedPoint(s: Session)
    ensures s.Valid() <==> RestoreSession(s) == Ok(s)
  {
    if s.Valid() {
      Sorting.SortFixed(s.participants, ParticipantLess);
      CanonicalTimersFixed(s.timers, s.state.stateVersion);
    }
    if RestoreSession(s) == Ok(s) {
      RestoreYieldsValid(s);
    }
  }
}
