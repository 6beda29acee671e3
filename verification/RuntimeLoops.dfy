/** The loops of the runtime and of the room, each against the function that the rest of the model reasons with. */
module RuntimeLoops {
  import opened Base
  import opened GameSdk
  import Sorting
  import opened GameSession
  import opened SessionSteps
  import opened Commits
  import opened PartyRoom
  import opened RuntimeStore
  import opened RuntimeService
  import opened RuntimeCalls

  // ----- timers and participants -----

  lemma {:induction false} EarliestDueOfPrefix(ts: seq<Timer>, n: nat)
    requires n < |ts|
    ensures EarliestDue(ts[..n + 1]) == if n == 0 then ts[0].due else Min(EarliestDue(ts[..n]), ts[n].due)
  {
    if n == 0 {
    } else {
      EarliestDueOfPrefix(ts[1..], n - 1);
      assert ts[..n + 1][1..] == ts[1..][..n] && ts[..n][1..] == ts[1..][..n - 1];
    }
  }

  lemma SortedStaysAcceptable(ts: seq<Timer>, version: nat, i: nat)
    requires AcceptableTimers(ts, version) && i < |Sorting.Sort(ts, TimerLess)|
    ensures Sorting.Sort(ts, TimerLess)[i].due != ZERO_TIME
  {
    var sorted := Sorting.Sort(ts, TimerLess);
    Sorting.SortKeeps(ts, TimerLess);
    assert sorted[i] in multiset(sorted);
    var k :| 0 <= k < |ts| && ts[k] == sorted[i];
  }

  method CanonicaliseTimers(values: seq<Timer>, version: nat) returns (r: Result<(seq<Timer>, Time)>)
    ensures r == CanonicalTimers(values, version)
  {
    var seen: set<string> := {};
    var i := 0;
    while i < |values|
      invariant 0 <= i <= |values|
      invariant forall id :: id in seen <==> exists k :: 0 <= k < i && values[k].id == id
      invariant forall k :: 0 <= k < i ==> AcceptableTimer(values[k], version)
      invariant forall j, k {:trigger OtherTimer(values[j], values[k])} :: 0 <= j < k < i ==>
        OtherTimer(values[j], values[k])
    {
      var timer := values[i];
      if !AcceptableTimer(timer, version) { return Err(InvalidSessionInput); }
      if timer.id in seen {
        ghost var k :| 0 <= k < i && values[k].id == timer.id;
        assert !OtherTimer(values[k], values[i]);
        return Err(InvalidSessionInput);
      }
      seen := seen + {timer.id};
      i := i + 1;
    }
    var timers := Sorting.Sort(values, TimerLess);
    var deadline := ZERO_TIME;
    i := 0;
    while i < |timers|
      invariant 0 <= i <= |timers|
      invariant deadline == EarliestDue(timers[..i]) && (0 < i ==> deadline != ZERO_TIME)
    {
      SortedStaysAcceptable(values, version, i);
      EarliestDueOfPrefix(timers, i);
      if deadline == ZERO_TIME || timers[i].due < deadline { deadline := timers[i].due; }
      i := i + 1;
    }
    assert timers[..i] == timers;
    return Ok((timers, deadline));
  }

  lemma SortedIsDistinct(ps: seq<Participant>)
    ensures DistinctParticipants(Sorting.Sort(ps, ParticipantLess)) <==> DistinctParticipants(ps)
  {
    Sorting.SortKeeps(ps, ParticipantLess);
    if DistinctParticipants(ps) { DistinctAsBag(ps, Sorting.Sort(ps, ParticipantLess)); }
    if DistinctParticipants(Sorting.Sort(ps, ParticipantLess)) { DistinctAsBag(Sorting.Sort(ps, ParticipantLess), ps); }
  }

  /** Distinctness depends on which participants there are, not on their order. */
  lemma DistinctAsBag(a: seq<Participant>, b: seq<Participant>)
    requires multiset(a) == multiset(b) && DistinctParticipants(a)
    ensures DistinctParticipants(b)
  {
    forall i | 0 <= i < |b| ensures b[i].user != NIL {
      assert b[i] in multiset(b);
      var k :| 0 <= k < |a| && a[k] == b[i];
    }
    forall i, j | 0 <= i < j < |b| ensures Apart(b[i], b[j]) {
      if b[i] == b[j] {
        TwiceIn(b, i, j);
        TwiceMeansPair(a, b[i]);
      } else {
        assert b[i] in multiset(b) && b[j] in multiset(b);
        var k :| 0 <= k < |a| && a[k] == b[i];
        var l :| 0 <= l < |a| && a[l] == b[j];
        assert if k < l then Apart(a[k], a[l]) else Apart(a[l], a[k]);
      }
    }
  }

  lemma TwiceIn<T>(s: seq<T>, i: nat, j: nat)
    requires i < j < |s| && s[i] == s[j]
    ensures multiset(s)[s[i]] >= 2
  {
    assert s == s[..i] + [s[i]] + s[i + 1..j] + [s[j]] + s[j + 1..];
  }

  lemma {:induction false} TwiceMeansPair(s: seq<Participant>, x: Participant)
    requires multiset(s)[x] >= 2
    ensures !DistinctParticipants(s)
  {
    if s[0] == x {
      assert s == [s[0]] + s[1..];
      assert x in multiset(s[1..]);
      var k :| 0 <= k < |s[1..]| && s[1..][k] == x;
      assert !Apart(s[0], s[k + 1]);
    } else {
      assert s == [s[0]] + s[1..];
      TwiceMeansPair(s[1..], x);
      DistinctTail(s);
    }
  }

  lemma DistinctTail(s: seq<Participant>)
    requires s != []
    ensures DistinctParticipants(s) ==> DistinctParticipants(s[1..])
  {
    if DistinctParticipants(s) {
      forall i, j | 0 <= i < j < |s[1..]| ensures Apart(s[1..][i], s[1..][j]) { assert Apart(s[i + 1], s[j + 1]); }
    }
  }

  method CanonicaliseParticipants(values: seq<Participant>) returns (r: Result<seq<Participant>>)
    ensures r == CanonicalParticipants(values)
  {
    var participants := Sorting.Sort(values, ParticipantLess);
    SortedIsDistinct(values);
    var users: set<Id> := {};
    var seats: set<nat> := {};
    var i := 0;
    while i < |participants|
      invariant 0 <= i <= |participants|
      invariant forall u :: u in users <==> exists k :: 0 <= k < i && participants[k].user == u
      invariant forall s :: s in seats <==> exists k :: 0 <= k < i && participants[k].seat == s
      invariant forall k :: 0 <= k < i ==> participants[k].user != NIL
      invariant forall j, k {:trigger Apart(participants[j], participants[k])} :: 0 <= j < k < i ==>
        Apart(participants[j], participants[k])
    {
      var p := participants[i];
      if p.user == NIL { return Err(InvalidSessionInput); }
      if p.user in users {
        ghost var k :| 0 <= k < i && participants[k].user == p.user;
        assert !Apart(participants[k], participants[i]);
        return Err(InvalidSessionInput);
      }
      if p.seat in seats {
        ghost var k :| 0 <= k < i && participants[k].seat == p.seat;
        assert !Apart(participants[k], participants[i]);
        return Err(InvalidSessionInput);
      }
      users := users + {p.user};
      seats := seats + {p.seat};
      i := i + 1;
    }
    return Ok(participants);
  }

  method TimersFromIntents(intents: seq<TimerIntent>, version: nat) returns (r: seq<Timer>)
    ensures r == FromIntents(intents, version)
  {
    r := [];
    for i := 0 to |intents|
      invariant |r| == i
      invariant forall k :: 0 <= k < i ==>
        r[k] == Timer(intents[k].id, version, Micros(intents[k].due), intents[k].message)
    {
      r := r + [Timer(intents[i].id, version, Micros(intents[i].due), intents[i].message)];
    }
    FromIntentsAt(intents, version);
  }

  /** The shift at a resume; the source's refusal of a shift backwards needs a negative pause. */
  method ShiftedResumeTimers(values: seq<Timer>, pausedFor: nat) returns (timers: seq<TimerIntent>)
    ensures timers == ShiftTimers(values, pausedFor)
  {
    timers := [];
    for i := 0 to |values|
      invariant |timers| == i
      invariant forall k :: 0 <= k < i ==>
        timers[k] == TimerIntent(values[k].id, Nanos(values[k].due + pausedFor), values[k].message)
    {
      timers := timers + [TimerIntent(values[i].id, Nanos(values[i].due + pausedFor), values[i].message)];
    }
    ShiftTimersAt(values, pausedFor);
  }

  // ----- seats and rosters -----

  method FindSeat(ms: seq<Member>, capacity: nat) returns (r: Option<nat>)
    ensures r == NextSeat(ms, capacity)
  {
    var used: set<nat> := {};
    for i := 0 to |ms|
      invariant forall s :: s in used <==> exists k :: 0 <= k < i && ms[k].role == ParticipantRole && ms[k].seat == s
    {
      if ms[i].role == ParticipantRole { used := used + {ms[i].seat}; }
    }
    assert used == UsedSeats(ms);
    for seat := 0 to capacity
      invariant FirstFree(used, seat, capacity) == FirstFree(used, 0, capacity)
    {
      if seat !in used { return Some(seat); }
    }
    return None;
  }

  /** The member loop of a room's restore: valid exactly when every member is and no user or seat repeats. */
  method CheckRoster(ms: seq<Member>, createdAt: Time, updatedAt: Time, host: Id) returns (ok: bool, hostSeated: bool,
                                                                                           participants: nat)
    ensures ok <==> RosterOk(ms, createdAt, updatedAt) && forall i :: 0 <= i < |ms| && ms[i].user == host ==>
      ms[i].role == ParticipantRole
    ensures ok ==> participants == ParticipantCount(ms)
    ensures ok ==> (hostSeated <==> exists i :: 0 <= i < |ms| && ms[i].user == host && ms[i].role == ParticipantRole)
  {
    var seen: set<Id> := {};
    var seats: set<nat> := {};
    ok, hostSeated, participants := true, false, 0;
    var i := 0;
    while i < |ms|
      invariant 0 <= i <= |ms| && ok
      invariant forall u :: u in seen <==> exists k :: 0 <= k < i && ms[k].user == u
      invariant forall s :: s in seats <==> exists k :: 0 <= k < i && ms[k].role == ParticipantRole && ms[k].seat == s
      invariant forall k :: 0 <= k < i ==> MemberOk(ms[k], createdAt, updatedAt)
      invariant forall j, k {:trigger SeparateMembers(ms[j], ms[k])} :: 0 <= j < k < i ==> SeparateMembers(ms[j], ms[k])
      invariant participants == ParticipantCount(ms[..i])
      invariant hostSeated <==> exists k :: 0 <= k < i && ms[k].user == host && ms[k].role == ParticipantRole
      invariant forall k :: 0 <= k < i && ms[k].user == host ==> ms[k].role == ParticipantRole
    {
      var m := ms[i];
      if !MemberOk(m, createdAt, updatedAt) { return false, false, 0; }
      if m.user in seen {
        ghost var k :| 0 <= k < i && ms[k].user == m.user;
        assert !SeparateMembers(ms[k], ms[i]);
        return false, false, 0;
      }
      if m.role == ParticipantRole && m.seat in seats {
        ghost var k :| 0 <= k < i && ms[k].role == ParticipantRole && ms[k].seat == m.seat;
        assert !SeparateMembers(ms[k], ms[i]);
        return false, false, 0;
      }
      if m.user == host && m.role != ParticipantRole { return false, false, 0; }
      seen := seen + {m.user};
      CountOfPrefix(ms, i);
      if m.role == ParticipantRole {
        seats := seats + {m.seat};
        participants := participants + 1;
        hostSeated := hostSeated || m.user == host;
      }
      i := i + 1;
    }
    assert ms[..i] == ms;
  }

  lemma {:induction false} CountOfPrefix(ms: seq<Member>, n: nat)
    requires n < |ms|
    ensures ParticipantCount(ms[..n + 1]) == ParticipantCount(ms[..n]) + if ms[n].role == ParticipantRole then 1 else 0
  {
    if n == 0 {
      assert ms[..1] == [ms[0]] && ms[..0] == [];
    } else {
      CountOfPrefix(ms[1..], n - 1);
      assert ms[..n + 1][1..] == ms[1..][..n] && ms[..n][1..] == ms[1..][..n - 1];
    }
  }

  /** The seat that starts: the host's, or the lowest one when the host does not play. */
  method TrustedStartingSeat(host: Id, ps: seq<Participant>) returns (seat: nat, found: bool)
    ensures found <==> ps != []
    ensures found ==> exists i :: 0 <= i < |ps| && ps[i].seat == seat
    ensures (exists i :: 0 <= i < |ps| && ps[i].user == host) ==>
      exists i :: 0 <= i < |ps| && ps[i] == Participant(host, seat)
    ensures (forall i :: 0 <= i < |ps| ==> ps[i].user != host) ==> forall i :: 0 <= i < |ps| ==> seat <= ps[i].seat
  {
    seat, found := 0, false;
    for i := 0 to |ps|
      invariant found <==> 0 < i
      invariant found ==> exists k :: 0 <= k < i && ps[k].seat == seat
      invariant forall k :: 0 <= k < i ==> ps[k].user != host && seat <= ps[k].seat
    {
      if ps[i].user == host {
        assert ps[i] == Participant(host, ps[i].seat);
        return ps[i].seat, true;
      }
      if !found || ps[i].seat < seat { seat, found := ps[i].seat, true; }
    }
  }

  /** The host of a valid room is among the players it freezes, so the first case applies at every start. */
  lemma HostIsFrozen(room: Room)
    requires room.Valid()
    ensures exists i ::
      0 <= i < |FrozenParticipants(room.members)| && FrozenParticipants(room.members)[i].user == room.host
  {
    var k :| 0 <= k < |room.members| && room.members[k].user == room.host && room.members[k].role == ParticipantRole;
    assert Participant(room.host, room.members[k].seat) in FrozenParticipants(room.members);
  }

  // ----- the bounded recomputation of system facts -----

  /** Whatever the rounds, only epoch and expected version of a command ever change. */
  lemma {:induction false} InputKeepsFact(rounds: nat -> Round, n: nat, i: SystemInput)
    ensures InputAt(rounds, n, i) ==
      i.(epoch := InputAt(rounds, n, i).epoch, expectedVersion := InputAt(rounds, n, i).expectedVersion)
  {
    if n == 0 {
    } else {
      InputKeepsFact(rounds, n - 1, i);
    }
  }

  /**
   * The whole call: the checks and the lookup, then at most four rounds, for a host's request one. A round after the
   * first takes epoch and version from the row that the store had locked when it asked for a retry.
   */
  method HandleSystem(asked: Tables, looked: Tables, session: Id, handle: Handler, rounds: nat -> Round,
                      input: SystemInput)
    returns (r: Result<SystemAnswer>, taken: nat)
    ensures SystemHandled(asked, looked, session, handle, rounds, input, r, taken)
    ensures taken <= if input.source.kind == HostApi then 1 else 4
  {
    var early := EarlyAnswer(asked, looked, session, input);
    if early.Some? { return early.value, 0; }
    r, taken := TakeRounds(handle, rounds, input);
  }

  method TakeRounds(handle: Handler, rounds: nat -> Round, input: SystemInput) returns (r: Result<SystemAnswer>,
                                                                                        taken: nat)
    ensures RoundsTaken(handle, rounds, input, r, taken)
  {
    var i := input;
    for n := 0 to MAX_RECOMPUTATIONS
      invariant i == InputAt(rounds, n, input)
      invariant forall k :: 0 <= k < n ==> RetriedAt(handle, rounds, k, input)
      invariant input.source.kind == HostApi ==> n == 0
    {
      var round := rounds(n);
      var answer := handle(i, round);
      InputKeepsFact(rounds, n, input);
      assert answer == AnswerAt(handle, rounds, n, input);
      r, taken := answer, n + 1;
      if answer.Err? { return; }
      if !answer.value.retry { return; }
      if i.source.kind == HostApi {
        r := Err(StateVersionConflict);
        return;
      }
      i := Adopt(i, round);
    }
    return Err(SystemOperationPending), MAX_RECOMPUTATIONS;
  }

  /** Rows that record an operation and nothing else. */
  predicate RecordsOnly(w: Tables) {
    && w.rooms == map[] && w.sessions == map[] && w.batches == map[] && w.actions == map[] && w.timers == map[]
    && w.starts == map[] && w.inbox == map[]
  }

  predicate QuietRetry(a: Result<SystemAnswer>) {
    a.Ok? && a.value.retry ==> RecordsOnly(a.value.writes)
  }

  lemma CommitRetry(db: Tables, c: SystemCommit, noopResult: Digest)
    ensures QuietRetry(CommitSystem(db, c, noopResult))
  {
  }

  lemma FinishRetry(db: Tables, before: Room, after: Room, actor: Id, c: SystemCommit, noopResult: Digest)
    ensures QuietRetry(FinishSystem(db, before, after, actor, c, noopResult))
  {
    CommitRetry(db, c, noopResult);
  }

  /** A round that asks for another has at most recorded the operation as pending. */
  lemma RetryChangesNothing(i: SystemInput, r: Round)
    ensures QuietRetry(AnswerOf(i, r))
  {
    var j := InputOf(i, r);
    if PrepareSystem(r.before, j).Ok? {
      var c := PrepareSystem(r.before, j).value;
      CommitRetry(r.db, c, j.noopResult);
      if PrepareFinish(r.room, r.before.id, j.execution.now).Ok? {
        FinishRetry(r.db, r.room, PrepareFinish(r.room, r.before.id, j.execution.now).value, j.source.requestedBy, c,
                    j.noopResult);
      }
    }
  }

  lemma CommitRetryHeld(db: Tables, c: SystemCommit, noopResult: Digest)
    ensures var a := CommitSystem(db, c, noopResult); a.Ok? && a.value.retry ==> c.before.id in db.sessions
  {
  }

  lemma FinishRetryHeld(db: Tables, before: Room, after: Room, actor: Id, c: SystemCommit, noopResult: Digest)
    ensures var a := FinishSystem(db, before, after, actor, c, noopResult);
      a.Ok? && a.value.retry ==> c.before.id in db.sessions
  {
    CommitRetryHeld(db, c, noopResult);
  }

  lemma RetryHeldRow(i: SystemInput, r: Round)
    requires AnswerOf(i, r).Ok? && AnswerOf(i, r).value.retry
    ensures r.before.id in r.db.sessions
  {
    var j := InputOf(i, r);
    var c := PrepareSystem(r.before, j).value;
    CommitRetryHeld(r.db, c, j.noopResult);
    if PrepareFinish(r.room, r.before.id, j.execution.now).Ok? {
      FinishRetryHeld(r.db, r.room, PrepareFinish(r.room, r.before.id, j.execution.now).value, j.source.requestedBy, c,
                      j.noopResult);
    }
  }

  /**
   * The round after a retry carries the epoch and the version of the row that the store held when it asked for it, and
   * is otherwise the command as it was given.
   */
  lemma RoundAdoptsLockedRow(rounds: nat -> Round, k: nat, i: SystemInput)
    requires 0 < k && RetriedAt(AnswerOf, rounds, k - 1, i)
    ensures var held := rounds(k - 1);
      && held.before.id in held.db.sessions
      && InputAt(rounds, k, i) == i.(epoch := held.db.sessions[held.before.id].epoch,
                                     expectedVersion := held.db.sessions[held.before.id].Version())
  {
    InputKeepsFact(rounds, k - 1, i);
    RetryHeldRow(InputAt(rounds, k - 1, i), rounds(k - 1));
  }

  /** A call changes game or room in its last round only, and never answers with a retry. */
  lemma OnlyLastRoundChanges(asked: Tables, looked: Tables, session: Id, rounds: nat -> Round, i: SystemInput,
                             r: Result<SystemAnswer>, taken: nat, k: nat)
    requires SystemHandled(asked, looked, session, AnswerOf, rounds, i, r, taken)
    ensures k + 1 < taken ==>
      AnswerAt(AnswerOf, rounds, k, i).Ok? && RecordsOnly(AnswerAt(AnswerOf, rounds, k, i).value.writes)
    ensures r.Ok? ==> !r.value.retry && (taken == 0 || r == AnswerAt(AnswerOf, rounds, taken - 1, i))
    ensures taken == 0 && r.Ok? ==> r.value.writes == NOTHING
  {
    if k + 1 < taken {
      assert RetriedAt(AnswerOf, rounds, k, i);
      RetryChangesNothing(InputAt(rounds, k, i), rounds(k));
    }
  }
}
