/**
 * Timers and pauses. A ledger read off the successive rows of one session records every pause and the timers as
 * their transition scheduled them; it is compared with the due times that the rows carry.
 */
module ActiveTime {
  import opened Base
  import opened GameSession
  import opened GameSdk
  import opened SessionSteps
  import opened Commits
  import opened PartyRoom
  import opened RuntimeStore
  import opened RuntimeWorld
  import opened RuntimeRuns
  import opened RuntimeTheorems
  import opened RuntimeExamples

  datatype Pause = Pause(from: Time, to: Time)

  /** `base` are the timers as scheduled at `scheduledAt`; the pauses from index `since` on came later. */
  datatype Ledger = Ledger(pauses: seq<Pause>, since: nat, base: seq<Timer>, scheduledAt: Time)

  /** One stored row and the next: unchanged, claimed, stepped, suspended, resumed or cancelled. */
  predicate Follows(s: Session, t: Session) {
    s == t || (Live(s) && (Claims(s, t) || Steps(s, t) || Governs(s, t)))
  }

  predicate FollowsAt(rows: seq<Session>, i: nat)
    requires i + 1 < |rows|
  {
    Follows(rows[i], rows[i + 1])
  }

  function Record(l: Ledger, s: Session, t: Session): Ledger {
    if t.Version() != s.Version() then Ledger(l.pauses, |l.pauses|, t.timers, t.updatedAt)
    else if s.status == Suspended && t.status == Active
    then l.(pauses := l.pauses + [Pause(s.suspendedAt, t.updatedAt)])
    else l
  }

  function LedgerOf(rows: seq<Session>): Ledger
    requires rows != []
  {
    if |rows| == 1 then Ledger([], 0, rows[0].timers, rows[0].updatedAt)
    else Record(LedgerOf(rows[..|rows| - 1]), rows[|rows| - 2], rows[|rows| - 1])
  }

  /** No row of a state version is dated before the transition that made the version. */
  predicate DatedAt(rows: seq<Session>, i: nat)
    requires i < |rows|
  {
    LedgerOf(rows[..i + 1]).scheduledAt <= rows[i].updatedAt
  }

  /** The successive rows of one session, from its start. */
  ghost predicate Rows(rows: seq<Session>) {
    && rows != [] && rows[0].status == Active
    && (forall i :: 0 <= i < |rows| - 1 ==> FollowsAt(rows, i))
    && (forall i :: 0 <= i < |rows| ==> DatedAt(rows, i))
  }

  function Total(ps: seq<Pause>): int {
    if ps == [] then 0 else Total(ps[..|ps| - 1]) + (ps[|ps| - 1].to - ps[|ps| - 1].from)
  }

  function Last(rows: seq<Session>): Session
    requires rows != []
  {
    rows[|rows| - 1]
  }

  lemma RowsPrefix(rows: seq<Session>)
    requires Rows(rows) && |rows| > 1
    ensures Rows(rows[..|rows| - 1]) && Follows(rows[|rows| - 2], rows[|rows| - 1])
    ensures LedgerOf(rows).scheduledAt <= Last(rows).updatedAt
  {
    var init := rows[..|rows| - 1];
    forall i | 0 <= i < |init| - 1 ensures FollowsAt(init, i) { assert FollowsAt(rows, i); }
    forall i | 0 <= i < |init| ensures DatedAt(init, i) {
      assert DatedAt(rows, i);
      assert init[..i + 1] == rows[..i + 1];
    }
    assert FollowsAt(rows, |rows| - 2) && DatedAt(rows, |rows| - 1);
    assert rows[..|rows|] == rows;
  }

  lemma LedgerExtends(rows: seq<Session>, t: Session)
    requires rows != []
    ensures LedgerOf(rows + [t]) == Record(LedgerOf(rows), Last(rows), t)
  {
    assert (rows + [t])[..|rows|] == rows;
  }

  lemma RowsExtend(rows: seq<Session>, t: Session)
    requires Rows(rows) && Follows(Last(rows), t) && Record(LedgerOf(rows), Last(rows), t).scheduledAt <= t.updatedAt
    ensures Rows(rows + [t])
  {
    var longer := rows + [t];
    forall i | 0 <= i < |longer| - 1 ensures FollowsAt(longer, i) {
      if i + 1 < |rows| { assert FollowsAt(rows, i); }
    }
    forall i | 0 <= i < |longer| ensures DatedAt(longer, i) {
      if i < |rows| {
        assert DatedAt(rows, i);
        assert longer[..i + 1] == rows[..i + 1];
      } else {
        assert longer[..i + 1] == longer;
        LedgerExtends(rows, t);
      }
    }
  }

  // ----- due times -----

  /** Pauses have a length, and those since the timers were scheduled came later. */
  predicate PausesOk(l: Ledger, s: Session) {
    && l.since <= |l.pauses|
    && (forall i :: 0 <= i < |l.pauses| ==> l.pauses[i].from < l.pauses[i].to)
    && (forall i :: l.since <= i < |l.pauses| ==> l.scheduledAt <= l.pauses[i].from)
    && (s.status == Suspended ==> l.scheduledAt <= s.suspendedAt)
  }

  /** Each due time of a live row is its original due time plus the pauses since it was scheduled. */
  predicate Accounted(l: Ledger, s: Session) {
    PausesOk(l, s) && (Live(s) ==> ShiftedBy(l.base, s.timers, Total(l.pauses[l.since..])))
  }

  lemma TotalExtends(ps: seq<Pause>, p: Pause)
    ensures Total(ps + [p]) == Total(ps) + (p.to - p.from)
  {
    assert (ps + [p])[..|ps|] == ps;
  }

  lemma RecordKeepsPauses(l: Ledger, s: Session, t: Session)
    requires PausesOk(l, s) && Follows(s, t) && l.scheduledAt <= s.updatedAt
    requires Record(l, s, t).scheduledAt <= t.updatedAt
    ensures PausesOk(Record(l, s, t), t)
  {
  }

  lemma ShiftedFurther(a: seq<Timer>, b: seq<Timer>, c: seq<Timer>, x: int, y: int)
    requires ShiftedBy(a, b, x) && ShiftedBy(b, c, y)
    ensures ShiftedBy(a, c, x + y)
  {
  }

  lemma TotalSince(ps: seq<Pause>, since: nat, p: Pause)
    requires since <= |ps|
    ensures Total((ps + [p])[since..]) == Total(ps[since..]) + (p.to - p.from)
  {
    assert (ps + [p])[since..] == ps[since..] + [p];
    TotalExtends(ps[since..], p);
  }

  lemma ResumeShifts(l: Ledger, s: Session, t: Session)
    requires l.since <= |l.pauses| && Resumes(s, t) && ShiftedBy(l.base, s.timers, Total(l.pauses[l.since..]))
    ensures ShiftedBy(l.base, t.timers, Total((l.pauses + [Pause(s.suspendedAt, t.updatedAt)])[l.since..]))
  {
    TotalSince(l.pauses, l.since, Pause(s.suspendedAt, t.updatedAt));
    ShiftedFurther(l.base, s.timers, t.timers, Total(l.pauses[l.since..]), t.updatedAt - s.suspendedAt);
  }

  lemma StepShiftsNothing(ps: seq<Pause>, timers: seq<Timer>)
    ensures ShiftedBy(timers, timers, Total(ps[|ps|..]))
  {
    assert ps[|ps|..] == [];
  }

  lemma RecordShifts(l: Ledger, s: Session, t: Session)
    requires l.since <= |l.pauses| && Follows(s, t) && Live(s) && Live(t)
    requires ShiftedBy(l.base, s.timers, Total(l.pauses[l.since..]))
    ensures var r := Record(l, s, t); r.since <= |r.pauses| && ShiftedBy(r.base, t.timers, Total(r.pauses[r.since..]))
  {
    if t.Version() != s.Version() {
      StepShiftsNothing(l.pauses, t.timers);
    } else if s.status == Suspended && t.status == Active {
      ResumeShifts(l, s, t);
    } else {
      assert t.timers == s.timers;
    }
  }

  lemma RecordAccounts(l: Ledger, s: Session, t: Session)
    requires Accounted(l, s) && Follows(s, t) && l.scheduledAt <= s.updatedAt
    requires Record(l, s, t).scheduledAt <= t.updatedAt
    ensures Accounted(Record(l, s, t), t)
  {
    RecordKeepsPauses(l, s, t);
    if Live(t) { RecordShifts(l, s, t); }
  }

  /** Over any sequence of suspensions, claims and resumes every due time moves by exactly the total paused time. */
  lemma {:induction false} DueMovesWithPauses(rows: seq<Session>)
    requires Rows(rows)
    ensures Accounted(LedgerOf(rows), Last(rows))
  {
    if |rows| == 1 {
    } else {
      var init := rows[..|rows| - 1];
      RowsPrefix(rows);
      DueMovesWithPauses(init);
      assert DatedAt(init, |init| - 1) && init[..|init|] == init;
      RecordAccounts(LedgerOf(init), rows[|rows| - 2], rows[|rows| - 1]);
    }
  }

  /** And so does the next deadline. */
  lemma DeadlineMovesWithPauses(rows: seq<Session>)
    requires Rows(rows) && Last(rows).Valid() && Live(Last(rows)) && Last(rows).timers != []
    ensures var l := LedgerOf(rows);
      l.since <= |l.pauses| && Last(rows).deadline == EarliestDue(l.base) + Total(l.pauses[l.since..])
  {
    DueMovesWithPauses(rows);
    var l := LedgerOf(rows);
    EarliestDueShifts(l.base, Last(rows).timers, Total(l.pauses[l.since..]));
  }

  // ----- active time -----

  function Overlap(p: Pause, from: Time, to: Time): nat {
    Max(0, Min(p.to, to) - Max(p.from, from))
  }

  function PausedWithin(ps: seq<Pause>, from: Time, to: Time): nat {
    if ps == [] then 0 else PausedWithin(ps[..|ps| - 1], from, to) + Overlap(ps[|ps| - 1], from, to)
  }

  /** Time since the timers were scheduled, less every pause of the session in that stretch. */
  function ActiveSince(l: Ledger, now: Time): int {
    now - l.scheduledAt - PausedWithin(l.pauses, l.scheduledAt, now)
  }

  /** Every pause recorded before the timers were scheduled had ended by then. */
  predicate Settled(l: Ledger) {
    l.since <= |l.pauses| && forall i :: 0 <= i < l.since ==> l.pauses[i].to <= l.scheduledAt
  }

  lemma {:induction false} PausedWithinAtMost(ps: seq<Pause>, from: Time, to: Time)
    requires forall i :: 0 <= i < |ps| ==> ps[i].from < ps[i].to
    ensures PausedWithin(ps, from, to) <= Total(ps)
  {
    if ps == [] {
    } else {
      PausedWithinAtMost(ps[..|ps| - 1], from, to);
    }
  }

  lemma {:induction false} EndedPausesAreOutside(ps: seq<Pause>, from: Time, to: Time)
    requires forall i :: 0 <= i < |ps| ==> ps[i].to <= from
    ensures PausedWithin(ps, from, to) == 0
  {
    if ps == [] {
    } else {
      EndedPausesAreOutside(ps[..|ps| - 1], from, to);
    }
  }

  lemma {:induction false} PausedWithinSplits(ps: seq<Pause>, qs: seq<Pause>, from: Time, to: Time)
    ensures PausedWithin(ps + qs, from, to) == PausedWithin(ps, from, to) + PausedWithin(qs, from, to)
  {
    if qs == [] {
      assert ps + qs == ps;
    } else {
      assert (ps + qs)[..|ps + qs| - 1] == ps + qs[..|qs| - 1];
      PausedWithinSplits(ps, qs[..|qs| - 1], from, to);
    }
  }

  lemma {:induction false} PausesInside(ps: seq<Pause>, from: Time, to: Time)
    requires forall i :: 0 <= i < |ps| ==> from <= ps[i].from < ps[i].to <= to
    ensures PausedWithin(ps, from, to) == Total(ps)
  {
    if ps == [] {
    } else {
      PausesInside(ps[..|ps| - 1], from, to);
    }
  }

  lemma {:induction false} NoOverlapIff(ps: seq<Pause>, from: Time, to: Time)
    ensures PausedWithin(ps, from, to) == 0 <==> forall k :: 0 <= k < |ps| ==> Overlap(ps[k], from, to) == 0
  {
    if ps == [] {
    } else {
      NoOverlapIff(ps[..|ps| - 1], from, to);
      assert forall k :: 0 <= k < |ps| - 1 ==> ps[..|ps| - 1][k] == ps[k];
    }
  }

  /** The timer has been unpaused for as long as it was scheduled. */
  predicate FullTime(l: Ledger, i: nat, now: Time)
    requires i < |l.base|
  {
    ActiveSince(l, now) >= l.base[i].due - l.scheduledAt
  }

  /** Every pause since the timers were scheduled is over. */
  predicate LaterOver(l: Ledger, now: Time) {
    forall k :: l.since <= k < |l.pauses| ==> l.pauses[k].to <= now
  }

  /** How much of the pauses since the timers were scheduled lies after an instant. */
  function StillAhead(l: Ledger, now: Time): int
    requires l.since <= |l.pauses|
  {
    Total(l.pauses[l.since..]) - PausedWithin(l.pauses[l.since..], l.scheduledAt, now)
  }

  /** How much of the stretch since the timers were scheduled the earlier pauses take. */
  function TakenByEarlier(l: Ledger, now: Time): nat
    requires l.since <= |l.pauses|
  {
    PausedWithin(l.pauses[..l.since], l.scheduledAt, now)
  }

  /**
   * A timer has had its full time at an instant exactly when the pauses recorded before it was scheduled take no more
   * of the stretch since then than it is overdue, counting what later pauses have ahead of that instant.
   */
  lemma FullTimeIff(rows: seq<Session>, i: nat, now: Time)
    requires Rows(rows) && Live(Last(rows)) && i < |Last(rows).timers|
    ensures var l := LedgerOf(rows);
      && i < |l.base| && l.base[i].id == Last(rows).timers[i].id && l.since <= |l.pauses|
      && (FullTime(l, i, now) <==> TakenByEarlier(l, now) <= now - Last(rows).timers[i].due + StillAhead(l, now))
  {
    var l := LedgerOf(rows);
    DueMovesWithPauses(rows);
    assert l.pauses == l.pauses[..l.since] + l.pauses[l.since..];
    PausedWithinSplits(l.pauses[..l.since], l.pauses[l.since..], l.scheduledAt, now);
  }

  lemma NothingAhead(rows: seq<Session>, now: Time)
    requires Rows(rows) && LaterOver(LedgerOf(rows), now)
    ensures LedgerOf(rows).since <= |LedgerOf(rows).pauses| && StillAhead(LedgerOf(rows), now) == 0
  {
    var l := LedgerOf(rows);
    DueMovesWithPauses(rows);
    PausesInside(l.pauses[l.since..], l.scheduledAt, now);
  }

  /** So at the moment it is due it has its full time exactly when no earlier pause reaches into the stretch. */
  lemma FullTimeAtDueIff(rows: seq<Session>, i: nat)
    requires Rows(rows) && Live(Last(rows)) && i < |Last(rows).timers|
    requires LaterOver(LedgerOf(rows), Last(rows).timers[i].due)
    ensures var l := LedgerOf(rows); var due := Last(rows).timers[i].due;
      && i < |l.base| && l.since <= |l.pauses|
      && (FullTime(l, i, due) <==> forall k :: 0 <= k < l.since ==> Overlap(l.pauses[k], l.scheduledAt, due) == 0)
  {
    var l := LedgerOf(rows);
    var due := Last(rows).timers[i].due;
    FullTimeIff(rows, i, due);
    NothingAhead(rows, due);
    NoOverlapIff(l.pauses[..l.since], l.scheduledAt, due);
    assert forall k :: 0 <= k < l.since ==> l.pauses[..l.since][k] == l.pauses[k];
  }

  lemma NothingTaken(l: Ledger, now: Time)
    requires Settled(l)
    ensures TakenByEarlier(l, now) == 0
  {
    EndedPausesAreOutside(l.pauses[..l.since], l.scheduledAt, now);
  }

  lemma AheadIsNoLoss(rows: seq<Session>, now: Time)
    requires Rows(rows)
    ensures LedgerOf(rows).since <= |LedgerOf(rows).pauses| && StillAhead(LedgerOf(rows), now) >= 0
  {
    var l := LedgerOf(rows);
    DueMovesWithPauses(rows);
    PausedWithinAtMost(l.pauses[l.since..], l.scheduledAt, now);
  }

  /** With settled books a timer that is due has had its full time, at any instant from then on. */
  lemma FiringHadItsActiveTime(rows: seq<Session>, i: nat, now: Time)
    requires Rows(rows) && Live(Last(rows)) && Settled(LedgerOf(rows))
    requires i < |Last(rows).timers| && Last(rows).timers[i].due <= now
    ensures i < |LedgerOf(rows).base| && LedgerOf(rows).base[i].id == Last(rows).timers[i].id
    ensures FullTime(LedgerOf(rows), i, now)
  {
    FullTimeIff(rows, i, now);
    NothingTaken(LedgerOf(rows), now);
    AheadIsNoLoss(rows, now);
  }

  // ----- what the commit of a step decides -----

  /** A pause that was over when a step ran, or begins only when the timer is due. */
  predicate Harmless(p: Pause, ranAt: Time, due: Time) { p.to <= ranAt || due <= Max(p.from, ranAt) }

  /**
   * A step stored as row t gives a timer its full time exactly when each pause on record was over when the step ran, or
   * the timer is due before that pause began.
   */
  lemma StepGivesFullTimeIff(rows: seq<Session>, t: Session, i: nat)
    requires Rows(rows + [t]) && rows != [] && Steps(Last(rows), t) && Live(t) && i < |t.timers|
    ensures var l := LedgerOf(rows + [t]); var due := t.timers[i].due;
      && l.base == t.timers && l.scheduledAt == t.updatedAt && l.pauses == LedgerOf(rows).pauses
      && (t.updatedAt <= due ==>
           (FullTime(l, i, due) <==> forall k :: 0 <= k < |l.pauses| ==> Harmless(l.pauses[k], t.updatedAt, due)))
  {
    LedgerExtends(rows, t);
    var l := LedgerOf(rows + [t]);
    FullTimeAtDueIff(rows + [t], i);
    DueMovesWithPauses(rows + [t]);
    if t.updatedAt <= t.timers[i].due {
      forall k | 0 <= k < |l.pauses|
        ensures Overlap(l.pauses[k], t.updatedAt, t.timers[i].due) == 0 <==>
                Harmless(l.pauses[k], t.updatedAt, t.timers[i].due)
      {
      }
    }
  }

  /** The row before the last was suspended and the last one runs again. */
  predicate JustResumed(rows: seq<Session>) {
    |rows| > 1 && rows[|rows| - 2].status == Suspended && Last(rows).status == Active
      && rows[|rows| - 2].Version() == Last(rows).Version()
  }

  /**
   * The comparison that the store does not make decides it. Over a row just resumed, whose clocks went forward so far,
   * a step gives a timer that is due after the pause began its full time exactly when it is dated no earlier than the
   * resumed row.
   */
  lemma MissingComparisonDecides(rows: seq<Session>, t: Session, i: nat)
    requires Rows(rows + [t]) && Rows(rows) && Forward(rows) && JustResumed(rows) && Steps(Last(rows), t) && Live(t)
    requires i < |t.timers| && t.updatedAt < t.timers[i].due && rows[|rows| - 2].suspendedAt < t.timers[i].due
    ensures i < |LedgerOf(rows + [t]).base|
    ensures FullTime(LedgerOf(rows + [t]), i, t.timers[i].due) <==> Last(rows).updatedAt <= t.updatedAt
  {
    StepGivesFullTimeIff(rows, t, i);
    ForwardClocksSettle(rows);
    var ps := LedgerOf(rows).pauses;
    var last := Pause(rows[|rows| - 2].suspendedAt, Last(rows).updatedAt);
    RowsPrefix(rows);
    assert ps[|ps| - 1] == last;
  }

  predicate ForwardAt(rows: seq<Session>, i: nat)
    requires i + 1 < |rows|
  {
    rows[i].updatedAt <= rows[i + 1].updatedAt
  }

  /** No row is stored with an earlier clock than the row it replaces. */
  ghost predicate Forward(rows: seq<Session>) {
    forall i :: 0 <= i < |rows| - 1 ==> ForwardAt(rows, i)
  }

  lemma ForwardPrefix(rows: seq<Session>)
    requires Forward(rows) && |rows| > 1
    ensures Forward(rows[..|rows| - 1]) && rows[|rows| - 2].updatedAt <= rows[|rows| - 1].updatedAt
  {
    var init := rows[..|rows| - 1];
    forall i | 0 <= i < |init| - 1 ensures ForwardAt(init, i) { assert ForwardAt(rows, i); }
    assert ForwardAt(rows, |rows| - 2);
  }

  /** With clocks that only go forward the books are always settled. */
  lemma {:induction false} ForwardClocksSettle(rows: seq<Session>)
    requires Rows(rows) && Forward(rows)
    ensures Settled(LedgerOf(rows))
    ensures forall i :: 0 <= i < |LedgerOf(rows).pauses| ==> LedgerOf(rows).pauses[i].to <= Last(rows).updatedAt
  {
    if |rows| == 1 {
    } else {
      RowsPrefix(rows);
      ForwardPrefix(rows);
      ForwardClocksSettle(rows[..|rows| - 1]);
    }
  }

  // ----- a step computed before a pause and stored after it -----

  lemma PausedThenStepped()
    ensures Rows([READ, PAUSED, RESUMED, STEPPED])
    ensures LedgerOf([READ, PAUSED, RESUMED, STEPPED]) == Ledger([Pause(20, 30)], 1, STEPPED.timers, 12)
  {
    var one, two, three := [READ], [READ, PAUSED], [READ, PAUSED, RESUMED];
    assert two == one + [PAUSED] && three == two + [RESUMED] && [READ, PAUSED, RESUMED, STEPPED] == three + [STEPPED];
    SingleRow(READ);
    LedgerExtends(one, PAUSED);
    RowsExtend(one, PAUSED);
    LedgerExtends(two, RESUMED);
    RowsExtend(two, RESUMED);
    LedgerExtends(three, STEPPED);
    RowsExtend(three, STEPPED);
  }

  lemma OnePause(p: Pause, from: Time, to: Time)
    ensures PausedWithin([p], from, to) == Overlap(p, from, to)
  {
    assert [p][..0] == [];
    assert PausedWithin([], from, to) == 0;
  }

  /**
   * The store commits a step that ran at 12 over the row resumed at 30, and the step's timer is due after 18 units of
   * play instead of 28.
   */
  lemma StaleStepLosesActiveTime()
    ensures Perform(AFTER_RESUME, Acting(READ, ROOM, STALE_ACTION)).Ok?
    ensures Perform(AFTER_RESUME, Acting(READ, ROOM, STALE_ACTION)).value.sessions == map[1 := STEPPED]
    ensures AFTER_RESUME.sessions == map[1 := RESUMED] && Rows([READ, PAUSED, RESUMED, STEPPED])
    ensures var l := LedgerOf([READ, PAUSED, RESUMED, STEPPED]);
      && |l.base| == 1 && l.base[0].due == 40 && l.scheduledAt == 12 && ActiveSince(l, 40) == 18 && !FullTime(l, 0, 40)
  {
    StaleStepCommits();
    PausedThenStepped();
    OnePause(Pause(20, 30), 12, 40);
  }

  // ----- runs -----

  lemma MoveFollows(w: World, next: World, id: Id)
    requires Moves(w, next, false) && id in w.db.sessions
    ensures id in next.db.sessions && Follows(w.db.sessions[id], next.db.sessions[id])
  {
    if next != w {
      var writes :| GoodWrites(w.db, writes, false) && next == After(w, writes);
      WriteFollows(w.db, writes, id);
    }
  }

  lemma WriteFollows(db: Tables, writes: Tables, id: Id)
    requires LegalSessions(db, writes) && id in db.sessions
    ensures Follows(db.sessions[id], db.Write(writes).sessions[id])
  {
    if id in writes.sessions { assert LegalSession(db, id, writes.sessions[id]); }
  }

  ghost predicate Present(worlds: seq<World>, lo: nat, id: Id) {
    forall i :: lo <= i < |worlds| ==> id in worlds[i].db.sessions
  }

  /** The rows of a session from state lo to state hi. */
  ghost function SessionRows(worlds: seq<World>, lo: nat, hi: nat, id: Id): seq<Session>
    requires lo <= hi < |worlds| && Present(worlds, lo, id)
  {
    if hi == lo
    then [worlds[lo].db.sessions[id]] else SessionRows(worlds, lo, hi - 1, id) + [worlds[hi].db.sessions[id]]
  }

  lemma {:induction false} StaysPresent(worlds: seq<World>, lo: nat, hi: nat, id: Id)
    requires Chain(worlds) && lo <= hi < |worlds| && id in worlds[lo].db.sessions
    ensures id in worlds[hi].db.sessions
  {
    if hi == lo {
    } else {
      StaysPresent(worlds, lo, hi - 1, id);
      LinkFollows(worlds, hi - 1, id);
    }
  }

  lemma LinkFollows(worlds: seq<World>, i: nat, id: Id)
    requires Chain(worlds) && i + 1 < |worlds| && id in worlds[i].db.sessions
    ensures id in worlds[i + 1].db.sessions && Follows(worlds[i].db.sessions[id], worlds[i + 1].db.sessions[id])
  {
    ChainMoves(worlds, i);
    MoveFollows(worlds[i], worlds[i + 1], id);
  }

  lemma RunPresent(steps: seq<Step>, worlds: seq<World>, lo: nat, id: Id)
    requires Run(steps, worlds) && lo < |worlds| && id in worlds[lo].db.sessions
    ensures Present(worlds, lo, id) && Chain(worlds)
  {
    RunIsChain(steps, worlds);
    forall i | lo <= i < |worlds| ensures id in worlds[i].db.sessions { StaysPresent(worlds, lo, i, id); }
  }

  /** State lo is the one in which the session first appears. */
  ghost predicate Born(worlds: seq<World>, lo: nat, id: Id) {
    0 < lo < |worlds| && id in worlds[lo].db.sessions && id !in worlds[lo - 1].db.sessions
  }

  /** The batch of the row's version is stored, and dated like the ledger. */
  predicate BookedAs(db: Tables, id: Id, at: Time) {
    && id in db.sessions && BatchKey(id, db.sessions[id].Version()) in db.batches
    && db.batches[BatchKey(id, db.sessions[id].Version())].committedAt == at && at <= db.sessions[id].updatedAt
  }

  lemma BirthBooked(w: World, next: World, id: Id)
    requires Moves(w, next, false) && id !in w.db.sessions && id in next.db.sessions && BatchesPrecede(next)
    requires SessionsOk(next)
    ensures next.db.sessions[id].status == Active && BookedAs(next.db, id, next.db.sessions[id].updatedAt)
  {
    var writes :| GoodWrites(w.db, writes, false) && next == After(w, writes);
    RowBooked(w.db, writes, id);
  }

  lemma RowBooked(db: Tables, writes: Tables, id: Id)
    requires LegalSessions(db, writes) && LegalBatches(db, writes) && id in writes.sessions
    requires id in db.sessions ==> db.sessions[id].Version() != writes.sessions[id].Version()
    ensures BookedAs(db.Write(writes), id, writes.sessions[id].updatedAt)
    ensures id !in db.sessions ==> writes.sessions[id].status == Active
  {
    assert LegalSession(db, id, writes.sessions[id]);
  }

  lemma MoveBooks(w: World, next: World, id: Id, at: Time)
    requires Moves(w, next, false) && BookedAs(w.db, id, at) && BatchesPrecede(next) && SessionsOk(next)
    requires id in next.db.sessions
    ensures var s, t := w.db.sessions[id], next.db.sessions[id];
      BookedAs(next.db, id, if t.Version() == s.Version() then at else t.updatedAt)
  {
    assert next.db.sessions[id] in next.sessions;
    if next != w {
      var writes :| GoodWrites(w.db, writes, false) && next == After(w, writes);
      if next.db.sessions[id].Version() == w.db.sessions[id].Version() {
        assert BatchKey(id, w.db.sessions[id].Version()) !in writes.batches;
      } else {
        RowBooked(w.db, writes, id);
      }
    }
  }

  ghost predicate DatesKept(worlds: seq<World>) {
    forall i :: 0 <= i < |worlds| ==> DatesKeptAt(worlds, i)
  }

  ghost predicate DatesKeptAt(worlds: seq<World>, i: nat)
    requires i < |worlds|
  {
    BatchesPrecede(worlds[i]) && SessionsOk(worlds[i])
  }

  lemma DatesInRun(steps: seq<Step>, worlds: seq<World>)
    requires Run(steps, worlds)
    ensures DatesKept(worlds)
  {
    forall i | 0 <= i < |worlds| ensures DatesKeptAt(worlds, i) { RunKeepsInv(steps, worlds, i); }
  }

  lemma BornBooked(worlds: seq<World>, i: nat, id: Id)
    requires DatesKept(worlds) && Chain(worlds) && i + 1 < |worlds| && id !in worlds[i].db.sessions
    requires id in worlds[i + 1].db.sessions
    ensures worlds[i + 1].db.sessions[id].status == Active
    ensures BookedAs(worlds[i + 1].db, id, worlds[i + 1].db.sessions[id].updatedAt)
  {
    ChainMoves(worlds, i);
    assert DatesKeptAt(worlds, i + 1);
    BirthBooked(worlds[i], worlds[i + 1], id);
  }

  lemma SingleRow(s: Session)
    requires s.status == Active
    ensures Rows([s]) && LedgerOf([s]).scheduledAt == s.updatedAt && Last([s]) == s
  {
    assert [s][..1] == [s];
    assert DatedAt([s], 0);
  }

  /** The rows of a session from its start to state hi are such a history, dated by the stored batches. */
  ghost predicate RowsTo(worlds: seq<World>, lo: nat, hi: nat, id: Id)
    requires lo <= hi < |worlds| && Present(worlds, lo, id)
  {
    var rows := SessionRows(worlds, lo, hi, id);
    && Rows(rows) && Last(rows) == worlds[hi].db.sessions[id] && BookedAs(worlds[hi].db, id, LedgerOf(rows).scheduledAt)
  }

  lemma FirstRow(worlds: seq<World>, lo: nat, id: Id)
    requires lo < |worlds| && Present(worlds, lo, id) && worlds[lo].db.sessions[id].status == Active
    requires BookedAs(worlds[lo].db, id, worlds[lo].db.sessions[id].updatedAt)
    ensures RowsTo(worlds, lo, lo, id)
  {
    SingleRow(worlds[lo].db.sessions[id]);
  }

  lemma BornRow(worlds: seq<World>, lo: nat, id: Id)
    requires DatesKept(worlds) && Born(worlds, lo, id) && Present(worlds, lo, id) && Chain(worlds)
    ensures RowsTo(worlds, lo, lo, id)
  {
    BornBooked(worlds, lo - 1, id);
    FirstRow(worlds, lo, id);
  }

  lemma {:induction false} RunRows(worlds: seq<World>, lo: nat, hi: nat, id: Id)
    requires DatesKept(worlds) && Born(worlds, lo, id) && Present(worlds, lo, id) && Chain(worlds)
    requires lo <= hi < |worlds|
    ensures RowsTo(worlds, lo, hi, id)
  {
    if hi == lo {
      BornRow(worlds, lo, id);
    } else {
      RunRows(worlds, lo, hi - 1, id);
      NextRow(worlds, lo, hi - 1, id);
    }
  }

  lemma LinkBooks(worlds: seq<World>, hi: nat, id: Id, at: Time)
    requires DatesKept(worlds) && Chain(worlds) && hi + 1 < |worlds| && BookedAs(worlds[hi].db, id, at)
    ensures id in worlds[hi + 1].db.sessions && Follows(worlds[hi].db.sessions[id], worlds[hi + 1].db.sessions[id])
    ensures var s, t := worlds[hi].db.sessions[id], worlds[hi + 1].db.sessions[id];
      BookedAs(worlds[hi + 1].db, id, if t.Version() == s.Version() then at else t.updatedAt)
  {
    LinkFollows(worlds, hi, id);
    ChainMoves(worlds, hi);
    assert DatesKeptAt(worlds, hi + 1);
    MoveBooks(worlds[hi], worlds[hi + 1], id, at);
  }

  lemma AppendRow(rows: seq<Session>, t: Session, db: Tables, id: Id)
    requires Rows(rows) && Follows(Last(rows), t) && id in db.sessions && db.sessions[id] == t
    requires BookedAs(db, id, if t.Version() == Last(rows).Version() then LedgerOf(rows).scheduledAt else t.updatedAt)
    ensures Rows(rows + [t]) && BookedAs(db, id, LedgerOf(rows + [t]).scheduledAt)
  {
    LedgerExtends(rows, t);
    RowsExtend(rows, t);
  }

  lemma NextRow(worlds: seq<World>, lo: nat, hi: nat, id: Id)
    requires DatesKept(worlds) && Present(worlds, lo, id) && Chain(worlds) && lo <= hi && hi + 1 < |worlds|
    requires RowsTo(worlds, lo, hi, id)
    ensures RowsTo(worlds, lo, hi + 1, id)
  {
    var rows := SessionRows(worlds, lo, hi, id);
    LinkBooks(worlds, hi, id, LedgerOf(rows).scheduledAt);
    AppendRow(rows, worlds[hi + 1].db.sessions[id], worlds[hi + 1].db, id);
  }

  /** A firing that commits names a timer of the stored row that is due, whatever row it was computed from. */
  lemma CommittedFiringWasDue(db: Tables, c: TimerCommit) returns (k: nat)
    requires CommitTimer(db, c).Ok? && !CommitTimer(db, c).value.replayed
    ensures c.before.id in db.sessions && Live(db.sessions[c.before.id])
    ensures k < |db.sessions[c.before.id].timers| && db.sessions[c.before.id].timers[k].id == c.receipt.key.timerId
    ensures db.sessions[c.before.id].timers[k].due <= c.batch.committedAt
  {
    var timers := db.sessions[c.before.id].timers;
    var armed := FindTimer(timers, c.receipt.key.timerId).value;
    k :| 0 <= k < |timers| && timers[k] == armed;
  }

  /**
   * A firing that commits, in any run, with every pause of the session counted from its start. The timer has had its
   * full scheduled time unpaused exactly if the pauses before its scheduling take no more than it is overdue, counting
   * what later pauses have ahead; so it has if no row was ever stored over a later one.
   */
  lemma TimersGetTheirActiveTime(steps: seq<Step>, worlds: seq<World>, lo: nat, n: nat, c: TimerCommit) returns (k: nat)
    requires Run(steps, worlds) && Born(worlds, lo, c.before.id) && lo <= n < |worlds|
    requires CommitTimer(worlds[n].db, c).Ok? && !CommitTimer(worlds[n].db, c).value.replayed
    ensures Present(worlds, lo, c.before.id) && k < |worlds[n].db.sessions[c.before.id].timers|
    ensures var rows := SessionRows(worlds, lo, n, c.before.id); var l := LedgerOf(rows);
      var now := c.batch.committedAt;
      var due := worlds[n].db.sessions[c.before.id].timers[k].due;
      && k < |l.base| && l.base[k].id == c.receipt.key.timerId && l.since <= |l.pauses| && due <= now
      && (Settled(l) || Forward(rows) ==> FullTime(l, k, now))
      && (FullTime(l, k, now) <==> TakenByEarlier(l, now) <= now - due + StillAhead(l, now))
  {
    RunPresent(steps, worlds, lo, c.before.id);
    DatesInRun(steps, worlds);
    RunRows(worlds, lo, n, c.before.id);
    k := CommittedFiringWasDue(worlds[n].db, c);
    FiringTimes(SessionRows(worlds, lo, n, c.before.id), k, c.batch.committedAt);
  }

  lemma FiringTimes(rows: seq<Session>, k: nat, now: Time)
    requires Rows(rows) && Live(Last(rows)) && k < |Last(rows).timers| && Last(rows).timers[k].due <= now
    ensures var l := LedgerOf(rows);
      && k < |l.base| && l.base[k].id == Last(rows).timers[k].id && l.since <= |l.pauses|
      && (Settled(l) || Forward(rows) ==> FullTime(l, k, now))
      && (FullTime(l, k, now) <==> TakenByEarlier(l, now) <= now - Last(rows).timers[k].due + StillAhead(l, now))
  {
    DueMovesWithPauses(rows);
    if Forward(rows) { ForwardClocksSettle(rows); }
    if Settled(LedgerOf(rows)) { FiringHadItsActiveTime(rows, k, now); }
    FullTimeIff(rows, k, now);
  }
}
