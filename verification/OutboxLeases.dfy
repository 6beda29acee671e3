/**
 * One outbox consumer: an offset, a lease and a retry state, changed only by compare-and-swap on the whole row.
 * Workers act on the row they read; a swap succeeds only if the row is still that one, so a run is a sequence of
 * transitions, each from the row then stored. `History` keeps who held the consumer when.
 */
module OutboxLeases {
  import opened Base

  const SECOND: nat := 1_000_000
  const MAX_LEASE: nat := 300 * SECOND
  const INITIAL_BACKOFF: nat := SECOND
  const MAX_BACKOFF: nat := 300 * SECOND
  const MAX_RETRIES: nat := 16

  datatype LeaseError = InvalidInput | BackoffActive | LeaseUnavailable | LeaseNotOwned | LeaseExpired
    | ConcurrentTransition
                      | InvalidAcknowledgement | RetryExhausted

  datatype Outcome<+T> = Done(value: T) | Refused(error: LeaseError)

  /** Owner 0, error code 0 and instant 0 mean none. */
  datatype Consumer = Consumer(acked: nat, owner: Id, until: Time, retries: nat, nextAttempt: Time, errorCode: Id,
                               createdAt: Time, updatedAt: Time) {
    predicate Valid() {
      && createdAt != 0 && createdAt <= updatedAt && retries <= MAX_RETRIES
      && (owner == NIL <==> until == 0)
      && (if retries == 0 then nextAttempt == 0 && errorCode == NIL else nextAttempt != 0 && errorCode != NIL)
    }

  }

  function Restore(c: Consumer): Outcome<Consumer> {
    if c.Valid() then Done(c) else Refused(InvalidInput)
  }

  predicate ValidWindow(start: Time, end: Time) { start != 0 && start < end && end - start <= MAX_LEASE }

  predicate ValidTime(c: Consumer, at: Time) { at != 0 && c.updatedAt <= at }

  function RequireLease(c: Consumer, owner: Id, at: Time): Option<LeaseError> {
    if c.owner == NIL || c.owner != owner then Some(LeaseNotOwned)
    else if c.until <= at then Some(LeaseExpired)
    else None
  }

  function AcquireLease(c: Consumer, owner: Id, at: Time, until: Time): Outcome<Consumer> {
    if owner == NIL || !ValidTime(c, at) || !ValidWindow(at, until) then Refused(InvalidInput)
    else if c.retries > 0 && at < c.nextAttempt then Refused(BackoffActive)
    else if c.owner != NIL && at < c.until then Refused(LeaseUnavailable)
    else Restore(c.(owner := owner, until := until, updatedAt := at))
  }

  function RenewLease(c: Consumer, owner: Id, at: Time, until: Time): Outcome<Consumer> {
    if owner == NIL || !ValidTime(c, at) || !ValidWindow(at, until) then Refused(InvalidInput)
    else match RequireLease(c, owner, at)
      case Some(e) => Refused(e)
      case None => if until <= c.until then Refused(InvalidInput) else Restore(c.(until := until, updatedAt := at))
  }

  function ReleaseLease(c: Consumer, owner: Id, at: Time): Outcome<Consumer> {
    if owner == NIL || !ValidTime(c, at) then Refused(InvalidInput)
    else match RequireLease(c, owner, at)
      case Some(e) => Refused(e)
      case None => Restore(c.(owner := NIL, until := 0, updatedAt := at))
  }

  function Acknowledge(c: Consumer, owner: Id, expected: nat, acked: nat, at: Time): Outcome<Consumer> {
    if owner == NIL || !ValidTime(c, at) then Refused(InvalidInput)
    else match RequireLease(c, owner, at)
      case Some(e) => Refused(e)
      case None =>
        if expected != c.acked then Refused(ConcurrentTransition)
        else if acked <= expected then Refused(InvalidAcknowledgement)
        else Restore(c.(acked := acked, retries := 0, nextAttempt := 0, errorCode := NIL, updatedAt := at))
  }

  function RecordRetry(c: Consumer, owner: Id, code: Id, at: Time): Outcome<Consumer> {
    if owner == NIL || code == NIL || !ValidTime(c, at) then Refused(InvalidInput)
    else match RequireLease(c, owner, at)
      case Some(e) => Refused(e)
      case None =>
        if c.retries > 0 && at < c.nextAttempt then Refused(BackoffActive)
        else if c.retries >= MAX_RETRIES then Refused(RetryExhausted)
        else Restore(c.(retries := c.retries + 1, nextAttempt := at + Backoff(c.retries + 1), errorCode := code,
                        updatedAt := at))
  }

  // ----- backoff -----

  function Power2(n: nat): nat { if n == 0 then 1 else 2 * Power2(n - 1) }

  /** One second doubled with every failure, at most five minutes. */
  function Backoff(n: nat): nat
    requires n > 0
  {
    Min(1_000_000 * Power2(n - 1), 300_000_000)
  }

  lemma {:induction false} Power2Grows(m: nat, n: nat)
    requires m <= n
    ensures 0 < Power2(m) <= Power2(n)
  {
    if m == n {
      if m > 0 { Power2Grows(m - 1, m - 1); }
    } else {
      Power2Grows(m, n - 1);
    }
  }

  /** The source's loop: it stops doubling early and still returns the capped power. */
  method RetryBackoff(count: nat) returns (delay: nat)
    requires count > 0
    ensures delay == Backoff(count)
  {
    delay := INITIAL_BACKOFF;
    var attempt := 1;
    while attempt < count && delay < MAX_BACKOFF
      invariant 1 <= attempt <= count
      invariant delay == SECOND * Power2(attempt - 1)
    {
      if delay > MAX_BACKOFF / 2 {
        Power2Grows(attempt, count - 1);
        return MAX_BACKOFF;
      }
      delay := delay * 2;
      attempt := attempt + 1;
    }
    Power2Grows(attempt - 1, count - 1);
    if delay > MAX_BACKOFF { return MAX_BACKOFF; }
  }

  // ----- runs -----

  /** A stretch during which one worker held the consumer: from `start` to its release or to its last lease expiry. */
  datatype Holding = Holding(owner: Id, start: Time, end: Time, released: bool)

  /** An acknowledgement or a failure, with the index of the holding it happened in. */
  datatype Mark = Mark(owner: Id, at: Time, holding: nat)

  /** `failures` are the failure times since the last acknowledgement. */
  datatype History = History(row: Consumer, holdings: seq<Holding>, marks: seq<Mark>, offsets: seq<nat>,
                             failures: seq<Time>)

  datatype Action =
    | Acquire(owner: Id, at: Time, until: Time)
    | Renew(owner: Id, at: Time, until: Time)
    | Release(owner: Id, at: Time)
    | Ack(owner: Id, expected: nat, acked: nat, at: Time)
    | Fail(owner: Id, code: Id, at: Time)

  function Transition(c: Consumer, a: Action): Outcome<Consumer> {
    match a
    case Acquire(owner, at, until) => AcquireLease(c, owner, at, until)
    case Renew(owner, at, until) => RenewLease(c, owner, at, until)
    case Release(owner, at) => ReleaseLease(c, owner, at)
    case Ack(owner, expected, acked, at) => Acknowledge(c, owner, expected, acked, at)
    case Fail(owner, code, at) => RecordRetry(c, owner, code, at)
  }

  /** The swap: it takes effect only if the row is still the one the worker read. */
  function Swap(h: History, read: Consumer, a: Action): History {
    match Transition(read, a)
    case Refused(_) => h
    case Done(next) => if h.row != read then h else Remember(h, next, a)
  }

  function Remember(h: History, next: Consumer, a: Action): History {
    var last := |h.holdings| - 1;
    match a
    case Acquire(owner, at, until) => h.(row := next, holdings := h.holdings + [Holding(owner, at, until, false)])
    case Renew(_, _, until) =>
      if last < 0 then h else h.(row := next, holdings := h.holdings[last := h.holdings[last].(end := until)])
    case Release(_, at) =>
      if last < 0
      then h else h.(row := next, holdings := h.holdings[last := h.holdings[last].(end := at, released := true)])
    case Ack(owner, _, acked, at) =>
      if last < 0 then h else h.(row := next, marks := h.marks + [Mark(owner, at, last)],
                                 offsets := h.offsets + [acked], failures := [])
    case Fail(owner, _, at) =>
      if last < 0 then h else h.(row := next, marks := h.marks + [Mark(owner, at, last)], failures := h.failures + [at])
  }

  function NewConsumer(at: Time): History { History(Consumer(0, NIL, 0, 0, 0, NIL, at, at), [], [], [], []) }

  /** Holdings follow one another without overlap; the last one is the current lease if there is one. */
  predicate HoldingsOk(h: History) {
    && (forall i :: 0 <= i < |h.holdings| ==>
          h.holdings[i].start <= h.holdings[i].end && h.holdings[i].start <= h.row.updatedAt)
    && (forall i, j :: 0 <= i < j < |h.holdings| ==> h.holdings[i].end <= h.holdings[j].start)
    && (h.row.owner != NIL ==> h.holdings != [] && var last := h.holdings[|h.holdings| - 1];
          last.owner == h.row.owner && last.end == h.row.until && !last.released)
    && (h.row.owner == NIL ==> forall i :: 0 <= i < |h.holdings| ==> h.holdings[i].end <= h.row.updatedAt)
    && (h.row.owner == NIL ==> h.holdings == [] || h.holdings[|h.holdings| - 1].released)
  }

  /** Every mark was made by the holder, within the holding. */
  predicate MarksOk(h: History) {
    forall m :: 0 <= m < |h.marks| ==>
      var mark := h.marks[m];
      && mark.holding < |h.holdings| && h.holdings[mark.holding].owner == mark.owner && mark.at <= h.row.updatedAt
      && h.holdings[mark.holding].start <= mark.at <= h.holdings[mark.holding].end
      && (mark.at == h.holdings[mark.holding].end ==> h.holdings[mark.holding].released)
  }

  predicate OffsetsOk(h: History) {
    && (forall i, j :: 0 <= i < j < |h.offsets| ==> h.offsets[i] < h.offsets[j])
    && (forall i :: 0 <= i < |h.offsets| ==> h.offsets[i] <= h.row.acked)
    && h.row.acked == if h.offsets == [] then 0 else h.offsets[|h.offsets| - 1]
  }

  /** Failures since the last acknowledgement are counted, and each waited out the backoff of the one before. */
  predicate FailuresOk(h: History) {
    && |h.failures| == h.row.retries && h.row.retries <= MAX_RETRIES
    && (forall i :: 0 < i < |h.failures| ==> h.failures[i - 1] + Backoff(i) <= h.failures[i])
    && (h.failures != [] ==> h.row.nextAttempt == h.failures[|h.failures| - 1] + Backoff(|h.failures|))
  }

  ghost predicate Inv(h: History) {
    h.row.Valid() && HoldingsOk(h) && MarksOk(h) && OffsetsOk(h) && FailuresOk(h)
  }

  lemma AcquireKeepsHoldings(h: History, owner: Id, at: Time, until: Time)
    requires h.row.Valid() && HoldingsOk(h) && AcquireLease(h.row, owner, at, until).Done?
    ensures HoldingsOk(Remember(h, AcquireLease(h.row, owner, at, until).value, Acquire(owner, at, until)))
  {
  }

  /** Renewing and releasing only move the end of the last holding. */
  lemma MovedEndKeepsHoldings(h: History, next: Consumer, end: Time, released: bool)
    requires HoldingsOk(h) && h.holdings != [] && h.row.owner != NIL && h.row.updatedAt <= next.updatedAt
    requires next.updatedAt <= end
    requires if released then next.owner == NIL && end == next.updatedAt
             else next.owner == h.row.owner && next.until == end
    ensures HoldingsOk(h.(row := next,
                           holdings := h.holdings[|h.holdings| - 1 :=
                             h.holdings[|h.holdings| - 1].(end := end, released := released)]))
  {
  }

  lemma SwapKeepsHoldings(h: History, read: Consumer, a: Action)
    requires h.row.Valid() && HoldingsOk(h)
    ensures HoldingsOk(Swap(h, read, a)) && Swap(h, read, a).row.Valid()
  {
    if Transition(read, a).Done? && h.row == read {
      var next := Transition(read, a).value;
      match a
      case Acquire(owner, at, until) => AcquireKeepsHoldings(h, owner, at, until);
      case Renew(_, _, until) => MovedEndKeepsHoldings(h, next, until, false);
      case Release(_, at) => MovedEndKeepsHoldings(h, next, at, true);
      case _ =>
    }
  }

  lemma SwapKeepsMarks(h: History, read: Consumer, a: Action)
    requires Inv(h)
    ensures MarksOk(Swap(h, read, a))
  {
    var next := Swap(h, read, a);
    forall m | 0 <= m < |next.marks|
      ensures var mark := next.marks[m];
        && mark.holding < |next.holdings| && next.holdings[mark.holding].owner == mark.owner
        && mark.at <= next.row.updatedAt
        && next.holdings[mark.holding].start <= mark.at <= next.holdings[mark.holding].end
        && (mark.at == next.holdings[mark.holding].end ==> next.holdings[mark.holding].released)
    {
      if m < |h.marks| { assert next.marks[m] == h.marks[m]; }
    }
  }

  lemma SwapKeepsOffsets(h: History, read: Consumer, a: Action)
    requires Inv(h)
    ensures OffsetsOk(Swap(h, read, a))
  {
  }

  lemma SwapKeepsFailures(h: History, read: Consumer, a: Action)
    requires Inv(h)
    ensures FailuresOk(Swap(h, read, a))
  {
  }

  datatype Attempt = Attempt(read: Consumer, action: Action)

  function RunAll(h: History, attempts: seq<Attempt>): History {
    if attempts == [] then h else Swap(RunAll(h, attempts[..|attempts| - 1]), attempts[|attempts| - 1].read,
                                       attempts[|attempts| - 1].action)
  }

  /** Any attempts of any workers on any rows they once read, in any order. */
  lemma {:induction false} RunsKeepInv(at: Time, attempts: seq<Attempt>)
    requires at != 0
    ensures Inv(RunAll(NewConsumer(at), attempts))
  {
    if attempts == [] {
    } else {
      var n := |attempts| - 1;
      RunsKeepInv(at, attempts[..n]);
      var h := RunAll(NewConsumer(at), attempts[..n]);
      SwapKeepsHoldings(h, attempts[n].read, attempts[n].action);
      SwapKeepsMarks(h, attempts[n].read, attempts[n].action);
      SwapKeepsOffsets(h, attempts[n].read, attempts[n].action);
      SwapKeepsFailures(h, attempts[n].read, attempts[n].action);
    }
  }

  // ----- what that means -----

  /** Two holdings never share an instant of their half-open intervals. */
  lemma HoldingsDisjoint(at: Time, attempts: seq<Attempt>, i: nat, j: nat, t: Time)
    requires at != 0 && i != j
    ensures var h := RunAll(NewConsumer(at), attempts);
      i < |h.holdings| && j < |h.holdings| ==>
        !(h.holdings[i].start <= t < h.holdings[i].end && h.holdings[j].start <= t < h.holdings[j].end)
  {
    RunsKeepInv(at, attempts);
  }

  /**
   * Each acknowledgement and failure lies in its owner's half-open holding, unless the holding was released in the
   * same microsecond; acknowledged offsets strictly increase.
   */
  lemma MarksInsideOffsetsIncrease(at: Time, attempts: seq<Attempt>, m: nat, i: nat, j: nat)
    requires at != 0
    ensures var h := RunAll(NewConsumer(at), attempts);
      && (m < |h.marks| ==>
            h.marks[m].holding < |h.holdings| && h.holdings[h.marks[m].holding].owner == h.marks[m].owner
                            && h.holdings[h.marks[m].holding].start <= h.marks[m].at
                            && (h.marks[m].at < h.holdings[h.marks[m].holding].end
                                || (h.holdings[h.marks[m].holding].released
                                    && h.marks[m].at == h.holdings[h.marks[m].holding].end)))
      && (i < j < |h.offsets| ==> h.offsets[i] < h.offsets[j])
  {
    RunsKeepInv(at, attempts);
  }

  function TotalBackoff(n: nat): nat {
    if n == 0 then 0 else TotalBackoff(n - 1) + Backoff(n)
  }

  lemma {:induction false} FailuresSpread(failures: seq<Time>, k: nat)
    requires k < |failures| && forall i :: 0 < i < |failures| ==> failures[i - 1] + Backoff(i) <= failures[i]
    ensures failures[0] + TotalBackoff(k) <= failures[k]
  {
    if k == 0 {
    } else {
      FailuresSpread(failures, k - 1);
      assert failures[k - 1] + Backoff(k) <= failures[k];
    }
  }

  /** Failures with no acknowledgement between them are never more than 16 and span at least their summed backoffs. */
  lemma FailuresSpanBackoffs(at: Time, attempts: seq<Attempt>)
    requires at != 0
    ensures var h := RunAll(NewConsumer(at), attempts);
      && |h.failures| <= MAX_RETRIES
      && (h.failures != [] ==> h.failures[0] + TotalBackoff(|h.failures| - 1) <= h.failures[|h.failures| - 1])
  {
    RunsKeepInv(at, attempts);
    var h := RunAll(NewConsumer(at), attempts);
    if h.failures != [] { FailuresSpread(h.failures, |h.failures| - 1); }
  }

  // ----- exactly when an action is taken, read off the history -----

  /** A worker, an instant no earlier than the last change, and for a lease a window of at most five minutes. */
  predicate WellFormed(h: History, a: Action) {
    && a.owner != NIL && 0 < a.at && h.row.updatedAt <= a.at && (a.Fail? ==> a.code != NIL)
    && (a.Acquire? || a.Renew? ==> a.at < a.until <= a.at + 300_000_000)
  }

  /** The last holding is this worker's, was not released, and is not over. */
  predicate Holds(h: History, owner: Id, at: Time) {
    h.holdings != [] && var last := h.holdings[|h.holdings| - 1]; last.owner == owner && !last.released && at < last.end
  }

  /** The backoff of the last failure, if there was one since the last acknowledgement, has passed. */
  predicate Rested(h: History, at: Time) {
    h.failures == [] || h.failures[|h.failures| - 1] + Backoff(|h.failures|) <= at
  }

  predicate Offset(h: History, acked: nat) { acked == if h.offsets == [] then 0 else h.offsets[|h.offsets| - 1] }

  /** What the holdings, offsets and failures so far allow. */
  predicate Admits(h: History, a: Action) {
    match a
    case Acquire(_, at, _) => Rested(h, at) && (h.holdings == [] || h.holdings[|h.holdings| - 1].end <= at)
    case Renew(owner, at, until) => Holds(h, owner, at) && h.holdings[|h.holdings| - 1].end < until
    case Release(owner, at) => Holds(h, owner, at)
    case Ack(owner, expected, acked, at) => Holds(h, owner, at) && Offset(h, expected) && expected < acked
    case Fail(owner, _, at) => Holds(h, owner, at) && Rested(h, at) && |h.failures| < 16
  }

  lemma HeldExactly(h: History, owner: Id, at: Time)
    requires HoldingsOk(h) && owner != NIL
    ensures RequireLease(h.row, owner, at).None? <==> Holds(h, owner, at)
  {
  }

  lemma FreeExactly(h: History, at: Time)
    requires HoldingsOk(h) && h.row.updatedAt <= at
    ensures (h.row.owner != NIL && at < h.row.until) <==>
      !(h.holdings == [] || h.holdings[|h.holdings| - 1].end <= at)
  {
  }

  lemma RestedExactly(h: History, at: Time)
    requires FailuresOk(h)
    ensures (h.row.retries > 0 && at < h.row.nextAttempt) <==> !Rested(h, at)
  {
  }

  lemma AdmittedIsTaken(h: History, a: Action)
    requires h.row.Valid() && HoldingsOk(h) && OffsetsOk(h) && FailuresOk(h)
    ensures Transition(h.row, a).Done? <==> WellFormed(h, a) && Admits(h, a)
  {
    if WellFormed(h, a) {
      HeldExactly(h, a.owner, a.at);
      FreeExactly(h, a.at);
      RestedExactly(h, a.at);
    }
  }

  /**
   * In any run, of any workers, an action on the stored row is taken exactly when the history so far admits it: leases
   * never overlap, only an unexpired holder acts, a failure waits out the last backoff and is the sixteenth at most.
   */
  lemma TakenExactlyWhenAdmitted(created: Time, attempts: seq<Attempt>, a: Action)
    requires created != 0
    ensures var h := RunAll(NewConsumer(created), attempts);
      Transition(h.row, a).Done? <==> WellFormed(h, a) && Admits(h, a)
  {
    RunsKeepInv(created, attempts);
    AdmittedIsTaken(RunAll(NewConsumer(created), attempts), a);
  }

  /** Why an action on the stored row is refused. */
  lemma RefusedForItsReason(created: Time, attempts: seq<Attempt>, a: Action)
    requires created != 0 && Transition(RunAll(NewConsumer(created), attempts).row, a).Refused?
    ensures var h := RunAll(NewConsumer(created), attempts);
      match Transition(h.row, a).error
      case InvalidInput =>
        !WellFormed(h, a) || (a.Renew? && h.holdings != [] && a.until <= h.holdings[|h.holdings| - 1].end)
      case BackoffActive => (a.Acquire? || a.Fail?) && !Rested(h, a.at)
      case LeaseUnavailable => a.Acquire? && h.holdings != [] && a.at < h.holdings[|h.holdings| - 1].end
      case LeaseNotOwned =>
        h.holdings == [] || var last := h.holdings[|h.holdings| - 1]; last.owner != a.owner || last.released
      case LeaseExpired => h.holdings != [] && h.holdings[|h.holdings| - 1].end <= a.at
      case ConcurrentTransition => a.Ack? && !Offset(h, a.expected)
      case InvalidAcknowledgement => a.Ack? && a.acked <= a.expected
      case RetryExhausted => a.Fail? && |h.failures| == 16
  {
    RunsKeepInv(created, attempts);
    RefusalRead(RunAll(NewConsumer(created), attempts), a);
  }

  lemma RefusalRead(h: History, a: Action)
    requires h.row.Valid() && HoldingsOk(h) && OffsetsOk(h) && FailuresOk(h) && Transition(h.row, a).Refused?
    ensures match Transition(h.row, a).error
      case InvalidInput =>
        !WellFormed(h, a) || (a.Renew? && h.holdings != [] && a.until <= h.holdings[|h.holdings| - 1].end)
      case BackoffActive => (a.Acquire? || a.Fail?) && !Rested(h, a.at)
      case LeaseUnavailable => a.Acquire? && h.holdings != [] && a.at < h.holdings[|h.holdings| - 1].end
      case LeaseNotOwned =>
        h.holdings == [] || var last := h.holdings[|h.holdings| - 1]; last.owner != a.owner || last.released
      case LeaseExpired => h.holdings != [] && h.holdings[|h.holdings| - 1].end <= a.at
      case ConcurrentTransition => a.Ack? && !Offset(h, a.expected)
      case InvalidAcknowledgement => a.Ack? && a.acked <= a.expected
      case RetryExhausted => a.Fail? && |h.failures| == 16
  {
    if a.owner != NIL { HeldExactly(h, a.owner, a.at); }
    if h.row.updatedAt <= a.at { FreeExactly(h, a.at); }
    RestedExactly(h, a.at);
  }

  /**
   * What an action that is taken does: to the holdings, the offsets and the failures, and to the row everyone reads
   * next. A worker that had read another row changes nothing.
   */
  lemma TakenTakesEffect(created: Time, attempts: seq<Attempt>, a: Action)
    requires created != 0 && Transition(RunAll(NewConsumer(created), attempts).row, a).Done?
    ensures var h := RunAll(NewConsumer(created), attempts); var g := Swap(h, h.row, a); var n := |h.holdings| - 1;
      match a
      case Acquire(owner, at, until) =>
        && g.holdings == h.holdings + [Holding(owner, at, until, false)]
        && g.row == h.row.(owner := owner, until := until, updatedAt := at)
        && g.offsets == h.offsets && g.failures == h.failures
      case Renew(_, at, until) =>
        && n >= 0 && g.holdings == h.holdings[..n] + [h.holdings[n].(end := until)]
        && g.row == h.row.(until := until, updatedAt := at) && g.offsets == h.offsets && g.failures == h.failures
      case Release(_, at) =>
        && n >= 0 && g.holdings == h.holdings[..n] + [h.holdings[n].(end := at, released := true)]
        && g.row == h.row.(owner := NIL, until := 0, updatedAt := at) && g.offsets == h.offsets
        && g.failures == h.failures
      case Ack(owner, _, acked, at) =>
        && n >= 0 && g.marks == h.marks + [Mark(owner, at, n)] && g.holdings == h.holdings
        && g.offsets == h.offsets + [acked] && g.failures == []
        && g.row == h.row.(acked := acked, retries := 0, nextAttempt := 0, errorCode := NIL, updatedAt := at)
      case Fail(owner, code, at) =>
        && n >= 0 && g.marks == h.marks + [Mark(owner, at, n)] && g.holdings == h.holdings && g.offsets == h.offsets
        && g.failures == h.failures + [at]
        && g.row == h.row.(retries := |g.failures|, nextAttempt := at + Backoff(|g.failures|), errorCode := code,
                           updatedAt := at)
    ensures var h := RunAll(NewConsumer(created), attempts); forall read :: read != h.row ==> Swap(h, read, a) == h
  {
    RunsKeepInv(created, attempts);
  }

  // ----- all sixteen failures -----

  /** As soon as the backoff allows: acquire, fail, release. */
  function FailOnce(h: History): seq<Attempt> {
    var at := Max(h.row.updatedAt, h.row.nextAttempt);
    var held := Swap(h, h.row, Acquire(1, at, at + 1));
    var failed := Swap(held, held.row, Fail(1, 1, at));
    [Attempt(h.row, Acquire(1, at, at + 1)), Attempt(held.row, Fail(1, 1, at)), Attempt(failed.row, Release(1, at))]
  }

  function FailTimes(created: Time, n: nat): seq<Attempt> {
    if n == 0 then []
    else FailTimes(created, n - 1) + FailOnce(RunAll(NewConsumer(created), FailTimes(created, n - 1)))
  }

  lemma RunOneMore(h: History, before: seq<Attempt>, x: Attempt)
    ensures RunAll(h, before + [x]) == Swap(RunAll(h, before), x.read, x.action)
  {
    assert (before + [x])[..|before|] == before;
  }

  lemma RunThree(h: History, before: seq<Attempt>, x: Attempt, y: Attempt, z: Attempt)
    ensures RunAll(h, before + [x, y, z]) ==
      Swap(Swap(Swap(RunAll(h, before), x.read, x.action), y.read, y.action), z.read, z.action)
  {
    RunOneMore(h, before, x);
    RunOneMore(h, before + [x], y);
    RunOneMore(h, before + [x] + [y], z);
    assert before + [x] + [y] + [z] == before + [x, y, z];
  }

  lemma FailsOnceMore(h: History)
    requires Inv(h) && h.row.owner == NIL && |h.failures| < 16
    ensures var at := Max(h.row.updatedAt, h.row.nextAttempt);
      var held := Swap(h, h.row, Acquire(1, at, at + 1));
      var failed := Swap(held, held.row, Fail(1, 1, at));
      var free := Swap(failed, failed.row, Release(1, at));
      free.row.owner == NIL && |free.failures| == |h.failures| + 1
  {
  }

  /** For every count up to sixteen some run ends with that many failures in a row. */
  lemma {:induction false} SixteenFailuresPossible(created: Time, n: nat)
    requires created != 0 && n <= 16
    ensures var h := RunAll(NewConsumer(created), FailTimes(created, n)); |h.failures| == n && h.row.owner == NIL
  {
    if n == 0 {
    } else {
      SixteenFailuresPossible(created, n - 1);
      RunsKeepInv(created, FailTimes(created, n - 1));
      var h := RunAll(NewConsumer(created), FailTimes(created, n - 1));
      FailsOnceMore(h);
      var three := FailOnce(h);
      assert three == [three[0], three[1], three[2]];
      RunThree(NewConsumer(created), FailTimes(created, n - 1), three[0], three[1], three[2]);
    }
  }

  /**
   * An acknowledgement at the instant of its release sits on the edge of the half-open holding, where the next may
   * begin.
   */
  lemma ReleaseAtTheSameInstant()
    ensures var c := NewConsumer(1);
      var held := Swap(c, c.row, Acquire(1, 2, 9));
      var acked := Swap(held, held.row, Ack(1, 0, 5, 3));
      var free := Swap(acked, acked.row, Release(1, 3));
      var taken := Swap(free, free.row, Acquire(2, 3, 9));
      taken.holdings == [Holding(1, 2, 3, true), Holding(2, 3, 9, false)] && taken.marks == [Mark(1, 3, 0)]
  {
  }
}
