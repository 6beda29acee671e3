/**
 * The gate that keeps the audit chain anchored. A sensitive command checks checkpoint health against the head it
 * reads and appends later. Some commands append to that same head and lose if it moved; others read the head again
 * first, and transactions are read-committed, so other commands may have appended in between. The key rotation
 * worker appends without the gate.
 */
module CheckpointGate {
  import opened Base

  datatype Health = Healthy | Degraded

  datatype Verdict = Verdict(health: Health, events: nat, age: int, maxEvents: nat, maxAge: int) {
    predicate AllowsSensitiveWrites() { health == Healthy }

    predicate CheckpointDue() { events >= maxEvents || age >= maxAge }
  }

  function Evaluate(head: nat, acked: nat, since: Reading, now: Reading, production: bool, sinkReady: bool,
                    maxEvents: nat, maxAge: int): Option<Verdict> {
    if now == 0 || acked > head then None
    else if acked < head && (since == 0 || now < since) then None
    else if acked == head && since != 0 then None
    else
      var events := head - acked;
      var age := if events > 0 then now - since else 0;
      Some(Verdict(if (production && !sinkReady) || events >= maxEvents || age >= maxAge then Degraded else Healthy,
                   events, age, maxEvents, maxAge))
  }

  /** Unanchored events are there exactly when there is an instant since which they are, and that is in the past. */
  predicate Readable(head: nat, acked: nat, since: Reading, now: Reading) {
    now != 0 && acked <= head && if acked == head then since == 0 else 0 < since <= now
  }

  /** The oldest unanchored event has been waiting for the maximum age. */
  predicate Overdue(head: nat, acked: nat, since: Reading, now: Reading, maxAge: int) {
    maxAge <= if acked == head then 0 else now - since
  }

  /**
   * Health is given exactly for readable progress. Writes are allowed exactly below both thresholds with the sink ready
   * where it must be; a checkpoint is due exactly at or above one of them.
   */
  lemma GateMeansRoom(head: nat, acked: nat, since: Reading, now: Reading, production: bool, sinkReady: bool,
                      maxEvents: nat, maxAge: int)
    ensures var v := Evaluate(head, acked, since, now, production, sinkReady, maxEvents, maxAge);
      && (v.Some? <==> Readable(head, acked, since, now))
      && (v.Some? ==>
            && (v.value.AllowsSensitiveWrites() <==>
                  && (production ==> sinkReady) && head - acked < maxEvents
                  && !Overdue(head, acked, since, now, maxAge))
            && (v.value.CheckpointDue() <==> maxEvents <= head - acked || Overdue(head, acked, since, now, maxAge)))
  {
  }

  /** What one health evaluation reads besides the two sequences. */
  datatype View = View(since: Reading, now: Reading, production: bool, sinkReady: bool)

  datatype Policy = Policy(maxEvents: nat, maxAge: int) {
    predicate Valid() { 0 < maxEvents <= 100 && 0 < maxAge }

    function Health(head: nat, acked: nat, r: View): Option<Verdict> {
      Evaluate(head, acked, r.since, r.now, r.production, r.sinkReady, maxEvents, maxAge)
    }
  }

  /**
   * Head and acknowledged sequence, checkpoints enqueued, and each command between check and append with the head it
   * saw.
   */
  datatype Chain = Chain(head: nat, acked: nat, enqueued: set<nat>, inFlight: map<Id, nat>) {
    function Unanchored(): int { head - acked }

    /** The append and, in the same transaction, the checkpoint it makes due. */
    function Grow(p: Policy, r: View): Chain {
      match p.Health(head + 1, acked, r)
      case None => this
      case Some(v) => this.(head := head + 1, enqueued := if v.CheckpointDue() then enqueued + {head + 1} else enqueued)
    }
  }

  datatype Move =
    | Check(writer: Id, view: View)
    | Append(writer: Id, reread: bool, view: View)
    | AppendUngated(view: View)
    | Abort(writer: Id)
    | Acknowledge(sequence: nat)

  function Step(p: Policy, c: Chain, m: Move): Chain {
    match m
    case Check(writer, view) =>
      (match p.Health(c.head, c.acked, view)
       case None => c
       case Some(v) =>
         if v.AllowsSensitiveWrites() && writer !in c.inFlight then c.(inFlight := c.inFlight[writer := c.head]) else c)
    case Append(writer, reread, view) =>
      if writer !in c.inFlight then c
      else (if reread || c.inFlight[writer] == c.head then c.Grow(p, view) else c).(inFlight := c.inFlight - {writer})
    case AppendUngated(view) => c.Grow(p, view)
    case Abort(writer) => c.(inFlight := c.inFlight - {writer})
    case Acknowledge(sequence) => if sequence in c.enqueued && c.acked < sequence then c.(acked := sequence) else c
  }

  function Run(p: Policy, c: Chain, moves: seq<Move>): Chain {
    if moves == [] then c else Step(p, Run(p, c, moves[..|moves| - 1]), moves[|moves| - 1])
  }

  const FRESH: Chain := Chain(0, 0, {}, map[])

  /** At most `width` commands are ever between their check and their append. */
  predicate Narrow(p: Policy, moves: seq<Move>, width: nat) {
    forall n :: 0 <= n <= |moves| ==> |Run(p, FRESH, moves[..n]).inFlight| <= width
  }

  function Ungated(moves: seq<Move>): nat {
    if moves == [] then 0 else Ungated(moves[..|moves| - 1]) + if moves[|moves| - 1].AppendUngated? then 1 else 0
  }

  predicate Anchored(p: Policy, c: Chain) {
    && c.acked <= c.head && (c.acked == 0 || c.acked in c.enqueued) && (forall e :: e in c.enqueued ==> e <= c.head)
    && (p.maxEvents <= c.Unanchored() ==> c.head in c.enqueued)
  }

  predicate Bounded(p: Policy, c: Chain, slack: nat) {
    c.Unanchored() + |c.inFlight| <= p.maxEvents - 1 + slack
  }

  lemma StepKeepsAnchored(p: Policy, c: Chain, m: Move)
    requires p.Valid() && Anchored(p, c)
    ensures Anchored(p, Step(p, c, m))
  {
  }

  lemma StepKeepsBounded(p: Policy, c: Chain, m: Move, width: nat, slack: nat)
    requires p.Valid() && Bounded(p, c, slack) && width <= slack && |Step(p, c, m).inFlight| <= width
    ensures Bounded(p, Step(p, c, m), slack + if m.AppendUngated? then 1 else 0)
  {
    if (m.Append? || m.Abort?) && m.writer in c.inFlight {
      assert (c.inFlight - {m.writer}).Keys == c.inFlight.Keys - {m.writer};
    } else if m.Abort? {
      assert c.inFlight - {m.writer} == c.inFlight;
    }
  }

  lemma {:induction false} RunKeepsAnchored(p: Policy, moves: seq<Move>)
    requires p.Valid()
    ensures Anchored(p, Run(p, FRESH, moves))
  {
    if moves == [] {
    } else {
      RunKeepsAnchored(p, moves[..|moves| - 1]);
      StepKeepsAnchored(p, Run(p, FRESH, moves[..|moves| - 1]), moves[|moves| - 1]);
    }
  }

  lemma {:induction false} RunKeepsBounded(p: Policy, moves: seq<Move>, width: nat)
    requires p.Valid() && 0 < width && Narrow(p, moves, width)
    ensures Bounded(p, Run(p, FRESH, moves), width + Ungated(moves))
  {
    if moves == [] {
    } else {
      var init := moves[..|moves| - 1];
      forall n | 0 <= n <= |init| ensures |Run(p, FRESH, init[..n]).inFlight| <= width {
        assert init[..n] == moves[..n];
      }
      RunKeepsBounded(p, init, width);
      assert moves[..|moves|] == moves;
      StepKeepsBounded(p, Run(p, FRESH, init), moves[|moves| - 1], width, width + Ungated(init));
    }
  }

  /** Unanchored events stay below the maximum plus the commands in flight plus the appends that skip the gate. */
  lemma UnanchoredBounded(p: Policy, moves: seq<Move>, width: nat)
    requires p.Valid() && 0 < width && Narrow(p, moves, width)
    ensures Run(p, FRESH, moves).Unanchored() <= p.maxEvents - 1 + width + Ungated(moves)
  {
    RunKeepsBounded(p, moves, width);
  }

  /**
   * In every run, whenever the maximum is reached or passed, a checkpoint for the current head has been enqueued, and
   * only what was enqueued is ever acknowledged.
   */
  lemma {:induction false} CheckpointEnqueuedAtMaximum(p: Policy, moves: seq<Move>)
    requires p.Valid()
    ensures p.maxEvents <= Run(p, FRESH, moves).Unanchored() ==>
      Run(p, FRESH, moves).head in Run(p, FRESH, moves).enqueued
    ensures var c := Run(p, FRESH, moves); c.acked <= c.head && (c.acked == 0 || c.acked in c.enqueued)
  {
    RunKeepsAnchored(p, moves);
  }

  /** A command enters exactly below both thresholds, once, and remembers the head it saw. */
  lemma ChecksIff(p: Policy, c: Chain, writer: Id, view: View)
    requires p.Valid() && writer !in c.inFlight
    ensures var d := Step(p, c, Check(writer, view));
      && (writer in d.inFlight <==>
            && Readable(c.head, c.acked, view.since, view.now) && (view.production ==> view.sinkReady)
            && c.Unanchored() < p.maxEvents && !Overdue(c.head, c.acked, view.since, view.now, p.maxAge))
      && d == c.(inFlight := if writer in d.inFlight then c.inFlight[writer := c.head] else c.inFlight)
  {
    GateMeansRoom(c.head, c.acked, view.since, view.now, view.production, view.sinkReady, p.maxEvents, p.maxAge);
  }

  /**
   * A command in flight appends one event exactly when it reads the head again or the head is still the one it saw, and
   * leaves; the checkpoint for the new head is enqueued exactly when that makes one due.
   */
  lemma AppendsIff(p: Policy, c: Chain, writer: Id, reread: bool, view: View)
    requires p.Valid() && writer in c.inFlight && Readable(c.head + 1, c.acked, view.since, view.now)
    ensures var d := Step(p, c, Append(writer, reread, view));
      && (d.head == c.head + 1 <==> reread || c.inFlight[writer] == c.head)
      && (d.head == c.head || d.head == c.head + 1)
      && d.acked == c.acked && d.inFlight == c.inFlight - {writer}
      && d.enqueued == c.enqueued + (if d.head == c.head + 1
              && (p.maxEvents <= d.Unanchored() || Overdue(d.head, d.acked, view.since, view.now, p.maxAge))
            then {d.head} else {})
  {
    GateMeansRoom(c.head + 1, c.acked, view.since, view.now, view.production, view.sinkReady, p.maxEvents, p.maxAge);
  }

  /**
   * In any run the gate does not stay shut: wherever the maximum has been reached, acknowledging the checkpoint that is
   * then enqueued leaves nothing unanchored, and the next command enters.
   */
  lemma AcknowledgementReopens(p: Policy, moves: seq<Move>, writer: Id, view: View)
    requires p.Valid() && p.maxEvents <= Run(p, FRESH, moves).Unanchored() && writer !in Run(p, FRESH, moves).inFlight
    requires view.now != 0 && view.since == 0 && (view.production ==> view.sinkReady)
    ensures var c := Run(p, FRESH, moves);
      var d := Run(p, FRESH, moves + [Acknowledge(c.head), Check(writer, view)]);
      d.Unanchored() == 0 && d.head == c.head && d.inFlight == c.inFlight[writer := c.head]
  {
    var c := Run(p, FRESH, moves);
    var acked := Step(p, c, Acknowledge(c.head));
    CheckpointEnqueuedAtMaximum(p, moves);
    assert acked == c.(acked := c.head);
    ChecksIff(p, acked, writer, view);
    var all := moves + [Acknowledge(c.head), Check(writer, view)];
    assert all[..|all| - 1] == moves + [Acknowledge(c.head)];
    assert (moves + [Acknowledge(c.head)])[..|moves|] == moves;
  }

  // ----- commands that append to the very head they checked -----

  predicate Pinned(moves: seq<Move>) {
    forall n :: 0 <= n < |moves| ==> !moves[n].AppendUngated? && (moves[n].Append? ==> !moves[n].reread)
  }

  predicate SeenBelow(p: Policy, c: Chain) {
    && c.Unanchored() <= p.maxEvents
    && forall w :: w in c.inFlight ==> c.inFlight[w] - c.acked < p.maxEvents
  }

  /** If every command appends to the head it checked, the maximum is never passed, however many run at once. */
  lemma {:induction false} PinnedHeadKeepsMaximum(p: Policy, moves: seq<Move>)
    requires p.Valid() && Pinned(moves)
    ensures SeenBelow(p, Run(p, FRESH, moves))
  {
    if moves == [] {
    } else {
      PinnedHeadKeepsMaximum(p, moves[..|moves| - 1]);
      PinnedStep(p, Run(p, FRESH, moves[..|moves| - 1]), moves[|moves| - 1]);
    }
  }

  lemma PinnedStep(p: Policy, c: Chain, m: Move)
    requires p.Valid() && SeenBelow(p, c) && !m.AppendUngated? && (m.Append? ==> !m.reread)
    ensures SeenBelow(p, Step(p, c, m))
  {
    if m.Append? && m.writer in c.inFlight {
      assert c.inFlight[m.writer] - c.acked < p.maxEvents;
    }
  }

  // ----- without that, the bound above is reached -----

  /** Nothing unanchored, and unanchored events of age zero. */
  const ANCHORED: View := View(0, 1, false, true)
  const LAGGING: View := View(1, 1, false, true)

  function ViewAt(head: nat): View { if head == 0 then ANCHORED else LAGGING }

  /** One writer checks and appends, n times over. */
  function Pairs(n: nat): seq<Move> {
    if n == 0 then [] else Pairs(n - 1) + [Check(1, ViewAt(n - 1)), Append(1, true, LAGGING)]
  }

  function Checks(n: nat, view: View): seq<Move> {
    if n == 0 then [] else Checks(n - 1, view) + [Check(n, view)]
  }

  function Appends(n: nat): seq<Move> {
    if n == 0 then [] else Appends(n - 1) + [Append(n, true, LAGGING)]
  }

  /** Events up to one below the maximum, then n commands that all check before any of them appends. */
  function Crowd(p: Policy, n: nat): seq<Move>
    requires p.Valid()
  {
    Pairs(p.maxEvents - 1) + Checks(n, ViewAt(p.maxEvents - 1)) + Appends(n)
  }

  lemma {:induction false} RunConcat(p: Policy, c: Chain, a: seq<Move>, b: seq<Move>)
    ensures Run(p, c, a + b) == Run(p, Run(p, c, a), b)
    decreases |b|
  {
    if b == [] {
      assert a + b == a;
    } else {
      RunConcat(p, c, a, b[..|b| - 1]);
      assert (a + b)[..|a + b| - 1] == a + b[..|b| - 1];
    }
  }

  lemma RunOne(p: Policy, c: Chain, m: Move)
    ensures Run(p, c, [m]) == Step(p, c, m)
  {
    assert [m][..0] == [];
    assert Run(p, c, []) == c;
  }

  /** Head at h, nothing acknowledged, nobody in flight. */
  predicate Idle(c: Chain, head: nat) { c.head == head && c.acked == 0 && c.inFlight == map[] }

  lemma OnePair(p: Policy, c: Chain)
    requires p.Valid() && Idle(c, c.head) && c.head < p.maxEvents
    ensures Idle(Step(p, Step(p, c, Check(1, ViewAt(c.head))), Append(1, true, LAGGING)), c.head + 1)
  {
    var checked := Step(p, c, Check(1, ViewAt(c.head)));
    assert checked == c.(inFlight := map[1 := c.head]);
    assert map[1 := c.head] - {1} == map[];
  }

  lemma {:induction false} PairsFill(p: Policy, n: nat)
    requires p.Valid() && n <= p.maxEvents
    ensures Idle(Run(p, FRESH, Pairs(n)), n)
  {
    if n == 0 {
    } else {
      PairsFill(p, n - 1);
      var c := Run(p, FRESH, Pairs(n - 1));
      var a, b := Check(1, ViewAt(n - 1)), Append(1, true, LAGGING);
      RunConcat(p, FRESH, Pairs(n - 1), [a, b]);
      assert [a, b] == [a] + [b];
      RunConcat(p, c, [a], [b]);
      RunOne(p, c, a);
      RunOne(p, Step(p, c, a), b);
      OnePair(p, c);
    }
  }

  lemma {:induction false} AllPass(p: Policy, c: Chain, n: nat)
    requires p.Valid() && Idle(c, c.head) && c.head < p.maxEvents
    ensures var r := Run(p, c, Checks(n, ViewAt(c.head)));
      r.head == c.head && r.acked == 0 && r.enqueued == c.enqueued && forall w: Id :: w in r.inFlight <==> 0 < w <= n
  {
    if n == 0 {
    } else {
      AllPass(p, c, n - 1);
      var checks := Checks(n, ViewAt(c.head));
      assert checks[..|checks| - 1] == Checks(n - 1, ViewAt(c.head));
    }
  }

  lemma {:induction false} AllAppend(p: Policy, c: Chain, n: nat)
    requires p.Valid() && c.acked == 0 && forall w: Id :: 0 < w <= n ==> w in c.inFlight
    ensures Run(p, c, Appends(n)).head == c.head + n && Run(p, c, Appends(n)).acked == 0
    ensures forall w: Id :: n < w && w in c.inFlight ==> w in Run(p, c, Appends(n)).inFlight
  {
    if n == 0 {
    } else {
      AllAppend(p, c, n - 1);
      assert Appends(n)[..|Appends(n)| - 1] == Appends(n - 1);
      AppendsIff(p, Run(p, c, Appends(n - 1)), n, true, LAGGING);
    }
  }

  lemma CrowdOvershoots(p: Policy, n: nat)
    requires p.Valid()
    ensures Run(p, FRESH, Crowd(p, n)).Unanchored() == p.maxEvents - 1 + n
  {
    var pairs, checks := Pairs(p.maxEvents - 1), Checks(n, ViewAt(p.maxEvents - 1));
    PairsFill(p, p.maxEvents - 1);
    AllPass(p, Run(p, FRESH, pairs), n);
    RunConcat(p, FRESH, pairs, checks);
    AllAppend(p, Run(p, FRESH, pairs + checks), n);
    RunConcat(p, FRESH, pairs + checks, Appends(n));
  }

  // ----- how many are in flight -----

  function IdsUpTo(n: nat): set<Id> { if n == 0 then {} else IdsUpTo(n - 1) + {n} }

  lemma {:induction false} CountUpTo(n: nat)
    ensures |IdsUpTo(n)| == n && forall w: Id :: w in IdsUpTo(n) <==> 0 < w <= n
  {
    if n == 0 {
    } else {
      CountUpTo(n - 1);
    }
  }

  /** Only writers 1 to n act, and all of them through the gate. */
  predicate Acting(m: Move, n: nat) {
    (m.Check? || m.Append? || m.Abort?) && 0 < m.writer <= n
  }

  lemma {:induction false} FewInFlight(p: Policy, moves: seq<Move>, n: nat)
    requires forall k :: 0 <= k < |moves| ==> Acting(moves[k], n)
    ensures |Run(p, FRESH, moves).inFlight| <= n && Run(p, FRESH, moves).inFlight.Keys <= IdsUpTo(n)
    ensures Ungated(moves) == 0
  {
    if moves == [] {
    } else {
      FewInFlight(p, moves[..|moves| - 1], n);
      CountUpTo(n);
      var c := Run(p, FRESH, moves);
      assert Acting(moves[|moves| - 1], n);
      assert c.inFlight.Keys <= IdsUpTo(n);
      SubsetSize(c.inFlight.Keys, IdsUpTo(n));
      assert |c.inFlight| == |c.inFlight.Keys|;
    }
  }

  lemma SubsetSize(a: set<Id>, b: set<Id>)
    requires a <= b
    ensures |a| <= |b|
  {
    assert b == a + (b - a) && a !! (b - a);
  }

  lemma FewAreNarrow(p: Policy, moves: seq<Move>, n: nat)
    requires forall k :: 0 <= k < |moves| ==> Acting(moves[k], n)
    ensures Narrow(p, moves, n) && Ungated(moves) == 0
  {
    forall k | 0 <= k <= |moves| ensures |Run(p, FRESH, moves[..k]).inFlight| <= n { FewInFlight(p, moves[..k], n); }
    FewInFlight(p, moves, n);
  }

  lemma {:induction false} PairsAct(n: nat, width: nat)
    requires 0 < width
    ensures forall k :: 0 <= k < |Pairs(n)| ==> Acting(Pairs(n)[k], width)
  {
    if n == 0 {
    } else {
      PairsAct(n - 1, width);
    }
  }

  lemma {:induction false} CrowdActs(n: nat, view: View, width: nat)
    requires n <= width
    ensures forall k :: 0 <= k < |Checks(n, view)| ==> Acting(Checks(n, view)[k], width)
    ensures forall k :: 0 <= k < |Appends(n)| ==> Acting(Appends(n)[k], width)
  {
    if n == 0 {
    } else {
      CrowdActs(n - 1, view, width);
    }
  }

  /** The bound is reached: for every policy and every width some run of gated commands ends exactly there. */
  lemma BoundIsReached(p: Policy, width: nat)
    requires p.Valid() && 0 < width
    ensures Narrow(p, Crowd(p, width), width) && Ungated(Crowd(p, width)) == 0
    ensures Run(p, FRESH, Crowd(p, width)).Unanchored() == p.maxEvents - 1 + width
  {
    PairsAct(p.maxEvents - 1, width);
    CrowdActs(width, ViewAt(p.maxEvents - 1), width);
    FewAreNarrow(p, Crowd(p, width), width);
    CrowdOvershoots(p, width);
  }

  ghost predicate Passes(p: Policy, moves: seq<Move>, width: nat) {
    Narrow(p, moves, width) && Ungated(moves) == 0 && Run(p, FRESH, moves).Unanchored() > p.maxEvents
  }

  /** Gated commands can pass the maximum exactly when two of them may be in flight at once. */
  lemma MaximumPassedIff(p: Policy, width: nat)
    requires p.Valid() && 0 < width
    ensures (exists moves :: Passes(p, moves, width)) <==> width >= 2
  {
    if width >= 2 {
      BoundIsReached(p, width);
      assert Passes(p, Crowd(p, width), width);
    }
    forall moves | Passes(p, moves, width) ensures width >= 2 { UnanchoredBounded(p, moves, width); }
  }
}
