/**
 * The signed audit chain. The canonical encoding and the hash are any injective functions and the signature scheme
 * any one that accepts its own signatures: what deterministic protobuf, SHA-256 and Ed25519 are relied on for.
 */
module AuditChain {
  import opened Base
  import opened GameSdk

  type Hash = nat

  const GENESIS: Hash := 0
  const ADMIN_CHAIN: Id := 1

  /** What the caller reports; the detail digest and the reason code may be absent. */
  datatype Facts = Facts(actor: string, target: string, action: nat, reason: string, detail: Option<Digest>) {
    predicate Valid() { actor != "" && target != "" && 1 <= action <= 41 }
  }

  datatype Event = Event(chain: Id, eventId: Id, sequence: nat, previous: Hash, request: string, occurredAt: Time,
                         facts: Facts, keyVersion: nat) {
    predicate Valid() {
      chain == ADMIN_CHAIN && eventId != NIL && sequence != 0 && request != "" && occurredAt != 0 && facts.Valid()
        && keyVersion != 0
    }
  }

  datatype Head = Head(chain: Id, sequence: nat, hash: Hash, updatedAt: Time) {
    predicate Valid() { chain == ADMIN_CHAIN && updatedAt != 0 && (sequence == 0 ==> hash == GENESIS) }
  }

  datatype SignedEvent = SignedEvent(event: Event, canonical: seq<byte>, hash: Hash, signature: nat)

  datatype Keys = Keys(active: nat, encode: Event -> seq<byte>, digest: seq<byte> -> Hash, sign: seq<byte> -> nat,
                       accepts: (seq<byte>, nat, nat) -> bool) {
    ghost predicate Lawful() {
      && active != 0 && (forall a, b :: encode(a) == encode(b) ==> a == b) && (forall a :: encode(a) != [])
      && (forall a, b :: digest(a) == digest(b) ==> a == b)
      && (forall bytes :: accepts(bytes, active, sign(bytes)))
    }
  }

  datatype AuditError = InvalidInput | Integrity | Discontinuity

  datatype Outcome<+T> = Done(value: T) | Refused(error: AuditError)

  datatype Input = Input(eventId: Id, request: string, occurredAt: Reading, facts: Facts) {
    predicate Valid() { eventId != NIL && request != "" && occurredAt != 0 && facts.Valid() }
  }

  function Prepare(k: Keys, head: Head, input: Input): Outcome<SignedEvent> {
    if head.chain != ADMIN_CHAIN || !input.Valid() || Micros(input.occurredAt) < head.updatedAt
    then Refused(InvalidInput)
    else if k.active == 0 then Refused(Integrity)
    else
      var event := Event(head.chain, input.eventId, head.sequence + 1, head.hash, input.request,
                         Micros(input.occurredAt), input.facts, k.active);
      if !event.Valid() then Refused(InvalidInput)
      else
        var bytes := k.encode(event);
        if bytes == [] then Refused(InvalidInput)
        else Done(SignedEvent(event, bytes, k.digest(bytes), k.sign(bytes)))
  }

  predicate Verify(k: Keys, e: SignedEvent) {
    var bytes := k.encode(e.event);
    bytes == e.canonical && k.digest(bytes) == e.hash && k.accepts(bytes, e.event.keyVersion, e.signature)
  }

  function NextHead(e: SignedEvent): Outcome<Head> {
    var head := Head(e.event.chain, e.event.sequence, e.hash, e.event.occurredAt);
    if head.Valid() then Done(head) else Refused(Integrity)
  }

  /** One link: the event is authentic and continues exactly this head. */
  function Link(k: Keys, head: Head, e: SignedEvent): Outcome<Head> {
    if !Verify(k, e) then Refused(Integrity)
    else if e.event.chain != head.chain || e.event.sequence != head.sequence + 1 || e.event.previous != head.hash
       || e.event.occurredAt < head.updatedAt
    then Refused(Discontinuity)
    else NextHead(e)
  }

  function VerifyFrom(k: Keys, head: Head, events: seq<SignedEvent>): Outcome<Head> {
    if events == [] then Done(head)
    else match VerifyFrom(k, head, events[..|events| - 1])
      case Refused(error) => Refused(error)
      case Done(reached) => Link(k, reached, events[|events| - 1])
  }

  /** The head before the i-th event: the one given, or the one the event before it makes. */
  function HeadAt(head: Head, events: seq<SignedEvent>, i: nat): Head
    requires i <= |events|
  {
    if i == 0 then head
    else var e := events[i - 1]; Head(e.event.chain, e.event.sequence, e.hash, e.event.occurredAt)
  }

  /** What was stored for an event is its own encoding, hashed and signed. */
  predicate Authentic(k: Keys, e: SignedEvent) {
    && e.canonical == k.encode(e.event) && e.hash == k.digest(e.canonical)
    && k.accepts(e.canonical, e.event.keyVersion, e.signature)
  }

  /** An event continues a head. */
  predicate Extends(head: Head, e: Event) {
    && e.chain == head.chain && e.sequence == head.sequence + 1 && e.previous == head.hash
    && head.updatedAt <= e.occurredAt
  }

  /** The i-th event is authentic, continues what came before it and leaves a valid head. */
  predicate SoundAt(k: Keys, head: Head, events: seq<SignedEvent>, i: nat)
    requires i < |events|
  {
    && Authentic(k, events[i]) && Extends(HeadAt(head, events, i), events[i].event)
    && HeadAt(head, events, i + 1).Valid()
  }

  /** The i-th event is the first that is not sound, and this is what is wrong with it. */
  predicate FirstFault(k: Keys, head: Head, events: seq<SignedEvent>, i: nat, error: AuditError) {
    && i < |events| && !SoundAt(k, head, events, i) && (forall j :: 0 <= j < i ==> SoundAt(k, head, events, j))
    && error == (if Authentic(k, events[i]) && !Extends(HeadAt(head, events, i), events[i].event)
                 then Discontinuity else Integrity)
  }

  /**
   * The source's loop over the events: it reaches the head of the last event exactly when every event is sound, and
   * otherwise reports the first fault.
   */
  method VerifyChain(k: Keys, head: Head, events: seq<SignedEvent>) returns (r: Outcome<Head>)
    ensures r.Done? <==> forall i :: 0 <= i < |events| ==> SoundAt(k, head, events, i)
    ensures r.Done? ==> r.value == HeadAt(head, events, |events|)
    ensures r.Refused? ==> exists i :: FirstFault(k, head, events, i, r.error)
    ensures r == VerifyFrom(k, head, events)
  {
    var current := head;
    var i := 0;
    while i < |events|
      invariant 0 <= i <= |events|
      invariant VerifyFrom(k, head, events[..i]) == Done(current)
      invariant current == HeadAt(head, events, i) && forall j :: 0 <= j < i ==> SoundAt(k, head, events, j)
    {
      assert events[..i + 1][..i] == events[..i];
      match Link(k, current, events[i])
      case Refused(error) =>
        FailurePropagates(k, head, events, i + 1);
        assert FirstFault(k, head, events, i, error);
        return Refused(error);
      case Done(next) =>
        current := next;
        i := i + 1;
    }
    assert events[..i] == events;
    return Done(current);
  }

  lemma {:induction false} FailurePropagates(k: Keys, head: Head, events: seq<SignedEvent>, n: nat)
    requires n <= |events| && VerifyFrom(k, head, events[..n]).Refused?
    ensures VerifyFrom(k, head, events) == VerifyFrom(k, head, events[..n])
    decreases |events| - n
  {
    if n == |events| {
      assert events[..n] == events;
    } else {
      assert events[..n + 1][..n] == events[..n];
      FailurePropagates(k, head, events, n + 1);
    }
  }

  /** Verifying a concatenation is verifying its parts in sequence. */
  lemma {:induction false} VerifyInSequence(k: Keys, head: Head, a: seq<SignedEvent>, b: seq<SignedEvent>)
    ensures VerifyFrom(k, head, a + b) ==
      match VerifyFrom(k, head, a) {
        case Done(reached) => VerifyFrom(k, reached, b)
        case Refused(error) => Refused(error)
      }
  {
    if b == [] {
      assert a + b == a;
    } else {
      VerifyInSequence(k, head, a, b[..|b| - 1]);
      assert (a + b)[..|a + b| - 1] == a + b[..|b| - 1];
    }
  }

  lemma {:induction false} SequenceCounts(k: Keys, head: Head, events: seq<SignedEvent>)
    requires VerifyFrom(k, head, events).Done?
    ensures VerifyFrom(k, head, events).value.sequence == head.sequence + |events|
  {
    if events == [] {
    } else {
      SequenceCounts(k, head, events[..|events| - 1]);
    }
  }

  /** Two accepted chains from one head that end in the same sequence and hash carry the same events. */
  lemma {:induction false} ChainDetermined(k: Keys, head: Head, a: seq<SignedEvent>, b: seq<SignedEvent>)
    requires k.Lawful() && VerifyFrom(k, head, a).Done? && VerifyFrom(k, head, b).Done?
    requires VerifyFrom(k, head, a).value.sequence == VerifyFrom(k, head, b).value.sequence
    requires VerifyFrom(k, head, a).value.hash == VerifyFrom(k, head, b).value.hash
    ensures |a| == |b|
    ensures forall i :: 0 <= i < |a| ==>
      a[i].event == b[i].event && a[i].canonical == b[i].canonical && a[i].hash == b[i].hash
  {
    SequenceCounts(k, head, a);
    SequenceCounts(k, head, b);
    if a == [] {
    } else {
      var x, y := a[|a| - 1], b[|b| - 1];
      assert k.digest(k.encode(x.event)) == k.digest(k.encode(y.event));
      assert x.event == y.event;
      ChainDetermined(k, head, a[..|a| - 1], b[..|b| - 1]);
    }
  }

  /** A verified chain continues to be the record it was: altering any one event is noticed at the end. */
  lemma AlteredEventNoticed(k: Keys, head: Head, events: seq<SignedEvent>, i: nat, forged: SignedEvent)
    requires k.Lawful() && VerifyFrom(k, head, events).Done? && i < |events| && forged.event != events[i].event
    ensures VerifyFrom(k, head, events[i := forged]).Done? ==>
      VerifyFrom(k, head, events[i := forged]).value.hash != VerifyFrom(k, head, events).value.hash
  {
    if VerifyFrom(k, head, events[i := forged]).Done? {
      SequenceCounts(k, head, events);
      SequenceCounts(k, head, events[i := forged]);
      assert events[i := forged][i] == forged;
      if VerifyFrom(k, head, events[i := forged]).value.hash == VerifyFrom(k, head, events).value.hash {
        ChainDetermined(k, head, events[i := forged], events);
      }
    }
  }

  // ----- appending -----

  /** Prepare and append, input by input; a refused input appends nothing. */
  function AppendAll(k: Keys, head: Head, inputs: seq<Input>): (Head, seq<SignedEvent>) {
    if inputs == [] then (head, [])
    else
      var (reached, events) := AppendAll(k, head, inputs[..|inputs| - 1]);
      match Prepare(k, reached, inputs[|inputs| - 1])
      case Refused(_) => (reached, events)
      case Done(e) => (Head(e.event.chain, e.event.sequence, e.hash, e.event.occurredAt), events + [e])
  }

  lemma PreparedLinks(k: Keys, head: Head, input: Input)
    requires k.Lawful() && head.Valid() && Prepare(k, head, input).Done?
    ensures var e := Prepare(k, head, input).value;
      Link(k, head, e) == Done(Head(e.event.chain, e.event.sequence, e.hash, e.event.occurredAt))
  {
    var e := Prepare(k, head, input).value;
    assert k.accepts(e.canonical, k.active, k.sign(e.canonical));
  }

  /** An event is prepared exactly for a valid report that is no earlier than the head, and says what was reported. */
  lemma PreparedIff(k: Keys, head: Head, input: Input)
    requires k.Lawful() && head.Valid()
    ensures Prepare(k, head, input).Done? <==> input.Valid() && head.updatedAt <= Micros(input.occurredAt)
    ensures Prepare(k, head, input).Done? ==> var e := Prepare(k, head, input).value.event;
      e == Event(head.chain, input.eventId, head.sequence + 1, head.hash, input.request, Micros(input.occurredAt),
                 input.facts, k.active)
  {
  }

  /** Reports that are in order one after the other. */
  predicate InOrder(head: Head, inputs: seq<Input>) {
    && (forall i :: 0 <= i < |inputs| ==> inputs[i].Valid() && head.updatedAt <= Micros(inputs[i].occurredAt))
    && (forall i, j :: 0 <= i < j < |inputs| ==> Micros(inputs[i].occurredAt) <= Micros(inputs[j].occurredAt))
  }

  /** The event says what was reported, as the next after this head. */
  predicate Reports(k: Keys, head: Head, i: Input, e: SignedEvent) {
    && e.event == Event(head.chain, i.eventId, head.sequence + 1, head.hash, i.request, Micros(i.occurredAt), i.facts,
                        k.active)
    && Authentic(k, e)
  }

  /** One event for each report, in that order and linked to one another. */
  predicate AllReported(k: Keys, head: Head, inputs: seq<Input>, events: seq<SignedEvent>) {
    && |events| == |inputs|
    && forall i :: 0 <= i < |events| ==> Reports(k, HeadAt(head, events, i), inputs[i], events[i])
  }

  lemma ReportedExtends(k: Keys, head: Head, inputs: seq<Input>, events: seq<SignedEvent>, i: Input, e: SignedEvent)
    requires AllReported(k, head, inputs, events) && Reports(k, HeadAt(head, events, |events|), i, e)
    ensures AllReported(k, head, inputs + [i], events + [e])
  {
    var all := events + [e];
    forall n | 0 <= n < |all| ensures Reports(k, HeadAt(head, all, n), (inputs + [i])[n], all[n]) {
      assert HeadAt(head, all, n) == HeadAt(head, events, n);
      if n < |events| { assert Reports(k, HeadAt(head, events, n), inputs[n], events[n]); }
    }
  }

  lemma PreparedReports(k: Keys, head: Head, input: Input)
    requires k.Lawful() && head.Valid() && input.Valid() && head.updatedAt <= Micros(input.occurredAt)
    ensures Prepare(k, head, input).Done? && Reports(k, head, input, Prepare(k, head, input).value)
  {
    PreparedIff(k, head, input);
    PreparedLinks(k, head, input);
  }

  /** The last instant of a recorded list is that of its last report. */
  lemma RecordedUntil(k: Keys, head: Head, inputs: seq<Input>, events: seq<SignedEvent>)
    requires AllReported(k, head, inputs, events)
    ensures HeadAt(head, events, |events|).updatedAt ==
      if inputs == [] then head.updatedAt else Micros(inputs[|inputs| - 1].occurredAt)
  {
    if events != [] {
      var n := |events| - 1;
      assert Reports(k, HeadAt(head, events, n), inputs[n], events[n]);
    }
  }

  /** Reports in order are all recorded. */
  lemma {:induction false} EveryReportRecorded(k: Keys, head: Head, inputs: seq<Input>)
    requires k.Lawful() && head.Valid() && InOrder(head, inputs)
    ensures var (reached, events) := AppendAll(k, head, inputs);
      AllReported(k, head, inputs, events) && reached == HeadAt(head, events, |events|)
  {
    if inputs == [] {
    } else {
      var n := |inputs| - 1;
      var init, last := inputs[..n], inputs[n];
      assert InOrder(head, init) && init + [last] == inputs;
      EveryReportRecorded(k, head, init);
      AppendedChainVerifies(k, head, init);
      var (reached, events) := AppendAll(k, head, init);
      NextRecorded(k, head, init, events, last);
      AppendsLast(k, head, inputs);
    }
  }

  lemma NextRecorded(k: Keys, head: Head, init: seq<Input>, events: seq<SignedEvent>, last: Input)
    requires k.Lawful() && AllReported(k, head, init, events) && InOrder(head, init + [last])
    requires HeadAt(head, events, |events|).Valid()
    ensures var reached := HeadAt(head, events, |events|);
      Prepare(k, reached, last).Done? && AllReported(k, head, init + [last], events + [Prepare(k, reached, last).value])
  {
    var all := init + [last];
    assert all[|init|] == last && (init != [] ==> all[|init| - 1] == init[|init| - 1]);
    RecordedUntil(k, head, init, events);
    PreparedReports(k, HeadAt(head, events, |events|), last);
    ReportedExtends(k, head, init, events, last, Prepare(k, HeadAt(head, events, |events|), last).value);
  }

  lemma AppendsLast(k: Keys, head: Head, inputs: seq<Input>)
    requires inputs != [] && Prepare(k, AppendAll(k, head, inputs[..|inputs| - 1]).0, inputs[|inputs| - 1]).Done?
    ensures var (reached, events) := AppendAll(k, head, inputs[..|inputs| - 1]);
      var e := Prepare(k, reached, inputs[|inputs| - 1]).value;
      AppendAll(k, head, inputs) == (Head(e.event.chain, e.event.sequence, e.hash, e.event.occurredAt), events + [e])
  {
  }

  /** Whatever is reported, the chain that results verifies to its own head. */
  lemma {:induction false} AppendedChainVerifies(k: Keys, head: Head, inputs: seq<Input>)
    requires k.Lawful() && head.Valid()
    ensures AppendAll(k, head, inputs).0.Valid()
    ensures VerifyFrom(k, head, AppendAll(k, head, inputs).1) == Done(AppendAll(k, head, inputs).0)
  {
    if inputs == [] {
    } else {
      AppendedChainVerifies(k, head, inputs[..|inputs| - 1]);
      var (reached, events) := AppendAll(k, head, inputs[..|inputs| - 1]);
      if Prepare(k, reached, inputs[|inputs| - 1]).Done? {
        PreparedLinks(k, reached, inputs[|inputs| - 1]);
        var e := Prepare(k, reached, inputs[|inputs| - 1]).value;
        assert (events + [e])[..|events|] == events;
      }
    }
  }
}
