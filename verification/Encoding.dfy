/**
 * The byte strings that are hashed or signed. Each one determines the request it was made from, so two requests
 * share a digest only if the hash collides.
 */
module Encoding {
  import opened Base
  import opened GameSdk

  type Bytes = seq<byte>

  // ----- big-endian integers -----

  function Power(width: nat): nat {
    if width == 0 then 1 else 256 * Power(width - 1)
  }

  function BigEndian(width: nat, value: nat): (r: Bytes)
    ensures |r| == width
  {
    if width == 0 then [] else BigEndian(width - 1, value / 256) + [(value % 256) as byte]
  }

  function FromBigEndian(bytes: Bytes): nat {
    if bytes == [] then 0 else 256 * FromBigEndian(bytes[..|bytes| - 1]) + bytes[|bytes| - 1] as nat
  }

  lemma {:induction false} BigEndianRoundTrip(width: nat, value: nat)
    requires value < Power(width)
    ensures FromBigEndian(BigEndian(width, value)) == value
  {
    if width == 0 {
    } else {
      BigEndianRoundTrip(width - 1, value / 256);
      var b := BigEndian(width, value);
      assert b[..|b| - 1] == BigEndian(width - 1, value / 256);
    }
  }

  lemma Widths()
    ensures Power(2) == 0x1_0000 && Power(4) == 0x1_0000_0000 && Power(8) == 0x1_0000_0000_0000_0000
  {
    assert Power(0) == 1 && Power(1) == 256 && Power(2) == 0x1_0000 && Power(3) == 0x100_0000;
    assert Power(4) == 0x1_0000_0000 && Power(5) == 0x100_0000_0000 && Power(6) == 0x1_0000_0000_0000;
    assert Power(7) == 0x100_0000_0000_0000;
  }

  // ----- fields with a length in front -----

  function Prefixed(width: nat, value: Bytes): Bytes {
    BigEndian(width, |value|) + value
  }

  function TakeFixed(bytes: Bytes, n: nat): Option<(Bytes, Bytes)> {
    if n <= |bytes| then Some((bytes[..n], bytes[n..])) else None
  }

  function TakePrefixed(width: nat, bytes: Bytes): Option<(Bytes, Bytes)> {
    match TakeFixed(bytes, width)
    case None => None
    case Some((length, rest)) => TakeFixed(rest, FromBigEndian(length))
  }

  lemma FixedRoundTrip(value: Bytes, rest: Bytes)
    ensures TakeFixed(value + rest, |value|) == Some((value, rest))
  {
    assert (value + rest)[..|value|] == value && (value + rest)[|value|..] == rest;
  }

  lemma PrefixedRoundTrip(width: nat, value: Bytes, rest: Bytes)
    requires |value| < Power(width)
    ensures TakePrefixed(width, Prefixed(width, value) + rest) == Some((value, rest))
  {
    BigEndianRoundTrip(width, |value|);
    var length := BigEndian(width, |value|);
    assert Prefixed(width, value) + rest == length + (value + rest);
    FixedRoundTrip(length, value + rest);
    FixedRoundTrip(value, rest);
  }

  // ----- digests of commands -----

  /** What reaches the hash: every field behind its eight-byte length. */
  function Fields(fields: seq<Bytes>): Bytes {
    if fields == [] then [] else Fields(fields[..|fields| - 1]) + Prefixed(8, fields[|fields| - 1])
  }

  function ReadFields(bytes: Bytes): Option<seq<Bytes>>
    decreases |bytes|
  {
    if bytes == [] then Some([])
    else match TakePrefixed(8, bytes)
      case None => None
      case Some((value, rest)) =>
        match ReadFields(rest)
        case None => None
        case Some(values) => Some([value] + values)
  }

  predicate Sized(fields: seq<Bytes>) { forall i :: 0 <= i < |fields| ==> |fields[i]| <= MAX_UINT64 }

  lemma Associative(a: Bytes, b: Bytes, c: Bytes)
    ensures (a + b) + c == a + (b + c)
  {
  }

  lemma {:induction false} FieldsFromFront(fields: seq<Bytes>)
    requires fields != []
    ensures Fields(fields) == Prefixed(8, fields[0]) + Fields(fields[1..])
  {
    if |fields| == 1 {
      assert fields[..0] == [] && fields[1..] == [];
    } else {
      var init, tail := fields[..|fields| - 1], fields[1..];
      FieldsFromFront(init);
      assert init[1..] == tail[..|tail| - 1];
      Associative(Prefixed(8, fields[0]), Fields(init[1..]), Prefixed(8, fields[|fields| - 1]));
    }
  }

  lemma ReadFront(value: Bytes, rest: Bytes)
    requires |value| <= MAX_UINT64 && ReadFields(rest).Some?
    ensures ReadFields(Prefixed(8, value) + rest) == Some([value] + ReadFields(rest).value)
  {
    Widths();
    PrefixedRoundTrip(8, value, rest);
    assert |Prefixed(8, value) + rest| >= 8;
  }

  /** The list of fields can be read back from the hashed bytes. */
  lemma {:induction false} FieldsRoundTrip(fields: seq<Bytes>)
    requires Sized(fields)
    ensures ReadFields(Fields(fields)) == Some(fields)
  {
    if fields == [] {
    } else {
      FieldsFromFront(fields);
      FieldsRoundTrip(fields[1..]);
      ReadFront(fields[0], Fields(fields[1..]));
      assert fields == [fields[0]] + fields[1..];
    }
  }

  lemma FieldsInjective(a: seq<Bytes>, b: seq<Bytes>)
    requires Sized(a) && Sized(b) && Fields(a) == Fields(b)
    ensures a == b
  {
    FieldsRoundTrip(a);
    FieldsRoundTrip(b);
  }

  function Uint64(value: nat): Bytes { BigEndian(8, value) }

  lemma Uint64Injective(a: nat, b: nat)
    requires a <= MAX_UINT64 && b <= MAX_UINT64 && Uint64(a) == Uint64(b)
    ensures a == b
  {
    Widths();
    BigEndianRoundTrip(8, a);
    BigEndianRoundTrip(8, b);
  }

  datatype VersionText = VersionText(game: Bytes, engine: Bytes, protocol: Bytes, client: Bytes) {
    function Written(): seq<Bytes> { [game, engine, protocol, client] }
  }

  datatype Payload = Payload(messageType: Bytes, schemaVersion: nat, body: Bytes) {
    function Written(): seq<Bytes> { [messageType, Uint64(schemaVersion), body] }
  }

  datatype Source = HostApi | RoomOutbox | Platform {
    /** The texts host_api, room_outbox and platform. */
    function Kind(): Bytes {
      match this
      case HostApi => [104, 111, 115, 116, 95, 97, 112, 105]
      case RoomOutbox => [114, 111, 111, 109, 95, 111, 117, 116, 98, 111, 120]
      case Platform => [112, 108, 97, 116, 102, 111, 114, 109]
    }
  }

  /** The commands whose digests make a retry recognisable. Identifiers are their sixteen bytes. */
  datatype Request =
    | Action(session: Bytes, actor: Bytes, action: Bytes, expected: nat, key: VersionText, message: Payload)
    | Start(actor: Bytes, room: Bytes, operation: Bytes, game: Bytes, roomVersion: nat, membership: nat, config: nat,
            message: Payload)
    | System(session: Bytes, operation: Bytes, source: Source, event: Bytes, requester: Bytes, key: VersionText,
             expected: nat, message: Payload)
    | Cancel(room: Bytes, session: Bytes, roomVersion: nat, membership: nat, epoch: nat, optional: Option<Bytes>,
             close: bool, reason: Bytes)
  {
    function Written(): seq<Bytes> {
      match this
      case Action(session, actor, action, expected, key, message) =>
        [session, actor, action, Uint64(expected)] + key.Written() + message.Written()
      case Start(actor, room, operation, game, roomVersion, membership, config, message) =>
        [actor, room, operation, game, Uint64(roomVersion), Uint64(membership), Uint64(config)] + message.Written()
      case System(session, operation, source, event, requester, key, expected, message) =>
        [session, operation, source.Kind(), event, requester] + key.Written()
        + (if source.HostApi? then [Uint64(expected)] else []) + message.Written()
      case Cancel(room, session, roomVersion, membership, epoch, optional, close, reason) =>
        [room, session, Uint64(roomVersion), Uint64(membership), Uint64(epoch),
         if optional.Some? then optional.value else [], [if close then 1 else 0], reason]
    }

    /** Go's value ranges, and an operation identifier is never empty. */
    predicate Valid() {
      && Sized(Written())
      && match this
         case Action(_, _, _, expected, _, message) => expected <= MAX_UINT64 && message.schemaVersion <= MAX_UINT64
         case Start(_, _, _, _, roomVersion, membership, config, message) =>
           roomVersion <= MAX_UINT64 && membership <= MAX_UINT64 && config <= MAX_UINT64
             && message.schemaVersion <= MAX_UINT64
         case System(_, _, _, _, _, _, expected, message) =>
           expected <= MAX_UINT64 && message.schemaVersion <= MAX_UINT64
         case Cancel(_, _, roomVersion, membership, epoch, optional, _, _) =>
           roomVersion <= MAX_UINT64 && membership <= MAX_UINT64 && epoch <= MAX_UINT64 && optional != Some([])
    }

    /** Only host requests bind the version they expect; for other system facts it is not part of the digest. */
    function Bound(): Request {
      if System? && !source.HostApi? then this.(expected := 0) else this
    }

    predicate SameKind(other: Request) {
      && (Action? <==> other.Action?) && (Start? <==> other.Start?) && (System? <==> other.System?)
      && (Cancel? <==> other.Cancel?)
    }
  }

  lemma PayloadDetermined(a: Payload, b: Payload)
    requires a.Written() == b.Written() && a.schemaVersion <= MAX_UINT64 && b.schemaVersion <= MAX_UINT64
    ensures a == b
  {
    assert a.Written()[0] == b.Written()[0] && a.Written()[1] == b.Written()[1] && a.Written()[2] == b.Written()[2];
    Uint64Injective(a.schemaVersion, b.schemaVersion);
  }

  lemma VersionDetermined(a: VersionText, b: VersionText)
    requires a.Written() == b.Written()
    ensures a == b
  {
    assert a.Written()[0] == b.Written()[0] && a.Written()[1] == b.Written()[1];
    assert a.Written()[2] == b.Written()[2] && a.Written()[3] == b.Written()[3];
  }

  lemma SplitEqual(a: seq<Bytes>, b: seq<Bytes>, c: seq<Bytes>, d: seq<Bytes>)
    requires a + b == c + d && |a| == |c|
    ensures a == c && b == d
  {
    assert a == (a + b)[..|a|] && c == (c + d)[..|c|];
    assert b == (a + b)[|a|..] && d == (c + d)[|c|..];
  }

  lemma ActionDetermined(a: Request, b: Request)
    requires a.Valid() && b.Valid() && a.Action? && b.Action? && a.Written() == b.Written()
    ensures a == b
  {
    var x, y := [a.session, a.actor, a.action, Uint64(a.expected)], [b.session, b.actor, b.action, Uint64(b.expected)];
    SplitEqual(x + a.key.Written(), a.message.Written(), y + b.key.Written(), b.message.Written());
    SplitEqual(x, a.key.Written(), y, b.key.Written());
    assert x[0] == y[0] && x[1] == y[1] && x[2] == y[2] && x[3] == y[3];
    Uint64Injective(a.expected, b.expected);
    VersionDetermined(a.key, b.key);
    PayloadDetermined(a.message, b.message);
  }

  lemma StartDetermined(a: Request, b: Request)
    requires a.Valid() && b.Valid() && a.Start? && b.Start? && a.Written() == b.Written()
    ensures a == b
  {
    var x := [a.actor, a.room, a.operation, a.game, Uint64(a.roomVersion), Uint64(a.membership), Uint64(a.config)];
    var y := [b.actor, b.room, b.operation, b.game, Uint64(b.roomVersion), Uint64(b.membership), Uint64(b.config)];
    SplitEqual(x, a.message.Written(), y, b.message.Written());
    assert x[0] == y[0] && x[1] == y[1] && x[2] == y[2] && x[3] == y[3] && x[4] == y[4] && x[5] == y[5] && x[6] == y[6];
    Uint64Injective(a.roomVersion, b.roomVersion);
    Uint64Injective(a.membership, b.membership);
    Uint64Injective(a.config, b.config);
    PayloadDetermined(a.message, b.message);
  }

  lemma SystemDetermined(a: Request, b: Request)
    requires a.Valid() && b.Valid() && a.System? && b.System? && a.Written() == b.Written()
    ensures a.Bound() == b.Bound()
  {
    assert a.Written()[2] == a.source.Kind() && b.Written()[2] == b.source.Kind();
    KindDetermined(a.source, b.source);
    var x, y := [a.session, a.operation, a.source.Kind(), a.event, a.requester],
      [b.session, b.operation, b.source.Kind(), b.event, b.requester];
    var u, v := if a.source.HostApi? then [Uint64(a.expected)] else [],
      if b.source.HostApi? then [Uint64(b.expected)] else [];
    SplitEqual(x + a.key.Written() + u, a.message.Written(), y + b.key.Written() + v, b.message.Written());
    SplitEqual(x + a.key.Written(), u, y + b.key.Written(), v);
    SplitEqual(x, a.key.Written(), y, b.key.Written());
    assert x[0] == y[0] && x[1] == y[1] && x[3] == y[3] && x[4] == y[4];
    if a.source.HostApi? {
      assert u[0] == v[0];
      Uint64Injective(a.expected, b.expected);
    }
    VersionDetermined(a.key, b.key);
    PayloadDetermined(a.message, b.message);
  }

  lemma KindDetermined(a: Source, b: Source)
    requires a.Kind() == b.Kind()
    ensures a == b
  {
    assert a.Kind()[0] == b.Kind()[0];
  }

  lemma CancelDetermined(a: Request, b: Request)
    requires a.Valid() && b.Valid() && a.Cancel? && b.Cancel? && a.Written() == b.Written()
    ensures a == b
  {
    var x, y := a.Written(), b.Written();
    assert x[0] == y[0] && x[1] == y[1] && x[2] == y[2] && x[3] == y[3] && x[4] == y[4] && x[5] == y[5] && x[7] == y[7];
    assert x[6][0] == y[6][0];
    Uint64Injective(a.roomVersion, b.roomVersion);
    Uint64Injective(a.membership, b.membership);
    Uint64Injective(a.epoch, b.epoch);
  }

  /** Two commands of one kind hash the same bytes exactly when they bind the same request. */
  lemma SameBytesIffSameRequest(a: Request, b: Request)
    requires a.Valid() && b.Valid() && a.SameKind(b)
    ensures Fields(a.Written()) == Fields(b.Written()) <==> a.Bound() == b.Bound()
  {
    if Fields(a.Written()) == Fields(b.Written()) {
      FieldsInjective(a.Written(), b.Written());
      match a
      case Action(_, _, _, _, _, _) => ActionDetermined(a, b);
      case Start(_, _, _, _, _, _, _, _) => StartDetermined(a, b);
      case System(_, _, _, _, _, _, _, _) => SystemDetermined(a, b);
      case Cancel(_, _, _, _, _, _, _, _) => CancelDetermined(a, b);
    }
    assert a.Bound().Written() == a.Written() && b.Bound().Written() == b.Written();
  }

  // ----- the writer -----

  /** A hash while fields are written to it; the ghost list is what has been written so far. */
  class FieldHasher {
    var written: Bytes
    ghost var fields: seq<Bytes>

    ghost predicate Valid()
      reads this
    {
      written == Fields(fields)
    }

    constructor ()
      ensures Valid() && fields == []
    {
      written := [];
      fields := [];
    }

    method WriteField(value: Bytes)
      requires Valid()
      modifies this
      ensures Valid() && fields == old(fields) + [value]
    {
      written := written + BigEndian(8, |value|);
      written := written + value;
      assert written == old(written) + Prefixed(8, value);
      fields := fields + [value];
      assert fields[..|fields| - 1] == old(fields);
    }

    method WriteUint64(value: nat)
      requires Valid()
      modifies this
      ensures Valid() && fields == old(fields) + [Uint64(value)]
    {
      WriteField(BigEndian(8, value));
    }

    method WriteThree(a: nat, b: nat, c: nat)
      requires Valid()
      modifies this
      ensures Valid() && fields == old(fields) + [Uint64(a), Uint64(b), Uint64(c)]
    {
      WriteUint64(a);
      WriteUint64(b);
      WriteUint64(c);
    }

    method WriteEnding(operation: Option<Bytes>, close: bool, reason: Bytes)
      requires Valid()
      modifies this
      ensures Valid()
      ensures fields ==
        old(fields) + [if operation.Some? then operation.value else [], [if close then 1 else 0], reason]
    {
      if operation.Some? {
        WriteField(operation.value);
      } else {
        WriteField([]);
      }
      WriteField([if close then 1 else 0]);
      WriteField(reason);
    }

    method WriteVersionKey(key: VersionText)
      requires Valid()
      modifies this
      ensures Valid() && fields == old(fields) + key.Written()
    {
      WriteField(key.game);
      WriteField(key.engine);
      WriteField(key.protocol);
      WriteField(key.client);
    }

    method WriteMessage(message: Payload)
      requires Valid()
      modifies this
      ensures Valid() && fields == old(fields) + message.Written()
    {
      WriteField(message.messageType);
      WriteUint64(message.schemaVersion);
      WriteField(message.body);
    }
  }

  /** The bytes that the action digest hashes, written call by call as the source does. */
  method ActionBytes(c: Request) returns (bytes: Bytes)
    requires c.Action?
    ensures bytes == Fields(c.Written())
  {
    var h := new FieldHasher();
    h.WriteField(c.session);
    h.WriteField(c.actor);
    h.WriteField(c.action);
    h.WriteUint64(c.expected);
    assert h.fields == [c.session, c.actor, c.action, Uint64(c.expected)];
    h.WriteVersionKey(c.key);
    h.WriteMessage(c.message);
    return h.written;
  }

  /** The start digest. */
  method StartBytes(c: Request) returns (bytes: Bytes)
    requires c.Start?
    ensures bytes == Fields(c.Written())
  {
    var h := new FieldHasher();
    h.WriteField(c.actor);
    h.WriteField(c.room);
    h.WriteField(c.operation);
    h.WriteField(c.game);
    assert h.fields == [c.actor, c.room, c.operation, c.game];
    h.WriteThree(c.roomVersion, c.membership, c.config);
    assert h.fields ==
      [c.actor, c.room, c.operation, c.game, Uint64(c.roomVersion), Uint64(c.membership), Uint64(c.config)];
    h.WriteMessage(c.message);
    return h.written;
  }

  /** The system digest, with its field that only host requests have. */
  method SystemBytes(c: Request) returns (bytes: Bytes)
    requires c.System?
    ensures bytes == Fields(c.Written())
  {
    var h := new FieldHasher();
    h.WriteField(c.session);
    h.WriteField(c.operation);
    h.WriteField(c.source.Kind());
    h.WriteField(c.event);
    h.WriteField(c.requester);
    ghost var front := [c.session, c.operation, c.source.Kind(), c.event, c.requester];
    assert h.fields == front;
    h.WriteVersionKey(c.key);
    ghost var bound := if c.source.HostApi? then [Uint64(c.expected)] else [];
    if c.source.HostApi? {
      h.WriteUint64(c.expected);
    }
    assert h.fields == front + c.key.Written() + bound;
    h.WriteMessage(c.message);
    return h.written;
  }

  /** The cancel digest, where a missing operation identifier is an empty field. */
  method CancelBytes(c: Request) returns (bytes: Bytes)
    requires c.Cancel?
    ensures bytes == Fields(c.Written())
  {
    var h := new FieldHasher();
    h.WriteField(c.room);
    h.WriteField(c.session);
    h.WriteThree(c.roomVersion, c.membership, c.epoch);
    h.WriteEnding(c.optional, c.close, c.reason);
    assert h.fields == c.Written();
    return h.written;
  }

  // ----- challenge claims -----

  predicate Blank(bytes: Bytes) { forall i :: 0 <= i < |bytes| ==> bytes[i] == 0 }

  datatype Subject = Subject(id: Bytes, version: nat, credentialVersion: nat)

  datatype Claims = Claims(id: Bytes, selector: Bytes, purpose: Bytes, audience: Bytes, origin: Bytes, flow: Bytes,
                           expiresAt: nat, keyVersion: nat, subject: Option<Subject>)
  {
    /** What may be signed, with Go's value ranges; an absent subject is the nil identifier of the source. */
    predicate Valid() {
      && |id| == 16 && !Blank(id) && |origin| == 32 && !Blank(origin) && |selector| < 0x1_0000
      && 0 < |purpose| <= 64 && 0 < |audience| <= 64 && 0 < |flow| <= 128
      && 0 < expiresAt <= MAX_INT64 && 0 < keyVersion <= 0xFFFF_FFFF
      && (subject.Some? ==>
            |subject.value.id| == 16 && 0 < subject.value.version <= MAX_INT64
              && subject.value.credentialVersion <= MAX_INT64)
    }
  }

  function SubjectBytes(subject: Option<Subject>): Bytes {
    match subject
    case None => [0]
    case Some(s) => [1] + (s.id + (BigEndian(8, s.version) + BigEndian(8, s.credentialVersion)))
  }

  function ClaimsTail(c: Claims): Bytes {
    Prefixed(2, c.audience)
    + (c.origin
    + (Prefixed(2, c.flow)
    + (BigEndian(8, c.expiresAt) + (BigEndian(4, c.keyVersion) + SubjectBytes(c.subject)))))
  }

  function ClaimsBytes(namespace: Bytes, c: Claims): Bytes {
    Prefixed(2, namespace) + (c.id + (Prefixed(2, c.selector) + (Prefixed(2, c.purpose) + ClaimsTail(c))))
  }

  lemma PrefixedCancels(width: nat, a: Bytes, b: Bytes, x: Bytes, y: Bytes)
    requires |a| < Power(width) && |b| < Power(width) && Prefixed(width, a) + x == Prefixed(width, b) + y
    ensures a == b && x == y
  {
    PrefixedRoundTrip(width, a, x);
    PrefixedRoundTrip(width, b, y);
  }

  lemma FixedCancels(a: Bytes, b: Bytes, x: Bytes, y: Bytes)
    requires |a| == |b| && a + x == b + y
    ensures a == b && x == y
  {
    FixedRoundTrip(a, x);
    FixedRoundTrip(b, y);
  }

  lemma NumberCancels(width: nat, a: nat, b: nat, x: Bytes, y: Bytes)
    requires a < Power(width) && b < Power(width) && BigEndian(width, a) + x == BigEndian(width, b) + y
    ensures a == b && x == y
  {
    FixedCancels(BigEndian(width, a), BigEndian(width, b), x, y);
    BigEndianRoundTrip(width, a);
    BigEndianRoundTrip(width, b);
  }

  lemma SubjectDetermined(a: Option<Subject>, b: Option<Subject>)
    requires a.Some? ==> |a.value.id| == 16 && a.value.version <= MAX_INT64 && a.value.credentialVersion <= MAX_INT64
    requires b.Some? ==> |b.value.id| == 16 && b.value.version <= MAX_INT64 && b.value.credentialVersion <= MAX_INT64
    requires SubjectBytes(a) == SubjectBytes(b)
    ensures a == b
  {
    assert SubjectBytes(a)[0] == SubjectBytes(b)[0];
    if a.Some? && b.Some? {
      Widths();
      var s, t := a.value, b.value;
      FixedCancels([1], [1], s.id + (BigEndian(8, s.version) + BigEndian(8, s.credentialVersion)),
                   t.id + (BigEndian(8, t.version) + BigEndian(8, t.credentialVersion)));
      FixedCancels(s.id, t.id, BigEndian(8, s.version) + BigEndian(8, s.credentialVersion),
                   BigEndian(8, t.version) + BigEndian(8, t.credentialVersion));
      NumberCancels(8, s.version, t.version, BigEndian(8, s.credentialVersion), BigEndian(8, t.credentialVersion));
      BigEndianRoundTrip(8, s.credentialVersion);
      BigEndianRoundTrip(8, t.credentialVersion);
    }
  }

  lemma TailDetermined(a: Claims, b: Claims)
    requires a.Valid() && b.Valid() && ClaimsTail(a) == ClaimsTail(b)
    ensures a.audience == b.audience && a.origin == b.origin && a.flow == b.flow && a.expiresAt == b.expiresAt
    ensures a.keyVersion == b.keyVersion && a.subject == b.subject
  {
    Widths();
    var ka := BigEndian(4, a.keyVersion) + SubjectBytes(a.subject);
    var kb := BigEndian(4, b.keyVersion) + SubjectBytes(b.subject);
    var ea, eb := BigEndian(8, a.expiresAt) + ka, BigEndian(8, b.expiresAt) + kb;
    var fa, fb := Prefixed(2, a.flow) + ea, Prefixed(2, b.flow) + eb;
    PrefixedCancels(2, a.audience, b.audience, a.origin + fa, b.origin + fb);
    FixedCancels(a.origin, b.origin, fa, fb);
    PrefixedCancels(2, a.flow, b.flow, ea, eb);
    NumberCancels(8, a.expiresAt, b.expiresAt, ka, kb);
    NumberCancels(4, a.keyVersion, b.keyVersion, SubjectBytes(a.subject), SubjectBytes(b.subject));
    SubjectDetermined(a.subject, b.subject);
  }

  /** The signed bytes determine every claim: no two bindings share them. */
  lemma ClaimsDetermined(namespace: Bytes, a: Claims, b: Claims)
    requires |namespace| < 0x1_0000 && a.Valid() && b.Valid() && ClaimsBytes(namespace, a) == ClaimsBytes(namespace, b)
    ensures a == b
  {
    Widths();
    var pa, pb := Prefixed(2, a.purpose) + ClaimsTail(a), Prefixed(2, b.purpose) + ClaimsTail(b);
    var sa, sb := Prefixed(2, a.selector) + pa, Prefixed(2, b.selector) + pb;
    PrefixedCancels(2, namespace, namespace, a.id + sa, b.id + sb);
    FixedCancels(a.id, b.id, sa, sb);
    PrefixedCancels(2, a.selector, b.selector, pa, pb);
    PrefixedCancels(2, a.purpose, b.purpose, ClaimsTail(a), ClaimsTail(b));
    TailDetermined(a, b);
  }

  class Buffer {
    var written: Bytes

    constructor ()
      ensures written == []
    {
      written := [];
    }

    method Write(value: Bytes)
      modifies this
      ensures written == old(written) + value
    {
      written := written + value;
    }

    method WriteString(value: Bytes)
      modifies this
      ensures written == old(written) + Prefixed(2, value)
    {
      Write(BigEndian(2, |value|));
      Write(value);
      assert written == old(written) + Prefixed(2, value);
    }

    method WriteSubject(subject: Option<Subject>)
      modifies this
      ensures written == old(written) + SubjectBytes(subject)
    {
      if subject.Some? {
        Write([1]);
        Write(subject.value.id);
        Write(BigEndian(8, subject.value.version));
        Write(BigEndian(8, subject.value.credentialVersion));
      } else {
        Write([0]);
      }
      assert written == old(written) + SubjectBytes(subject);
    }

    method WriteTail(c: Claims)
      modifies this
      ensures written == old(written) + ClaimsTail(c)
    {
      WriteString(c.audience);
      Write(c.origin);
      WriteString(c.flow);
      Write(BigEndian(8, c.expiresAt));
      Write(BigEndian(4, c.keyVersion));
      WriteSubject(c.subject);
      assert written == old(written) + ClaimsTail(c);
    }
  }

  lemma Regroup(a: Bytes, b: Bytes, c: Bytes, d: Bytes, e: Bytes)
    ensures [] + a + b + c + d + e == a + (b + (c + (d + e)))
  {
  }

  /** The source's buffer writes, in order. */
  method CanonicalClaims(namespace: Bytes, c: Claims) returns (r: Option<Bytes>)
    ensures r == if c.Valid() then Some(ClaimsBytes(namespace, c)) else None
  {
    if !c.Valid() { return None; }
    var w := new Buffer();
    w.WriteString(namespace);
    w.Write(c.id);
    w.WriteString(c.selector);
    w.WriteString(c.purpose);
    w.WriteTail(c);
    Regroup(Prefixed(2, namespace), c.id, Prefixed(2, c.selector), Prefixed(2, c.purpose), ClaimsTail(c));
    return Some(w.written);
  }
}
