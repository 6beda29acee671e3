/**
 * The room aggregate: members, seats, admission, host fence, pause governance and the pointer to
 * the active session. Every command is guard, edit, version bump, `Restore`.
 */
module PartyRoom {
  import opened Base

  datatype Visibility = Private | Public
  datatype RoomStatus = Lobby | Playing | PostGame | Closed {
    predicate AdmissionMutable() { this == Lobby || this == PostGame }
  }
  datatype Admission = AdmissionOpen | AdmissionApproval | AdmissionClosed
  datatype Role = ParticipantRole | SpectatorRole | WaitingRole

  datatype Member = Member(user: Id, role: Role, requested: Option<Role>, seat: nat, joinedAt: Time, lastSeenAt: Time)

  datatype PauseRequest = PauseRequest(id: Id, session: Id, requestedBy: Id, requestedAt: Time)

  datatype PauseSource = NoSource | HostPause | ApprovedRequest

  datatype ActivePause = ActivePause(id: Id, session: Id, source: PauseSource, requestedBy: Id, pausedBy: Id,
                                     pausedAt: Time)

  const NO_REQUEST: PauseRequest := PauseRequest(NIL, NIL, NIL, ZERO_TIME)
  const NO_PAUSE: ActivePause := ActivePause(NIL, NIL, NoSource, NIL, NIL, ZERO_TIME)
  const DEFAULT_GAME: string := "liars-dice"
  const MEMBER_SLACK: nat := 1_000_000

  datatype RoomVersions = RoomVersions(room: nat, membership: nat)

  datatype Room = Room(
    id: Id, code: string, visibility: Visibility, status: RoomStatus, host: Id, capacity: nat,
    participantAdmission: Admission, spectatorAdmission: Admission, members: seq<Member>,
    activeSession: Id, activeGame: string, lastSession: Id, lastGame: string,
    request: PauseRequest, pause: ActivePause, selectedGame: string,
    hostEpoch: nat, roomVersion: nat, membershipVersion: nat, createdAt: Time, updatedAt: Time)
  {
    function Versions(): RoomVersions { RoomVersions(roomVersion, membershipVersion) }

    /** The rooms that `Restore` returns unchanged. */
    predicate Valid() {
      && HeaderOk(this) && StatusOk(this) && RosterOk(members, createdAt, updatedAt)
      && HostAndCapacityOk(this) && PauseOk(this)
    }

    /** Rooms reachable from a new one also keep every seat below the capacity. */
    predicate Reachable() {
      Valid() && SeatsBelow(members, capacity)
    }

    predicate IsParticipant(user: Id) {
      exists i :: 0 <= i < |members| && members[i].user == user && members[i].role == ParticipantRole
    }
  }

  predicate ValidCode(code: string) {
    4 <= |code| <= 16 && forall i :: 0 <= i < |code| ==> 'A' <= code[i] <= 'Z' || '0' <= code[i] <= '9'
  }

  predicate HeaderOk(r: Room) {
    && r.id != NIL && r.host != NIL && r.selectedGame != "" && ValidCode(r.code) && r.capacity > 0
    && r.roomVersion > 0 && r.membershipVersion > 0 && r.hostEpoch > 0
    && r.createdAt != ZERO_TIME && r.createdAt <= r.updatedAt
  }

  predicate StatusOk(r: Room) {
    && (r.lastSession == NIL <==> r.lastGame == "")
    && (if r.status == Playing then r.activeSession != NIL && r.activeGame != ""
                                   && r.participantAdmission == AdmissionClosed
        else r.activeSession == NIL && r.activeGame == "")
    && (r.status == Lobby || r.status == Playing ==> r.lastSession == NIL)
    && (r.status == PostGame ==> r.lastSession != NIL)
    && (r.status == Closed ==> r.participantAdmission == AdmissionClosed && r.spectatorAdmission == AdmissionClosed)
  }

  predicate MemberOk(m: Member, createdAt: Time, updatedAt: Time) {
    && m.user != NIL && m.joinedAt != ZERO_TIME && createdAt <= m.joinedAt <= m.lastSeenAt <= updatedAt
    && match m.role
       case ParticipantRole => m.requested == None
       case SpectatorRole => m.requested == None && m.seat == 0
       case WaitingRole => (m.requested == Some(ParticipantRole) || m.requested == Some(SpectatorRole)) && m.seat == 0
  }

  predicate SeparateMembers(a: Member, b: Member) {
    a.user != b.user && (a.role == ParticipantRole && b.role == ParticipantRole ==> a.seat != b.seat)
  }

  predicate RosterOk(ms: seq<Member>, createdAt: Time, updatedAt: Time) {
    && (forall i :: 0 <= i < |ms| ==> MemberOk(ms[i], createdAt, updatedAt))
    && (forall i, j {:trigger SeparateMembers(ms[i], ms[j])} :: 0 <= i < j < |ms| ==> SeparateMembers(ms[i], ms[j]))
  }

  function ParticipantCount(ms: seq<Member>): nat {
    if ms == [] then 0 else (if ms[0].role == ParticipantRole then 1 else 0) + ParticipantCount(ms[1..])
  }

  predicate HostAndCapacityOk(r: Room) {
    && 0 < |r.members| <= r.capacity + MEMBER_SLACK && r.IsParticipant(r.host)
    && ParticipantCount(r.members) <= r.capacity
  }

  predicate PauseOk(r: Room) {
    && (r.request == NO_REQUEST || r.pause == NO_PAUSE)
    && (r.request != NO_REQUEST || r.pause != NO_PAUSE ==> r.status == Playing)
    && (r.request != NO_REQUEST ==>
          && r.request.id != NIL && r.request.session == r.activeSession && r.request.requestedBy != NIL
          && r.request.requestedAt != ZERO_TIME && r.createdAt <= r.request.requestedAt <= r.updatedAt
          && r.IsParticipant(r.request.requestedBy) && r.request.requestedBy != r.host)
    && (r.pause != NO_PAUSE ==>
          && r.pause.id != NIL && r.pause.session == r.activeSession && r.pause.source != NoSource
          && r.pause.pausedBy != NIL
          && r.pause.pausedAt != ZERO_TIME && r.createdAt <= r.pause.pausedAt <= r.updatedAt
          && (r.pause.source == HostPause <==> r.pause.requestedBy == NIL))
  }

  predicate SeatsBelow(ms: seq<Member>, capacity: nat) {
    forall i :: 0 <= i < |ms| && ms[i].role == ParticipantRole ==> ms[i].seat < capacity
  }

  /** Old rows predate table selection and host fencing. */
  function Normalise(r: Room): Room {
    r.(selectedGame := if r.selectedGame == "" then DEFAULT_GAME else r.selectedGame,
       hostEpoch := if r.hostEpoch == 0 then 1 else r.hostEpoch)
  }

  function Restore(snapshot: Room): Result<Room> {
    var r := Normalise(snapshot);
    if r.Valid() then Ok(r) else Err(InvalidRoomInput)
  }

  lemma RestoreFixedPoint(r: Room)
    ensures r.Valid() <==> Restore(r) == Ok(r)
    ensures Restore(r).Ok? ==> Restore(r).value.Valid()
  {
    if r.Valid() { assert Normalise(r) == r; }
  }

  // ----- seats -----

  function UsedSeats(ms: seq<Member>): set<nat> {
    set i | 0 <= i < |ms| && ms[i].role == ParticipantRole :: ms[i].seat
  }

  function FirstFree(used: set<nat>, seat: nat, capacity: nat): (r: Option<nat>)
    requires seat <= capacity
    ensures r.Some? ==> seat <= r.value < capacity && r.value !in used && forall k :: seat <= k < r.value ==> k in used
    ensures r.None? ==> forall k :: seat <= k < capacity ==> k in used
    decreases capacity - seat
  {
    if seat == capacity then None else if seat !in used then Some(seat) else FirstFree(used, seat + 1, capacity)
  }

  /** The least seat below the capacity that no participant holds. */
  function NextSeat(ms: seq<Member>, capacity: nat): Option<nat> {
    FirstFree(UsedSeats(ms), 0, capacity)
  }

  predicate DistinctSeats(ms: seq<Member>) {
    forall i, j :: 0 <= i < j < |ms| && ms[i].role == ParticipantRole && ms[j].role == ParticipantRole ==>
      ms[i].seat != ms[j].seat
  }

  lemma {:induction false} SeatsCounted(ms: seq<Member>)
    requires DistinctSeats(ms)
    ensures |UsedSeats(ms)| == ParticipantCount(ms)
  {
    if ms == [] {
      assert UsedSeats(ms) == {};
    } else {
      var rest := ms[1..];
      assert DistinctSeats(rest) by {
        forall i, j | 0 <= i < j < |rest| && rest[i].role == ParticipantRole && rest[j].role == ParticipantRole
          ensures rest[i].seat != rest[j].seat
        {
          assert rest[i] == ms[i + 1] && rest[j] == ms[j + 1];
        }
      }
      SeatsCounted(rest);
      forall s ensures s in UsedSeats(ms) <==>
        s in UsedSeats(rest) || (ms[0].role == ParticipantRole && s == ms[0].seat) {
        if s in UsedSeats(ms) {
          var i :| 0 <= i < |ms| && ms[i].role == ParticipantRole && ms[i].seat == s;
          if i > 0 { assert rest[i - 1] == ms[i]; }
        }
        if s in UsedSeats(rest) {
          var i :| 0 <= i < |rest| && rest[i].role == ParticipantRole && rest[i].seat == s;
          assert rest[i] == ms[i + 1];
        }
      }
      if ms[0].role == ParticipantRole {
        assert UsedSeats(ms) == UsedSeats(rest) + {ms[0].seat};
        assert ms[0].seat !in UsedSeats(rest);
      } else {
        assert UsedSeats(ms) == UsedSeats(rest);
      }
    }
  }

  ghost function SeatsUpTo(n: nat): (r: set<nat>)
    ensures |r| == n
    ensures forall k :: k in r <==> 0 <= k < n
  {
    if n == 0 then {} else SeatsUpTo(n - 1) + {n - 1}
  }

  lemma {:induction false} SubsetSmaller(a: set<nat>, b: set<nat>)
    requires a <= b
    ensures |a| <= |b|
    ensures |a| == |b| ==> a == b
    decreases |a|
  {
    if a == {} {
    } else {
      var x :| x in a;
      SubsetSmaller(a - {x}, b - {x});
      assert a == (a - {x}) + {x} && b == (b - {x}) + {x};
    }
  }

  /** Pigeonhole: with distinct seats below the capacity, seating is refused exactly when the room is full. */
  lemma NextSeatRefusesExactlyWhenFull(ms: seq<Member>, capacity: nat)
    requires DistinctSeats(ms) && SeatsBelow(ms, capacity)
    ensures NextSeat(ms, capacity).None? <==> ParticipantCount(ms) == capacity
    ensures ParticipantCount(ms) <= capacity
  {
    var seats := SeatsUpTo(capacity);
    SeatsCounted(ms);
    assert UsedSeats(ms) <= seats;
    SubsetSmaller(UsedSeats(ms), seats);
    if NextSeat(ms, capacity).None? {
      assert seats <= UsedSeats(ms);
      SubsetSmaller(seats, UsedSeats(ms));
    }
  }
}
