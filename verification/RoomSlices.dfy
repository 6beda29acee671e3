/**
 * Removing a member as the aggregate does it: by shifting the member slice in place. The receiver keeps a view of the
 * same array, and the service hands that receiver to the store as the room it read.
 */
module RoomSlices {
  import opened Base
  import opened PartyRoom
  import opened RoomCommands
  import opened RoomLaws
  import opened RuntimeStore
  import opened RuntimeService

  function Without(ms: seq<Member>, k: nat): seq<Member>
    requires k < |ms|
  {
    ms[..k] + ms[k + 1..]
  }

  /** What the receiver's view holds afterwards: the others moved up, the last one twice. */
  function Shifted(ms: seq<Member>, k: nat): seq<Member>
    requires k < |ms|
  {
    Without(ms, k) + [ms[|ms| - 1]]
  }

  /** The append of the tail onto the head of the same array. */
  method RemoveInPlace(members: array<Member>, k: nat) returns (next: seq<Member>)
    requires k < members.Length
    modifies members
    ensures next == Without(old(members[..]), k)
    ensures members[..] == Shifted(old(members[..]), k)
  {
    var n := members.Length;
    var i := k;
    while i < n - 1
      invariant k <= i <= n - 1
      invariant forall j :: 0 <= j < k ==> members[j] == old(members[j])
      invariant forall j :: k <= j < i ==> members[j] == old(members[j + 1])
      invariant forall j :: i <= j < n ==> members[j] == old(members[j])
    {
      members[i] := members[i + 1];
      i := i + 1;
    }
    next := members[..n - 1];
  }

  /** The service's removal with the room it passes on: the receiver after the shift. */
  function RemovePlayerInPlace(db: Tables, room: Room, authority: Authority, user: Id, expected: RoomVersions,
                               at: Reading, eventId: Id, payload: Digest): Result<Tables> {
    match Execute(room, RemoveMember(authority, user, expected, at))
    case Err(e) => Err(e)
    case Ok(next) =>
      match FindMember(room.members, user)
      case None => Err(MemberNotFound)
      case Some(k) => CommitRemoval(db, room.(members := Shifted(room.members, k)), next, user, eventId, payload)
  }

  lemma ShiftedLosesUser(room: Room, user: Id, k: nat)
    requires room.Valid() && FindMember(room.members, user) == Some(k)
    ensures k == |room.members| - 1 ==> Shifted(room.members, k) == room.members
    ensures k < |room.members| - 1 ==> !room.(members := Shifted(room.members, k)).IsParticipant(user)
  {
    var ms := room.members;
    if k == |ms| - 1 {
      assert ms[k + 1..] == [] && ms == ms[..k] + [ms[k]];
    } else {
      forall j | 0 <= j < |Shifted(ms, k)| ensures Shifted(ms, k)[j].user != user {
        var source := if j < k then j else if j < |ms| - 1 then j + 1 else |ms| - 1;
        assert Shifted(ms, k)[j] == ms[source];
        assert if source < k then SeparateMembers(ms[source], ms[k]) else SeparateMembers(ms[k], ms[source]);
      }
    }
  }

  /** Removing a player from a running game commits exactly when it should and the player is last in the member list. */
  lemma RemovalCommitsIffLast(db: Tables, room: Room, authority: Authority, user: Id, expected: RoomVersions,
                              at: Reading, eventId: Id, payload: Digest)
    requires room.Valid()
    ensures var r := RemovePlayerInPlace(db, room, authority, user, expected, at, eventId, payload);
      var intended := RemovePlayer(db, room, authority, user, expected, at, eventId, payload);
      && (r.Ok? <==> intended.Ok? && FindMember(room.members, user) == Some(|room.members| - 1))
      && (r.Ok? ==> r == intended)
  {
    match FindMember(room.members, user)
    case None =>
    case Some(k) => ShiftedLosesUser(room, user, k);
  }

  /** Every other update of a room is indifferent to the members of the room it was computed from. */
  lemma OtherUpdatesIgnoreReceiver(db: Tables, room: Room, members: seq<Member>, next: Room)
    ensures UpdateCAS(db, room.(members := members), next) == UpdateCAS(db, room, next)
  {
  }

  /** A game of three; the host removes the second player. */
  const THREE_PLAYERS: Room := Room(1, "ROOM1", Private, Playing, 1, 3, AdmissionClosed, AdmissionOpen,
    [Member(1, ParticipantRole, None, 0, 1000, 1000), Member(2, ParticipantRole, None, 1, 1000, 1000),
     Member(3, ParticipantRole, None, 2, 1000, 1000)],
    7, "dice", NIL, "", NO_REQUEST, NO_PAUSE, "dice", 1, 3, 2, 1000, 2000)

  const TABLE: Tables := NOTHING.(rooms := map[1 := THREE_PLAYERS])

  /** The removal is in order, and the store refuses it. */
  lemma SecondOfThreeIsRefused(eventId: Id, payload: Digest)
    requires eventId != NIL
    ensures RemovePlayer(TABLE, THREE_PLAYERS, ByHost(1), 2, THREE_PLAYERS.Versions(), 5_000_000, eventId, payload).Ok?
    ensures RemovePlayerInPlace(TABLE, THREE_PLAYERS, ByHost(1), 2, THREE_PLAYERS.Versions(), 5_000_000, eventId,
                                payload).Err?
  {
    var r := THREE_PLAYERS;
    var c := RemoveMember(ByHost(1), 2, r.Versions(), 5_000_000);
    ThreePlayersReachable();
    assert FindMember(r.members, 2) == Some(1) by { assert r.members[0].user == 1 && r.members[1].user == 2; }
    assert Guard(r, c).Ok?;
    GuardSuffices(r, c);
    ExecuteExact(r, c);
    RemovalCommitsIffLast(TABLE, r, ByHost(1), 2, r.Versions(), 5_000_000, eventId, payload);
  }

  lemma ThreePlayersReachable()
    ensures THREE_PLAYERS.Reachable()
  {
    var r := THREE_PLAYERS;
    assert r.members[0].user == 1 && r.members[1].user == 2 && r.members[2].user == 3;
    assert r.members[1..] == [r.members[1], r.members[2]];
    assert r.members[1..][1..] == [r.members[2]];
    assert ParticipantCount(r.members) == 3;
  }
}
