/** What every room command keeps, and that a command whose guard passes is never refused by `Restore`. */
module RoomLaws {
  import opened Base
  import opened PartyRoom
  import opened RoomCommands

  predicate Seated(ms: seq<Member>, user: Id, seat: nat) {
    exists i :: 0 <= i < |ms| && ms[i].user == user && ms[i].role == ParticipantRole && ms[i].seat == seat
  }

  /** One committed update of a room, whatever the command. */
  predicate Successor(r: Room, next: Room) {
    && next.id == r.id && next.code == r.code && next.visibility == r.visibility && next.capacity == r.capacity
    && next.createdAt == r.createdAt
    && next.roomVersion == r.roomVersion + 1
    && (next.membershipVersion == r.membershipVersion + 1
        || (next.membershipVersion == r.membershipVersion && next.members == r.members))
    && (next.hostEpoch == r.hostEpoch + 1 || (next.hostEpoch == r.hostEpoch && next.host == r.host))
  }

  /** An update that leaves the running game alone; players may leave but not move or join. */
  ghost predicate KeepsGame(r: Room, next: Room) {
    && next.activeSession == r.activeSession && next.activeGame == r.activeGame && next.pause == r.pause
    && (r.status == Playing <==> next.status == Playing)
    && (r.status == Playing ==> forall user, seat :: Seated(next.members, user, seat) ==> Seated(r.members, user, seat))
  }

  predicate LeavesGameAlone(c: Command) {
    !(c.StartSession? || c.Pause? || c.ResumeSession?
      || c.FinishSession? || c.CancelSession? || c.CancelSessionAndClose?)
  }

  // ----- rosters -----

  lemma RosterLater(ms: seq<Member>, createdAt: Time, before: Time, after: Time)
    requires RosterOk(ms, createdAt, before) && before <= after
    ensures RosterOk(ms, createdAt, after)
  {
  }

  lemma RosterDistinctSeats(ms: seq<Member>, createdAt: Time, updatedAt: Time)
    requires RosterOk(ms, createdAt, updatedAt)
    ensures DistinctSeats(ms)
  {
    forall i, j | 0 <= i < j < |ms| && ms[i].role == ParticipantRole && ms[j].role == ParticipantRole
      ensures ms[i].seat != ms[j].seat
    {
      assert SeparateMembers(ms[i], ms[j]);
    }
  }

  lemma FreshSeat(ms: seq<Member>, capacity: nat)
    requires NextSeat(ms, capacity).Some?
    ensures var seat := NextSeat(ms, capacity).value;
      seat < capacity && forall i :: 0 <= i < |ms| && ms[i].role == ParticipantRole ==> ms[i].seat != seat
  {
    var seat := NextSeat(ms, capacity).value;
    forall i | 0 <= i < |ms| && ms[i].role == ParticipantRole ensures ms[i].seat != seat {
      assert ms[i].seat in UsedSeats(ms);
    }
  }

  lemma RosterAppend(ms: seq<Member>, m: Member, createdAt: Time, at: Time)
    requires RosterOk(ms, createdAt, at) && MemberOk(m, createdAt, at)
    requires forall i :: 0 <= i < |ms| ==> SeparateMembers(ms[i], m)
    ensures RosterOk(ms + [m], createdAt, at)
  {
  }

  lemma RosterReplace(ms: seq<Member>, k: nat, m: Member, createdAt: Time, at: Time)
    requires k < |ms| && RosterOk(ms, createdAt, at) && MemberOk(m, createdAt, at)
    requires m.joinedAt == ms[k].joinedAt && m.lastSeenAt == ms[k].lastSeenAt && m.user == ms[k].user
    requires m.role == ParticipantRole ==>
      forall i :: 0 <= i < |ms| && ms[i].role == ParticipantRole ==> ms[i].seat != m.seat
    ensures RosterOk(ms[k := m], createdAt, at)
  {
    var next := ms[k := m];
    forall i, j | 0 <= i < j < |next| ensures SeparateMembers(next[i], next[j]) {
      assert SeparateMembers(ms[i], ms[j]);
    }
  }

  lemma RosterRemove(ms: seq<Member>, k: nat, createdAt: Time, at: Time)
    requires k < |ms| && RosterOk(ms, createdAt, at)
    ensures RosterOk(ms[..k] + ms[k + 1..], createdAt, at)
    ensures forall m :: m in ms[..k] + ms[k + 1..] ==> m in ms
    ensures forall m :: m in ms && m.user != ms[k].user ==> m in ms[..k] + ms[k + 1..]
  {
    var rest := ms[..k] + ms[k + 1..];
    forall i | 0 <= i < |rest| ensures rest[i] == ms[if i < k then i else i + 1] {}
    forall i, j | 0 <= i < j < |rest| ensures SeparateMembers(rest[i], rest[j]) {
      assert SeparateMembers(ms[if i < k then i else i + 1], ms[if j < k then j else j + 1]);
    }
    forall m | m in ms && m.user != ms[k].user ensures m in rest {
      var i :| 0 <= i < |ms| && ms[i] == m;
      assert rest[if i < k then i else i - 1] == m;
    }
  }

  lemma ReplaceKeepsParticipant(r: Room, k: nat, m: Member, user: Id)
    requires k < |r.members| && r.members[k].role != ParticipantRole && r.IsParticipant(user)
    ensures r.(members := r.members[k := m]).IsParticipant(user)
  {
    var i :| 0 <= i < |r.members| && r.members[i].user == user && r.members[i].role == ParticipantRole;
    assert r.members[k := m][i] == r.members[i];
  }

  // ----- each edit, dated at a time not before the room's -----

  /** The edited roster is still in order, keeps its host and its pause requester, and stays within capacity. */
  predicate GoodRoster(r: Room, next: Room, at: Time) {
    && RosterOk(next.members, r.createdAt, at) && SeatsBelow(next.members, r.capacity) && next.members != []
    && next.IsParticipant(next.host)
    && (next.request != NO_REQUEST ==> next.IsParticipant(next.request.requestedBy))
  }

  lemma JoinKeepsRoster(r: Room, user: Id, intent: Role, expected: RoomVersions, at: Time)
    requires r.Reachable() && r.updatedAt <= at
    requires JoinEdit(r, user, intent, expected, at).Ok? && JoinEdit(r, user, intent, expected, at).value.Change?
    ensures GoodRoster(r, JoinEdit(r, user, intent, expected, at).value.next, at)
  {
    var next := JoinEdit(r, user, intent, expected, at).value.next;
    RosterLater(r.members, r.createdAt, r.updatedAt, at);
    match FindMember(r.members, user)
    case Some(k) =>
      var m := r.members[k].(role := WaitingRole, requested := Some(ParticipantRole), seat := 0);
      RosterReplace(r.members, k, m, r.createdAt, at);
      ReplaceKeepsParticipant(r, k, m, r.host);
      if r.request != NO_REQUEST { ReplaceKeepsParticipant(r, k, m, r.request.requestedBy); }
    case None =>
      var m := AdmitNew(r, user, intent, at).value;
      if m.role == ParticipantRole { FreshSeat(r.members, r.capacity); }
      RosterAppend(r.members, m, r.createdAt, at);
      AppendKeepsParticipant(r, m, r.host);
      if r.request != NO_REQUEST { AppendKeepsParticipant(r, m, r.request.requestedBy); }
  }

  lemma AppendKeepsParticipant(r: Room, m: Member, user: Id)
    requires r.IsParticipant(user)
    ensures r.(members := r.members + [m]).IsParticipant(user)
  {
    var i :| 0 <= i < |r.members| && r.members[i].user == user && r.members[i].role == ParticipantRole;
    assert (r.members + [m])[i] == r.members[i];
  }

  lemma ApproveKeepsRoster(r: Room, actor: Id, user: Id, expected: RoomVersions, at: Time)
    requires r.Reachable() && r.updatedAt <= at && ApproveEdit(r, actor, user, expected, at).Ok?
    ensures GoodRoster(r, ApproveEdit(r, actor, user, expected, at).value.next, at)
  {
    RosterLater(r.members, r.createdAt, r.updatedAt, at);
    var k := FindMember(r.members, user).value;
    var m := r.members[k];
    var promoted := if m.requested == Some(ParticipantRole)
      then m.(role := ParticipantRole, requested := None, seat := NextSeat(r.members, r.capacity).value)
      else m.(role := SpectatorRole, requested := None);
    if m.requested == Some(ParticipantRole) { FreshSeat(r.members, r.capacity); }
    RosterReplace(r.members, k, promoted, r.createdAt, at);
    ReplaceKeepsParticipant(r, k, promoted, r.host);
  }

  lemma RemoveKeepsRoster(r: Room, authority: Authority, user: Id, expected: RoomVersions, at: Time)
    requires r.Reachable() && r.updatedAt <= at && RemoveEdit(r, authority, user, expected, at).Ok?
    ensures GoodRoster(r, RemoveEdit(r, authority, user, expected, at).value.next, at)
  {
    RosterLater(r.members, r.createdAt, r.updatedAt, at);
    var k := FindMember(r.members, user).value;
    var rest := r.members[..k] + r.members[k + 1..];
    var next := RemoveEdit(r, authority, user, expected, at).value.next;
    RosterRemove(r.members, k, r.createdAt, at);
    forall i | 0 <= i < |rest| && rest[i].role == ParticipantRole ensures rest[i].seat < r.capacity {
      assert rest[i] in r.members;
    }
    StaysParticipant(r, next, r.host);
    if next.request != NO_REQUEST { StaysParticipant(r, next, r.request.requestedBy); }
  }

  lemma StaysParticipant(r: Room, next: Room, user: Id)
    requires r.IsParticipant(user) && forall m :: m in r.members && m.user == user ==> m in next.members
    ensures next.IsParticipant(user)
  {
    var i :| 0 <= i < |r.members| && r.members[i].user == user && r.members[i].role == ParticipantRole;
    assert r.members[i] in next.members;
  }

  lemma EditKeepsRoster(r: Room, c: Command)
    requires r.Reachable() && r.updatedAt <= Micros(c.at) && Guard(r, c).Ok? && Guard(r, c).value.Change?
    ensures GoodRoster(r, Guard(r, c).value.next, Micros(c.at))
  {
    var at := Micros(c.at);
    RosterLater(r.members, r.createdAt, r.updatedAt, at);
    match c
    case Join(user, intent, expected, _) => JoinKeepsRoster(r, user, intent, expected, at);
    case ApproveWaiting(actor, user, expected, _) => ApproveKeepsRoster(r, actor, user, expected, at);
    case RemoveMember(authority, user, expected, _) => RemoveKeepsRoster(r, authority, user, expected, at);
    case _ =>
      assert Guard(r, c).value.next.members == r.members;
  }

  /** The edited room apart from its roster: status, admission, pointers and pause governance still fit together. */
  predicate GoodGovernance(r: Room, next: Room, at: Time) {
    && HeaderOk(next.(updatedAt := at)) && StatusOk(next) && next.createdAt == r.createdAt
    && next.capacity == r.capacity
    && next.roomVersion == r.roomVersion && next.membershipVersion == r.membershipVersion
    && (GoodRoster(r, next, at) ==> PauseOk(next.(updatedAt := at)))
  }

  lemma MembershipEditGoverned(r: Room, c: Command)
    requires r.Reachable() && r.updatedAt <= Micros(c.at) && Guard(r, c).Ok? && Guard(r, c).value.Change?
    requires c.Join? || c.ApproveWaiting? || c.RemoveMember? || c.SetAdmission? || c.SelectGame?
    ensures GoodGovernance(r, Guard(r, c).value.next, Micros(c.at))
  {
  }

  lemma PauseEditGoverned(r: Room, c: Command)
    requires r.Reachable() && r.updatedAt <= Micros(c.at) && Guard(r, c).Ok?
    requires c.RequestPause? || c.RejectPause? || c.Pause? || c.ResumeSession? || c.TransferHost?
    ensures GoodGovernance(r, Guard(r, c).value.next, Micros(c.at))
  {
  }

  lemma GameEditGoverned(r: Room, c: Command)
    requires r.Reachable() && r.updatedAt <= Micros(c.at) && Guard(r, c).Ok? && Guard(r, c).value.Change?
    requires c.StartSession? || c.Close? || c.FinishSession? || c.CancelSession? || c.CancelSessionAndClose?
    ensures GoodGovernance(r, Guard(r, c).value.next, Micros(c.at))
  {
  }

  lemma GoodEditAccepted(r: Room, next: Room, membershipChanged: bool, at: Time)
    requires GoodRoster(r, next, at) && GoodGovernance(r, next, at)
    requires r.roomVersion != MAX_UINT64 && (membershipChanged ==> r.membershipVersion != MAX_UINT64)
    requires |next.members| <= r.capacity + MEMBER_SLACK
    ensures Apply(r, Change(next, membershipChanged), at).Ok?
    ensures Apply(r, Change(next, membershipChanged), at).value.Reachable()
  {
    var bumped := Bump(next, membershipChanged, at).value;
    RosterDistinctSeats(next.members, r.createdAt, at);
    NextSeatRefusesExactlyWhenFull(next.members, r.capacity);
    assert bumped.IsParticipant(bumped.host);
    assert next.request != NO_REQUEST ==> bumped.IsParticipant(bumped.request.requestedBy);
    RestoreFixedPoint(bumped);
  }

  /**
   * A command whose guard passes at a time not before the room's last update is accepted, apart from
   * version overflow and the member limit, and the result is again a reachable room.
   */
  lemma GuardSuffices(r: Room, c: Command)
    requires r.Reachable() && r.updatedAt <= Micros(c.at) && Guard(r, c).Ok?
    requires Guard(r, c).value.Change? ==>
      && r.roomVersion != MAX_UINT64 && (Guard(r, c).value.membershipChanged ==> r.membershipVersion != MAX_UINT64)
      && |Guard(r, c).value.next.members| <= r.capacity + MEMBER_SLACK
    ensures Execute(r, c).Ok? && Execute(r, c).value.Reachable()
  {
    var e := Guard(r, c).value;
    if e.Change? {
      EditKeepsRoster(r, c);
      if c.Join? || c.ApproveWaiting? || c.RemoveMember? || c.SetAdmission? || c.SelectGame? {
        MembershipEditGoverned(r, c);
      } else if c.RequestPause? || c.RejectPause? || c.Pause? || c.ResumeSession? || c.TransferHost? {
        PauseEditGoverned(r, c);
      } else {
        GameEditGoverned(r, c);
      }
      GoodEditAccepted(r, e.next, e.membershipChanged, Micros(c.at));
    }
  }

  // ----- what an accepted command did -----

  /** Nothing in the snapshot is left for `Restore` to normalise. */
  predicate Normal(r: Room) {
    r.selectedGame != "" && r.hostEpoch != 0
  }

  lemma EditNormal(r: Room, c: Command)
    requires Normal(r) && Guard(r, c).Ok? && Guard(r, c).value.Change?
    ensures Normal(Guard(r, c).value.next)
  {
  }

  /** The room that a change commits, before `Restore` looks at it. */
  function Dated(next: Room, membershipChanged: bool, at: Time): Room {
    next.(roomVersion := next.roomVersion + 1,
          membershipVersion := if membershipChanged then next.membershipVersion + 1 else next.membershipVersion,
          updatedAt := at)
  }

  lemma ApplyExact(r: Room, e: Edit, at: Time)
    requires Apply(r, e, at).Ok? && (e.Change? ==> Normal(e.next))
    ensures e.Keep? ==> Apply(r, e, at).value == r
    ensures e.Change? ==>
      Apply(r, e, at).value == Dated(e.next, e.membershipChanged, at) && Apply(r, e, at).value.Valid()
  {
    if e.Change? {
      var bumped := Bump(e.next, e.membershipChanged, at).value;
      assert Normalise(bumped) == bumped;
    }
  }

  /** An accepted change commits exactly the edited snapshot with its new versions and time. */
  lemma ExecuteExact(r: Room, c: Command)
    requires r.Valid() && Execute(r, c).Ok?
    ensures Execute(r, c).value.Valid()
    ensures Guard(r, c).value.Keep? ==> Execute(r, c).value == r
    ensures Guard(r, c).value.Change? ==>
      Execute(r, c).value == Dated(Guard(r, c).value.next, Guard(r, c).value.membershipChanged, Micros(c.at))
  {
    if Guard(r, c).value.Change? { EditNormal(r, c); }
    ApplyExact(r, Guard(r, c).value, Micros(c.at));
  }

  lemma EditSucceeds(r: Room, c: Command)
    requires Guard(r, c).Ok? && Guard(r, c).value.Change?
    ensures Successor(r, Dated(Guard(r, c).value.next, Guard(r, c).value.membershipChanged, Micros(c.at)))
    ensures SeatsBelow(r.members, r.capacity) ==> SeatsBelow(Guard(r, c).value.next.members, r.capacity)
  {
    if c.RemoveMember? && SeatsBelow(r.members, r.capacity) {
      var k := FindMember(r.members, c.user).value;
      assert SeatsBelow(r.members[..k], r.capacity) && SeatsBelow(r.members[k + 1..], r.capacity);
    }
  }

  /** Versions, fences and identity move as `Successor` says, and seats stay below the capacity. */
  lemma ExecuteSuccessor(r: Room, c: Command)
    requires r.Reachable() && Execute(r, c).Ok?
    ensures Execute(r, c).value.Reachable()
    ensures Execute(r, c).value == r || Successor(r, Execute(r, c).value)
  {
    ExecuteExact(r, c);
    if Guard(r, c).value.Change? { EditSucceeds(r, c); }
  }

  lemma SeatedElsewhere(ms: seq<Member>, next: seq<Member>)
    requires forall m :: m in next && m.role == ParticipantRole ==> m in ms
    ensures forall user, seat :: Seated(next, user, seat) ==> Seated(ms, user, seat)
  {
    forall user, seat | Seated(next, user, seat) ensures Seated(ms, user, seat) {
      var i :| 0 <= i < |next| && next[i].user == user && next[i].role == ParticipantRole && next[i].seat == seat;
      assert next[i] in next;
    }
  }

  lemma FreeEditKeepsPlayers(r: Room, c: Command)
    requires r.Valid() && r.status == Playing && LeavesGameAlone(c) && Guard(r, c).Ok? && Guard(r, c).value.Change?
    ensures forall user, seat :: Seated(Guard(r, c).value.next.members, user, seat) ==> Seated(r.members, user, seat)
  {
    var next := Guard(r, c).value.next;
    if c.RemoveMember? {
      RosterRemove(r.members, FindMember(r.members, c.user).value, r.createdAt, r.updatedAt);
    } else if c.Join? {
      forall m | m in next.members && m.role == ParticipantRole ensures m in r.members {
        var i :| 0 <= i < |next.members| && next.members[i] == m;
        assert i < |r.members| && r.members[i] == m;
      }
    } else {
      assert next.members == r.members;
    }
    SeatedElsewhere(r.members, next.members);
  }

  /** Joining, approving, admission, pause requests, host transfer and removal never disturb the running game. */
  lemma FreeCommandKeepsGame(r: Room, c: Command)
    requires r.Valid() && LeavesGameAlone(c) && Execute(r, c).Ok?
    ensures KeepsGame(r, Execute(r, c).value)
  {
    ExecuteExact(r, c);
    if r.status == Playing && Guard(r, c).value.Change? { FreeEditKeepsPlayers(r, c); }
  }

  lemma NewRoomReachable(id: Id, host: Id, code: string, visibility: Visibility, capacity: nat, participant: Admission,
                         spectator: Admission, at: Reading)
    ensures var made := NewRoom(id, host, code, visibility, capacity, participant, spectator, at);
      && (made.Ok? <==> id != NIL && host != NIL && Micros(at) != ZERO_TIME && ValidCode(code) && capacity > 0)
      && (made.Ok? ==>
            && made.value.Reachable()
            && made.value == Room(id, code, visibility, Lobby, host, capacity, participant, spectator,
                                  [Member(host, ParticipantRole, None, 0, Micros(at), Micros(at))], NIL, "", NIL, "",
                                  NO_REQUEST, NO_PAUSE, "liars-dice", 1, 1, 1, Micros(at), Micros(at)))
  {
    var t := Micros(at);
    if id != NIL && host != NIL && t != ZERO_TIME && ValidCode(code) && capacity > 0 {
      var x := Room(id, code, visibility, Lobby, host, capacity, participant, spectator,
                    [Member(host, ParticipantRole, None, 0, t, t)], NIL, "", NIL, "",
                    NO_REQUEST, NO_PAUSE, DEFAULT_GAME, 1, 1, 1, t, t);
      assert x.members[0].user == host;
      assert ParticipantCount(x.members) == 1;
      RestoreFixedPoint(x);
      assert Normalise(x.(hostEpoch := 0)) == x;
    }
  }
}
