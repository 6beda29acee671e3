/**
 * What each room command asks for and what it does, stated on the rooms before and after: exactly who may give it and
 * when, which fields it sets and to what, and that every refusal names its reason.
 */
module RoomEffects {
  import opened Base
  import opened PartyRoom
  import opened RoomCommands
  import opened RoomLaws

  // ----- who and when -----

  /** A host's command needs the current host, an administrator's only a name, a pause request a playing guest. */
  predicate Entitled(r: Room, c: Command) {
    match c
    case Join(user, intent, _, _) => user != NIL && intent != WaitingRole
    case SetAdmission(authority, _, _, _, _) =>
      authority == ByHost(r.host) || (authority.ByAdmin? && authority.admin != NIL)
    case RemoveMember(authority, _, _, _) =>
      authority == ByHost(r.host) || (authority.ByAdmin? && authority.admin != NIL)
    case Close(authority, _, _) => authority == ByHost(r.host) || (authority.ByAdmin? && authority.admin != NIL)
    case RequestPause(actor, _, _, _, _) => actor != r.host && r.IsParticipant(actor)
    case FinishSession(_, _, _) => true
    case CancelSession(_, _, _) => true
    case _ => c.actor == r.host
  }

  predicate Member?(r: Room, user: Id) { exists k :: 0 <= k < |r.members| && r.members[k].user == user }

  function Mode(r: Room, intent: Role): Admission {
    if intent == SpectatorRole then r.spectatorAdmission else r.participantAdmission
  }

  /** Someone new gets in: to the queue of a running game, or as far as the admission for that intent goes. */
  predicate AdmitsNew(r: Room, intent: Role) {
    && r.status != Closed
    && (|| (r.status == Playing && intent == ParticipantRole) || Mode(r, intent) == AdmissionApproval
        || (&& Mode(r, intent) == AdmissionOpen
            && (intent == ParticipantRole ==> ParticipantCount(r.members) < r.capacity)))
  }

  predicate Waiting(r: Room, user: Id, requested: Role) {
    exists k :: 0 <= k < |r.members| && r.members[k].user == user && r.members[k].role == WaitingRole
                && r.members[k].requested == Some(requested)
  }

  predicate PlaysNow(r: Room, session: Id) { r.status == Playing && r.activeSession == session }

  /** The room is in a state for the command. */
  predicate InState(r: Room, c: Command) {
    match c
    case Join(user, intent, _, _) => Member?(r, user) || AdmitsNew(r, intent)
    case SetAdmission(_, _, _, _, _) => r.status == Lobby || r.status == PostGame
    case SelectGame(_, game, _, _) => (r.status == Lobby || r.status == PostGame) && game != ""
    case ApproveWaiting(_, user, _, _) =>
      && (r.status == Lobby || r.status == PostGame)
      && (Waiting(r, user, SpectatorRole)
          || (Waiting(r, user, ParticipantRole) && ParticipantCount(r.members) < r.capacity))
    case RequestPause(_, requestId, session, _, _) =>
      requestId != NIL && PlaysNow(r, session) && r.request == NO_REQUEST && r.pause == NO_PAUSE
    case RejectPause(_, requestId, _, _) => requestId != NIL && r.request.id == requestId
    case TransferHost(_, target, epoch, _, _) =>
      && r.status != Closed && target != r.host && r.IsParticipant(target) && epoch == r.hostEpoch
      && r.hostEpoch != MAX_UINT64
    case RemoveMember(_, user, _, _) => user != r.host && Member?(r, user)
    case Close(_, _, _) => r.status != Playing
    case StartSession(_, session, game, lo, hi, _, _) =>
      && (r.status == Lobby || r.status == PostGame) && session != NIL && game != ""
      && 0 < lo <= ParticipantCount(r.members) <= hi
    case Pause(_, pauseId, session, requestId, _, _) =>
      && pauseId != NIL && PlaysNow(r, session) && r.pause == NO_PAUSE
      && (requestId != NIL ==> r.request.id == requestId)
    case ResumeSession(_, session, _, _) => PlaysNow(r, session) && r.pause != NO_PAUSE
    case FinishSession(session, _, _) => PlaysNow(r, session)
    case CancelSession(session, _, _) => PlaysNow(r, session)
    case CancelSessionAndClose(_, session, _, _) => PlaysNow(r, session)
  }

  // ----- what it does -----

  /** The least seat that no participant holds. */
  predicate LeastFreeSeat(ms: seq<Member>, seat: nat) {
    && !Occupied(ms, seat)
    && forall s: nat :: s < seat ==> Occupied(ms, s)
  }

  predicate Occupied(ms: seq<Member>, seat: nat) {
    exists i :: 0 <= i < |ms| && ms[i].role == ParticipantRole && ms[i].seat == seat
  }

  /** How a new member comes in. */
  predicate ComesIn(r: Room, m: Member, user: Id, intent: Role, at: Time) {
    && m.user == user && m.joinedAt == at && m.lastSeenAt == at
    && if r.status == Playing && intent == ParticipantRole
       then m.role == WaitingRole && m.requested == Some(ParticipantRole) && m.seat == 0
       else if Mode(r, intent) == AdmissionApproval
       then m.role == WaitingRole && m.requested == Some(intent) && m.seat == 0
       else if intent == ParticipantRole
       then m.role == ParticipantRole && m.requested == None && m.seat < r.capacity && LeastFreeSeat(r.members, m.seat)
       else m.role == SpectatorRole && m.requested == None && m.seat == 0
  }

  /** One member changed role, the others are as they were. */
  predicate MovesOne(before: seq<Member>, after: seq<Member>, user: Id, role: Role, requested: Option<Role>) {
    && |after| == |before|
    && forall k :: 0 <= k < |before| ==>
         if before[k].user != user then after[k] == before[k]
         else after[k] == before[k].(role := role, requested := requested, seat := after[k].seat)
  }

  predicate Joins(r: Room, next: Room, user: Id, intent: Role, at: Time) {
    if !Member?(r, user) then
      && |next.members| == |r.members| + 1 && next.members[..|r.members|] == r.members
      && ComesIn(r, next.members[|r.members|], user, intent, at)
      && next == Dated(r.(members := next.members), true, at)
    else if intent == ParticipantRole && QueuesUp(r, user) then
      && MovesOne(r.members, next.members, user, WaitingRole, Some(ParticipantRole))
      && (forall k :: 0 <= k < |next.members| && next.members[k].user == user ==> next.members[k].seat == 0)
      && next == Dated(r.(members := next.members), true, at)
    else next == r
  }

  predicate Approves(r: Room, next: Room, user: Id, at: Time) {
    && next == Dated(r.(members := next.members), true, at)
    && if Waiting(r, user, ParticipantRole) then
         && MovesOne(r.members, next.members, user, ParticipantRole, None)
         && forall k :: 0 <= k < |next.members| && next.members[k].user == user ==>
              next.members[k].seat < r.capacity && LeastFreeSeat(r.members, next.members[k].seat)
       else
         && MovesOne(r.members, next.members, user, SpectatorRole, None)
         && forall k :: 0 <= k < |next.members| && next.members[k].user == user ==> next.members[k].seat == 0
  }

  /** The members but one, in their order. */
  predicate Leaves(before: seq<Member>, after: seq<Member>, user: Id) {
    exists k :: 0 <= k < |before| && before[k].user == user && after == before[..k] + before[k + 1..]
  }

  function WithoutRequestOf(r: Room, user: Id): PauseRequest {
    if r.request.requestedBy == user then NO_REQUEST else r.request
  }

  /** A room with no game and no pause; participants have to be admitted again. */
  function GameOver(r: Room, status: RoomStatus): Room {
    r.(status := status, activeSession := NIL, activeGame := "", lastSession := NIL, lastGame := "",
       participantAdmission := AdmissionClosed, request := NO_REQUEST, pause := NO_PAUSE)
  }

  predicate OfPause(c: Command) { c.RequestPause? || c.RejectPause? || c.Pause? || c.ResumeSession? }

  predicate OfGame(c: Command) {
    c.StartSession? || c.FinishSession? || c.CancelSession? || c.CancelSessionAndClose?
  }

  predicate MovesPause(r: Room, c: Command, next: Room)
    requires OfPause(c)
  {
    var at := Micros(c.at);
    match c
    case RequestPause(actor, requestId, session, _, _) =>
      next == Dated(r.(request := PauseRequest(requestId, session, actor, at)), false, at)
    case RejectPause(_, _, _, _) => next == Dated(r.(request := NO_REQUEST), false, at)
    case Pause(actor, pauseId, session, requestId, _, _) =>
      && next == Dated(r.(request := NO_REQUEST, pause := next.pause), false, at)
      && next.pause.id == pauseId && next.pause.session == session && next.pause.pausedBy == actor
      && next.pause.pausedAt == at
      && (if requestId == NIL then next.pause.source == HostPause && next.pause.requestedBy == NIL
          else next.pause.source == ApprovedRequest && next.pause.requestedBy == r.request.requestedBy)
    case ResumeSession(_, _, _, _) => next == Dated(r.(pause := NO_PAUSE), false, at)
  }

  predicate MovesGame(r: Room, c: Command, next: Room)
    requires OfGame(c)
  {
    var at := Micros(c.at);
    match c
    case StartSession(_, session, game, _, _, _, _) =>
      next == Dated(r.(status := Playing, activeSession := session, activeGame := game, lastSession := NIL,
                       lastGame := "", participantAdmission := AdmissionClosed), false, at)
    case FinishSession(session, _, _) =>
      next == Dated(GameOver(r, PostGame).(lastSession := session, lastGame := r.activeGame), false, at)
    case CancelSession(_, _, _) => next == Dated(GameOver(r, Lobby), false, at)
    case CancelSessionAndClose(_, _, _, _) =>
      next == Dated(GameOver(r, Closed).(spectatorAdmission := AdmissionClosed), false, at)
  }

  /** The room after an accepted command: what it set, and that nothing else moved but version and time. */
  predicate Does(r: Room, c: Command, next: Room) {
    var at := Micros(c.at);
    match c
    case Join(user, intent, _, _) => Joins(r, next, user, intent, at)
    case ApproveWaiting(_, user, _, _) => Approves(r, next, user, at)
    case RemoveMember(_, user, _, _) =>
      && Leaves(r.members, next.members, user)
      && next == Dated(r.(members := next.members, request := WithoutRequestOf(r, user)), true, at)
    case SetAdmission(_, participant, spectator, _, _) =>
      next == Dated(r.(participantAdmission := participant, spectatorAdmission := spectator), false, at)
    case SelectGame(_, game, _, _) =>
      next == if r.selectedGame == game then r else Dated(r.(selectedGame := game), false, at)
    case TransferHost(_, target, _, _, _) =>
      next == Dated(r.(host := target, hostEpoch := r.hostEpoch + 1, request := WithoutRequestOf(r, target)), false, at)
    case Close(_, _, _) =>
      next == if r.status == Closed then r
              else Dated(r.(status := Closed, participantAdmission := AdmissionClosed,
                            spectatorAdmission := AdmissionClosed), false, at)
    case _ => if OfPause(c) then MovesPause(r, c, next) else OfGame(c) && MovesGame(r, c, next)
  }

  // ----- seats -----

  lemma NextSeatIsLeast(ms: seq<Member>, capacity: nat)
    requires NextSeat(ms, capacity).Some?
    ensures NextSeat(ms, capacity).value < capacity && LeastFreeSeat(ms, NextSeat(ms, capacity).value)
  {
    var seat := NextSeat(ms, capacity).value;
    FreshSeat(ms, capacity);
    forall s: nat | s < seat ensures Occupied(ms, s) { assert s in UsedSeats(ms); }
  }

  lemma SeatLeftIff(r: Room)
    requires r.Reachable()
    ensures NextSeat(r.members, r.capacity).Some? <==> ParticipantCount(r.members) < r.capacity
  {
    RosterDistinctSeats(r.members, r.createdAt, r.updatedAt);
    NextSeatRefusesExactlyWhenFull(r.members, r.capacity);
  }

  /** Users are distinct, so the first member found is the only one. */
  lemma OnlyMember(r: Room, i: nat, k: nat)
    requires r.Valid() && i < |r.members| && k < |r.members| && r.members[i].user == r.members[k].user
    ensures i == k
  {
    var a, b := r.members[i], r.members[k];
    assert i < k ==> SeparateMembers(a, b);
    assert k < i ==> SeparateMembers(b, a);
  }

  lemma FoundIs(r: Room, user: Id, k: nat)
    requires r.Valid() && k < |r.members| && r.members[k].user == user
    ensures FindMember(r.members, user) == Some(k)
  {
    OnlyMember(r, FindMember(r.members, user).value, k);
  }

  lemma OthersMoved(r: Room, k: nat, m: Member, after: seq<Member>)
    requires r.Valid() && k < |r.members| && m.user == r.members[k].user && after == r.members[k := m]
    requires m == r.members[k].(role := m.role, requested := m.requested, seat := m.seat)
    ensures MovesOne(r.members, after, m.user, m.role, m.requested)
    ensures forall i :: 0 <= i < |after| && after[i].user == m.user ==> after[i] == m
  {
    forall i | 0 <= i < |r.members| && r.members[i].user == m.user ensures i == k { OnlyMember(r, i, k); }
  }

  // ----- exactly when -----

  lemma JoinGuardIff(r: Room, c: Command)
    requires r.Reachable() && c.Join? && Micros(c.at) != ZERO_TIME
    ensures Guard(r, c).Ok? <==> Entitled(r, c) && InState(r, c) && c.expected == r.Versions()
  {
    SeatLeftIff(r);
  }

  lemma ApproveGuardIff(r: Room, c: Command)
    requires r.Reachable() && c.ApproveWaiting? && Micros(c.at) != ZERO_TIME
    ensures Guard(r, c).Ok? <==> Entitled(r, c) && InState(r, c) && c.expected == r.Versions()
  {
    SeatLeftIff(r);
    forall k | 0 <= k < |r.members| && r.members[k].user == c.user
      ensures FindMember(r.members, c.user) == Some(k) && MemberOk(r.members[k], r.createdAt, r.updatedAt)
    {
      FoundIs(r, c.user, k);
    }
  }

  lemma ParticipantFound(r: Room, user: Id)
    requires r.Valid()
    ensures r.IsParticipant(user) <==>
      FindMember(r.members, user).Some? && r.members[FindMember(r.members, user).value].role == ParticipantRole
    ensures user == NIL ==> !r.IsParticipant(user) && !Member?(r, user)
  {
    if r.IsParticipant(user) {
      var k :| 0 <= k < |r.members| && r.members[k].user == user && r.members[k].role == ParticipantRole;
      FoundIs(r, user, k);
    }
    forall k | 0 <= k < |r.members| ensures r.members[k].user != NIL {
      assert MemberOk(r.members[k], r.createdAt, r.updatedAt);
    }
  }

  lemma PauseGuardIff(r: Room, c: Command)
    requires r.Reachable() && OfPause(c) && Micros(c.at) != ZERO_TIME
    ensures Guard(r, c).Ok? <==> Entitled(r, c) && InState(r, c) && c.expected == r.Versions()
  {
    if c.RequestPause? { ParticipantFound(r, c.actor); }
  }

  lemma GameGuardIff(r: Room, c: Command)
    requires r.Reachable() && OfGame(c) && Micros(c.at) != ZERO_TIME
    ensures Guard(r, c).Ok? <==> Entitled(r, c) && InState(r, c) && c.expected == r.Versions()
  {
  }

  lemma OtherGuardIff(r: Room, c: Command)
    requires r.Reachable() && !c.Join? && !c.ApproveWaiting? && !OfPause(c) && !OfGame(c) && Micros(c.at) != ZERO_TIME
    ensures Guard(r, c).Ok? <==> Entitled(r, c) && InState(r, c) && c.expected == r.Versions()
  {
    if c.TransferHost? { ParticipantFound(r, c.target); }
    if c.RemoveMember? {
      ParticipantFound(r, c.user);
      if Member?(r, c.user) {
        var k :| 0 <= k < |r.members| && r.members[k].user == c.user;
        FoundIs(r, c.user, k);
      }
    }
  }

  lemma GuardIff(r: Room, c: Command)
    requires r.Reachable()
    ensures Guard(r, c).Ok? <==>
      Micros(c.at) != ZERO_TIME && Entitled(r, c) && InState(r, c) && c.expected == r.Versions()
  {
    if Micros(c.at) != ZERO_TIME {
      if c.Join? {
        JoinGuardIff(r, c);
      } else if c.ApproveWaiting? {
        ApproveGuardIff(r, c);
      } else if OfPause(c) {
        PauseGuardIff(r, c);
      } else if OfGame(c) {
        GameGuardIff(r, c);
      } else {
        OtherGuardIff(r, c);
      }
    }
  }

  /** The command finds things as it would leave them. */
  predicate AlreadySo(r: Room, c: Command) {
    match c
    case Join(user, intent, _, _) => Member?(r, user) && !(intent == ParticipantRole && QueuesUp(r, user))
    case SelectGame(_, game, _, _) => r.selectedGame == game
    case Close(_, _, _) => r.status == Closed
    case _ => false
  }

  /** A spectator of a running game who asks to play gives up watching for a place in the queue. */
  predicate QueuesUp(r: Room, user: Id) {
    r.status == Playing && exists k :: 0 <= k < |r.members| && r.members[k].user == user
                                       && r.members[k].role == SpectatorRole
  }

  /** The counters and the member list are not exhausted. */
  predicate Countable(r: Room, c: Command) {
    && r.roomVersion != MAX_UINT64
    && (c.Join? || c.ApproveWaiting? || c.RemoveMember? ==> r.membershipVersion != MAX_UINT64)
    && (c.Join? && !Member?(r, c.user) ==> |r.members| < r.capacity + 1_000_000)
  }

  lemma LastedThrough(r: Room, c: Command)
    requires r.Reachable() && Guard(r, c).Ok?
    ensures Guard(r, c).value.Keep? <==> AlreadySo(r, c)
    ensures Guard(r, c).value.Change? ==>
      && (Guard(r, c).value.membershipChanged <==> c.Join? || c.ApproveWaiting? || c.RemoveMember?)
      && (|Guard(r, c).value.next.members| <= r.capacity + MEMBER_SLACK <==>
            (c.Join? && !Member?(r, c.user) ==> |r.members| < r.capacity + 1_000_000))
      && Guard(r, c).value.next.capacity == r.capacity
      && Guard(r, c).value.next.roomVersion == r.roomVersion
      && Guard(r, c).value.next.membershipVersion == r.membershipVersion
  {
    if c.Join? {
      forall k | 0 <= k < |r.members| && r.members[k].user == c.user ensures FindMember(r.members, c.user) == Some(k) {
        FoundIs(r, c.user, k);
      }
    }
  }

  /**
   * A command no earlier than the last update is accepted exactly when it comes from someone entitled to it, expects
   * the current versions, finds the room in a state for it, and has nothing to change or a counter left to change it
   * with.
   */
  lemma AcceptedIff(r: Room, c: Command)
    requires r.Reachable() && r.updatedAt <= Micros(c.at)
    ensures Execute(r, c).Ok? <==>
      Entitled(r, c) && InState(r, c) && c.expected == r.Versions() && (AlreadySo(r, c) || Countable(r, c))
  {
    GuardIff(r, c);
    if Guard(r, c).Ok? {
      LastedThrough(r, c);
      if AlreadySo(r, c) || Countable(r, c) {
        GuardSuffices(r, c);
      } else {
        Exhausted(r, c);
      }
    }
  }

  lemma Exhausted(r: Room, c: Command)
    requires r.Reachable() && Guard(r, c).Ok? && !AlreadySo(r, c) && !Countable(r, c)
    ensures Execute(r, c).Err?
  {
    LastedThrough(r, c);
    if Execute(r, c).Ok? { ExecuteExact(r, c); }
  }

  // ----- exactly what -----

  lemma JoinDoes(r: Room, c: Command)
    requires r.Reachable() && c.Join? && Execute(r, c).Ok?
    ensures Does(r, c, Execute(r, c).value)
  {
    ExecuteExact(r, c);
    match FindMember(r.members, c.user)
    case Some(k) =>
      var m := r.members[k].(role := WaitingRole, requested := Some(ParticipantRole), seat := 0);
      OthersMoved(r, k, m, r.members[k := m]);
      forall i | 0 <= i < |r.members| && r.members[i].user == c.user ensures i == k { OnlyMember(r, i, k); }
    case None =>
      if NextSeat(r.members, r.capacity).Some? { NextSeatIsLeast(r.members, r.capacity); }
  }

  lemma ApproveDoes(r: Room, c: Command)
    requires r.Reachable() && c.ApproveWaiting? && Execute(r, c).Ok?
    ensures Does(r, c, Execute(r, c).value)
  {
    ExecuteExact(r, c);
    var k := FindMember(r.members, c.user).value;
    var m := r.members[k];
    assert MemberOk(m, r.createdAt, r.updatedAt);
    forall i | 0 <= i < |r.members| && r.members[i].user == c.user ensures i == k { OnlyMember(r, i, k); }
    if m.requested == Some(ParticipantRole) {
      NextSeatIsLeast(r.members, r.capacity);
      m := m.(role := ParticipantRole, requested := None, seat := NextSeat(r.members, r.capacity).value);
      OthersMoved(r, k, m, r.members[k := m]);
    } else {
      m := m.(role := SpectatorRole, requested := None);
      OthersMoved(r, k, m, r.members[k := m]);
    }
  }

  lemma PauseDoes(r: Room, c: Command)
    requires r.Reachable() && OfPause(c) && Execute(r, c).Ok?
    ensures MovesPause(r, c, Execute(r, c).value)
  {
    ExecuteExact(r, c);
  }

  lemma GameDoes(r: Room, c: Command)
    requires r.Reachable() && OfGame(c) && Execute(r, c).Ok?
    ensures MovesGame(r, c, Execute(r, c).value)
  {
    ExecuteExact(r, c);
  }

  lemma OtherDoes(r: Room, c: Command)
    requires r.Reachable() && !c.Join? && !c.ApproveWaiting? && !OfPause(c) && !OfGame(c) && Execute(r, c).Ok?
    ensures Does(r, c, Execute(r, c).value)
  {
    ExecuteExact(r, c);
  }

  /** An accepted command does exactly this to the room, whatever the clock. */
  lemma AcceptedDoes(r: Room, c: Command)
    requires r.Reachable() && Execute(r, c).Ok?
    ensures Does(r, c, Execute(r, c).value)
  {
    if c.Join? {
      JoinDoes(r, c);
    } else if c.ApproveWaiting? {
      ApproveDoes(r, c);
    } else if OfPause(c) {
      PauseDoes(r, c);
    } else if OfGame(c) {
      GameDoes(r, c);
    } else {
      OtherDoes(r, c);
    }
  }

  // ----- and why not -----

  /** A missing identifier, name or instant, or bounds that admit nothing. */
  predicate Malformed(c: Command) {
    || Micros(c.at) == ZERO_TIME
    || match c
       case Join(user, intent, _, _) => user == NIL || intent == WaitingRole
       case SetAdmission(authority, _, _, _, _) => authority.Actor() == NIL
       case SelectGame(actor, game, _, _) => actor == NIL || game == ""
       case ApproveWaiting(actor, user, _, _) => actor == NIL || user == NIL
       case RequestPause(actor, requestId, session, _, _) => actor == NIL || requestId == NIL || session == NIL
       case RejectPause(actor, requestId, _, _) => actor == NIL || requestId == NIL
       case TransferHost(actor, target, epoch, _, _) => actor == NIL || target == NIL || epoch == 0
       case RemoveMember(authority, user, _, _) => authority.Actor() == NIL || user == NIL
       case Close(authority, _, _) => authority.Actor() == NIL
       case StartSession(actor, session, game, lo, hi, _, _) =>
         actor == NIL || session == NIL || game == "" || lo == 0 || hi < lo
       case Pause(actor, pauseId, session, _, _, _) => actor == NIL || pauseId == NIL || session == NIL
       case ResumeSession(actor, session, _, _) => actor == NIL || session == NIL
       case FinishSession(session, _, _) => session == NIL
       case CancelSession(session, _, _) => session == NIL
       case CancelSessionAndClose(actor, session, _, _) => actor == NIL || session == NIL
  }

  /** What must be the case for a refusal to name this reason. */
  predicate Explains(r: Room, c: Command, e: Error) {
    match e
    case InvalidRoomInput => Malformed(c) || Micros(c.at) < r.updatedAt || r.capacity + 1_000_000 <= |r.members|
    case HostRequired => !Entitled(r, c)
    case RoomVersionConflict => c.expected != r.Versions() || (c.TransferHost? && c.expectedEpoch != r.hostEpoch)
    case RoomVersionOverflow => MAX_UINT64 in {r.roomVersion, r.membershipVersion, r.hostEpoch}
    case RoomClosed => r.status == Closed && (c.Join? || c.StartSession? || c.TransferHost?)
    case RoomStatusError =>
      if OfGame(c) && !c.StartSession? then r.status != Playing else r.status != Lobby && r.status != PostGame
    case RoomFull => (c.Join? || c.ApproveWaiting?) && ParticipantCount(r.members) == r.capacity
    case AdmissionIsClosed => c.Join? && Mode(r, c.intent) == AdmissionClosed
    case WaitingNotFound =>
      c.ApproveWaiting? && !Waiting(r, c.user, ParticipantRole) && !Waiting(r, c.user, SpectatorRole)
    case SessionActive => r.status == Playing && c.Close?
    case InsufficientParticipants => c.StartSession? && ParticipantCount(r.members) < c.minimum
    case ParticipantLimitExceeded => c.StartSession? && c.maximum < ParticipantCount(r.members)
    case RoomSessionNotFound => ((OfPause(c) && !c.RejectPause?) || OfGame(c)) && !PlaysNow(r, c.session)
    case GameAlreadyPaused => r.pause != NO_PAUSE && (c.RequestPause? || c.Pause?)
    case GameNotPaused => r.pause == NO_PAUSE && c.ResumeSession?
    case PauseRequestExists => r.request != NO_REQUEST && c.RequestPause?
    case PauseRequestNotFound => (c.RejectPause? || c.Pause?) && r.request.id != c.requestId
    case PauseParticipantRequired => c.RequestPause? && !Entitled(r, c)
    case HostTransferTargetInvalid => c.TransferHost? && (c.target == r.host || !r.IsParticipant(c.target))
    case CannotRemoveHost => c.RemoveMember? && c.user == r.host
    case MemberNotFound => c.RemoveMember? && !Member?(r, c.user)
    case _ => false
  }

  lemma RequestExplained(r: Room, c: Command)
    requires r.Reachable() && (c.RequestPause? || c.RejectPause?) && Guard(r, c).Err?
    ensures Explains(r, c, Guard(r, c).error)
  {
    if c.RequestPause? { ParticipantFound(r, c.actor); }
  }

  lemma PauseExplained(r: Room, c: Command)
    requires r.Reachable() && (c.Pause? || c.ResumeSession?) && Guard(r, c).Err?
    ensures Explains(r, c, Guard(r, c).error)
  {
  }

  lemma StartExplained(r: Room, c: Command)
    requires r.Reachable() && c.StartSession? && Guard(r, c).Err?
    ensures Explains(r, c, Guard(r, c).error)
  {
  }

  lemma EndExplained(r: Room, c: Command)
    requires r.Reachable() && (c.FinishSession? || c.CancelSession? || c.CancelSessionAndClose?) && Guard(r, c).Err?
    ensures Explains(r, c, Guard(r, c).error)
  {
  }

  lemma JoinExplained(r: Room, c: Command)
    requires r.Reachable() && c.Join? && Guard(r, c).Err?
    ensures Explains(r, c, Guard(r, c).error)
  {
    RosterDistinctSeats(r.members, r.createdAt, r.updatedAt);
    NextSeatRefusesExactlyWhenFull(r.members, r.capacity);
  }

  lemma ApproveExplained(r: Room, c: Command)
    requires r.Reachable() && c.ApproveWaiting? && Guard(r, c).Err?
    ensures Explains(r, c, Guard(r, c).error)
  {
    RosterDistinctSeats(r.members, r.createdAt, r.updatedAt);
    NextSeatRefusesExactlyWhenFull(r.members, r.capacity);
    forall k | 0 <= k < |r.members| && r.members[k].user == c.user ensures FindMember(r.members, c.user) == Some(k) {
      FoundIs(r, c.user, k);
    }
  }

  lemma MembersExplained(r: Room, c: Command)
    requires r.Reachable() && (c.RemoveMember? || c.TransferHost?) && Guard(r, c).Err?
    ensures Explains(r, c, Guard(r, c).error)
  {
    if c.TransferHost? { ParticipantFound(r, c.target); }
  }

  lemma OtherExplained(r: Room, c: Command)
    requires r.Reachable() && (c.SetAdmission? || c.SelectGame? || c.Close?) && Guard(r, c).Err?
    ensures Explains(r, c, Guard(r, c).error)
  {
  }

  /** No refusal gives a wrong reason. */
  lemma RefusalExplained(r: Room, c: Command)
    requires r.Reachable() && Execute(r, c).Err?
    ensures Explains(r, c, Execute(r, c).error)
  {
    if Guard(r, c).Err? {
      if c.RequestPause? || c.RejectPause? {
        RequestExplained(r, c);
      } else if OfPause(c) {
        PauseExplained(r, c);
      } else if c.StartSession? {
        StartExplained(r, c);
      } else if OfGame(c) {
        EndExplained(r, c);
      } else if c.SetAdmission? || c.SelectGame? || c.Close? {
        OtherExplained(r, c);
      } else if c.Join? {
        JoinExplained(r, c);
      } else if c.ApproveWaiting? {
        ApproveExplained(r, c);
      } else {
        MembersExplained(r, c);
      }
    } else {
      LateRefusal(r, c);
    }
  }

  /** After the guard only the counters, the clock and the member limit are left to refuse. */
  lemma LateRefusal(r: Room, c: Command)
    requires r.Reachable() && Guard(r, c).Ok? && Execute(r, c).Err?
    ensures Explains(r, c, Execute(r, c).error)
  {
    LastedThrough(r, c);
    if r.updatedAt <= Micros(c.at) && (AlreadySo(r, c) || Countable(r, c)) { GuardSuffices(r, c); }
  }
}
