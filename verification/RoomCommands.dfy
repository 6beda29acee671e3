/** The room commands, each a guard and an edit, followed by the version bump and `Restore`. */
module RoomCommands {
  import opened Base
  import opened PartyRoom

  datatype Authority = ByHost(host: Id) | ByAdmin(admin: Id) {
    function Actor(): Id { if ByHost? then host else admin }
  }

  datatype Command =
    | Join(user: Id, intent: Role, expected: RoomVersions, at: Reading)
    | SetAdmission(authority: Authority, participant: Admission, spectator: Admission, expected: RoomVersions,
                   at: Reading)
    | SelectGame(actor: Id, game: string, expected: RoomVersions, at: Reading)
    | ApproveWaiting(actor: Id, user: Id, expected: RoomVersions, at: Reading)
    | RequestPause(actor: Id, requestId: Id, session: Id, expected: RoomVersions, at: Reading)
    | RejectPause(actor: Id, requestId: Id, expected: RoomVersions, at: Reading)
    | TransferHost(actor: Id, target: Id, expectedEpoch: nat, expected: RoomVersions, at: Reading)
    | RemoveMember(authority: Authority, user: Id, expected: RoomVersions, at: Reading)
    | Close(authority: Authority, expected: RoomVersions, at: Reading)
    | StartSession(actor: Id, session: Id, game: string, minimum: nat, maximum: nat, expected: RoomVersions,
                   at: Reading)
    | Pause(actor: Id, pauseId: Id, session: Id, requestId: Id, expected: RoomVersions, at: Reading)
    | ResumeSession(actor: Id, session: Id, expected: RoomVersions, at: Reading)
    | FinishSession(session: Id, expected: RoomVersions, at: Reading)
    | CancelSession(session: Id, expected: RoomVersions, at: Reading)
    | CancelSessionAndClose(actor: Id, session: Id, expected: RoomVersions, at: Reading)

  /** A guard's verdict: leave the room alone, or continue with an edited snapshot. */
  datatype Edit = Keep | Change(next: Room, membershipChanged: bool)

  function FindMember(ms: seq<Member>, user: Id): (r: Option<nat>)
    ensures r.Some? ==> r.value < |ms| && ms[r.value].user == user
    ensures r.Some? ==> forall i :: 0 <= i < r.value ==> ms[i].user != user
    ensures r.None? ==> forall i :: 0 <= i < |ms| ==> ms[i].user != user
  {
    if ms == [] then None
    else if ms[0].user == user then Some(0)
    else match FindMember(ms[1..], user)
      case None => assert forall i :: 1 <= i < |ms| ==> ms[i] == ms[1..][i - 1]; None
      case Some(k) => assert forall i :: 1 <= i < |ms| ==> ms[i] == ms[1..][i - 1]; Some(k + 1)
  }

  predicate Authorised(r: Room, authority: Authority) {
    authority.ByAdmin? || authority.host == r.host
  }

  function AdmitNew(r: Room, user: Id, intent: Role, at: Time): Result<Member> {
    var mode := if intent == SpectatorRole then r.spectatorAdmission else r.participantAdmission;
    if r.status == Playing && intent == ParticipantRole then
      Ok(Member(user, WaitingRole, Some(ParticipantRole), 0, at, at))
    else match mode
      case AdmissionOpen =>
        if intent == ParticipantRole then
          match NextSeat(r.members, r.capacity)
          case None => Err(RoomFull)
          case Some(seat) => Ok(Member(user, ParticipantRole, None, seat, at, at))
        else Ok(Member(user, SpectatorRole, None, 0, at, at))
      case AdmissionApproval => Ok(Member(user, WaitingRole, Some(intent), 0, at, at))
      case AdmissionClosed => Err(AdmissionIsClosed)
  }

  function JoinEdit(r: Room, user: Id, intent: Role, expected: RoomVersions, at: Time): Result<Edit> {
    if user == NIL || intent == WaitingRole || at == ZERO_TIME then Err(InvalidRoomInput)
    else if expected != r.Versions() then Err(RoomVersionConflict)
    else match FindMember(r.members, user)
      case Some(k) =>
        if r.status == Playing && intent == ParticipantRole && r.members[k].role == SpectatorRole then
          Ok(Change(r.(members := r.members[k :=
                      r.members[k].(role := WaitingRole, requested := Some(ParticipantRole), seat := 0)]), true))
        else Ok(Keep)
      case None =>
        if r.status == Closed then Err(RoomClosed)
        else match AdmitNew(r, user, intent, at)
          case Err(e) => Err(e)
          case Ok(member) => Ok(Change(r.(members := r.members + [member]), true))
  }

  function ApproveEdit(r: Room, actor: Id, user: Id, expected: RoomVersions, at: Time): Result<Edit> {
    if actor == NIL || user == NIL || at == ZERO_TIME then Err(InvalidRoomInput)
    else if actor != r.host then Err(HostRequired)
    else if expected != r.Versions() then Err(RoomVersionConflict)
    else if !r.status.AdmissionMutable() then Err(RoomStatusError)
    else match FindMember(r.members, user)
      case None => Err(Error.WaitingNotFound)
      case Some(k) =>
        var m := r.members[k];
        if m.role != WaitingRole then Err(Error.WaitingNotFound)
        else if m.requested == Some(ParticipantRole) then
          match NextSeat(r.members, r.capacity)
          case None => Err(RoomFull)
          case Some(seat) =>
            Ok(Change(r.(members := r.members[k := m.(role := ParticipantRole, requested := None, seat := seat)]),
                      true))
        else Ok(Change(r.(members := r.members[k := m.(role := SpectatorRole, requested := None)]), true))
  }

  function StartEdit(r: Room, actor: Id, session: Id, game: string, minimum: nat, maximum: nat, expected: RoomVersions,
                     at: Time): Result<Edit> {
    if actor == NIL || session == NIL || game == "" || minimum == 0 || maximum < minimum || at == ZERO_TIME
    then Err(InvalidRoomInput)
    else if actor != r.host then Err(HostRequired)
    else if expected != r.Versions() then Err(RoomVersionConflict)
    else if r.status == Closed then Err(RoomClosed)
    else if !r.status.AdmissionMutable() then Err(RoomStatusError)
    else if r.activeSession != NIL then Err(SessionActive)
    else if ParticipantCount(r.members) < minimum then Err(InsufficientParticipants)
    else if ParticipantCount(r.members) > maximum then Err(ParticipantLimitExceeded)
    else Ok(Change(r.(status := Playing, activeSession := session, activeGame := game,
                      participantAdmission := AdmissionClosed,
                      lastSession := NIL, lastGame := ""), false))
  }

  function RequestPauseEdit(r: Room, actor: Id, requestId: Id, session: Id, expected: RoomVersions,
                            at: Time): Result<Edit> {
    if actor == NIL || requestId == NIL || session == NIL || at == ZERO_TIME then Err(InvalidRoomInput)
    else if expected != r.Versions() then Err(RoomVersionConflict)
    else if r.status != Playing || r.activeSession != session then Err(RoomSessionNotFound)
    else if r.pause.id != NIL then Err(GameAlreadyPaused)
    else if r.request.id != NIL then Err(PauseRequestExists)
    else match FindMember(r.members, actor)
      case None => Err(PauseParticipantRequired)
      case Some(k) =>
        if r.members[k].role != ParticipantRole || actor == r.host then Err(PauseParticipantRequired)
        else Ok(Change(r.(request := PauseRequest(requestId, session, actor, at)), false))
  }

  function RejectPauseEdit(r: Room, actor: Id, requestId: Id, expected: RoomVersions, at: Time): Result<Edit> {
    if actor == NIL || requestId == NIL || at == ZERO_TIME then Err(InvalidRoomInput)
    else if actor != r.host then Err(HostRequired)
    else if expected != r.Versions() then Err(RoomVersionConflict)
    else if r.request.id != requestId then Err(PauseRequestNotFound)
    else Ok(Change(r.(request := NO_REQUEST), false))
  }

  function PauseEdit(r: Room, actor: Id, pauseId: Id, session: Id, requestId: Id, expected: RoomVersions,
                     at: Time): Result<Edit> {
    if actor == NIL || pauseId == NIL || session == NIL || at == ZERO_TIME then Err(InvalidRoomInput)
    else if actor != r.host then Err(HostRequired)
    else if expected != r.Versions() then Err(RoomVersionConflict)
    else if r.status != Playing || r.activeSession != session then Err(RoomSessionNotFound)
    else if r.pause.id != NIL then Err(GameAlreadyPaused)
    else if requestId != NIL && (r.request.id != requestId || r.request.session != session)
    then Err(PauseRequestNotFound)
    else
      Ok(Change(r.(request := NO_REQUEST,
                   pause := ActivePause(pauseId, session, if requestId != NIL then ApprovedRequest else HostPause,
                                        if requestId != NIL then r.request.requestedBy else NIL, actor, at)), false))
  }

  function ResumeEdit(r: Room, actor: Id, session: Id, expected: RoomVersions, at: Time): Result<Edit> {
    if actor == NIL || session == NIL || at == ZERO_TIME then Err(InvalidRoomInput)
    else if actor != r.host then Err(HostRequired)
    else if expected != r.Versions() then Err(RoomVersionConflict)
    else if r.status != Playing || r.activeSession != session then Err(RoomSessionNotFound)
    else if r.pause.id == NIL || r.pause.session != session then Err(GameNotPaused)
    else Ok(Change(r.(pause := NO_PAUSE), false))
  }

  function TransferEdit(r: Room, actor: Id, target: Id, epoch: nat, expected: RoomVersions, at: Time): Result<Edit> {
    if actor == NIL || target == NIL || epoch == 0 || at == ZERO_TIME then Err(InvalidRoomInput)
    else if actor != r.host then Err(HostRequired)
    else if expected != r.Versions() then Err(RoomVersionConflict)
    else if r.hostEpoch != epoch then Err(RoomVersionConflict)
    else if r.status == Closed then Err(RoomClosed)
    else match FindMember(r.members, target)
      case None => Err(HostTransferTargetInvalid)
      case Some(k) =>
        if r.members[k].role != ParticipantRole || target == actor then Err(HostTransferTargetInvalid)
        else if r.hostEpoch == MAX_UINT64 then Err(RoomVersionOverflow)
        else Ok(Change(r.(host := target, hostEpoch := r.hostEpoch + 1,
                          request := if r.request.requestedBy == target then NO_REQUEST else r.request), false))
  }

  function RemoveEdit(r: Room, authority: Authority, user: Id, expected: RoomVersions, at: Time): Result<Edit> {
    if authority.Actor() == NIL || user == NIL || at == ZERO_TIME then Err(InvalidRoomInput)
    else if !Authorised(r, authority) then Err(HostRequired)
    else if expected != r.Versions() then Err(RoomVersionConflict)
    else if user == r.host then Err(CannotRemoveHost)
    else match FindMember(r.members, user)
      case None => Err(MemberNotFound)
      case Some(k) =>
        Ok(Change(r.(members := r.members[..k] + r.members[k + 1..],
                     request := if r.request.requestedBy == user then NO_REQUEST else r.request), true))
  }

  function CloseEdit(r: Room, authority: Authority, expected: RoomVersions, at: Time): Result<Edit> {
    if authority.Actor() == NIL || at == ZERO_TIME then Err(InvalidRoomInput)
    else if !Authorised(r, authority) then Err(HostRequired)
    else if expected != r.Versions() then Err(RoomVersionConflict)
    else if r.status == Playing then Err(SessionActive)
    else if r.status == Closed then Ok(Keep)
    else Ok(Change(r.(status := Closed, participantAdmission := AdmissionClosed, spectatorAdmission := AdmissionClosed,
                      request := NO_REQUEST, pause := NO_PAUSE), false))
  }

  function SetAdmissionEdit(r: Room, authority: Authority, participant: Admission, spectator: Admission,
                            expected: RoomVersions, at: Time): Result<Edit> {
    if authority.Actor() == NIL || at == ZERO_TIME then Err(InvalidRoomInput)
    else if !Authorised(r, authority) then Err(HostRequired)
    else if expected != r.Versions() then Err(RoomVersionConflict)
    else if !r.status.AdmissionMutable() then Err(RoomStatusError)
    else Ok(Change(r.(participantAdmission := participant, spectatorAdmission := spectator), false))
  }

  function SelectGameEdit(r: Room, actor: Id, game: string, expected: RoomVersions, at: Time): Result<Edit> {
    if actor == NIL || game == "" || at == ZERO_TIME then Err(InvalidRoomInput)
    else if actor != r.host then Err(HostRequired)
    else if expected != r.Versions() then Err(RoomVersionConflict)
    else if !r.status.AdmissionMutable() then Err(RoomStatusError)
    else if r.selectedGame == game then Ok(Keep)
    else Ok(Change(r.(selectedGame := game), false))
  }

  /** The three ways a game ends share their guard. */
  function EndGuard(r: Room, session: Id, expected: RoomVersions, at: Time): Option<Error> {
    if session == NIL || at == ZERO_TIME then Some(InvalidRoomInput)
    else if expected != r.Versions() then Some(RoomVersionConflict)
    else if r.status != Playing then Some(RoomStatusError)
    else if r.activeSession != session then Some(RoomSessionNotFound)
    else None
  }

  function Ended(r: Room): Room {
    r.(activeSession := NIL, activeGame := "", participantAdmission := AdmissionClosed, lastSession := NIL,
       lastGame := "",
       request := NO_REQUEST, pause := NO_PAUSE)
  }

  function EndEdit(r: Room, c: Command): Result<Edit>
    requires c.FinishSession? || c.CancelSession? || c.CancelSessionAndClose?
  {
    if c.CancelSessionAndClose? && c.actor == NIL then Err(InvalidRoomInput)
    else if c.CancelSessionAndClose? && c.actor != r.host then Err(HostRequired)
    else match EndGuard(r, c.session, c.expected, Micros(c.at))
      case Some(e) => Err(e)
      case None =>
        if c.FinishSession?
        then Ok(Change(Ended(r).(status := PostGame, lastSession := c.session, lastGame := r.activeGame), false))
        else if c.CancelSession? then Ok(Change(Ended(r).(status := Lobby), false))
        else Ok(Change(Ended(r).(status := Closed, spectatorAdmission := AdmissionClosed), false))
  }

  function Guard(r: Room, c: Command): Result<Edit> {
    var at := Micros(c.at);
    match c
    case Join(user, intent, expected, _) => JoinEdit(r, user, intent, expected, at)
    case SetAdmission(authority, p, s, expected, _) => SetAdmissionEdit(r, authority, p, s, expected, at)
    case SelectGame(actor, game, expected, _) => SelectGameEdit(r, actor, game, expected, at)
    case ApproveWaiting(actor, user, expected, _) => ApproveEdit(r, actor, user, expected, at)
    case RequestPause(actor, requestId, session, expected, _) =>
      RequestPauseEdit(r, actor, requestId, session, expected, at)
    case RejectPause(actor, requestId, expected, _) => RejectPauseEdit(r, actor, requestId, expected, at)
    case TransferHost(actor, target, epoch, expected, _) => TransferEdit(r, actor, target, epoch, expected, at)
    case RemoveMember(authority, user, expected, _) => RemoveEdit(r, authority, user, expected, at)
    case Close(authority, expected, _) => CloseEdit(r, authority, expected, at)
    case StartSession(actor, session, game, lo, hi, expected, _) =>
      StartEdit(r, actor, session, game, lo, hi, expected, at)
    case Pause(actor, pauseId, session, requestId, expected, _) =>
      PauseEdit(r, actor, pauseId, session, requestId, expected, at)
    case ResumeSession(actor, session, expected, _) => ResumeEdit(r, actor, session, expected, at)
    case _ => EndEdit(r, c)
  }

  function Bump(r: Room, membershipChanged: bool, at: Time): Result<Room> {
    if r.roomVersion == MAX_UINT64 || (membershipChanged && r.membershipVersion == MAX_UINT64)
    then Err(RoomVersionOverflow)
    else Ok(r.(roomVersion := r.roomVersion + 1,
               membershipVersion := if membershipChanged then r.membershipVersion + 1 else r.membershipVersion,
               updatedAt := at))
  }

  function Apply(r: Room, e: Edit, at: Time): Result<Room> {
    match e
    case Keep => Ok(r)
    case Change(next, membershipChanged) =>
      match Bump(next, membershipChanged, at)
      case Err(error) => Err(error)
      case Ok(bumped) => Restore(bumped)
  }

  function Execute(r: Room, c: Command): Result<Room> {
    match Guard(r, c)
    case Err(error) => Err(error)
    case Ok(e) => Apply(r, e, Micros(c.at))
  }

  function NewRoom(id: Id, host: Id, code: string, visibility: Visibility, capacity: nat, participant: Admission,
                   spectator: Admission, reading: Reading): Result<Room>
  {
    var at := Micros(reading);
    if id == NIL || host == NIL || at == ZERO_TIME || !ValidCode(code) || capacity == 0 then Err(InvalidRoomInput)
    else Restore(Room(id, code, visibility, Lobby, host, capacity, participant, spectator,
                      [Member(host, ParticipantRole, None, 0, at, at)], NIL, "", NIL, "", NO_REQUEST, NO_PAUSE,
                      DEFAULT_GAME, 0, 1, 1, at, at))
  }
}
