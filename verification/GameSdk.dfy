/** The envelope types that game modules exchange with the runtime; payloads are opaque bytes. */
module GameSdk {
  import opened Base

  newtype byte = x: int | 0 <= x < 256

  const MAX_MESSAGE_BYTES: nat := 0x10_0000
  const MAX_EVENTS: nat := 1024
  const MAX_TIMERS: nat := 64
  const MAX_PARTICIPANTS: nat := 64
  const MAX_ALLOCATED_IDS: nat := 256

  predicate IdentifierChar(c: char) {
    'a' <= c <= 'z' || '0' <= c <= '9'
  }

  predicate Separator(c: char) {
    c == '.' || c == '_' || c == '-'
  }

  /** Runs of lower-case letters and digits, joined by single separators, at most 64 bytes in all. */
  predicate ValidIdentifier(s: string) {
    && 0 < |s| <= 64
    && (forall i :: 0 <= i < |s| ==> IdentifierChar(s[i]) || Separator(s[i]))
    && IdentifierChar(s[0]) && IdentifierChar(s[|s| - 1])
    && (forall i :: 0 < i < |s| && Separator(s[i]) ==> !Separator(s[i - 1]))
  }

  datatype Message = Message(messageType: string, schemaVersion: nat, payload: seq<byte>) {
    predicate Valid() {
      ValidIdentifier(messageType) && schemaVersion > 0 && |payload| <= MAX_MESSAGE_BYTES
    }

    /** Equal apart from the payload, which a module may rewrite when a game resumes. */
    predicate SameEnvelope(other: Message) {
      messageType == other.messageType && schemaVersion == other.schemaVersion
    }
  }

  datatype GameState = GameState(snapshotVersion: nat, stateVersion: nat, state: Message) {
    predicate Valid() {
      snapshotVersion > 0 && stateVersion > 0 && state.Valid()
    }

    predicate SameEnvelope(other: GameState) {
      && snapshotVersion == other.snapshotVersion
      && stateVersion == other.stateVersion
      && state.SameEnvelope(other.state)
    }
  }

  datatype TimerIntent = TimerIntent(id: string, due: Reading, message: Message) {
    predicate Valid(executedAt: Reading) {
      ValidIdentifier(id) && due != 0 && executedAt <= due && message.Valid()
    }
  }

  /** Every input besides the state that a deterministic engine may use. */
  datatype Execution = Execution(now: Reading, seed: nat, reservedIds: seq<string>) {
    predicate Valid() {
      && now != 0 && seed != 0 && |reservedIds| <= MAX_ALLOCATED_IDS
      && (forall i :: 0 <= i < |reservedIds| ==> ValidIdentifier(reservedIds[i]))
      && (forall i, j :: 0 <= i < j < |reservedIds| ==> reservedIds[i] != reservedIds[j])
    }
  }

  /** What an engine returns; `timers` is the complete timer set of the next state. */
  datatype Transition = Transition(snapshot: GameState, events: seq<Message>, timers: seq<TimerIntent>,
                                   finished: bool) {
    predicate Valid(previousVersion: nat, executedAt: Reading) {
      && previousVersion != MAX_UINT64 && snapshot.Valid() && snapshot.stateVersion == previousVersion + 1
      && executedAt != 0 && 0 < |events| <= MAX_EVENTS && |timers| <= MAX_TIMERS
      && (forall i :: 0 <= i < |events| ==> events[i].Valid())
      && (forall i :: 0 <= i < |timers| ==> timers[i].Valid(executedAt))
      && (forall i, j :: 0 <= i < j < |timers| ==> timers[i].id != timers[j].id)
    }
  }

  datatype VersionKey = VersionKey(game: string, engine: string, protocol: string, client: string) {
    predicate Valid() {
      ValidIdentifier(game) && engine != "" && protocol != "" && client != ""
    }
  }
}
