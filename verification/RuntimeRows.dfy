/**
 * What each transaction writes, once its checks have passed. Although a state transition rechecks only
 * epoch, version and status, the row it stores is exactly the session that the caller computed.
 */
module RuntimeRows {
  import opened Base
  import opened GameSdk
  import opened GameSession
  import opened SessionSteps
  import opened Commits
  import opened PartyRoom
  import opened RuntimeStore
  import opened RuntimeWorld

  ghost predicate Core(w: World) {
    AllValid(w) && RoomsOk(w) && NoAba(w) && SessionsOk(w) && Agreement(w.db) && History(w.db) && BatchesPrecede(w)
  }

  /** What the record of past values says about one of them and the row stored now. */
  lemma Remembered(w: World, s: Session)
    requires SessionsOk(w) && BatchesPrecede(w) && s in w.sessions
    ensures s.id in w.db.sessions && w.db.sessions[s.id].id == s.id && w.db.sessions[s.id] in w.sessions
    ensures w.db.sessions[s.id].Identity() == s.Identity()
    ensures s.epoch <= w.db.sessions[s.id].epoch && s.Version() <= w.db.sessions[s.id].Version()
    ensures var k := BatchKey(s.id, s.Version()); k in w.db.batches ==> w.db.batches[k].committedAt <= s.updatedAt
  {
  }

  lemma EngineRowsLegal(db: Tables, writes: Tables, before: Session, t: Session, b: Batch)
    requires t.id != NIL && t.id in db.sessions && db.sessions[t.id].Identity() == before.Identity()
    requires TransitionConflict(db.sessions[t.id], before).None? && StepsTo(before, t, b)
    requires BatchKey(t.id, before.Version()) in db.batches ==>
      db.batches[BatchKey(t.id, before.Version())].committedAt <= before.updatedAt
    requires writes.sessions == map[t.id := t] && writes.batches == map[BatchKey(t.id, t.Version()) := b]
    requires BatchKey(t.id, t.Version()) !in db.batches
    ensures LegalSessions(db, writes) && LegalBatches(db, writes)
  {
    assert LegalSession(db, t.id, t);
  }

  /** The row of a lifecycle change or a claim: no new state version. */
  ghost predicate QuietRow(db: Tables, writes: Tables, t: Session) {
    && t.id in db.sessions && writes.sessions == map[t.id := t] && writes.batches == map[]
    && LegalSession(db, t.id, t) && t.Version() == db.sessions[t.id].Version()
  }

  lemma QuietRowLegal(db: Tables, writes: Tables, t: Session)
    requires QuietRow(db, writes, t)
    ensures LegalSessions(db, writes) && LegalBatches(db, writes)
  {
  }

  lemma LifecyclePersisted(db: Tables, c: LifecycleCommit)
    requires c.before.id != NIL && c.before.id in db.sessions
    requires db.sessions[c.before.id].Identity() == c.before.Identity()
    requires c.after.Valid() && NewLifecycleCommit(c.before, c.after, c.events).Ok? && CommitLifecycle(db, c).Ok?
    ensures CommitLifecycle(db, c) == Ok(NOTHING.(sessions := map[c.after.id := c.after])) && c.after.id == c.before.id
    ensures LifecycleConflict(db.sessions[c.before.id], c.before).None?
  {
    LifecycleCommitKeepsVersion(c.before, c.after, c.events);
    assert LifecycleRow(db.sessions[c.before.id], c.after) == c.after;
    GameSession.RestoreFixedPoint(c.after);
  }

  lemma LifecycleRowQuiet(db: Tables, writes: Tables, c: LifecycleCommit)
    requires c.before.id != NIL && c.before.id in db.sessions
    requires db.sessions[c.before.id].Identity() == c.before.Identity()
    requires NewLifecycleCommit(c.before, c.after, c.events).Ok?
    requires LifecycleConflict(db.sessions[c.before.id], c.before).None?
    requires writes.sessions == map[c.after.id := c.after] && writes.batches == map[]
    requires var k := BatchKey(c.before.id, c.before.Version());
      k in db.batches ==> db.batches[k].committedAt <= c.before.updatedAt
    ensures QuietRow(db, writes, c.after)
  {
    LifecycleCommitKeepsVersion(c.before, c.after, c.events);
  }

  /** A claimed row restores unless its new time falls before the start or the suspension. */
  lemma ClaimRowRestores(current: Session, at: Time)
    requires current.Valid() && Live(current)
    ensures var row := current.(epoch := current.epoch + 1, updatedAt := at);
      && (Reread(row).Ok? <==> current.startedAt <= at && (current.status == Suspended ==> current.suspendedAt <= at))
      && (Reread(row).Ok? ==> Reread(row).value == row && row.Valid())
  {
    var row := current.(epoch := current.epoch + 1, updatedAt := at);
    GameSession.RestoreFixedPoint(row);
    if RestoreSession(row).Ok? {
      RestoreYieldsValid(row);
    }
  }

  lemma ClaimPersisted(db: Tables, before: Session, next: Session)
    requires before.id != NIL && before.id in db.sessions && db.sessions[before.id].id == before.id
    requires AcquireOwnershipCAS(db, before, next).Ok? && db.sessions[before.id].Valid()
    ensures var current := db.sessions[before.id];
      var t := current.(epoch := current.epoch + 1, updatedAt := next.updatedAt);
      && AcquireOwnershipCAS(db, before, next) == Ok(NOTHING.(sessions := map[t.id := t]))
      && Live(current) && t.Valid() && before.updatedAt < t.updatedAt && before.epoch == current.epoch
      && before.Version() == current.Version()
  {
    ClaimRowRestores(db.sessions[before.id], next.updatedAt);
  }

}
