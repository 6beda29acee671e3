/**
 * Re-encryption of stored values under the active key, one page per pass. Profiles and second-factor enrolments are
 * one kind of row here: a profile is always live, an enrolment while pending or active. Other writers act between
 * any two statements of a pass; what they did before the n-th statement is env(n, table).
 */
module KeyRotation {
  import opened Base
  import opened GameSdk

  type Text = seq<byte>

  datatype Sealed = Sealed(key: nat, text: Text)

  datatype Row = Row(version: nat, live: bool, sealed: Option<Sealed>)

  type Table = map<Id, Row>
  type Environment = (nat, Table) -> Table

  /** The keyring and the check or normalisation every plaintext passes before it is sealed. */
  datatype Protector = Protector(active: nat, keys: set<nat>, normalise: Text -> Option<Text>) {
    ghost predicate Lawful() {
      active in keys && forall t :: normalise(t).Some? ==> normalise(normalise(t).value) == normalise(t)
    }

    predicate Stored(s: Sealed) { s.key in keys && normalise(s.text) == Some(s.text) }

    function Encrypt(text: Text): Option<Sealed> {
      match normalise(text)
      case None => None
      case Some(clean) => Some(Sealed(active, clean))
    }

    function Reencrypt(s: Sealed): Option<Sealed> { if s.key in keys then Encrypt(s.text) else None }
  }

  datatype Job = Job(source: nat, target: nat) {
    predicate Valid() { source != target && source != 0 && target != 0 }
  }

  /** What was sealed can be sealed again, and sealing again changes the key and nothing else. */
  lemma ReencryptKeepsText(p: Protector, text: Text, later: nat)
    requires p.Lawful() && p.Encrypt(text).Some? && later in p.keys
    ensures p.Stored(p.Encrypt(text).value)
    ensures p.(active := later).Reencrypt(p.Encrypt(text).value) == Some(p.Encrypt(text).value.(key := later))
  {
    assert p.normalise(p.normalise(text).value) == p.normalise(text);
  }

  predicate Refers(t: Table, id: Id, source: nat) {
    id in t && t[id].live && t[id].sealed.Some? && t[id].sealed.value.key == source
  }

  function References(t: Table, source: nat): set<Id> {
    set id | id in t && Refers(t, id, source)
  }

  /** The page query: referring rows after the cursor, in order, at most `batch` of them and none skipped. */
  ghost predicate IsPage(t: Table, source: nat, cursor: Option<Id>, batch: nat, ids: seq<Id>) {
    && |ids| <= batch
    && (forall i :: 0 <= i < |ids| ==> Refers(t, ids[i], source) && After(cursor, ids[i]))
    && (forall i, j :: 0 <= i < j < |ids| ==> ids[i] < ids[j])
    && (forall id :: Refers(t, id, source) && After(cursor, id) && id !in ids ==>
          |ids| == batch && 0 < batch && ids[|ids| - 1] < id)
  }

  predicate After(cursor: Option<Id>, id: Id) { cursor.None? || cursor.value < id }

  /** The row update with its guards: the version listed, still live, still under the source key. */
  function Rotate(t: Table, id: Id, version: nat, rotated: Sealed, source: nat): (Table, bool) {
    if Refers(t, id, source) && t[id].version == version then (t[id := t[id].(sealed := Some(rotated))], true)
    else (t, false)
  }

  datatype Tally = Tally(table: Table, processed: nat, conflicts: nat)

  predicate Rotatable(p: Protector, job: Job, listed: Table, ids: seq<Id>) {
    && p.active == job.target
    && forall i :: 0 <= i < |ids| ==>
         Refers(listed, ids[i], job.source) && p.Reencrypt(listed[ids[i]].sealed.value).Some?
  }

  function Advance(p: Protector, job: Job, listed: Table, ids: seq<Id>, n: nat, env: Environment, at: Tally): Tally
    requires n < |ids| && Rotatable(p, job, listed, ids)
  {
    var seen := listed[ids[n]];
    var (after, updated) := Rotate(env(n + 1, at.table), ids[n], seen.version, p.Reencrypt(seen.sealed.value).value,
                                   job.source);
    if updated then Tally(after, at.processed + 1, at.conflicts) else Tally(after, at.processed, at.conflicts + 1)
  }

  /** The rows from the n-th on, in order. */
  function Process(p: Protector, job: Job, listed: Table, ids: seq<Id>, n: nat, env: Environment, at: Tally): Tally
    requires n <= |ids| && Rotatable(p, job, listed, ids)
    decreases |ids| - n
  {
    if n == |ids| then at
    else Process(p, job, listed, ids, n + 1, env, Advance(p, job, listed, ids, n, env, at))
  }

  /** The source's loop over one page; it stops at the first row that cannot be sealed under the job's target. */
  method ProcessPage(p: Protector, job: Job, listed: Table, ids: seq<Id>, env: Environment) returns (r: Option<Tally>)
    requires forall i :: 0 <= i < |ids| ==> Refers(listed, ids[i], job.source)
    ensures r.Some? <==> ids == [] || Rotatable(p, job, listed, ids)
    ensures r.Some? && Rotatable(p, job, listed, ids) ==>
      r.value == Process(p, job, listed, ids, 0, env, Tally(listed, 0, 0))
  {
    var at := Tally(listed, 0, 0);
    var i := 0;
    while i < |ids|
      invariant 0 <= i <= |ids|
      invariant 0 < i ==> p.active == job.target
      invariant forall j :: 0 <= j < i ==> p.Reencrypt(listed[ids[j]].sealed.value).Some?
      invariant Rotatable(p, job, listed, ids) ==>
        Process(p, job, listed, ids, i, env, at) == Process(p, job, listed, ids, 0, env, Tally(listed, 0, 0))
    {
      var seen := listed[ids[i]];
      var rotated := p.Reencrypt(seen.sealed.value);
      if rotated.None? || rotated.value.key != job.target { return None; }
      var (after, updated) := Rotate(env(i + 1, at.table), ids[i], seen.version, rotated.value, job.source);
      at := if updated then Tally(after, at.processed + 1, at.conflicts) else Tally(after, at.processed,
                                                                                    at.conflicts + 1);
      i := i + 1;
    }
    return Some(at);
  }

  /** The table after the first n rows of a page. */
  function TableAt(p: Protector, job: Job, listed: Table, ids: seq<Id>, n: nat, env: Environment): Table
    requires n <= |ids| && Rotatable(p, job, listed, ids)
  {
    if n == 0 then listed
    else Advance(p, job, listed, ids, n - 1, env, Tally(TableAt(p, job, listed, ids, n - 1, env), 0, 0)).table
  }

  /**
   * The n-th row, as the update finds it, is still the row that was listed: same version, live, under the source key.
   */
  predicate Unchanged(p: Protector, job: Job, listed: Table, ids: seq<Id>, n: nat, env: Environment)
    requires n < |ids| && Rotatable(p, job, listed, ids)
  {
    var now := env(n + 1, TableAt(p, job, listed, ids, n, env));
    Refers(now, ids[n], job.source) && now[ids[n]].version == listed[ids[n]].version
  }

  /** How many of the first n rows the updates found unchanged. */
  function Moved(p: Protector, job: Job, listed: Table, ids: seq<Id>, n: nat, env: Environment): (r: nat)
    requires n <= |ids| && Rotatable(p, job, listed, ids)
    ensures r <= n
  {
    if n == 0 then 0
    else Moved(p, job, listed, ids, n - 1, env) + if Unchanged(p, job, listed, ids, n - 1, env) then 1 else 0
  }

  /** A row that the update still finds as listed is afterwards under the target key; another is left as it is. */
  lemma RowMovesIffUnchanged(p: Protector, job: Job, listed: Table, ids: seq<Id>, n: nat, env: Environment)
    requires n < |ids| && Rotatable(p, job, listed, ids)
    ensures
      var now := env(n + 1, TableAt(p, job, listed, ids, n, env));
      var after := TableAt(p, job, listed, ids, n + 1, env);
      if Unchanged(p, job, listed, ids, n, env)
      then && after.Keys == now.Keys && after[ids[n]].sealed == p.Reencrypt(listed[ids[n]].sealed.value)
           && after[ids[n]].sealed.value.key == job.target
           && (forall id :: id in now && id != ids[n] ==> after[id] == now[id])
      else after == now
  {
  }

  /** The rows so far, those moved and those that were not. */
  function TallyAt(p: Protector, job: Job, listed: Table, ids: seq<Id>, n: nat, env: Environment): Tally
    requires n <= |ids| && Rotatable(p, job, listed, ids)
  {
    var moved := Moved(p, job, listed, ids, n, env);
    Tally(TableAt(p, job, listed, ids, n, env), moved, n - moved)
  }

  lemma RowCounted(p: Protector, job: Job, listed: Table, ids: seq<Id>, n: nat, env: Environment)
    requires n < |ids| && Rotatable(p, job, listed, ids)
    ensures Advance(p, job, listed, ids, n, env, TallyAt(p, job, listed, ids, n, env)) ==
      TallyAt(p, job, listed, ids, n + 1, env)
  {
  }

  lemma ProcessFrom(p: Protector, job: Job, listed: Table, ids: seq<Id>, n: nat, env: Environment, at: Tally,
                    next: Tally)
    requires n < |ids| && Rotatable(p, job, listed, ids) && Advance(p, job, listed, ids, n, env, at) == next
    ensures Process(p, job, listed, ids, n, env, at) == Process(p, job, listed, ids, n + 1, env, next)
  {
  }

  /** Processing a page goes row by row through these tallies. */
  lemma {:induction false} EveryRowCounted(p: Protector, job: Job, listed: Table, ids: seq<Id>, n: nat,
                                           env: Environment)
    requires n <= |ids| && Rotatable(p, job, listed, ids)
    ensures Process(p, job, listed, ids, n, env, TallyAt(p, job, listed, ids, n, env)) ==
      TallyAt(p, job, listed, ids, |ids|, env)
    decreases |ids| - n
  {
    if n == |ids| {
    } else {
      RowCounted(p, job, listed, ids, n, env);
      ProcessFrom(p, job, listed, ids, n, env, TallyAt(p, job, listed, ids, n, env),
                  TallyAt(p, job, listed, ids, n + 1, env));
      EveryRowCounted(p, job, listed, ids, n + 1, env);
    }
  }

  /** So the two counts of a page are the rows it moved and the rows whose update lost. */
  lemma PageTally(p: Protector, job: Job, listed: Table, ids: seq<Id>, env: Environment)
    requires Rotatable(p, job, listed, ids)
    ensures var r := Process(p, job, listed, ids, 0, env, Tally(listed, 0, 0));
      && r.table == TableAt(p, job, listed, ids, |ids|, env)
      && r.processed == Moved(p, job, listed, ids, |ids|, env) && r.processed + r.conflicts == |ids|
  {
    EveryRowCounted(p, job, listed, ids, 0, env);
  }

  // ----- no value is lost -----

  function TextOf(r: Row): Option<Text> {
    match r.sealed
    case None => None
    case Some(s) => Some(s.text)
  }

  /** From one table to the next: rows stay, versions do not go back, and a changed value shows as a changed version. */
  predicate Follows(t: Table, u: Table) {
    forall id :: id in t ==>
      id in u && t[id].version <= u[id].version && (t[id].version == u[id].version ==> TextOf(t[id]) == TextOf(u[id]))
  }

  ghost predicate Versioned(env: Environment) {
    forall n, t :: Follows(t, env(n, t))
  }

  lemma FollowsOn(a: Table, b: Table, c: Table)
    requires Follows(a, b) && Follows(b, c)
    ensures Follows(a, c)
  {
  }

  predicate Clean(p: Protector, t: Table) {
    forall id :: id in t && t[id].sealed.Some? ==> p.Stored(t[id].sealed.value)
  }

  /** A rotated row carries the text it carried the moment before. */
  lemma RotateKeepsTexts(p: Protector, job: Job, listed: Table, t: Table, id: Id)
    requires Clean(p, listed) && Refers(listed, id, job.source) && Follows(listed, t)
    ensures var seen := listed[id]; p.Reencrypt(seen.sealed.value).Some?
    ensures var u := Rotate(t, id, listed[id].version, p.Reencrypt(listed[id].sealed.value).value, job.source).0;
      u.Keys == t.Keys && forall k :: k in t ==>
        TextOf(u[k]) == TextOf(t[k]) && u[k].version == t[k].version && u[k].live == t[k].live
  {
    assert p.Stored(listed[id].sealed.value);
  }

  /** Whatever other writers do, from any point of a page on, a value changes only when a writer changed it. */
  lemma {:induction false} NoUpdateLost(p: Protector, job: Job, listed: Table, ids: seq<Id>, n: nat, env: Environment,
                                        at: Tally)
    requires n <= |ids| && Rotatable(p, job, listed, ids) && Clean(p, listed) && Versioned(env)
    requires Follows(listed, at.table)
    ensures Follows(at.table, Process(p, job, listed, ids, n, env, at).table)
    decreases |ids| - n
  {
    if n == |ids| {
    } else {
      var now := env(n + 1, at.table);
      assert Follows(at.table, now);
      FollowsOn(listed, at.table, now);
      RotateKeepsTexts(p, job, listed, now, ids[n]);
      var next := Advance(p, job, listed, ids, n, env, at);
      assert Follows(now, next.table);
      FollowsOn(at.table, now, next.table);
      FollowsOn(listed, now, next.table);
      NoUpdateLost(p, job, listed, ids, n + 1, env, next);
      FollowsOn(at.table, next.table, Process(p, job, listed, ids, n + 1, env, next).table);
    }
  }

  // ----- passes -----

  datatype Phase = Running(cursor: Option<Id>) | Completed | Failed

  datatype State = State(table: Table, phase: Phase)

  /**
   * One pass over the page read from env(0, table); an empty page is followed by the reference count, a failed page
   * rolled back.
   */
  function Pass(p: Protector, job: Job, before: State, ids: seq<Id>, env: Environment): State
    requires before.phase.Running?
    requires exists batch :: IsPage(env(0, before.table), job.source, before.phase.cursor, batch, ids)
  {
    var listed := env(0, before.table);
    if ids == [] then
      var counted := env(1, listed);
      State(counted, if References(counted, job.source) != {} then Running(None) else Completed)
    else if Rotatable(p, job, listed, ids) then
      State(Process(p, job, listed, ids, 0, env, Tally(listed, 0, 0)).table, Running(Some(ids[|ids| - 1])))
    else State(before.table, Failed)
  }

  /**
   * A pass over values this deployment sealed fails exactly when the active key is not the job's target, and changes
   * nothing.
   */
  lemma FailsIffKeyMoved(p: Protector, job: Job, before: State, ids: seq<Id>, env: Environment)
    requires before.phase.Running? && Clean(p, env(0, before.table))
    requires exists batch :: IsPage(env(0, before.table), job.source, before.phase.cursor, batch, ids)
    ensures Pass(p, job, before, ids, env).phase.Failed? <==> ids != [] && p.active != job.target
    ensures Pass(p, job, before, ids, env).phase.Failed? ==> Pass(p, job, before, ids, env).table == before.table
  {
    var listed := env(0, before.table);
    forall i | 0 <= i < |ids|
      ensures Refers(listed, ids[i], job.source) && p.Reencrypt(listed[ids[i]].sealed.value).Some?
    {
      assert p.Stored(listed[ids[i]].sealed.value);
    }
  }

  // ----- termination -----

  /** Other writers put nothing new under the source key: what refers to it now did before, unchanged. */
  ghost predicate Quiet(source: nat, t: Table, u: Table) {
    forall id :: Refers(u, id, source) ==> id in t && u[id] == t[id]
  }

  ghost predicate Settled(env: Environment, source: nat) {
    forall n, t :: Quiet(source, t, env(n, t))
  }

  /** Each row of the page has left the source key once its turn is over. */
  lemma {:induction false} PageLeavesSource(p: Protector, job: Job, listed: Table, ids: seq<Id>, n: nat,
                                            env: Environment, at: Tally)
    requires job.Valid() && n <= |ids| && Rotatable(p, job, listed, ids) && Settled(env, job.source)
    requires Quiet(job.source, listed, at.table)
    requires forall i :: 0 <= i < n ==> !Refers(at.table, ids[i], job.source)
    ensures var r := Process(p, job, listed, ids, n, env, at).table;
      Quiet(job.source, listed, r) && forall i :: 0 <= i < |ids| ==> !Refers(r, ids[i], job.source)
    decreases |ids| - n
  {
    if n == |ids| {
    } else {
      var now := env(n + 1, at.table);
      assert Quiet(job.source, at.table, now);
      var next := Advance(p, job, listed, ids, n, env, at);
      assert !Refers(next.table, ids[n], job.source);
      forall i | 0 <= i < n ensures !Refers(next.table, ids[i], job.source) {
        assert Refers(now, ids[i], job.source) ==> Refers(at.table, ids[i], job.source);
      }
      PageLeavesSource(p, job, listed, ids, n + 1, env, next);
    }
  }

  lemma QuietShrinks(source: nat, t: Table, u: Table)
    requires Quiet(source, t, u)
    ensures References(u, source) <= References(t, source)
  {
    forall id | id in References(u, source) ensures id in References(t, source) { assert Refers(u, id, source); }
  }

  lemma SubsetSize(a: set<Id>, b: set<Id>)
    requires a <= b
    ensures |a| <= |b| && (a != b ==> |a| < |b|)
  {
    assert b == a + (b - a);
    assert a !! (b - a);
    if b - a == {} { assert a == b; }
  }

  function Remaining(s: State, source: nat): nat {
    2 * |References(s.table, source)| + if s.phase.Running? && s.phase.cursor.Some? then 1 else 0
  }

  /**
   * A pass that leaves the job running leaves less to do: fewer references, or as many and a cursor back at the start.
   */
  lemma PassMakesProgress(p: Protector, job: Job, before: State, batch: nat, ids: seq<Id>, env: Environment)
    requires job.Valid() && before.phase.Running? && 0 < batch && Settled(env, job.source)
    requires IsPage(env(0, before.table), job.source, before.phase.cursor, batch, ids)
    ensures Pass(p, job, before, ids, env).phase.Running? ==>
      Remaining(Pass(p, job, before, ids, env), job.source) < Remaining(before, job.source)
  {
    var listed := env(0, before.table);
    assert Quiet(job.source, before.table, listed);
    QuietShrinks(job.source, before.table, listed);
    SubsetSize(References(listed, job.source), References(before.table, job.source));
    if ids == [] {
      var counted := env(1, listed);
      assert Quiet(job.source, listed, counted);
      QuietShrinks(job.source, listed, counted);
      SubsetSize(References(counted, job.source), References(listed, job.source));
      EmptyPageFromTheStart(listed, job.source, before.phase.cursor, batch);
    } else if Rotatable(p, job, listed, ids) {
      PageLeavesSource(p, job, listed, ids, 0, env, Tally(listed, 0, 0));
      var r := Process(p, job, listed, ids, 0, env, Tally(listed, 0, 0)).table;
      QuietShrinks(job.source, listed, r);
      assert ids[0] in References(listed, job.source) && ids[0] !in References(r, job.source);
      SubsetSize(References(r, job.source), References(listed, job.source));
    }
  }

  lemma EmptyPageFromTheStart(t: Table, source: nat, cursor: Option<Id>, batch: nat)
    requires 0 < batch && IsPage(t, source, cursor, batch, [])
    ensures cursor.None? ==> References(t, source) == {}
  {
    if cursor.None? && References(t, source) != {} {
      var id :| id in References(t, source);
      assert Refers(t, id, source) && After(cursor, id);
    }
  }

  /** A recorded pass: the state before it, the page it read and what others did meanwhile. */
  datatype Taken = Taken(before: State, ids: seq<Id>, env: Environment)

  ghost predicate Paged(job: Job, batch: nat, taken: Taken) {
    && taken.before.phase.Running?
    && IsPage(taken.env(0, taken.before.table), job.source, taken.before.phase.cursor, batch, taken.ids)
  }

  function AfterPass(p: Protector, job: Job, batch: nat, taken: Taken): State
    requires Paged(job, batch, taken)
  {
    Pass(p, job, taken.before, taken.ids, taken.env)
  }

  /** Each pass starts from what the one before it left. */
  ghost predicate TakenAt(p: Protector, job: Job, batch: nat, passes: seq<Taken>, i: nat)
    requires i < |passes|
  {
    && Paged(job, batch, passes[i])
    && (0 < i ==> Paged(job, batch, passes[i - 1]) && passes[i].before == AfterPass(p, job, batch, passes[i - 1]))
  }

  ghost predicate Passes(p: Protector, job: Job, batch: nat, passes: seq<Taken>) {
    passes != [] && forall i :: 0 <= i < |passes| ==> TakenAt(p, job, batch, passes, i)
  }

  lemma PassesPrefix(p: Protector, job: Job, batch: nat, passes: seq<Taken>)
    requires Passes(p, job, batch, passes) && |passes| > 1
    ensures Passes(p, job, batch, passes[..|passes| - 1]) && Paged(job, batch, passes[|passes| - 2])
    ensures Paged(job, batch, passes[|passes| - 1])
    ensures passes[|passes| - 1].before == AfterPass(p, job, batch, passes[|passes| - 2])
  {
    var init := passes[..|passes| - 1];
    forall i | 0 <= i < |init| ensures TakenAt(p, job, batch, init, i) { assert TakenAt(p, job, batch, passes, i); }
    assert TakenAt(p, job, batch, passes, |passes| - 1);
  }

  /** No job runs for ever: the passes a job takes are bounded by twice its references, plus two. */
  lemma {:induction false} RotationTerminates(p: Protector, job: Job, batch: nat, passes: seq<Taken>)
    requires job.Valid() && 0 < batch && Passes(p, job, batch, passes)
    requires forall i :: 0 <= i < |passes| ==> Settled(passes[i].env, job.source)
    ensures |passes| + Remaining(passes[|passes| - 1].before, job.source) <= Remaining(passes[0].before, job.source) + 1
    ensures |passes| <= 2 * |References(passes[0].before.table, job.source)| + 2
  {
    if |passes| == 1 {
    } else {
      var init := passes[..|passes| - 1];
      PassesPrefix(p, job, batch, passes);
      RotationTerminates(p, job, batch, init);
      var last := init[|init| - 1];
      assert last == passes[|passes| - 2];
      PassMakesProgress(p, job, last.before, batch, last.ids, last.env);
    }
  }

  // ----- whole jobs -----

  /** Other writers version their changes and store what the keyring can open. */
  ghost predicate Honest(p: Protector, env: Environment) {
    Versioned(env) && forall n, t :: Clean(p, t) ==> Clean(p, env(n, t))
  }

  lemma RotateKeepsClean(p: Protector, job: Job, listed: Table, t: Table, id: Id)
    requires p.Lawful() && Clean(p, listed) && Clean(p, t) && Refers(listed, id, job.source)
    requires p.Reencrypt(listed[id].sealed.value).Some?
    ensures Clean(p, Rotate(t, id, listed[id].version, p.Reencrypt(listed[id].sealed.value).value, job.source).0)
  {
    assert p.Stored(listed[id].sealed.value);
  }

  lemma {:induction false} PageKeepsClean(p: Protector, job: Job, listed: Table, ids: seq<Id>, n: nat, env: Environment,
                                          at: Tally)
    requires n <= |ids| && Rotatable(p, job, listed, ids) && p.Lawful() && Honest(p, env) && Clean(p, listed)
    requires Clean(p, at.table)
    ensures Clean(p, Process(p, job, listed, ids, n, env, at).table)
    decreases |ids| - n
  {
    if n == |ids| {
    } else {
      assert Clean(p, env(n + 1, at.table));
      RotateKeepsClean(p, job, listed, env(n + 1, at.table), ids[n]);
      PageKeepsClean(p, job, listed, ids, n + 1, env, Advance(p, job, listed, ids, n, env, at));
    }
  }

  /** A pass that does not fail loses no value. */
  lemma PassLosesNothing(p: Protector, job: Job, batch: nat, taken: Taken)
    requires p.Lawful() && Paged(job, batch, taken) && Honest(p, taken.env) && Clean(p, taken.before.table)
    requires !AfterPass(p, job, batch, taken).phase.Failed?
    ensures Follows(taken.before.table, AfterPass(p, job, batch, taken).table)
    ensures Clean(p, AfterPass(p, job, batch, taken).table)
  {
    var listed := taken.env(0, taken.before.table);
    assert Clean(p, listed) && Follows(taken.before.table, listed);
    if taken.ids == [] {
      var counted := taken.env(1, listed);
      assert Clean(p, counted) && Follows(listed, counted);
      FollowsOn(taken.before.table, listed, counted);
    } else {
      var at := Tally(listed, 0, 0);
      NoUpdateLost(p, job, listed, taken.ids, 0, taken.env, at);
      PageKeepsClean(p, job, listed, taken.ids, 0, taken.env, at);
      FollowsOn(taken.before.table, listed, Process(p, job, listed, taken.ids, 0, taken.env, at).table);
    }
  }

  /** Over a whole job every row is still there, and its value changed only if a writer changed its version. */
  lemma {:induction false} JobLosesNothing(p: Protector, job: Job, batch: nat, passes: seq<Taken>)
    requires p.Lawful() && Passes(p, job, batch, passes) && Clean(p, passes[0].before.table)
    requires forall i :: 0 <= i < |passes| ==> Honest(p, passes[i].env)
    requires Paged(job, batch, passes[|passes| - 1]) && !AfterPass(p, job, batch, passes[|passes| - 1]).phase.Failed?
    ensures var final := AfterPass(p, job, batch, passes[|passes| - 1]);
      Follows(passes[0].before.table, final.table) && Clean(p, final.table)
  {
    var last := passes[|passes| - 1];
    if |passes| == 1 {
      PassLosesNothing(p, job, batch, last);
    } else {
      var init := passes[..|passes| - 1];
      PassesPrefix(p, job, batch, passes);
      assert init[|init| - 1] == passes[|passes| - 2];
      JobLosesNothing(p, job, batch, init);
      PassLosesNothing(p, job, batch, last);
      FollowsOn(passes[0].before.table, last.before.table, AfterPass(p, job, batch, last).table);
    }
  }

  lemma NoReference(t: Table, id: Id, source: nat)
    requires References(t, source) == {}
    ensures !Refers(t, id, source)
  {
    assert Refers(t, id, source) <==> id in References(t, source);
  }

  /**
   * A completed job: whatever others did meanwhile, every row that referred to the source key when the job began no
   * longer does, is still there, and carries the text it carried then unless a writer has changed its version since.
   */
  lemma CompletedJobMovedEveryValue(p: Protector, job: Job, batch: nat, passes: seq<Taken>, id: Id)
    requires p.Lawful() && Passes(p, job, batch, passes) && Clean(p, passes[0].before.table)
    requires forall i :: 0 <= i < |passes| ==> Honest(p, passes[i].env)
    requires Paged(job, batch, passes[|passes| - 1]) && AfterPass(p, job, batch, passes[|passes| - 1]).phase.Completed?
    ensures var first := passes[0].before.table; var final := AfterPass(p, job, batch, passes[|passes| - 1]).table;
      && !Refers(final, id, job.source)
      && (id in References(first, job.source) ==>
            && id in final && first[id].version <= final[id].version
            && (first[id].version == final[id].version ==> TextOf(final[id]) == TextOf(first[id])))
  {
    var last := passes[|passes| - 1];
    JobLosesNothing(p, job, batch, passes);
    NoReference(AfterPass(p, job, batch, last).table, id, job.source);
  }
}
