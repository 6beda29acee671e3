/** Reading a finished game back: bounded pages from the store, then one contiguous, bounded list of events. */
module Replay {
  import opened Base
  import opened GameSdk
  import opened GameSession
  import opened SessionSteps
  import opened RuntimeStore
  import opened RuntimeWorld
  import opened RuntimeLegal
  import opened RuntimeRuns

  const MAX_REPLAY_BATCHES: nat := 4096
  const READ_PAGE: nat := 256
  const MAX_REPLAY_EVENTS: nat := 65536
  const MAX_REPLAY_PAYLOAD: nat := 16 * 1024 * 1024

  // ----- pages -----

  predicate Ordered(rows: seq<Batch>) {
    && (forall i :: 0 <= i < |rows| ==> 0 < rows[i].version)
    && (forall i, j :: 0 <= i < j < |rows| ==> rows[i].version < rows[j].version)
  }

  /** The rows of the query: versions after the given one, in version order. */
  function Newer(rows: seq<Batch>, after: nat): seq<Batch> {
    if rows == [] then [] else if rows[0].version > after then rows else Newer(rows[1..], after)
  }

  function Page(rows: seq<Batch>, after: nat, limit: nat): seq<Batch> {
    var newer := Newer(rows, after);
    newer[..Min(|newer|, limit)]
  }

  lemma {:induction false} NewerThan(rows: seq<Batch>, n: nat)
    requires Ordered(rows) && n <= |rows|
    ensures Newer(rows, if n == 0 then 0 else rows[n - 1].version) == rows[n..]
    decreases n
  {
    if n == 0 {
    } else if n == 1 {
      if |rows| > 1 { assert rows[1..][0].version > rows[0].version; }
    } else {
      assert Ordered(rows[1..]);
      NewerThan(rows[1..], n - 1);
      assert rows[1..][n - 2] == rows[n - 1] && rows[1..][n - 1..] == rows[n..];
    }
  }

  /** A store that answers the page query from these rows. */
  ghost predicate Answers(read: (nat, nat) -> seq<Batch>, rows: seq<Batch>) {
    forall after, limit :: read(after, limit) == Page(rows, after, limit)
  }

  /**
   * The paged read, over any store: it ends, it never returns more than one batch past the limit, and against a
   * store that keeps its contract it returns what one unpaged read would.
   */
  method ReadReplayBatches(read: (nat, nat) -> seq<Batch>, ghost rows: seq<Batch>) returns (r: Option<seq<Batch>>)
    requires Ordered(rows)
    ensures r.Some? ==> |r.value| <= 4097
    ensures Answers(read, rows) ==> r == Some(rows[..Min(|rows|, 4097)])
  {
    var batches: seq<Batch> := [];
    var after := 0;
    while |batches| <= MAX_REPLAY_BATCHES
      invariant |batches| <= MAX_REPLAY_BATCHES + 1
      invariant Answers(read, rows) ==> |batches| <= |rows| && batches == rows[..|batches|]
      invariant Answers(read, rows) ==> after == if batches == [] then 0 else batches[|batches| - 1].version
      decreases MAX_REPLAY_BATCHES + 1 - |batches|
    {
      var limit := Min(READ_PAGE, MAX_REPLAY_BATCHES + 1 - |batches|);
      var page := read(after, limit);
      ghost var n := |batches|;
      if Answers(read, rows) {
        NewerThan(rows, n);
        assert page == rows[n..][..Min(|rows| - n, limit)];
        assert page != [] ==>
          page[|page| - 1] == rows[n + |page| - 1] && (0 < n ==> rows[n - 1].version < rows[n + |page| - 1].version);
      }
      if |page| > limit { return None; }
      if page == [] { break; }
      if page[|page| - 1].version <= after { return None; }
      batches := batches + page;
      after := page[|page| - 1].version;
      assert Answers(read, rows) ==> batches == rows[..n + |page|];
      if |page| < limit { break; }
    }
    return Some(batches);
  }

  // ----- events -----

  function AllEvents(batches: seq<Batch>): seq<Message> {
    if batches == [] then [] else AllEvents(batches[..|batches| - 1]) + batches[|batches| - 1].events
  }

  function PayloadSize(events: seq<Message>): nat {
    if events == [] then 0 else PayloadSize(events[..|events| - 1]) + |events[|events| - 1].payload|
  }

  lemma {:induction false} PrefixOfAll(batches: seq<Batch>, i: nat, j: nat)
    requires i < |batches| && j <= |batches[i].events|
    ensures AllEvents(batches[..i]) + batches[i].events[..j] <= AllEvents(batches)
    decreases |batches|
  {
    if i == |batches| - 1 {
    } else {
      PrefixOfAll(batches[..|batches| - 1], i, j);
      assert batches[..|batches| - 1][..i] == batches[..i];
    }
  }

  lemma {:induction false} PrefixIsSmaller(a: seq<Message>, b: seq<Message>)
    requires a <= b
    ensures PayloadSize(a) <= PayloadSize(b)
  {
    if a == b {
    } else {
      PrefixIsSmaller(a, b[..|b| - 1]);
    }
  }

  /** The history that may be projected: complete from version 1 to the session's, and within every limit. */
  predicate Replayable(session: Id, version: nat, batches: seq<Batch>) {
    && 0 < |batches| <= 4096 && |batches| == version
    && (forall i :: 0 <= i < |batches| ==> batches[i].session == session && batches[i].version == i + 1)
    && |AllEvents(batches)| <= 65_536 && PayloadSize(AllEvents(batches)) <= 16_777_216
  }

  /** The two nested loops of the projection, with the limits checked event by event. */
  method CollectEvents(session: Id, version: nat, batches: seq<Batch>) returns (r: Option<seq<Message>>)
    ensures r.Some? <==> Replayable(session, version, batches)
    ensures r.Some? ==> r.value == AllEvents(batches)
  {
    if |batches| == 0 || |batches| > MAX_REPLAY_BATCHES { return None; }
    var events: seq<Message> := [];
    var size := 0;
    var previous := 0;
    var i := 0;
    while i < |batches|
      invariant 0 <= i <= |batches| && previous == i
      invariant events == AllEvents(batches[..i]) && size == PayloadSize(events)
      invariant |events| <= MAX_REPLAY_EVENTS && size <= MAX_REPLAY_PAYLOAD
      invariant forall k :: 0 <= k < i ==> batches[k].session == session && batches[k].version == k + 1
    {
      if batches[i].session != session || batches[i].version != previous + 1 { return None; }
      var j := 0;
      while j < |batches[i].events|
        invariant 0 <= j <= |batches[i].events|
        invariant events == AllEvents(batches[..i]) + batches[i].events[..j] && size == PayloadSize(events)
        invariant |events| <= MAX_REPLAY_EVENTS && size <= MAX_REPLAY_PAYLOAD
      {
        PrefixOfAll(batches, i, j + 1);
        var longer := events + [batches[i].events[j]];
        assert longer == AllEvents(batches[..i]) + batches[i].events[..j + 1];
        assert longer[..|longer| - 1] == events;
        PrefixIsSmaller(longer, AllEvents(batches));
        if |events| >= MAX_REPLAY_EVENTS { return None; }
        if |batches[i].events[j].payload| > MAX_REPLAY_PAYLOAD - size { return None; }
        size := size + |batches[i].events[j].payload|;
        events := longer;
        j := j + 1;
      }
      assert batches[..i + 1][..i] == batches[..i] && batches[i].events[..j] == batches[i].events;
      previous := batches[i].version;
      i := i + 1;
    }
    assert batches[..i] == batches;
    if previous != version { return None; }
    return Some(events);
  }

  // ----- what the runtime keeps for it -----

  /** The stored batches of a session in version order. */
  ghost function HistoryOf(db: Tables, session: Id, n: nat): (r: seq<Batch>)
    requires forall v :: 1 <= v <= n ==> BatchKey(session, v) in db.batches
    ensures |r| == n
  {
    if n == 0 then [] else HistoryOf(db, session, n - 1) + [db.batches[BatchKey(session, n)]]
  }

  lemma {:induction false} HistoryAt(db: Tables, session: Id, n: nat)
    requires forall v :: 1 <= v <= n ==> BatchKey(session, v) in db.batches
    ensures forall i :: 0 <= i < n ==> HistoryOf(db, session, n)[i] == db.batches[BatchKey(session, i + 1)]
  {
    if n == 0 {
    } else {
      HistoryAt(db, session, n - 1);
    }
  }

  ghost predicate Recorded(db: Tables, session: Id)
    requires session in db.sessions
  {
    var n := db.sessions[session].Version();
    && 0 < n && (forall v :: 1 <= v <= n ==> BatchKey(session, v) in db.batches)
    && Ordered(HistoryOf(db, session, n))
    && (Replayable(session, n, HistoryOf(db, session, n)) <==>
          n <= MAX_REPLAY_BATCHES && |AllEvents(HistoryOf(db, session, n))| <= MAX_REPLAY_EVENTS
          && PayloadSize(AllEvents(HistoryOf(db, session, n))) <= MAX_REPLAY_PAYLOAD)
  }

  lemma HistoryInOrder(db: Tables, session: Id, n: nat)
    requires 0 < n && (forall v :: 1 <= v <= n ==> BatchKey(session, v) in db.batches)
    requires forall v :: 1 <= v <= n ==>
      db.batches[BatchKey(session, v)].session == session && db.batches[BatchKey(session, v)].version == v
    ensures Ordered(HistoryOf(db, session, n))
    ensures forall i :: 0 <= i < n ==>
      HistoryOf(db, session, n)[i].session == session && HistoryOf(db, session, n)[i].version == i + 1
  {
    HistoryAt(db, session, n);
  }

  lemma HistoryIsRecorded(db: Tables, session: Id)
    requires History(db) && session in db.sessions && 0 < db.sessions[session].Version()
    ensures Recorded(db, session)
  {
    HistoryInOrder(db, session, db.sessions[session].Version());
  }

  lemma InvHistory(w: World, session: Id)
    requires Inv(w) && session in w.db.sessions
    ensures History(w.db) && 0 < w.db.sessions[session].Version()
  {
    assert w.db.sessions[session] in w.sessions;
    assert w.db.sessions[session].Valid();
  }

  /** In every reachable state a session's history is complete and in order, and only its size can stop a replay. */
  lemma ReplayFailsOnlyForSize(steps: seq<Step>, worlds: seq<World>, i: nat, session: Id)
    requires Run(steps, worlds) && i < |worlds| && session in worlds[i].db.sessions
    ensures Recorded(worlds[i].db, session)
  {
    RunKeepsInv(steps, worlds, i);
    InvHistory(worlds[i], session);
    HistoryIsRecorded(worlds[i].db, session);
  }
}
