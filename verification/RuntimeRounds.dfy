/** The second round of a system command: a fact that only lost a race is applied under the epoch that won it. */
module RuntimeRounds {
  import opened Base
  import opened GameSession
  import opened SessionSteps
  import opened RuntimeStore
  import opened RuntimeService
  import opened RuntimeCalls
  import opened RuntimeLoops
  import opened RuntimeProgress

  /**
   * A call for a fact goes on to its rounds exactly if it is well formed, a host is host of the stored room, and the
   * operation was not answered at the lookup; one left pending under the same binding counts as not answered.
   */
  lemma CallGoesOnIff(asked: Tables, looked: Tables, session: Id, i: SystemInput)
    ensures EarlyAnswer(asked, looked, session, i).None? <==>
      && SystemWellFormed(session, i)
      && (i.source.kind == HostApi ==>
            && session in asked.sessions && asked.sessions[session].room in asked.rooms
            && asked.rooms[asked.sessions[session].room].host == i.source.requestedBy)
      && (OperationKey(session, i.operation) in looked.operations ==>
            var op := looked.operations[OperationKey(session, i.operation)];
            op.source == i.source && op.request == i.request && op.answer.None?)
  {
  }

  /**
   * The command as the second round carries it: under the epoch and version of this row, with what the round
   * generated.
   */
  function UnderRow(i: SystemInput, r: Round): SystemInput {
    InputOf(i, r).(epoch := r.before.epoch, expectedVersion := r.before.Version())
  }

  lemma SecondInput(rounds: nat -> Round, i: SystemInput)
    requires RetriedAt(AnswerOf, rounds, 0, i)
    ensures rounds(0).before.id in rounds(0).db.sessions
    ensures var held := rounds(0).db.sessions[rounds(0).before.id];
      held.epoch == rounds(1).before.epoch && held.Version() == rounds(1).before.Version() ==>
        AnswerAt(AnswerOf, rounds, 1, i) ==
          HandleSystemOnce(rounds(1).db, rounds(1).before, rounds(1).room, UnderRow(i, rounds(1)))
  {
    RoundAdoptsLockedRow(rounds, 1, i);
  }

  /** The second round reads an active row that is still stored and that the store held when the first one lost. */
  predicate RereadsWinner(rounds: nat -> Round, i: SystemInput) {
    var first, second := rounds(0), rounds(1);
    && first.before.id in first.db.sessions && first.before.id == second.before.id
    && first.db.sessions[first.before.id].epoch == second.before.epoch
    && first.db.sessions[first.before.id].Version() == second.before.Version()
    && second.before.Valid() && second.before.status == Active && Current(second.db, second.before)
    && !second.transition.finished && Undecided(second.db, second.before.id, UnderRow(i, second))
    && NotApplied(second.db, second.before.id, UnderRow(i, second))
  }

  /** An answer that needs no further round: the step applied exactly when its guards hold, a refusal otherwise. */
  predicate Decided(before: Session, i: SystemInput, answer: Result<SystemAnswer>) {
    && (answer.Ok? <==> SystemGuard(before, i))
    && (answer.Ok? ==> SystemWritten(before, i, answer.value) && !answer.value.retry)
  }

  lemma CurrentRowDecides(second: Round, i: SystemInput)
    requires second.before.Valid() && second.before.status == Active && Current(second.db, second.before)
    requires !second.transition.finished && i.source.kind != HostApi
    requires Undecided(second.db, second.before.id, UnderRow(i, second))
    requires NotApplied(second.db, second.before.id, UnderRow(i, second))
    ensures Decided(second.before, UnderRow(i, second),
                    HandleSystemOnce(second.db, second.before, second.room, UnderRow(i, second)))
  {
    SystemCommitsIff(second.db, second.before, second.room, UnderRow(i, second));
  }

  lemma SecondRoundDecides(rounds: nat -> Round, i: SystemInput)
    requires RetriedAt(AnswerOf, rounds, 0, i) && RereadsWinner(rounds, i) && i.source.kind != HostApi
    ensures Decided(rounds(1).before, UnderRow(i, rounds(1)), AnswerAt(AnswerOf, rounds, 1, i))
  {
    SecondInput(rounds, i);
    CurrentRowDecides(rounds(1), i);
  }

  lemma EndsWithSecond(handle: Handler, rounds: nat -> Round, i: SystemInput, r: Result<SystemAnswer>, taken: nat)
    requires RoundsTaken(handle, rounds, i, r, taken) && i.source.kind != HostApi
    requires RetriedAt(handle, rounds, 0, i) && !RetriedAt(handle, rounds, 1, i)
    ensures taken == 2 && r == AnswerAt(handle, rounds, 1, i)
  {
  }

  /**
   * A fact whose first round lost to a claim or a step, and whose second round reads the active row that the store then
   * held and finds it still stored, ends after that round: applied under the new epoch exactly when its guards hold
   * there, and otherwise refused.
   */
  lemma SecondRoundCommitsIff(asked: Tables, looked: Tables, session: Id, rounds: nat -> Round, i: SystemInput,
                              r: Result<SystemAnswer>, taken: nat)
    requires SystemHandled(asked, looked, session, AnswerOf, rounds, i, r, taken)
    requires EarlyAnswer(asked, looked, session, i).None? && i.source.kind != HostApi
    requires RetriedAt(AnswerOf, rounds, 0, i) && RereadsWinner(rounds, i)
    ensures taken == 2 && Decided(rounds(1).before, UnderRow(i, rounds(1)), r)
  {
    SecondRoundDecides(rounds, i);
    EndsWithSecond(AnswerOf, rounds, i, r, taken);
  }
}
