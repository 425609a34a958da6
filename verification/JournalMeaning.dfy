// What the transactions of the journal do to one call, in the columns of its row.

module JournalMeaning {
  import opened Settings
  import opened JournalModel
  import opened JournalRuns

  /** When a repeated request runs, waits, is refused or is answered, and with what. */
  lemma AnswerMeans(log: Log, id: Id, fingerprint: string, answer: Answer)
    requires answer == Answered(log, id, fingerprint)
    ensures answer == Conflict <==> id in log.calls && log.calls[id].fingerprint != fingerprint
    ensures id in log.calls && log.calls[id].fingerprint == fingerprint ==>
              && (answer == Busy <==> log.calls[id].status == Running || log.calls[id].status == Accepted)
              && (answer == Proceed <==> log.calls[id].status == Retryable)
              && (forall text :: log.calls[id].result == Some(text) ==>
                    (answer == Stored(text) <==> log.calls[id].status == Done || log.calls[id].status == Interrupted))
    ensures id !in log.calls ==> answer == Proceed
  {
  }

  /** A new request is recorded as accepted and unanswered, a repeated one keeps its record
      but for that, and every other call is left alone. */
  lemma AdmissionMeans(log: Log, id: Id, fingerprint: string, tool: Option<string>, now: real, calls: map<Id, Call>)
    requires calls == Started(log, id, fingerprint, tool, now).calls
    ensures id !in log.calls ==> calls == log.calls[id := Call(fingerprint, Accepted, None, false, tool, 0, false, now)]
    ensures id in log.calls && log.calls[id].fingerprint == fingerprint && log.calls[id].status == Retryable ==>
              calls == log.calls[id := log.calls[id].(status := Accepted, result := None, acked := false)]
    ensures id in log.calls && (log.calls[id].fingerprint != fingerprint || log.calls[id].status != Retryable) ==> calls == log.calls
  {
  }

  /** Some result is still to be delivered, or some call still to be finished. */
  lemma ActiveMeans(calls: map<Id, Call>)
    ensures Active(calls) <==> exists id :: id in calls && (!calls[id].acked || calls[id].status in {Accepted, Running, Retryable})
  {
    if Active(calls) {
      var id :| id in calls && !Settled(calls[id]);
      assert !calls[id].acked || calls[id].status in {Accepted, Running, Retryable};
    }
    if id :| id in calls && (!calls[id].acked || calls[id].status in {Accepted, Running, Retryable}) {
      assert !Settled(calls[id]);
    }
  }

  /** After a restart: what never began is repeated; what ran is repeated if it only reads
      and was not interrupted three times, and reported as interrupted otherwise. */
  lemma RecoveryMeans(log: Log, id: Id, was: Call, now: Call)
    requires id in log.calls && was == log.calls[id] && Restarted(log).calls.Keys == log.calls.Keys && now == Restarted(log).calls[id]
    ensures was.status == Accepted ==> now == was.(status := Retryable)
    ensures was.status == Running && was.tool.Some? && was.tool.value in log.replayable && was.attempts < 2 ==>
              now == was.(status := Retryable, attempts := was.attempts + 1)
    ensures was.status == Running && was.tool.Some? && was.tool.value in log.replayable && was.attempts >= 2 ==>
              now == was.(status := Interrupted, acked := false, result := Some("AGENT_RESTART_LIMIT"), attempts := was.attempts + 1)
    ensures was.status == Running && (was.tool.None? || was.tool.value !in log.replayable) ==>
              now == was.(status := Interrupted, acked := false, result := Some("INTERRUPTED"))
    ensures was.status in {Retryable, Done, Interrupted} ==> now == was
  {
  }

  /** A call begins to run in one way only: `mark_running` of a call that is accepted. */
  lemma BeginMeans(states: seq<World>, steps: seq<Step>, k: nat, id: Id)
    requires Run(states, steps) && k < |steps|
    ensures Begun(states, k, id) <==>
              id in states[k].log.calls && states[k].log.calls[id].status == Accepted && steps[k] == MarkRunning(id)
  {
    hide Next, Initial, Active, Checked, RetiredBy, Legal;
    var w, s := states[k], steps[k];
    StepOf(states, steps, k);
    if s.Find? || s.Take? || s.Check? || s.Unlink? || s.Forget? || s.GiveUp? || s.Retire? { QuietStep(w, s); }
  }

  /** What one step makes of a recorded result: only an expiry of this very call changes it. */
  lemma RecordedStep(w: World, s: Step, id: Id, result: string)
    requires Legal(w, s) && id in w.log.calls && w.log.calls[id].status == Done
    requires s.Finish? ==> s.id != id
    requires w.log.calls[id].result == Some(if w.log.calls[id].expired then "RESULT_EXPIRED" else result)
    ensures id in Do(w, s).log.calls && Do(w, s).log.calls[id].status == Done
    ensures Do(w, s).log.calls[id].fingerprint == w.log.calls[id].fingerprint
    ensures Do(w, s).log.calls[id].result == Some(if Do(w, s).log.calls[id].expired then "RESULT_EXPIRED" else result)
    ensures Do(w, s).log.calls[id].expired <==> w.log.calls[id].expired || (s.Expire? && id in s.ids)
  {
    hide Active, Checked, RetiredBy;
    if s.Find? || s.Take? || s.Check? || s.Unlink? || s.Forget? || s.GiveUp? || s.Retire? { QuietStep(w, s); }
  }

  ghost predicate ExpiredIn(steps: seq<Step>, i: nat, j: nat, id: Id)
    requires j <= |steps|
  {
    exists k :: i < k < j && steps[k].Expire? && id in steps[k].ids
  }

  lemma {:induction false} RecordKept(states: seq<World>, steps: seq<Step>, i: nat, j: nat, id: Id, result: string)
    requires Run(states, steps) && i < j <= |steps| && steps[i] == Finish(id, result) && id in states[i].log.calls
    requires !states[i].log.calls[id].expired && forall k | i < k < j :: steps[k].Finish? ==> steps[k].id != id
    ensures id in states[j].log.calls && states[j].log.calls[id].status == Done
    ensures states[j].log.calls[id].fingerprint == states[i].log.calls[id].fingerprint
    ensures states[j].log.calls[id].result == Some(if states[j].log.calls[id].expired then "RESULT_EXPIRED" else result)
    ensures states[j].log.calls[id].expired <==> ExpiredIn(steps, i, j, id)
    decreases j
  {
    hide Next, Initial, Legal;
    StepOf(states, steps, j - 1);
    if j == i + 1 {
      assert !ExpiredIn(steps, i, j, id);
    } else {
      hide Do;
      RecordKept(states, steps, i, j - 1, id, result);
      RecordedStep(states[j-1], steps[j-1], id, result);
      assert ExpiredIn(steps, i, j, id) <==> ExpiredIn(steps, i, j - 1, id) || (steps[j-1].Expire? && id in steps[j-1].ids);
    }
  }

  /** Whatever happens after a call finished, restarts included, the same request is answered
      with the result it finished with, or told that the result has expired. */
  lemma AnsweredAsRecorded(states: seq<World>, steps: seq<Step>, i: nat, j: nat, id: Id, result: string)
    requires Run(states, steps) && i < j <= |steps| && steps[i] == Finish(id, result) && id in states[i].log.calls
    requires !states[i].log.calls[id].expired && forall k | i < k < j :: steps[k].Finish? ==> steps[k].id != id
    ensures Answered(states[j].log, id, states[i].log.calls[id].fingerprint)
         == Stored(if exists k :: i < k < j && steps[k].Expire? && id in steps[k].ids then "RESULT_EXPIRED" else result)
  {
    hide Next, Initial, Legal, Do;
    RecordKept(states, steps, i, j, id, result);
    assert ExpiredIn(steps, i, j, id) <==> exists k :: i < k < j && steps[k].Expire? && id in steps[k].ids;
  }

  /** From the moment a call finished until its result is acknowledged, the result is there to
      be delivered, and no recovery material is retired, whatever else happens. */
  lemma {:induction false} UndeliveredUntilAcked(states: seq<World>, steps: seq<Step>, i: nat, j: nat, id: Id, result: string)
    requires Run(states, steps) && i < j <= |steps| && steps[i] == Finish(id, result) && id in states[i].log.calls
    requires forall k | i < k < j :: steps[k] != Ack(id) && !(steps[k].Finish? && steps[k].id == id)
    ensures id in states[j].log.calls && !states[j].log.calls[id].acked
    ensures states[j].log.calls[id].status == Done && states[j].log.calls[id].result == Some(result)
    ensures states[i].backups.Keys <= states[j].backups.Keys
    decreases j
  {
    hide Next, Initial, Legal, Active, Checked, RetiredBy;
    StepOf(states, steps, j - 1);
    if j > i + 1 {
      hide Do;
      UndeliveredUntilAcked(states, steps, i, j - 1, id, result);
      UnackedResultStays(states[j-1], steps[j-1], id);
    }
  }

  /** An acknowledgement changes nothing else. */
  lemma AcknowledgementMeans(w: World, id: Id, other: Id)
    requires other in w.log.calls
    ensures var v := Do(w, Ack(id));
            && v == w.(log := v.log) && v.log.calls.Keys == w.log.calls.Keys && v.log.runs == w.log.runs
            && v.log.calls[other] == if other == id then w.log.calls[other].(acked := true) else w.log.calls[other]
  {
  }
}
