// What every interleaving of calls, backup writers and readers, the pruner and restarts keeps.

module JournalRuns {
  import opened Settings
  import opened JournalModel

  ghost predicate Next(w: World, s: Step, w': World) {
    Legal(w, s) && w' == Do(w, s)
  }

  ghost predicate Initial(w: World) {
    w.log.calls == map[] && w.log.runs == map[] && w.backups == map[] && w.files == {} && w.queue == {}
    && w.writing == map[] && w.reading == {} && w.pruner.Resting?
  }

  ghost predicate Run(states: seq<World>, steps: seq<Step>) {
    && |states| == |steps| + 1 && Initial(states[0])
    && forall i :: 0 <= i < |steps| ==> Next(states[i], steps[i], states[i+1])
  }

  lemma StepOf(states: seq<World>, steps: seq<Step>, i: nat)
    requires Run(states, steps) && i < |steps|
    ensures Legal(states[i], steps[i]) && states[i+1] == Do(states[i], steps[i])
  {
    hide Legal, Do;
    assert Next(states[i], steps[i], states[i+1]);
  }

  lemma Extended(states: seq<World>, steps: seq<Step>, s: Step)
    requires Run(states, steps) && Legal(states[|steps|], s)
    ensures Run(states + [Do(states[|steps|], s)], steps + [s])
  {
    hide Legal, Do, Initial;
    var states', steps' := states + [Do(states[|steps|], s)], steps + [s];
    forall i | 0 <= i < |steps'| ensures Next(states'[i], steps'[i], states'[i+1]) {
      if i < |steps| { assert Next(states[i], steps[i], states[i+1]); }
    }
  }

  // ---- one step -------------------------------------------------------------------

  lemma CallStepSound(w: World, s: Step)
    requires Sound(w) && Legal(w, s) && (s.Start? || s.MarkRunning? || s.Finish? || s.Ack? || s.Expire?)
    ensures Sound(Do(w, s)) && Continues(w.log, Do(w, s).log)
  {
    hide LogSound, Continues, Started, Marked, Finished, Acked, Forgotten, Restarted, Active;
    match s
    case Start(id, fingerprint, tool, now) =>
      StartedSound(w.log, id, fingerprint, tool, now);
      StillWorking(w.log, s);
    case MarkRunning(id) => MarkedSound(w.log, id); StillWorking(w.log, s);
    case Finish(id, result) => FinishedSound(w.log, id, result); StillWorking(w.log, s);
    case Ack(id) => AckedSound(w.log, id); StillWorking(w.log, s);
    case Expire(ids) => ForgottenSound(w.log, ids); StillWorking(w.log, s);
  }

  lemma RestartStepSound(w: World)
    requires Sound(w)
    ensures Sound(Do(w, Restart)) && Continues(w.log, Do(w, Restart).log)
  {
    hide LogSound, Continues, Restarted;
    RestartedSound(w.log);
  }

  function CallsAfter(log: Log, s: Step): Log {
    match s
    case Start(id, fingerprint, tool, now) => Started(log, id, fingerprint, tool, now)
    case MarkRunning(id) => Marked(log, id)
    case Finish(id, result) => Finished(log, id, result)
    case Ack(id) => Acked(log, id)
    case Expire(ids) => Forgotten(log, ids)
    case _ => log
  }

  /** Only its own `finish` and a restart take a call out of the running state. */
  lemma StillWorking(log: Log, s: Step)
    requires !s.Restart? && (s.Expire? ==> forall id :: id in s.ids ==> id in log.calls && Settled(log.calls[id]))
    ensures forall id :: Works(log, id) && !(s.Finish? && s.id == id) ==> Works(CallsAfter(log, s), id)
  {
  }

  lemma WriterStepSound(w: World, s: Step)
    requires Sound(w) && Legal(w, s) && (s.WriteFile? || s.InsertRow? || s.Abandon?)
    ensures Sound(Do(w, s)) && Do(w, s).log == w.log
  {
    hide LogSound, Works;
  }

  lemma ReaderStepSound(w: World, s: Step)
    requires Sound(w) && Legal(w, s) && (s.LookUp? || s.Leave?)
    ensures Sound(Do(w, s)) && Do(w, s).log == w.log
  {
    hide LogSound;
  }

  lemma PrunerStepSound(w: World, s: Step)
    requires Sound(w) && Legal(w, s) && (s.Find? || s.Take? || s.Check? || s.Unlink? || s.Forget? || s.GiveUp?)
    ensures Sound(Do(w, s)) && Do(w, s).log == w.log
  {
    hide LogSound;
  }

  lemma RetireSound(w: World, s: Step)
    requires Sound(w) && Legal(w, s) && s.Retire?
    ensures Sound(Do(w, s)) && Do(w, s).log == w.log
  {
    hide LogSound;
    if !Active(w.log.calls) { NobodyWorks(w.log); }
  }

  lemma NobodyWorks(log: Log)
    requires !Active(log.calls)
    ensures forall id :: !Works(log, id)
  {
  }

  lemma StepSound(w: World, s: Step)
    requires Sound(w) && Legal(w, s)
    ensures Sound(Do(w, s)) && Continues(w.log, Do(w, s).log)
  {
    hide Sound, Legal, Do, LogSound, Continues;
    SameContinues(w.log);
    if {
      case s.Restart? => RestartStepSound(w);
      case s.Start? || s.MarkRunning? || s.Finish? || s.Ack? || s.Expire? => CallStepSound(w, s);
      case s.WriteFile? || s.InsertRow? || s.Abandon? => WriterStepSound(w, s);
      case s.LookUp? || s.Leave? => ReaderStepSound(w, s);
      case s.Find? || s.Take? || s.Check? || s.Unlink? || s.Forget? || s.GiveUp? => PrunerStepSound(w, s);
      case s.Retire? => RetireSound(w, s);
    }
  }

  lemma SameContinues(log: Log)
    ensures Continues(log, log)
  {
  }

  // ---- every run --------------------------------------------------------------------

  lemma {:induction false} AlwaysSound(states: seq<World>, steps: seq<Step>, i: nat)
    requires Run(states, steps) && i <= |steps|
    ensures Sound(states[i])
    decreases i
  {
    hide Next, Legal, Do;
    if i > 0 {
      AlwaysSound(states, steps, i - 1);
      StepOf(states, steps, i - 1);
      StepSound(states[i-1], steps[i-1]);
    }
  }

  /** A call keeps its request for ever; once finished it stays so, whatever is pruned. */
  lemma {:induction false} CallsContinue(states: seq<World>, steps: seq<Step>, i: nat, j: nat)
    requires Run(states, steps) && i <= j <= |steps|
    ensures Continues(states[i].log, states[j].log)
    decreases j
  {
    hide Next, Legal, Do, Sound, Continues;
    if i == j {
      SameContinues(states[i].log);
    } else {
      CallsContinue(states, steps, i, j - 1);
      AlwaysSound(states, steps, j - 1);
      StepOf(states, steps, j - 1);
      StepSound(states[j-1], steps[j-1]);
      ContinuesOn(states[i].log, states[j-1].log, states[j].log);
    }
  }

  /** `runs` counts the steps that put a call into the running state. */
  lemma {:induction false} RunsCount(states: seq<World>, steps: seq<Step>, i: nat, id: Id)
    requires Run(states, steps) && i <= |steps|
    ensures Runs(states[i].log, id) == |Begins(states, steps, i, id)|
    decreases i
  {
    hide Next, Legal, Do, Works;
    if i > 0 {
      RunsCount(states, steps, i - 1, id);
      StepOf(states, steps, i - 1);
      RunsStep(states[i-1], steps[i-1], id);
      MoreBegins(states, steps, i, id);
    }
  }

  lemma RunsStep(w: World, s: Step, id: Id)
    requires Legal(w, s)
    ensures Runs(Do(w, s).log, id) == Runs(w.log, id) + if Works(Do(w, s).log, id) && !Works(w.log, id) then 1 else 0
  {
    hide Active, Checked, RetiredBy;
    if s.Find? || s.Take? || s.Check? || s.Unlink? || s.Forget? || s.GiveUp? || s.Retire? { QuietStep(w, s); }
  }

  lemma QuietStep(w: World, s: Step)
    requires Legal(w, s) && (s.Find? || s.Take? || s.Check? || s.Unlink? || s.Forget? || s.GiveUp? || s.Retire?)
    ensures Do(w, s).log == w.log
  {
  }

  /** The steps before `i` after which a call runs that did not run before. */
  ghost function Begins(states: seq<World>, steps: seq<Step>, i: nat, id: Id): set<int>
    requires |states| == |steps| + 1 && i <= |steps|
  {
    set k | 0 <= k < i && Begun(states, k, id)
  }

  ghost predicate Begun(states: seq<World>, k: int, id: Id)
    requires 0 <= k < |states| - 1
  {
    Works(states[k+1].log, id) && !Works(states[k].log, id)
  }

  lemma MoreBegins(states: seq<World>, steps: seq<Step>, i: nat, id: Id)
    requires |states| == |steps| + 1 && 0 < i <= |steps|
    ensures Begins(states, steps, i, id)
         == Begins(states, steps, i - 1, id) + if Begun(states, i - 1, id) then {i - 1} else {}
  {
  }

  /** A call begins to run at most once, one that may be repeated at most three times,
      over all restarts. */
  lemma AtMostOnce(states: seq<World>, steps: seq<Step>, i: nat, id: Id)
    requires Run(states, steps) && i <= |steps| && id in states[i].log.calls
    ensures |Begins(states, steps, i, id)| <=
            if exists tool :: states[i].log.calls[id].tool == Some(tool) && tool in states[i].log.replayable then 3 else 1
  {
    hide Next, Begins;
    AlwaysSound(states, steps, i);
    RunsCount(states, steps, i, id);
    assert CallSound(states[i].log.calls[id], Runs(states[i].log, id), states[i].log.replayable);
  }

  /** A finished call never runs again, even after its result has expired. */
  lemma FinishedStaysFinished(states: seq<World>, steps: seq<Step>, i: nat, j: nat, id: Id)
    requires Run(states, steps) && i <= j <= |steps| && id in states[i].log.calls
    requires states[i].log.calls[id].status.Done? || states[i].log.calls[id].status.Interrupted?
    ensures id in states[j].log.calls && states[j].log.calls[id].fingerprint == states[i].log.calls[id].fingerprint
    ensures states[j].log.calls[id].status.Done? || states[j].log.calls[id].status.Interrupted?
    ensures Answered(states[j].log, id, states[i].log.calls[id].fingerprint).Stored?
  {
    hide Next;
    CallsContinue(states, steps, i, j);
    assert Follows(states[i].log.calls[id], states[j].log.calls[id]);
  }

  /** An id reused for another request is refused and changes nothing, now and later. */
  lemma ReuseIsRefused(states: seq<World>, steps: seq<Step>, i: nat, j: nat, id: Id, other: string, tool: Option<string>, now: real)
    requires Run(states, steps) && i <= j <= |steps| && id in states[i].log.calls && other != states[i].log.calls[id].fingerprint
    ensures Answered(states[j].log, id, other).Conflict?
    ensures Started(states[j].log, id, other, tool, now) == states[j].log
  {
    hide Next;
    CallsContinue(states, steps, i, j);
    assert Follows(states[i].log.calls[id], states[j].log.calls[id]);
  }

  /** A result nobody acknowledged stays until it is: only an acknowledgement or another
      result replaces it, and meanwhile no recovery material is retired. */
  lemma UnackedResultStays(w: World, s: Step, id: Id)
    requires Legal(w, s) && id in w.log.calls && !w.log.calls[id].acked
    requires w.log.calls[id].status.Done? || w.log.calls[id].status.Interrupted?
    requires s != Ack(id) && !(s.Finish? && s.id == id)
    ensures id in Do(w, s).log.calls && Do(w, s).log.calls[id] == w.log.calls[id]
    ensures Do(w, s).backups.Keys >= w.backups.Keys
  {
    assert Active(w.log.calls);
  }

  // ---- recovery material ---------------------------------------------------------------

  /** Whatever is interleaved, a row that refers to a file finds it, and a call that looked
      up a row still finds row and file. */
  lemma RecoveryDataIsKept(states: seq<World>, steps: seq<Step>, i: nat)
    requires Run(states, steps) && i <= |steps|
    ensures forall b :: b in states[i].backups && states[i].backups[b].existed ==> b in states[i].files
    ensures forall r :: r in states[i].reading ==>
              r.1 in states[i].backups && (states[i].backups[r.1].existed ==> r.1 in states[i].files)
  {
    hide Run, LogSound, Unreachable;
    AlwaysSound(states, steps, i);
  }

  /** A file is unlinked only when no row, writer or reader knows it, although calls may
      have been admitted since that was checked. */
  lemma UnlinkIsSafe(states: seq<World>, steps: seq<Step>, i: nat)
    requires Run(states, steps) && i < |steps| && steps[i].Unlink?
    ensures states[i].pruner.Cleared? && Unreachable(states[i], states[i].pruner.item.id)
    ensures states[i+1].files == states[i].files - {states[i].pruner.item.id}
  {
    hide LogSound;
    AlwaysSound(states, steps, i);
    StepOf(states, steps, i);
  }

  /** No other step removes a file, and only a retirement removes a row. */
  lemma NothingElseIsLost(w: World, s: Step)
    requires Legal(w, s)
    ensures !s.Unlink? ==> w.files <= Do(w, s).files
    ensures !s.Retire? ==> w.backups.Keys <= Do(w, s).backups.Keys
    ensures s.Retire? && Do(w, s).backups != w.backups ==> !Active(w.log.calls)
  {
  }
}
