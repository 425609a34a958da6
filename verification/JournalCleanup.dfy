// The removal of retired files over whole runs: what a completed pass has done, whatever
// crashes, aborted passes and other calls came before it.

module JournalCleanup {
  import opened Settings
  import opened JournalModel
  import opened JournalRuns

  /** Everything that was queued in some state from `i` to `j`. */
  ghost function Listed(states: seq<World>, i: nat, j: nat): set<Item>
    requires i <= j < |states|
    decreases j
  {
    states[j].queue + if i < j then Listed(states, i, j - 1) else {}
  }

  function Ids(items: set<Item>): set<Id> {
    set x | x in items :: x.id
  }

  /** Files go only for listed items, and all of what left the queue is gone; old files are
      never made again; rows go exactly for items listed as stale. */
  ghost predicate Accounted(v: World, w: World, listed: set<Item>) {
    && v.used <= w.used && w.queue <= listed
    && v.files - Ids(listed) <= w.files && w.files * v.used <= v.files
    && (forall x :: x in listed ==> x.id in w.used && x.id !in w.backups && x.id !in w.writing)
    && (forall x :: x in listed && x !in w.queue ==> x.id !in w.files)
    && (forall b :: b in v.backups && Item(Stale, b) !in listed ==> b in w.backups && w.backups[b] == v.backups[b])
  }

  lemma AccountStarts(w: World)
    requires Sound(w)
    ensures Accounted(w, w, w.queue)
  {
    hide LogSound;
  }

  lemma AccountStep(v: World, w: World, s: Step, listed: set<Item>)
    requires Sound(w) && Legal(w, s) && Accounted(v, w, listed)
    ensures Accounted(v, Do(w, s), listed + Do(w, s).queue)
  {
    hide LogSound, Works;
    if s.Retire? && !Active(w.log.calls) { NobodyWrites(w); }
    assert listed <= listed + Do(w, s).queue;
    assert Ids(listed) <= Ids(listed + Do(w, s).queue);
  }

  lemma NobodyWrites(w: World)
    requires Sound(w) && !Active(w.log.calls)
    ensures w.writing == map[]
  {
    hide LogSound;
    NobodyWorks(w.log);
    assert forall b :: b !in w.writing;
  }

  lemma {:induction false} RunAccounts(states: seq<World>, steps: seq<Step>, i: nat, j: nat)
    requires Run(states, steps) && i <= j <= |steps|
    ensures Accounted(states[i], states[j], Listed(states, i, j))
    decreases j
  {
    hide Next, Legal, Do, Sound, Accounted;
    AlwaysSound(states, steps, i);
    if i == j {
      AccountStarts(states[i]);
      assert Listed(states, i, i) == states[i].queue;
    } else {
      RunAccounts(states, steps, i, j - 1);
      AlwaysSound(states, steps, j - 1);
      StepOf(states, steps, j - 1);
      AccountStep(states[i], states[j-1], steps[j-1], Listed(states, i, j - 1));
      assert Listed(states, i, j) == Listed(states, i, j - 1) + states[j].queue;
    }
  }

  // ---- a pass that takes the whole queue ----------------------------------------------

  predicate Busy(p: Pruner) {
    p.Draining? || p.Cleared? || p.Unlinked?
  }

  /** From `a` to `b` the pruner worked through the queue it found, without being stopped. */
  ghost predicate Completed(states: seq<World>, steps: seq<Step>, a: nat, b: nat) {
    && |states| == |steps| + 1 && a < b <= |steps|
    && steps[a] == Take(states[a].queue)
    && (forall k :: a < k < b ==> Busy(states[k].pruner))
    && (states[b].pruner == Draining({}) || (states[b].pruner.Resting? && b == a + 1))
  }

  /** What is still queued during such a pass is what the pruner still has to do. */
  ghost predicate AllTaken(w: World) {
    match w.pruner
    case Draining(todo) => w.queue == todo
    case Cleared(item, todo) => w.queue == todo + {item}
    case Unlinked(item, todo) => w.queue == todo + {item}
    case _ => false
  }

  lemma TakenStep(w: World, s: Step)
    requires Sound(w) && Legal(w, s) && AllTaken(w) && Busy(Do(w, s).pruner)
    ensures AllTaken(Do(w, s))
  {
    hide LogSound, Active, Unreachable;
  }

  lemma {:induction false} TakenUntil(states: seq<World>, steps: seq<Step>, a: nat, b: nat, k: nat)
    requires Run(states, steps) && Completed(states, steps, a, b) && a < k <= b && Busy(states[k].pruner)
    ensures AllTaken(states[k])
    decreases k
  {
    hide Next, Legal, Do, Sound;
    AlwaysSound(states, steps, k - 1);
    StepOf(states, steps, k - 1);
    if k == a + 1 {
      TakenFirst(states[a], states[a].queue);
    } else {
      TakenUntil(states, steps, a, b, k - 1);
      TakenStep(states[k-1], steps[k-1]);
    }
  }

  lemma TakenFirst(w: World, todo: set<Item>)
    requires Legal(w, Take(todo)) && todo == w.queue
    ensures Do(w, Take(todo)).queue == todo
    ensures Do(w, Take(todo)).pruner == if todo == {} then Resting else Draining(todo)
  {
  }

  lemma PassEmptiesQueue(states: seq<World>, steps: seq<Step>, a: nat, b: nat)
    requires Run(states, steps) && Completed(states, steps, a, b)
    ensures states[b].queue == {}
  {
    hide Next, Legal, Do;
    if states[b].pruner.Resting? {
      StepOf(states, steps, a);
      TakenFirst(states[a], states[a].queue);
    } else {
      TakenUntil(states, steps, a, b, b);
    }
  }

  /** Whatever happened since state `i` (crashes at any point of a removal, stopped passes,
      new retirements, other calls), once a pass completes everything queued since then is
      unlinked and forgotten, no other file or row of state `i` is lost, and no file of then
      has come back. */
  lemma CleanupResumes(states: seq<World>, steps: seq<Step>, i: nat, a: nat, b: nat)
    requires Run(states, steps) && i <= b && Completed(states, steps, a, b)
    ensures var v, w, listed := states[i], states[b], Listed(states, i, b);
            && v.queue <= listed && w.queue == {}
            && w.files * v.used == v.files - Ids(listed)
            && forall r :: r in v.backups ==> if Item(Stale, r) in listed then r !in w.backups else r in w.backups && w.backups[r] == v.backups[r]
  {
    hide Run;
    PassEmptiesQueue(states, steps, a, b);
    RunAccounts(states, steps, i, b);
    ListedFirst(states, i, b);
    var v, w, listed := states[i], states[b], Listed(states, i, b);
    AlwaysSound(states, steps, i);
    assert w.files * v.used <= v.files - Ids(listed);
  }

  lemma {:induction false} ListedFirst(states: seq<World>, i: nat, j: nat)
    requires i <= j < |states|
    ensures states[i].queue <= Listed(states, i, j) && states[j].queue <= Listed(states, i, j)
    decreases j
  {
    if i < j { ListedFirst(states, i, j - 1); }
  }

  /** Interrupted or not, two runs from the same state that retire the same end alike. */
  lemma InterruptionsDoNotMatter(states: seq<World>, steps: seq<Step>, i: nat, a: nat, b: nat,
                                 states': seq<World>, steps': seq<Step>, i': nat, a': nat, b': nat)
    requires Run(states, steps) && i <= b && Completed(states, steps, a, b)
    requires Run(states', steps') && i' <= b' && Completed(states', steps', a', b')
    requires states[i] == states'[i'] && Listed(states, i, b) == Listed(states', i', b')
    ensures states[b].queue == states'[b'].queue
    ensures states[b].files * states[i].used == states'[b'].files * states[i].used
    ensures forall r :: r in states[i].backups ==> (r in states[b].backups <==> r in states'[b'].backups)
    ensures forall r :: r in states[i].backups && r in states[b].backups ==> states[b].backups[r] == states'[b'].backups[r]
  {
    hide Run, Completed;
    CompletedBounds(states, steps, a, b);
    CompletedBounds(states', steps', a', b');
    CleanupResumes(states, steps, i, a, b);
    CleanupResumes(states', steps', i', a', b');
  }

  lemma CompletedBounds(states: seq<World>, steps: seq<Step>, a: nat, b: nat)
    requires Completed(states, steps, a, b)
    ensures a < b < |states|
  {
  }

  /** A pass repeated with nothing newly retired takes nothing away. */
  lemma RepeatedPassKeepsAll(states: seq<World>, steps: seq<Step>, i: nat, j: nat)
    requires Run(states, steps) && i <= j <= |steps| && Listed(states, i, j) == {}
    ensures states[j].queue == {} && states[j].files * states[i].used == states[i].files
    ensures forall r :: r in states[i].backups ==> r in states[j].backups && states[j].backups[r] == states[i].backups[r]
  {
    hide Next;
    RunAccounts(states, steps, i, j);
    AlwaysSound(states, steps, i);
    assert Ids({}) == {};
  }

  // ---- a pass can always be completed --------------------------------------------------

  /** Some continuation of the run, with the pruner at work all along. */
  ghost predicate Onward(states: seq<World>, steps: seq<Step>, states': seq<World>, steps': seq<Step>) {
    && Run(states', steps') && states <= states' && steps <= steps'
    && forall k :: |steps| < k <= |steps'| ==> Busy(states'[k].pruner)
  }

  lemma OneOnward(states: seq<World>, steps: seq<Step>, s: Step) returns (states': seq<World>, steps': seq<Step>)
    requires Run(states, steps) && Legal(states[|steps|], s) && Busy(Do(states[|steps|], s).pruner)
    ensures Onward(states, steps, states', steps') && |steps'| == |steps| + 1
    ensures steps'[|steps|] == s && states'[|steps'|] == Do(states[|steps|], s)
  {
    hide Legal, Do;
    states', steps' := states + [Do(states[|steps|], s)], steps + [s];
    Extended(states, steps, s);
  }

  lemma OnwardOn(a: seq<World>, x: seq<Step>, b: seq<World>, y: seq<Step>, c: seq<World>, z: seq<Step>)
    requires |a| == |x| + 1 && Onward(a, x, b, y) && Onward(b, y, c, z)
    ensures Onward(a, x, c, z)
  {
    hide Run;
    assert |b| == |y| + 1 by { RunLength(b, y); }
    forall k | |x| < k <= |z| ensures k < |c| && Busy(c[k].pruner) {
      RunLength(c, z);
      if k <= |y| { assert c[k] == b[k]; }
    }
  }

  lemma RunLength(states: seq<World>, steps: seq<Step>)
    requires Run(states, steps)
    ensures |states| == |steps| + 1
  {
  }

  /** One queued item: checked, unlinked, forgotten. */
  lemma ItemGoes(states: seq<World>, steps: seq<Step>, item: Item) returns (states': seq<World>, steps': seq<Step>)
    requires Run(states, steps) && !Active(states[|steps|].log.calls)
    requires states[|steps|].pruner.Draining? && item in states[|steps|].pruner.todo
    ensures Onward(states, steps, states', steps')
    ensures states'[|steps'|].pruner == Draining(states[|steps|].pruner.todo - {item}) && states'[|steps'|].log == states[|steps|].log
  {
    hide Active, Run, Sound;
    RunLength(states, steps);
    var w := states[|steps|];
    AlwaysSound(states, steps, |steps|);
    QueuedHasNoRow(w, item);
    var a, x := OneOnward(states, steps, Check(item));
    var b, y := OneOnward(a, x, Unlink);
    OnwardOn(states, steps, a, x, b, y);
    states', steps' := OneOnward(b, y, Forget);
    OnwardOn(states, steps, b, y, states', steps');
  }

  lemma QueuedHasNoRow(w: World, item: Item)
    requires Sound(w) && w.pruner.Draining? && item in w.pruner.todo
    ensures item.id !in w.backups
  {
    hide LogSound;
  }

  lemma {:induction false} RestGoes(states: seq<World>, steps: seq<Step>) returns (states': seq<World>, steps': seq<Step>)
    requires Run(states, steps) && !Active(states[|steps|].log.calls) && states[|steps|].pruner.Draining?
    ensures Onward(states, steps, states', steps')
    ensures states'[|steps'|].pruner == Draining({})
    decreases |states[|steps|].pruner.todo|
  {
    hide Active, Sound, Next;
    var todo := states[|steps|].pruner.todo;
    if item :| item in todo {
      var a, x := ItemGoes(states, steps, item);
      states', steps' := RestGoes(a, x);
      OnwardOn(states, steps, a, x, states', steps');
    } else {
      states', steps' := states, steps;
    }
  }

  /** Where no call is active, the pass about to begin has a legal completion. */
  lemma PassCompletes(states: seq<World>, steps: seq<Step>) returns (states': seq<World>, steps': seq<Step>)
    requires Run(states, steps) && states[|steps|].pruner == Draining({}) && !Active(states[|steps|].log.calls)
    ensures Run(states', steps') && states <= states' && steps <= steps'
    ensures Completed(states', steps', |steps|, |steps'|)
  {
    hide Active, Sound, Next;
    var w := states[|steps|];
    TakenFirst(w, w.queue);
    if w.queue == {} {
      states', steps' := states + [Do(w, Take({}))], steps + [Take({})];
      Extended(states, steps, Take({}));
    } else {
      var a, x := OneOnward(states, steps, Take(w.queue));
      states', steps' := RestGoes(a, x);
      OnwardOn(states, steps, a, x, states', steps');
      assert steps'[|steps|] == x[|steps|] && states'[|steps|] == states[|steps|];
    }
  }
}
