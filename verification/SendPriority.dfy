// The two-class send gate: control frames before bulk, first come first served within a
// class, and the lock handed over directly. Models agent/send_priority.py.

module GateModel {
  import opened Settings

  type Waiter = nat

  /** Who holds the lock, running or just handed it, and who still waits for it. */
  datatype Gate = Gate(owner: Option<Waiter>, control: seq<Waiter>, bulk: seq<Waiter>)

  datatype Step =
    | Arrive(w: Waiter, bulk: bool)
    | Leave
    | GiveUp(w: Waiter)

  ghost predicate Distinct(s: seq<Waiter>) {
    forall i, j :: 0 <= i < j < |s| ==> s[i] != s[j]
  }

  ghost predicate Sound(g: Gate) {
    && (g.owner.None? ==> g.control == [] && g.bulk == [])
    && Distinct(g.control) && Distinct(g.bulk)
    && (forall x :: x in g.control ==> x !in g.bulk && g.owner != Some(x))
    && (forall x :: x in g.bulk ==> g.owner != Some(x))
  }

  predicate Waits(g: Gate, w: Waiter) {
    w in g.control || w in g.bulk
  }

  predicate Legal(g: Gate, s: Step) {
    match s
    case Arrive(w, _) => g.owner != Some(w) && !Waits(g, w)
    case Leave => g.owner.Some?
    case GiveUp(w) => Waits(g, w) || g.owner == Some(w)
  }

  /** The next owner: a waiting control frame, else a bulk frame, else nobody. */
  function Passed(g: Gate): Gate {
    if g.control != [] then Gate(Some(g.control[0]), g.control[1..], g.bulk)
    else if g.bulk != [] then Gate(Some(g.bulk[0]), [], g.bulk[1..])
    else Gate(None, [], [])
  }

  function Dropped(s: seq<Waiter>, w: Waiter): (r: seq<Waiter>)
    ensures forall x :: x in r <==> x in s && x != w
    ensures |r| <= |s| && (w !in s ==> r == s)
  {
    if s == [] then []
    else if s[0] == w then Dropped(s[1..], w)
    else [s[0]] + Dropped(s[1..], w)
  }

  function Do(g: Gate, s: Step): Gate {
    match s
    case Arrive(w, bulk) =>
      if g.owner.None? then g.(owner := Some(w))
      else if bulk then g.(bulk := g.bulk + [w])
      else g.(control := g.control + [w])
    case Leave => Passed(g)
    case GiveUp(w) => if g.owner == Some(w) then Passed(g) else Gate(g.owner, Dropped(g.control, w), Dropped(g.bulk, w))
  }

  // ---- one step -----------------------------------------------------------------

  lemma {:induction false} DroppedDistinct(s: seq<Waiter>, w: Waiter)
    requires Distinct(s)
    ensures Distinct(Dropped(s, w))
  {
    if s != [] {
      DroppedDistinct(s[1..], w);
      FirstApart(s);
      DistinctCons(s[0], Dropped(s[1..], w));
    }
  }

  lemma FirstApart(s: seq<Waiter>)
    requires s != [] && Distinct(s)
    ensures s[0] !in s[1..]
  {
  }

  lemma DistinctCons(x: Waiter, s: seq<Waiter>)
    requires Distinct(s) && x !in s
    ensures Distinct([x] + s)
  {
  }

  /** A free lock has nobody waiting, and the owner is not also a waiter. */
  lemma StepSound(g: Gate, s: Step)
    requires Sound(g) && Legal(g, s)
    ensures Sound(Do(g, s))
  {
    match s
    case Arrive(w, bulk) =>
    case Leave =>
    case GiveUp(w) => DroppedDistinct(g.control, w); DroppedDistinct(g.bulk, w);
  }

  /** `a` is before `b` in the same list. */
  predicate Ahead(s: seq<Waiter>, a: Waiter, b: Waiter) {
    s != [] && ((s[0] == a && b in s[1..]) || Ahead(s[1..], a, b))
  }

  lemma {:induction false} AheadIsBehindFirst(s: seq<Waiter>, a: Waiter, b: Waiter)
    requires Ahead(s, a, b)
    ensures a in s && b in s[1..]
  {
    if !(s[0] == a && b in s[1..]) { AheadIsBehindFirst(s[1..], a, b); }
  }

  lemma {:induction false} AheadAppended(s: seq<Waiter>, w: Waiter, a: Waiter, b: Waiter)
    requires Ahead(s, a, b)
    ensures Ahead(s + [w], a, b)
  {
    assert (s + [w])[1..] == s[1..] + [w];
    if !(s[0] == a && b in s[1..]) { AheadAppended(s[1..], w, a, b); }
  }

  lemma {:induction false} AheadDropped(s: seq<Waiter>, w: Waiter, a: Waiter, b: Waiter)
    requires Ahead(s, a, b) && a != w && b != w
    ensures Ahead(Dropped(s, w), a, b)
  {
    if !(s[0] == a && b in s[1..]) { AheadDropped(s[1..], w, a, b); }
    if s[0] != w { assert ([s[0]] + Dropped(s[1..], w))[1..] == Dropped(s[1..], w); }
  }

  /** Whoever becomes the owner has nobody ahead in its class, and no frame becomes the
      owner out of turn: a bulk frame only when no control frame waits, a newcomer only when
      the lock is free. */
  lemma NobodyIsOvertaken(g: Gate, s: Step, w: Waiter)
    requires Sound(g) && Legal(g, s) && g.owner != Some(w) && Do(g, s).owner == Some(w)
    ensures forall x :: !Ahead(g.control, x, w) && !Ahead(g.bulk, x, w)
    ensures w in g.bulk || s == Arrive(w, true) ==> g.control == []
    ensures !Waits(g, w) ==> g.owner.None? && s.Arrive? && s.w == w
    ensures Waits(g, w) ==> s.Leave? || (s.GiveUp? && g.owner == Some(s.w))
  {
    forall x ensures !Ahead(g.control, x, w) && !Ahead(g.bulk, x, w) {
      if Ahead(g.control, x, w) { AheadIsBehindFirst(g.control, x, w); }
      if Ahead(g.bulk, x, w) { AheadIsBehindFirst(g.bulk, x, w); }
    }
  }

  /** While two frames of a class wait, their order stays. */
  lemma OrderIsKept(g: Gate, s: Step, a: Waiter, b: Waiter)
    requires Sound(g) && Legal(g, s) && Waits(Do(g, s), a) && Waits(Do(g, s), b)
    ensures Ahead(g.control, a, b) ==> Ahead(Do(g, s).control, a, b)
    ensures Ahead(g.bulk, a, b) ==> Ahead(Do(g, s).bulk, a, b)
  {
    StepSound(g, s);
    if Ahead(g.control, a, b) { AheadIsBehindFirst(g.control, a, b); OrderIn(g.control, s, a, b); }
    if Ahead(g.bulk, a, b) { AheadIsBehindFirst(g.bulk, a, b); OrderIn(g.bulk, s, a, b); }
  }

  lemma OrderIn(list: seq<Waiter>, s: Step, a: Waiter, b: Waiter)
    requires Ahead(list, a, b) && Distinct(list)
    ensures s.Arrive? ==> Ahead(list + [s.w], a, b)
    ensures s.GiveUp? && s.w != a && s.w != b ==> Ahead(Dropped(list, s.w), a, b)
    ensures a in list[1..] ==> Ahead(list[1..], a, b)
  {
    if s.Arrive? { AheadAppended(list, s.w, a, b); }
    if s.GiveUp? && s.w != a && s.w != b { AheadDropped(list, s.w, a, b); }
  }

  // ---- runs ------------------------------------------------------------------------

  ghost predicate Next(g: Gate, s: Step, g': Gate) {
    Legal(g, s) && g' == Do(g, s)
  }

  ghost predicate Run(states: seq<Gate>, steps: seq<Step>) {
    && |states| == |steps| + 1 && states[0] == Gate(None, [], [])
    && forall i :: 0 <= i < |steps| ==> Next(states[i], steps[i], states[i+1])
  }

  lemma StepOf(states: seq<Gate>, steps: seq<Step>, i: nat)
    requires Run(states, steps) && i < |steps|
    ensures Legal(states[i], steps[i]) && states[i+1] == Do(states[i], steps[i])
  {
    assert Next(states[i], steps[i], states[i+1]);
  }

  lemma {:induction false} AlwaysSound(states: seq<Gate>, steps: seq<Step>, i: nat)
    requires Run(states, steps) && i <= |steps|
    ensures Sound(states[i])
    decreases i
  {
    if i > 0 {
      AlwaysSound(states, steps, i - 1);
      StepOf(states, steps, i - 1);
      StepSound(states[i-1], steps[i-1]);
    }
  }

  /** From the moment a control frame waits until it stops waiting, no bulk frame becomes
      the owner. */
  lemma ControlGoesFirst(states: seq<Gate>, steps: seq<Step>, i: nat, j: nat, c: Waiter, b: Waiter)
    requires Run(states, steps) && i <= j < |steps|
    requires forall k :: i <= k <= j ==> c in states[k].control
    requires states[j].owner != Some(b) && states[j+1].owner == Some(b)
    ensures b !in states[j].bulk && steps[j] != Arrive(b, true)
  {
    AlwaysSound(states, steps, j);
    StepOf(states, steps, j);
    NobodyIsOvertaken(states[j], steps[j], b);
  }

  /** Of two frames of a class, the later one never becomes the owner while the earlier waits. */
  lemma {:induction false} FirstComeFirstServed(states: seq<Gate>, steps: seq<Step>, i: nat, j: nat, a: Waiter, b: Waiter)
    requires Run(states, steps) && i <= j <= |steps|
    requires Ahead(states[i].control, a, b) || Ahead(states[i].bulk, a, b)
    requires forall k :: i <= k <= j ==> Waits(states[k], a)
    requires forall k :: i <= k < j ==> steps[k] != GiveUp(b)
    ensures Waits(states[j], b) && states[j].owner != Some(b)
    ensures Ahead(states[j].control, a, b) || Ahead(states[j].bulk, a, b)
    decreases j
  {
    AlwaysSound(states, steps, j);
    if i < j {
      FirstComeFirstServed(states, steps, i, j - 1, a, b);
      AlwaysSound(states, steps, j - 1);
      StepOf(states, steps, j - 1);
      KeepsWaiting(states[j-1], steps[j-1], a, b);
      OrderIsKept(states[j-1], steps[j-1], a, b);
    } else {
      if Ahead(states[i].control, a, b) { AheadIsBehindFirst(states[i].control, a, b); }
      if Ahead(states[i].bulk, a, b) { AheadIsBehindFirst(states[i].bulk, a, b); }
    }
  }

  lemma KeepsWaiting(g: Gate, s: Step, a: Waiter, b: Waiter)
    requires Sound(g) && Legal(g, s) && s != GiveUp(b) && Waits(g, b) && Waits(Do(g, s), a)
    requires Ahead(g.control, a, b) || Ahead(g.bulk, a, b)
    ensures Waits(Do(g, s), b)
  {
    if Do(g, s).owner == Some(b) { NobodyIsOvertaken(g, s, b); }
  }

  // ---- by arrival ------------------------------------------------------------------

  /** A frame stays in the list of its class until it owns the lock or gives up. */
  lemma {:induction false} StaysInClass(states: seq<Gate>, steps: seq<Step>, i: nat, j: nat, w: Waiter, bulk: bool)
    requires Run(states, steps) && i < j <= |steps| && steps[i] == Arrive(w, bulk)
    requires (forall k :: i < k <= j ==> states[k].owner != Some(w)) && forall k :: i <= k < j ==> steps[k] != GiveUp(w)
    ensures w in (if bulk then states[j].bulk else states[j].control)
    decreases j
  {
    AlwaysSound(states, steps, j - 1);
    StepOf(states, steps, j - 1);
    if j > i + 1 { StaysInClass(states, steps, i, j - 1, w, bulk); }
  }

  lemma {:induction false} NeverInControl(states: seq<Gate>, steps: seq<Step>, i: nat, j: nat, b: Waiter)
    requires Run(states, steps) && i < j <= |steps| && steps[i] == Arrive(b, true)
    requires forall k :: i < k < j ==> !(steps[k].Arrive? && steps[k].w == b)
    ensures b !in states[j].control
    decreases j
  {
    AlwaysSound(states, steps, j - 1);
    StepOf(states, steps, j - 1);
    if j > i + 1 { NeverInControl(states, steps, i, j - 1, b); }
  }

  /** From the arrival of a control frame until it owns the lock or gives up, no frame that
      arrived as bulk, before or after it, gets the lock. */
  lemma BulkWaitsForControl(states: seq<Gate>, steps: seq<Step>, i: nat, j: nat, c: Waiter, m: nat, b: Waiter)
    requires Run(states, steps) && i < j < |steps| && steps[i] == Arrive(c, false)
    requires (forall k :: i < k <= j ==> states[k].owner != Some(c)) && forall k :: i <= k < j ==> steps[k] != GiveUp(c)
    requires m <= j && steps[m] == Arrive(b, true) && forall k :: m < k <= j ==> !(steps[k].Arrive? && steps[k].w == b)
    ensures states[j+1].owner == Some(b) ==> states[j].owner == Some(b)
  {
    StaysInClass(states, steps, i, j, c, false);
    if m < j { NeverInControl(states, steps, m, j, b); }
    AlwaysSound(states, steps, j);
    StepOf(states, steps, j);
    if states[j+1].owner == Some(b) && states[j].owner != Some(b) { NobodyIsOvertaken(states[j], steps[j], b); }
  }

  lemma {:induction false} AheadOfLast(s: seq<Waiter>, a: Waiter, b: Waiter)
    requires a in s
    ensures Ahead(s + [b], a, b)
  {
    assert (s + [b])[1..] == s[1..] + [b];
    if s[0] != a { AheadOfLast(s[1..], a, b); }
  }

  /** Of two frames of one class the one that arrived first is served first, unless it gives up. */
  lemma ServedByArrival(states: seq<Gate>, steps: seq<Step>, i: nat, m: nat, j: nat, a: Waiter, b: Waiter, bulk: bool)
    requires Run(states, steps) && i < m < j <= |steps| && steps[i] == Arrive(a, bulk) && steps[m] == Arrive(b, bulk)
    requires (forall k :: i < k <= j ==> states[k].owner != Some(a)) && forall k :: i <= k < j ==> steps[k] != GiveUp(a)
    requires forall k :: m < k < j ==> steps[k] != GiveUp(b)
    ensures states[j].owner != Some(b)
  {
    forall k | m + 1 <= k <= j ensures Waits(states[k], a) {
      StaysInClass(states, steps, i, k, a, bulk);
    }
    StaysInClass(states, steps, i, m, a, bulk);
    AlwaysSound(states, steps, m);
    StepOf(states, steps, m);
    AheadOfLast(if bulk then states[m].bulk else states[m].control, a, b);
    FirstComeFirstServed(states, steps, m + 1, j, a, b);
  }

  /** Every release serves somebody if anybody waits, and brings each frame forward: control
      frames always, bulk frames when no control frame waits. */
  lemma ReleaseServes(g: Gate, k: nat)
    requires Sound(g) && g.owner.Some?
    ensures Do(g, Leave).owner.None? <==> g.control == [] && g.bulk == []
    ensures k < |g.control| ==>
              && Do(g, Leave).bulk == g.bulk
              && if k == 0 then Do(g, Leave).owner == Some(g.control[0])
                 else k - 1 < |Do(g, Leave).control| && Do(g, Leave).control[k-1] == g.control[k]
    ensures g.control == [] && k < |g.bulk| ==>
              && Do(g, Leave).control == []
              && if k == 0 then Do(g, Leave).owner == Some(g.bulk[0])
                 else k - 1 < |Do(g, Leave).bulk| && Do(g, Leave).bulk[k-1] == g.bulk[k]
  {
  }
}

// The lock as the program keeps it: a flag, two queues of futures, and futures that are
// cancelled in place and swept later.

module SendLocks {
  import opened Settings
  import opened GateModel

  datatype Future = Pending | Granted | Cancelled

  predicate IsPending(futures: map<Waiter, Future>, w: Waiter) {
    w in futures && futures[w].Pending?
  }

  /** The waiters of a queue that nobody has cancelled. */
  function Live(queue: seq<Waiter>, futures: map<Waiter, Future>): (r: seq<Waiter>)
    ensures forall x :: x in r <==> x in queue && IsPending(futures, x)
  {
    if queue == [] then []
    else if IsPending(futures, queue[0]) then [queue[0]] + Live(queue[1..], futures)
    else Live(queue[1..], futures)
  }

  lemma {:induction false} LiveAppend(queue: seq<Waiter>, futures: map<Waiter, Future>, w: Waiter)
    ensures Live(queue + [w], futures) == Live(queue, futures) + if IsPending(futures, w) then [w] else []
  {
    if queue == [] {
      assert queue + [w] == [w];
    } else {
      assert (queue + [w])[0] == queue[0] && (queue + [w])[1..] == queue[1..] + [w];
      LiveAppend(queue[1..], futures, w);
    }
  }

  /** Only the state of its own waiters matters to a queue. */
  lemma {:induction false} LiveFrame(queue: seq<Waiter>, futures: map<Waiter, Future>, futures': map<Waiter, Future>)
    requires forall x :: x in queue ==> IsPending(futures, x) == IsPending(futures', x)
    ensures Live(queue, futures) == Live(queue, futures')
  {
    if queue != [] { LiveFrame(queue[1..], futures, futures'); }
  }

  lemma {:induction false} LiveWithout(queue: seq<Waiter>, futures: map<Waiter, Future>, futures': map<Waiter, Future>, w: Waiter)
    requires !IsPending(futures', w) && forall x :: x != w ==> IsPending(futures, x) == IsPending(futures', x)
    ensures Live(queue, futures') == Dropped(Live(queue, futures), w)
  {
    if queue != [] {
      LiveWithout(queue[1..], futures, futures', w);
      if IsPending(futures, queue[0]) {
        assert ([queue[0]] + Live(queue[1..], futures))[1..] == Live(queue[1..], futures);
      }
    }
  }

  lemma {:induction false} LiveSwept(queue: seq<Waiter>, futures: map<Waiter, Future>, w: Waiter)
    requires !IsPending(futures, w)
    ensures Live(Dropped(queue, w), futures) == Live(queue, futures)
  {
    if queue != [] { LiveSwept(queue[1..], futures, w); }
  }

  /** The queues hold distinct waiters that have a future, none of them granted yet. */
  ghost predicate Queued(control: seq<Waiter>, bulk: seq<Waiter>, futures: map<Waiter, Future>) {
    && Distinct(control) && Distinct(bulk)
    && (forall x :: x in control ==> x !in bulk && x in futures && !futures[x].Granted?)
    && (forall x :: x in bulk ==> x in futures && !futures[x].Granted?)
    && (forall x :: x in futures && futures[x].Pending? ==> x in control || x in bulk)
  }

  /** The tasks that run inside the lock or have been handed it. */
  ghost function Holders(running: set<Waiter>, futures: map<Waiter, Future>): set<Waiter> {
    running + set w | w in futures && futures[w].Granted?
  }

  ghost function Just(owner: Option<Waiter>): set<Waiter> {
    if owner.Some? then {owner.value} else {}
  }

  class PrioritySendLock {
    var locked: bool
    var control: seq<Waiter>
    var bulk: seq<Waiter>
    var futures: map<Waiter, Future>
    /** The tasks inside the lock, and the one that owns it. */
    ghost var running: set<Waiter>
    ghost var owner: Option<Waiter>

    ghost function View(): Gate
      reads this
    {
      Gate(owner, Live(control, futures), Live(bulk, futures))
    }

    /** The flag tells exactly whether some task owns the lock, and no two tasks do. */
    ghost predicate Valid()
      reads this
    {
      && Queued(control, bulk, futures) && Sound(View())
      && locked == owner.Some? && Holders(running, futures) == Just(owner) && running !! futures.Keys
    }

    constructor ()
      ensures Valid() && View() == Gate(None, [], [])
    {
      locked, control, bulk, futures, running, owner := false, [], [], map[], {}, None;
    }

    predicate AnyPending(queue: seq<Waiter>)
      reads this
      ensures AnyPending(queue) <==> Live(queue, futures) != []
    {
      assert Live(queue, futures) != [] ==> Live(queue, futures)[0] in Live(queue, futures);
      exists w :: w in queue && IsPending(futures, w)
    }

    /** Enter at once, or queue a new future. */
    method Acquire(w: Waiter, toBulk: bool) returns (entered: bool)
      requires Valid() && w !in futures && w !in running
      modifies this
      ensures Valid() && View() == Do(old(View()), Arrive(w, toBulk))
      ensures entered == old(View()).owner.None? && running == (if entered then old(running) + {w} else old(running))
      ensures entered ==> View().owner == Some(w) && control == old(control) && bulk == old(bulk)
      ensures !entered ==> if toBulk then bulk == old(bulk) + [w] && control == old(control) else control == old(control) + [w] && bulk == old(bulk)
    {
      hide Distinct, Sound, Queued, Holders, Live;
      Unknown(control, bulk, futures, running, owner, w);
      NewHolders(running, futures, w);
      StepSound(View(), Arrive(w, toBulk));
      FreeIsQuiet(View());
      if !locked && !AnyPending(control) && (!toBulk || !AnyPending(bulk)) {
        locked, running, owner := true, running + {w}, Some(w);
        return true;
      }
      Enqueue(w, toBulk);
      return false;
    }

    method Enqueue(w: Waiter, toBulk: bool)
      requires Queued(control, bulk, futures) && w !in futures
      modifies `control, `bulk, `futures
      ensures Queued(control, bulk, futures) && futures == old(futures)[w := Pending]
      ensures if toBulk then bulk == old(bulk) + [w] && control == old(control) else control == old(control) + [w] && bulk == old(bulk)
      ensures var was := Live(old(control), old(futures)); Live(control, futures) == if toBulk then was else was + [w]
      ensures var was := Live(old(bulk), old(futures)); Live(bulk, futures) == if toBulk then was + [w] else was
    {
      ghost var before := futures;
      futures := futures[w := Pending];
      LiveFrame(control, before, futures);
      LiveFrame(bulk, before, futures);
      LiveAppend(if toBulk then bulk else control, futures, w);
      if toBulk { bulk := bulk + [w]; } else { control := control + [w]; }
    }

    /** `release` by the task `w` that runs inside. */
    method Release(ghost w: Waiter)
      requires Valid() && w in running
      modifies this
      ensures Valid() && View() == Do(old(View()), Leave) && running == old(running) - {w}
    {
      hide Distinct, Sound, Queued;
      StepSound(View(), Leave);
      assert w in Holders(running, futures);
      running := running - {w};
      PassOn(View());
    }

    /** The task of a granted future goes on, now inside the lock. */
    method Resume(w: Waiter)
      requires Valid() && w in futures && futures[w].Granted?
      modifies `futures, `running
      ensures Valid() && View() == old(View()) && running == old(running) + {w}
    {
      hide Distinct, Sound;
      assert w in Holders(running, futures);
      LiveFrame(control, futures, futures - {w});
      LiveFrame(bulk, futures, futures - {w});
      futures := futures - {w};
      running := running + {w};
    }

    /** A waiting task is cancelled: its future is done at once and stays queued for now. */
    method Cancel(w: Waiter)
      requires Valid() && IsPending(futures, w)
      modifies `futures
      ensures Valid() && View() == Do(old(View()), GiveUp(w))
    {
      hide Distinct, Sound, Queued, Holders, Live;
      PendingWaits(View(), control, bulk, futures, w);
      CancelledQueue(control, bulk, futures, running, w);
      StepSound(View(), GiveUp(w));
      LiveWithout(control, futures, futures[w := Cancelled], w);
      LiveWithout(bulk, futures, futures[w := Cancelled], w);
      futures := futures[w := Cancelled];
    }

    /** The cancelled task unwinds: a lock that was already handed to it goes on to the next,
        and its future leaves the queues. */
    method Unwind(w: Waiter)
      requires Valid() && w in futures && !futures[w].Pending?
      modifies this
      ensures Valid() && w !in futures && running == old(running)
      ensures View() == if old(futures)[w].Granted? then Do(old(View()), GiveUp(w)) else old(View())
    {
      hide Distinct, Sound, Queued;
      if futures[w].Granted? {
        assert w in Holders(running, futures);
        StepSound(View(), GiveUp(w));
        Forget(w);
        PassOn(View());
      } else {
        Forget(w);
      }
    }

    method Forget(w: Waiter)
      requires Queued(control, bulk, futures) && w in futures && !futures[w].Pending?
      modifies `control, `bulk, `futures
      ensures Queued(control, bulk, futures) && futures == old(futures) - {w}
      ensures Live(control, futures) == Live(old(control), old(futures)) && Live(bulk, futures) == Live(old(bulk), old(futures))
    {
      hide Distinct;
      LiveSwept(control, futures, w);
      LiveSwept(bulk, futures, w);
      DroppedDistinct(control, w);
      DroppedDistinct(bulk, w);
      LiveFrame(Dropped(control, w), futures, futures - {w});
      LiveFrame(Dropped(bulk, w), futures, futures - {w});
      control, bulk := Dropped(control, w), Dropped(bulk, w);
      futures := futures - {w};
    }

    /** Hand the lock to the first pending future, control before bulk, or open it. */
    method PassOn(ghost g: Gate)
      requires Queued(control, bulk, futures) && locked && Holders(running, futures) == {} && running !! futures.Keys
      requires g.control == Live(control, futures) && g.bulk == Live(bulk, futures) && Sound(Passed(g))
      modifies `locked, `control, `bulk, `futures, `owner
      ensures Valid() && View() == Passed(g) && futures.Keys == old(futures).Keys
    {
      hide Distinct, Sound, Queued, Holders, Live;
      var found, fromControl, fromBulk := PopFirst(control, bulk, futures);
      control, bulk := fromControl, fromBulk;
      if found.Some? {
        GrantedQueue(control, bulk, futures, running, found.value);
        futures, owner := futures[found.value := Granted], found;
      } else {
        locked, owner := false, None;
      }
    }
  }

  /** The first pending future, control before bulk, and what is left of the queues. */
  method PopFirst(control: seq<Waiter>, bulk: seq<Waiter>, futures: map<Waiter, Future>)
    returns (found: Option<Waiter>, control': seq<Waiter>, bulk': seq<Waiter>)
    requires Queued(control, bulk, futures)
    ensures Sifted(control', bulk', futures, found)
    ensures found.None? ==> Queued(control', bulk', futures)
    ensures found.Some? ==> if Live(control, futures) != []
              then Live(control, futures) == [found.value] + Live(control', futures) && Live(bulk, futures) == Live(bulk', futures)
              else Live(control', futures) == [] && Live(bulk, futures) == [found.value] + Live(bulk', futures)
    ensures found.None? ==> Live(control, futures) == [] && Live(bulk, futures) == []
    ensures found.None? ==> Live(control', futures) == [] && Live(bulk', futures) == []
  {
    hide Distinct;
    bulk' := bulk;
    found, control' := PopPending(control, futures);
    if found.None? {
      found, bulk' := PopPending(bulk, futures);
    }
  }

  /** The queues without the popped waiter. */
  ghost predicate Sifted(control: seq<Waiter>, bulk: seq<Waiter>, futures: map<Waiter, Future>, found: Option<Waiter>) {
    && Distinct(control) && Distinct(bulk)
    && (forall x :: x in control ==> x !in bulk && x in futures && !futures[x].Granted? && found != Some(x))
    && (forall x :: x in bulk ==> x in futures && !futures[x].Granted? && found != Some(x))
    && (forall x :: x in futures && futures[x].Pending? ==> x in control || x in bulk || found == Some(x))
    && (found.Some? ==> IsPending(futures, found.value))
  }

  lemma GrantedQueue(control: seq<Waiter>, bulk: seq<Waiter>, futures: map<Waiter, Future>, running: set<Waiter>, w: Waiter)
    requires Sifted(control, bulk, futures, Some(w)) && Holders(running, futures) == {} && running !! futures.Keys
    ensures var after := futures[w := Granted];
            && Queued(control, bulk, after) && Holders(running, after) == {w} && running !! after.Keys && after.Keys == futures.Keys
            && Live(control, after) == Live(control, futures) && Live(bulk, after) == Live(bulk, futures)
  {
    hide Distinct;
    LiveFrame(control, futures, futures[w := Granted]);
    LiveFrame(bulk, futures, futures[w := Granted]);
    assert forall x :: x in futures && futures[x].Granted? ==> x in Holders(running, futures);
  }

  lemma CancelledQueue(control: seq<Waiter>, bulk: seq<Waiter>, futures: map<Waiter, Future>, running: set<Waiter>, w: Waiter)
    requires Queued(control, bulk, futures) && IsPending(futures, w)
    ensures var after := futures[w := Cancelled];
            && Queued(control, bulk, after) && Holders(running, after) == Holders(running, futures) && after.Keys == futures.Keys
            && !IsPending(after, w) && forall x :: x != w ==> IsPending(futures, x) == IsPending(after, x)
  {
    hide Distinct;
  }

  lemma NewHolders(running: set<Waiter>, futures: map<Waiter, Future>, w: Waiter)
    requires w !in futures
    ensures Holders(running + {w}, futures) == Holders(running, futures) + {w}
    ensures Holders(running, futures[w := Pending]) == Holders(running, futures)
  {
  }

  /** Pop futures until one is still pending. */
  method PopPending(queue: seq<Waiter>, futures: map<Waiter, Future>) returns (found: Option<Waiter>, rest: seq<Waiter>)
    ensures found.Some? ==> IsPending(futures, found.value) && found.value in queue && Live(queue, futures) == [found.value] + Live(rest, futures)
    ensures found.None? ==> rest == [] && Live(queue, futures) == []
    ensures Distinct(queue) ==> Distinct(rest) && (found.Some? ==> found.value !in rest)
    ensures forall x :: x in rest ==> x in queue
    ensures forall x :: x in queue && IsPending(futures, x) ==> x in rest || found == Some(x)
  {
    rest := queue;
    while rest != []
      invariant Live(rest, futures) == Live(queue, futures)
      invariant Distinct(queue) ==> Distinct(rest)
      invariant forall x :: x in rest ==> x in queue
      invariant forall x :: x in queue && IsPending(futures, x) ==> x in rest
    {
      var waiter := rest[0];
      rest := rest[1..];
      if IsPending(futures, waiter) {
        return Some(waiter), rest;
      }
    }
    return None, [];
  }

  lemma Unknown(control: seq<Waiter>, bulk: seq<Waiter>, futures: map<Waiter, Future>, running: set<Waiter>, owner: Option<Waiter>, w: Waiter)
    requires w !in futures && w !in running && Holders(running, futures) == Just(owner)
    ensures w !in Live(control, futures) && w !in Live(bulk, futures) && owner != Some(w)
  {
    assert w !in Holders(running, futures);
  }

  lemma FreeIsQuiet(g: Gate)
    requires Sound(g)
    ensures g.owner.None? ==> g.control == [] && g.bulk == []
  {
  }

  lemma PendingWaits(g: Gate, control: seq<Waiter>, bulk: seq<Waiter>, futures: map<Waiter, Future>, w: Waiter)
    requires Sound(g) && Queued(control, bulk, futures) && IsPending(futures, w)
    requires g.control == Live(control, futures) && g.bulk == Live(bulk, futures)
    ensures Waits(g, w) && g.owner != Some(w)
  {
  }
}
