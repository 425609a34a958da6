// What the admission queue guarantees: one step, one drain, whole runs.

module QueueProperties {
  import opened Claims
  import opened QueueModel

  // ---- a grant never unblocks anybody else ------------------------------

  lemma DepsAfterGrant(q: Queue, g: Token, now: real, b: Token)
    requires WF(q) && g in q.waiting && b !in Grant(q, g, now).active
    ensures Deps(Grant(q, g, now), b) == Deps(q, b)
  {
    var q' := Grant(q, g, now);
    assert forall u :: Clash(q', b, u) == Clash(q, b, u) && Before(q', u, b) == Before(q, u, b);
  }

  lemma {:induction false} ReachesAfterGrant(q: Queue, g: Token, now: real, b: Token, r: Token)
    requires WF(q) && g in q.waiting && r != g
    requires Reaches(Grant(q, g, now), b, r)
    ensures Reaches(q, b, r)
    decreases Rank(q, b)
  {
    var q' := Grant(q, g, now);
    if b !in q'.active {
      DepsAfterGrant(q, g, now, b);
      var d :| d in Deps(q', b) && Reaches(q', d, r);
      ReachesAfterGrant(q, g, now, d, r);
    }
  }

  lemma PassableAfterGrant(q: Queue, g: Token, b: Token, now: real)
    requires WF(q) && g in q.waiting && q.patience > 0.0
    requires Passable(Grant(q, g, now), b, now)
    ensures Passable(q, b, now)
  {
    var q' := Grant(q, g, now);
    var r :| r in Gate(q', b) && LongRunning(q', r, now);
    assert r != g;
    ReachesAfterGrant(q, g, now, b, r);
    assert r in Roots(q, b);
    assert r in Gate(q, b) && LongRunning(q, r, now);
  }

  /** The new owner has run for no time at all, so it opens no gate. */
  lemma GrantKeepsBlocked(q: Queue, g: Token, t: Token, now: real)
    requires WF(q) && g in q.waiting && t != g && q.patience > 0.0
    requires Blocked(q, t, now)
    ensures Blocked(Grant(q, g, now), t, now)
  {
    var q' := Grant(q, g, now);
    if Excluded(q, t) {
      var a :| a in q.active && a != t && Clash(q, t, a);
      assert a in q'.active && Clash(q', t, a);
    } else if !Excluded(q', t) {
      BypassableAfterGrant(q, g, t, now);
    }
  }

  lemma BypassableAfterGrant(q: Queue, g: Token, t: Token, now: real)
    requires WF(q) && g in q.waiting && t != g && q.patience > 0.0 && t !in q.active
    ensures Deps(Grant(q, g, now), t) == Deps(q, t)
    ensures Bypassable(Grant(q, g, now), t, now) ==> Bypassable(q, t, now)
  {
    var q' := Grant(q, g, now);
    DepsAfterGrant(q, g, now, t);
    if Bypassable(q', t, now) {
      forall b | b in Deps(q, t) ensures Passable(q, b, now) {
        assert Passable(q', b, now);
        PassableAfterGrant(q, g, b, now);
      }
    }
  }

  function Service(name: string): Claim {
    Claim("agent", "service", name, true, File, false)
  }

  /** Three services' writers in a row, the last one bounded. */
  function Impatient(patience: real): Queue {
    Queue(true, patience, 4,
          map[1 := Entry(1, "one", [Service("a")]),
              2 := Entry(2, "two", [Service("a"), Service("b")]),
              3 := Entry(3, "three", [Service("b")])],
          [1, 2, 3], map[], {3}, map[], {}, {})
  }

  lemma ImpatientOverlaps()
    ensures Overlaps([Service("a"), Service("b")], [Service("a")], true)
    ensures Overlaps([Service("b")], [Service("a"), Service("b")], true)
    ensures !Overlaps([Service("b")], [Service("a")], true)
  {
    var a, b := Service("a"), Service("b");
    assert Conflicts(a, a, true) && Conflicts(b, b, true);
    assert a in [a, b] && b in [a, b] && a in [a] && b in [b];
    assert "a"[0] != "b"[0];
  }

  lemma ImpatientDeps(q: Queue)
    requires q.entries == Impatient(0.0).entries && q.relaxed && q.active.Keys <= {1}
    ensures 1 !in q.active ==> Deps(q, 1) == {}
    ensures Deps(q, 2) == {1} && Deps(q, 3) == {2}
    ensures !Clash(q, 3, 1)
  {
    ImpatientOverlaps();
    assert q.entries.Keys == {1, 2, 3};
    assert forall u :: u in Deps(q, 3) <==> u == 2;
    assert forall u :: u in Deps(q, 2) <==> u == 1;
  }

  /** Without patience the fact fails: the grant of the first waiter frees the third. */
  lemma GrantUnblocksWithoutPatience(patience: real, now: real)
    requires patience <= 0.0
    ensures Blocked(Impatient(patience), 3, now) && !Blocked(Impatient(patience), 1, now)
    ensures !Blocked(Grant(Impatient(patience), 1, now), 3, now)
  {
    hide WF, Overlaps, Ordered;
    var q := Impatient(patience);
    ImpatientDeps(q);
    assert !Passable(q, 2, now);
    ImpatientGranted(patience, now);
  }

  lemma ImpatientGranted(patience: real, now: real)
    requires patience <= 0.0
    ensures !Blocked(Grant(Impatient(patience), 1, now), 3, now)
  {
    hide WF, Overlaps, Ordered;
    var q' := Grant(Impatient(patience), 1, now);
    ImpatientDeps(q');
    assert Reaches(q', 1, 1) && Reaches(q', 2, 1);
    assert 1 in Gate(q', 2) && LongRunning(q', 1, now);
  }

  lemma ImpatientWF(patience: real)
    ensures WF(Impatient(patience))
  {
  }

  /** A grant never unblocks another waiter exactly when `bypass_seconds` is positive. */
  lemma PatienceDecides(patience: real, now: real)
    ensures patience > 0.0 <==>
            forall q, g, t :: WF(q) && q.patience == patience && g in q.waiting && t != g && Blocked(q, t, now)
                              ==> Blocked(Grant(q, g, now), t, now)
  {
    hide WF, Blocked, Grant;
    if patience > 0.0 {
      forall q, g, t | WF(q) && q.patience == patience && g in q.waiting && t != g && Blocked(q, t, now)
        ensures Blocked(Grant(q, g, now), t, now)
      {
        GrantKeepsBlocked(q, g, t, now);
      }
    } else {
      ImpatientWF(patience);
      GrantUnblocksWithoutPatience(patience, now);
      var q := Impatient(patience);
      assert 1 in q.waiting && WF(q) && Blocked(q, 3, now) && !Blocked(Grant(q, 1, now), 3, now);
    }
  }

  // ---- one drain --------------------------------------------------------

  ghost function Visit(q: Queue, t: Token, now: real): Queue {
    if t in q.owners && !Blocked(q, t, now) then Grant(q, t, now) else q
  }

  /** The loop of `drain` over its snapshot of the waiting list. */
  ghost function DrainOver(q: Queue, toks: seq<Token>, now: real): Queue
    decreases |toks|
  {
    if toks == [] then q else DrainOver(Visit(q, toks[0], now), toks[1..], now)
  }

  ghost function Drain(q: Queue, now: real): Queue {
    DrainOver(q, q.waiting, now)
  }

  ghost predicate Pending(q: Queue, toks: seq<Token>) {
    Distinct(toks) && forall t :: t in toks ==> t in q.waiting
  }

  lemma WaitingIsPending(q: Queue)
    requires WF(q)
    ensures Pending(q, q.waiting)
  {
  }

  lemma VisitKeeps(q: Queue, toks: seq<Token>, now: real)
    requires WF(q) && toks != [] && Pending(q, toks)
    ensures WF(Visit(q, toks[0], now)) && Pending(Visit(q, toks[0], now), toks[1..])
  {
    if Admits(q, toks, now) { GrantWF(q, toks[0], now); }
    forall t | t in toks[1..] ensures t in Visit(q, toks[0], now).waiting {
      assert t != toks[0];
    }
  }

  ghost predicate Admits(q: Queue, toks: seq<Token>, now: real)
    requires toks != []
  {
    toks[0] in q.owners && !Blocked(q, toks[0], now)
  }

  /** One turn of the loop of `drain`. */
  lemma DrainOverHead(q: Queue, toks: seq<Token>, i: nat, now: real)
    requires WF(q) && i < |toks| && Pending(q, toks[i..])
    ensures toks[i] in q.waiting
    ensures Pending(Visit(q, toks[i], now), toks[i+1..])
    ensures DrainOver(Visit(q, toks[i], now), toks[i+1..], now) == DrainOver(q, toks[i..], now)
  {
    hide Blocked;
    VisitKeeps(q, toks[i..], now);
    assert toks[i..][0] == toks[i] && toks[i..][1..] == toks[i+1..];
    assert toks[i] in toks[i..];
  }

  /** What later visits leave alone. */
  lemma {:induction false} DrainOverFrame(q: Queue, toks: seq<Token>, now: real)
    requires WF(q) && Pending(q, toks)
    ensures var e := DrainOver(q, toks, now);
            && WF(e)
            && e == q.(waiting := e.waiting, active := e.active, gates := e.gates)
            && (forall t :: t in q.active ==> t in e.active && e.active[t] == q.active[t])
            && (forall t :: t in e.active && t !in q.active ==> t in toks && t in q.owners && e.active[t] == now)
    decreases |toks|
  {
    if toks != [] {
      VisitKeeps(q, toks, now);
      DrainOverFrame(Visit(q, toks[0], now), toks[1..], now);
    }
  }

  lemma {:induction false} DrainOverKeepsBlocked(q: Queue, toks: seq<Token>, t: Token, now: real)
    requires WF(q) && Pending(q, toks) && q.patience > 0.0
    requires t in q.entries && Blocked(q, t, now)
    ensures Blocked(DrainOver(q, toks, now), t, now)
    decreases |toks|
  {
    if toks != [] {
      VisitKeeps(q, toks, now);
      if Admits(q, toks, now) { GrantKeepsBlocked(q, toks[0], t, now); }
      DrainOverKeepsBlocked(Visit(q, toks[0], now), toks[1..], t, now);
    }
  }

  lemma {:induction false} DrainOverSettles(q: Queue, toks: seq<Token>, t: Token, now: real)
    requires WF(q) && Pending(q, toks) && q.patience > 0.0
    requires t in toks && t in q.owners
    ensures var e := DrainOver(q, toks, now); t in e.active || Blocked(e, t, now)
    decreases |toks|
  {
    VisitKeeps(q, toks, now);
    var v := Visit(q, toks[0], now);
    if t == toks[0] {
      DrainOverFrame(v, toks[1..], now);
      if Blocked(q, t, now) { DrainOverKeepsBlocked(v, toks[1..], t, now); }
    } else {
      DrainOverSettles(v, toks[1..], t, now);
    }
  }

  lemma {:induction false} FirstFreeIsGranted(q: Queue, toks: seq<Token>, k: nat, now: real)
    requires WF(q) && Pending(q, toks) && k < |toks| && toks[k] in q.owners && !Blocked(q, toks[k], now)
    requires forall m :: 0 <= m < k && toks[m] in q.owners ==> Blocked(q, toks[m], now)
    ensures toks[k] in DrainOver(q, toks, now).active
    decreases k
  {
    hide WF, Blocked;
    VisitKeeps(q, toks, now);
    if k == 0 {
      DrainOverFrame(Visit(q, toks[0], now), toks[1..], now);
    } else {
      FirstFreeIsGranted(q, toks[1..], k - 1, now);
    }
  }

  /** The first standalone waiter that may go does go, whatever waits behind it. */
  lemma DrainInOrder(q: Queue, k: nat, now: real)
    requires WF(q) && k < |q.waiting| && q.waiting[k] in q.owners && !Blocked(q, q.waiting[k], now)
    requires forall m :: 0 <= m < k && q.waiting[m] in q.owners ==> Blocked(q, q.waiting[m], now)
    ensures q.waiting[k] in Drain(q, now).active
  {
    hide WF, Blocked;
    WaitingIsPending(q);
    FirstFreeIsGranted(q, q.waiting, k, now);
  }

  /** One pass is enough: afterwards no event-owning waiter could be granted. */
  lemma DrainIsFixpoint(q: Queue, now: real)
    requires WF(q) && q.patience > 0.0
    ensures var e := Drain(q, now);
            && (forall t :: t in e.waiting && t in e.owners ==> Blocked(e, t, now))
            && Drain(e, now) == e
  {
    var e := Drain(q, now);
    DrainOverFrame(q, q.waiting, now);
    forall t | t in e.waiting && t in e.owners ensures Blocked(e, t, now) {
      DrainOverSettles(q, q.waiting, t, now);
    }
    NothingToVisit(e, e.waiting, now);
  }

  lemma {:induction false} NothingToVisit(q: Queue, toks: seq<Token>, now: real)
    requires forall t :: t in toks && t in q.owners ==> Blocked(q, t, now)
    ensures DrainOver(q, toks, now) == q
    decreases |toks|
  {
    if toks != [] {
      assert Visit(q, toks[0], now) == q by { assert toks[0] in toks; }
      NothingToVisit(q, toks[1..], now);
    }
  }

  /** The oldest live token waits for nobody when nobody is active. */
  lemma OldestIsFree(q: Queue, now: real)
    requires WF(q) && q.active == map[] && q.waiting != []
    ensures !Blocked(q, q.waiting[0], now)
  {
    var t := q.waiting[0];
    forall u | u in q.waiting ensures !Before(q, u, t) {
      var i :| 0 <= i < |q.waiting| && q.waiting[i] == u;
      assert i == 0 || Before(q, t, u);
    }
  }

  /** A queue of standalone operations never stalls. */
  lemma DrainNeverStalls(q: Queue, now: real)
    requires WF(q) && q.patience > 0.0
    requires forall t :: t in q.waiting ==> t in q.owners
    ensures Drain(q, now).waiting != [] ==> Drain(q, now).active != map[]
  {
    var e := Drain(q, now);
    DrainOverFrame(q, q.waiting, now);
    DrainIsFixpoint(q, now);
    if e.waiting != [] {
      assert e.waiting[0] in e.waiting && e.waiting[0] in q.waiting;
      assert Blocked(e, e.waiting[0], now);
      if e.active == map[] { OldestIsFree(e, now); }
    }
  }

  // ---- a refused reservation leaves no trace ----------------------------

  lemma RefusedReservation(q: Queue, t: Token, op: string, claims: seq<Claim>, bounded: bool, owner: bool)
    requires WF(q) && t !in q.entries && t !in q.retired
    ensures Discard(Enqueue(q, t, op, claims, bounded, owner), t) == q.(next := q.next + 1)
  {
    UndoEnqueue(q, t, op, claims, bounded, owner);
  }

  lemma UndoEnqueue(q: Queue, t: Token, op: string, claims: seq<Claim>, bounded: bool, owner: bool)
    requires t !in q.entries && t !in q.retired && t !in q.waiting && t !in q.active
    requires t !in q.gates && t !in q.bounded && t !in q.owners
    ensures Discard(Enqueue(q, t, op, claims, bounded, owner), t) == q.(next := q.next + 1)
  {
    WithoutLast(q.waiting, t);
    var d := Discard(Enqueue(q, t, op, claims, bounded, owner), t);
    assert d.entries == q.entries;
    assert d.active == q.active;
    assert d.gates == q.gates;
    assert d.bounded == q.bounded;
    assert d.owners == q.owners;
  }

  lemma {:induction false} WithoutLast(s: seq<Token>, t: Token)
    requires t !in s
    ensures Without(s + [t], t) == s
    decreases |s|
  {
    if s != [] {
      assert (s + [t])[1..] == s[1..] + [t];
      WithoutLast(s[1..], t);
    }
  }

  // ---- strict-mode order ------------------------------------------------

  /** A strict grant leaves no earlier live file-held claim behind that it conflicts
      with, and only a bounded, read-only, file-held token overtakes anything at all. */
  lemma StrictGrantOrder(q: Queue, g: Token, u: Token, now: real)
    requires WF(q) && !q.relaxed && g in q.waiting && !Blocked(q, g, now)
    requires Before(q, u, g)
    ensures forall mine, c :: mine in ClaimsOf(q, g) && c in ClaimsOf(q, u) && Conflicts(mine, c, false) ==>
              c.holder.Process? && u in q.waiting
    ensures Clash(q, g, u) ==>
              g in q.bounded && forall c :: c in ClaimsOf(q, g) ==> !c.write && c.holder.File?
  {
    forall mine, c | mine in ClaimsOf(q, g) && c in ClaimsOf(q, u) && Conflicts(mine, c, false)
      ensures c.holder.Process? && u in q.waiting
    {
      assert Clash(q, g, u);
      assert u in Deps(q, g);
    }
    if Clash(q, g, u) { assert u in Deps(q, g); }
  }

  /** An unbounded token waits for its turn in either mode, and in strict mode so does one
      that writes or belongs to a process: it overtakes no earlier conflicting entry. */
  lemma UnboundedNeverOvertakes(q: Queue, g: Token, u: Token, now: real)
    requires WF(q) && g in q.waiting && !Blocked(q, g, now) && Before(q, u, g)
    requires g !in q.bounded || (!q.relaxed && exists c :: c in ClaimsOf(q, g) && (c.write || c.holder.Process?))
    ensures !Clash(q, g, u)
  {
    hide Blocked, Overlaps;
    if g !in q.bounded {
      NotBoundedNotBypassable(q, g, u, now);
    } else {
      StrictGrantOrder(q, g, u, now);
    }
  }

  lemma NotBoundedNotBypassable(q: Queue, g: Token, u: Token, now: real)
    requires WF(q) && g in q.waiting && !Blocked(q, g, now) && g !in q.bounded && Before(q, u, g)
    ensures !Clash(q, g, u)
  {
    assert Clash(q, g, u) ==> u in Deps(q, g);
  }

  // ---- runs -------------------------------------------------------------

  datatype Step =
    | Enter(t: Token, op: string, claims: seq<Claim>, bounded: bool, owner: bool)
    | Admit(t: Token, now: real)
    | Leave(t: Token)
    | Semantics(relaxed: bool)

  /** Tokens are fresh, and every grant of the program is prechecked. */
  ghost predicate Legal(q: Queue, s: Step) {
    match s
    case Enter(t, _, _, _, _) => t !in q.entries && t !in q.retired
    case Admit(t, now) => t in q.waiting && !Blocked(q, t, now)
    case Leave(_) => true
    case Semantics(_) => true
  }

  ghost function Apply(q: Queue, s: Step): Queue
    requires Legal(q, s)
  {
    match s
    case Enter(t, op, claims, bounded, owner) => Enqueue(q, t, op, claims, bounded, owner)
    case Admit(t, now) => Grant(q, t, now)
    case Leave(t) => Discard(q, t)
    case Semantics(relaxed) => Switch(q, relaxed)
  }

  ghost predicate Next(q: Queue, s: Step, q': Queue) {
    Legal(q, s) && q' == Apply(q, s)
  }

  ghost predicate Run(states: seq<Queue>, steps: seq<Step>) {
    && |states| == |steps| + 1
    && WF(states[0])
    && forall i :: 0 <= i < |steps| ==> Next(states[i], steps[i], states[i+1])
  }

  lemma StepOf(states: seq<Queue>, steps: seq<Step>, i: nat)
    requires Run(states, steps) && i < |steps|
    ensures Next(states[i], steps[i], states[i+1])
  {
  }

  lemma StepWF(q: Queue, s: Step, q': Queue)
    requires WF(q) && Next(q, s, q')
    ensures WF(q')
  {
    match s
    case Enter(t, op, claims, bounded, owner) => EnqueueWF(q, t, op, claims, bounded, owner);
    case Admit(t, now) => GrantWF(q, t, now);
    case Leave(t) => DiscardWF(q, t);
    case Semantics(relaxed) => SwitchWF(q, relaxed);
  }

  lemma {:induction false} RunWF(states: seq<Queue>, steps: seq<Step>, i: nat)
    requires Run(states, steps) && i <= |steps|
    ensures WF(states[i])
    decreases i
  {
    if i > 0 {
      RunWF(states, steps, i - 1);
      StepOf(states, steps, i - 1);
      StepWF(states[i-1], steps[i-1], states[i]);
    }
  }

  // ---- mutual exclusion -------------------------------------------------

  ghost predicate Exclusive(q: Queue, relaxed: bool) {
    forall a, b :: a in q.active && b in q.active && a != b ==> !Overlaps(ClaimsOf(q, a), ClaimsOf(q, b), relaxed)
  }

  lemma StepExclusive(q: Queue, s: Step, q': Queue, mode: bool)
    requires WF(q) && Next(q, s, q') && Exclusive(q, mode)
    requires mode || !q.relaxed
    ensures Exclusive(q', mode)
  {
    forall a, b | a in q'.active && b in q'.active && a != b
      ensures !Overlaps(ClaimsOf(q', a), ClaimsOf(q', b), mode)
    {
      assert ClaimsOf(q', a) == ClaimsOf(q, a) && ClaimsOf(q', b) == ClaimsOf(q, b);
      if s.Admit? && (a == s.t || b == s.t) {
        var other := if a == s.t then b else a;
        assert !Clash(q, s.t, other);
        OverlapsSymmetric(ClaimsOf(q, a), ClaimsOf(q, b), mode);
        if Overlaps(ClaimsOf(q, s.t), ClaimsOf(q, other), mode) && !q.relaxed && mode {
          RelaxedOverlapIsStrict(ClaimsOf(q, s.t), ClaimsOf(q, other));
        }
      }
    }
  }

  /** Over every run, with semantics switched at any moment, no two owners overlap
      under relaxed semantics; while a run stays strict they do not overlap strictly. */
  lemma {:induction false} MutualExclusion(states: seq<Queue>, steps: seq<Step>, i: nat, mode: bool)
    requires Run(states, steps) && i <= |steps| && Exclusive(states[0], mode)
    requires mode || forall k :: 0 <= k < i ==> !states[k].relaxed
    ensures Exclusive(states[i], mode)
    decreases i
  {
    if i > 0 {
      MutualExclusion(states, steps, i - 1, mode);
      RunWF(states, steps, i - 1);
      StepOf(states, steps, i - 1);
      StepExclusive(states[i-1], steps[i-1], states[i], mode);
    }
  }

  // ---- bounded overtaking -----------------------------------------------

  ghost predicate Quiet(steps: seq<Step>, i: nat, k: nat, u: Token)
    requires i <= k <= |steps|
  {
    forall j :: i <= j < k ==> !steps[j].Semantics? && steps[j] != Leave(u)
  }

  /** A gate, once fixed, stays; its tokens keep their start or are retired for good. */
  lemma {:induction false} GateStays(states: seq<Queue>, steps: seq<Step>, i: nat, k: nat, u: Token)
    requires Run(states, steps) && i <= k <= |steps| && u in states[i].gates
    requires Quiet(steps, i, k, u)
    ensures u in states[k].gates && states[k].gates[u] == states[i].gates[u]
    ensures states[k].patience == states[i].patience
    ensures forall r :: r in states[i].gates[u] && r in states[k].active ==>
              r in states[i].active && states[k].active[r] == states[i].active[r]
    decreases k
  {
    if i < k {
      GateStays(states, steps, i, k - 1, u);
      RunWF(states, steps, k - 1);
      StepOf(states, steps, k - 1);
      GateStep(states[k-1], steps[k-1], states[k], u);
    }
  }

  lemma GateStep(q: Queue, s: Step, q': Queue, u: Token)
    requires WF(q) && Next(q, s, q') && u in q.gates && !s.Semantics? && s != Leave(u)
    ensures q'.patience == q.patience && u in q'.gates && q'.gates[u] == q.gates[u]
    ensures forall r :: r in q.gates[u] && r in q'.active ==> r in q.active && q'.active[r] == q.active[r]
  {
  }

  /** The first overtake of `u`, by the grant of step `i`, fixes which owners excuse
      the waiting of `u`. Every later overtake of `u`, at step `k`, needs one of those
      very owners to be active still and to have run for `patience`; so when the last
      of them has left, nothing in conflict with `u` passes it any more. */
  lemma BoundedOvertaking(states: seq<Queue>, steps: seq<Step>, i: nat, k: nat, u: Token)
    returns (r: Token)
    requires Run(states, steps) && i < k < |steps|
    requires steps[i].Admit? && u in Deps(states[i], steps[i].t) && u !in states[i].gates
    requires Quiet(steps, i, k, u)
    requires steps[k].Admit? && Before(states[k], u, steps[k].t) && Clash(states[k], steps[k].t, u)
    ensures r in Roots(states[i], u) && r in states[k].active
    ensures states[k].active[r] == states[i].active[r]
    ensures steps[k].now - states[i].active[r] >= states[i].patience
  {
    RunWF(states, steps, i);
    RunWF(states, steps, k);
    StepOf(states, steps, i);
    StepOf(states, steps, k);
    FirstOvertake(states[i], steps[i], states[i+1], u);
    GateStays(states, steps, i + 1, k, u);
    r := OvertakeNeedsRoot(states[k], steps[k].t, u, steps[k].now);
  }

  lemma FirstOvertake(q: Queue, s: Step, q': Queue, u: Token)
    requires WF(q) && Next(q, s, q') && s.Admit? && u in Deps(q, s.t) && u !in q.gates
    ensures q'.patience == q.patience && u in q'.gates && q'.gates[u] == Roots(q, u)
    ensures forall r :: r in Roots(q, u) ==> r in q.active && q'.active[r] == q.active[r]
  {
  }

  lemma OvertakeNeedsRoot(q: Queue, g: Token, u: Token, now: real) returns (r: Token)
    requires WF(q) && g in q.waiting && !Blocked(q, g, now)
    requires Before(q, u, g) && Clash(q, g, u)
    ensures r in Gate(q, u) && LongRunning(q, r, now)
  {
    assert u in Deps(q, g);
    assert Passable(q, u, now);
    r :| r in Gate(q, u) && LongRunning(q, r, now);
  }

  lemma BegunBy(q: Queue, s: Step, states: seq<Queue>, steps: seq<Step>)
    requires WF(q) && Run(states, steps) && Next(q, s, states[0])
    ensures Run([q] + states, [s] + steps)
  {
    hide WF, Next;
    var states', steps' := [q] + states, [s] + steps;
    forall j | 0 <= j < |steps'| ensures Next(states'[j], steps'[j], states'[j+1]) {
      if j > 0 { assert states'[j] == states[j-1] && steps'[j] == steps[j-1] && states'[j+1] == states[j]; }
    }
  }

  /** A drain is a run of prechecked grants, so run theorems speak about it too. */
  lemma {:induction false} DrainIsRun(q: Queue, toks: seq<Token>, now: real)
    returns (states: seq<Queue>, steps: seq<Step>)
    requires WF(q) && Pending(q, toks)
    ensures Run(states, steps) && states[0] == q && states[|steps|] == DrainOver(q, toks, now)
    ensures forall s :: s in steps ==> s.Admit? && s.now == now && s.t in q.owners
    decreases |toks|
  {
    hide WF, Blocked, Deps, Distinct;
    if toks == [] {
      states, steps := [q], [];
    } else {
      VisitKeeps(q, toks, now);
      var restStates, restSteps := DrainIsRun(Visit(q, toks[0], now), toks[1..], now);
      if Admits(q, toks, now) {
        assert toks[0] in q.waiting;
        BegunBy(q, Admit(toks[0], now), restStates, restSteps);
        states, steps := [q] + restStates, [Admit(toks[0], now)] + restSteps;
      } else {
        states, steps := restStates, restSteps;
      }
    }
  }
}
