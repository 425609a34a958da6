// What blocks a token and what lets it pass, spelled out on claims, owners and the clock.

module QueueMeaning {
  import opened Claims
  import opened QueueModel
  import QP = QueueProperties

  // ---- owners ----------------------------------------------------------------

  /** In any run no owner writes at, above or below a path that another owner claims, except
      beside a reader that relaxed semantics spares; in a strict run there is no exception.
      No two owners claim one service when either writes. */
  lemma OwnersApart(states: seq<Queue>, steps: seq<QP.Step>, i: nat, strict: bool, t: Token, u: Token,
                    a: Claim, b: Claim, left: seq<string>, right: seq<string>)
    requires QP.Run(states, steps) && i <= |steps| && states[0].active == map[]
    requires strict ==> forall k :: 0 <= k < i ==> !states[k].relaxed
    requires t in states[i].active && u in states[i].active && t != u
    requires t in states[i].entries && a in states[i].entries[t].claims
    requires u in states[i].entries && b in states[i].entries[u].claims
    requires a.namespace == b.namespace && a.kind == b.kind && a.write
    requires Plain(left) && Plain(right) && a.name == Joined(left) && b.name == Joined(right)
    ensures a.kind != "service" ==> !(AtOrBelow(left, right) || AtOrBelow(right, left)) || (!strict && Spared(a, b))
    ensures a.kind == "service" ==> a.name != b.name
  {
    hide Conflicts, AtOrBelow, QP.Next;
    QP.MutualExclusion(states, steps, i, !strict);
    ConflictsMeans(a, b, !strict, left, right);
    Apart(states[i], !strict, t, u, a, b);
  }

  lemma Apart(q: Queue, mode: bool, t: Token, u: Token, a: Claim, b: Claim)
    requires QP.Exclusive(q, mode) && t in q.active && u in q.active && t != u
    requires t in q.entries && a in q.entries[t].claims && u in q.entries && b in q.entries[u].claims
    ensures !Conflicts(a, b, mode)
  {
    hide Conflicts;
    assert !Overlaps(ClaimsOf(q, t), ClaimsOf(q, u), mode);
  }

  // ---- blocking and passing ----------------------------------------------------

  /** An earlier live token whose claims conflict. */
  predicate Ahead(q: Queue, u: Token, t: Token) {
    && t in q.entries && u in q.entries && q.entries[u].arrival < q.entries[t].arrival
    && exists mine, other :: mine in q.entries[t].claims && other in q.entries[u].claims && Conflicts(mine, other, q.relaxed)
  }

  /** Each waits for the next, down to the owner at the end. */
  ghost predicate Chain(q: Queue, p: seq<Token>, u: Token, r: Token) {
    && p != [] && p[0] == u && p[|p| - 1] == r && r in q.active
    && forall k :: 0 <= k < |p| - 1 ==> p[k] !in q.active && Ahead(q, p[k+1], p[k])
  }

  /** Somebody behind whom `u` waits has owned its claims for `patience`; where an overtake
      of `u` has fixed its gate, somebody of that gate. */
  ghost predicate HeldUp(q: Queue, u: Token, now: real) {
    exists p, r :: Chain(q, p, u, r) && now - q.active[r] >= q.patience && (u in q.gates ==> r in q.gates[u])
  }

  /** What strict semantics asks of a token that overtakes `u`: file reads only, against
      claims of processes only. */
  predicate MereReader(q: Queue, t: Token, u: Token)
    requires t in q.entries && u in q.entries
  {
    && (forall c :: c in q.entries[t].claims ==> !c.write && c.holder == File)
    && forall mine, other :: mine in q.entries[t].claims && other in q.entries[u].claims && Conflicts(mine, other, false) ==> other.holder == Process
  }

  lemma AheadIsDep(q: Queue, u: Token, t: Token)
    requires t !in q.active
    ensures u in Deps(q, t) <==> Ahead(q, u, t)
  {
    hide Conflicts;
  }

  lemma ChainIsPath(q: Queue, p: seq<Token>, u: Token, r: Token)
    requires p != [] && p[0] == u && p[|p| - 1] == r && r in q.active
    ensures Chain(q, p, u, r) <==> Path(q, p)
  {
    hide Ahead, Deps;
    forall k | 0 <= k < |p| - 1 ensures p[k+1] in Deps(q, p[k]) <==> p[k] !in q.active && Ahead(q, p[k+1], p[k]) {
      if p[k] in q.active { OwnersWaitForNobody(q, p[k]); } else { AheadIsDep(q, p[k+1], p[k]); }
    }
    if Chain(q, p, u, r) {
      assert forall k :: 0 <= k < |p| - 1 ==> p[k] !in q.active && Ahead(q, p[k+1], p[k]);
      assert Path(q, p);
    }
    if Path(q, p) {
      forall k | 0 <= k < |p| - 1 ensures p[k] !in q.active && Ahead(q, p[k+1], p[k]) {
        assert p[k+1] in Deps(q, p[k]);
      }
      assert Chain(q, p, u, r);
    }
  }

  lemma OwnersWaitForNobody(q: Queue, t: Token)
    requires t in q.active
    ensures Deps(q, t) == {}
  {
  }

  lemma RootsByChain(q: Queue, u: Token, r: Token)
    requires WF(q)
    ensures r in Roots(q, u) <==> exists p :: Chain(q, p, u, r)
  {
    hide WF, Ahead, Deps, Reaches;
    RootsAreReachable(q, u, r);
    if p :| Chain(q, p, u, r) {
      ChainIsPath(q, p, u, r);
    }
    if r in Roots(q, u) {
      var p :| Path(q, p) && p[0] == u && p[|p| - 1] == r;
      ChainIsPath(q, p, u, r);
    }
  }

  lemma HeldUpMeans(q: Queue, u: Token, now: real)
    requires WF(q)
    ensures HeldUp(q, u, now) <==> exists r :: r in Gate(q, u) && LongRunning(q, r, now)
  {
    hide WF, Reaches, Ahead, Roots;
    if HeldUp(q, u, now) {
      var p, r :| Chain(q, p, u, r) && now - q.active[r] >= q.patience && (u in q.gates ==> r in q.gates[u]);
      RootsByChain(q, u, r);
      assert r in Gate(q, u) && LongRunning(q, r, now);
    }
    if r :| r in Gate(q, u) && LongRunning(q, r, now) {
      RootsByChain(q, u, r);
      var p :| Chain(q, p, u, r);
    }
  }

  lemma MereReaders(q: Queue, t: Token)
    requires t in q.entries && t !in q.active && Deps(q, t) != {}
    ensures StrictBypassAllowed(q.entries, t, Deps(q, t)) <==> forall u :: u in Deps(q, t) ==> MereReader(q, t, u)
  {
    hide Conflicts;
    var d :| d in Deps(q, t);
    assert Overlaps(ClaimsOf(q, t), ClaimsOf(q, d), q.relaxed);
  }

  lemma ExcludedMeans(q: Queue, t: Token)
    requires WF(q) && t in q.waiting
    ensures !Excluded(q, t) <==>
            forall a :: a in q.active ==>
              forall mine, other :: mine in q.entries[t].claims && other in q.entries[a].claims ==> !Conflicts(mine, other, q.relaxed)
  {
    hide Conflicts, Ordered;
    forall a | a in q.active
      ensures Clash(q, t, a) <==> exists mine, other :: mine in q.entries[t].claims && other in q.entries[a].claims && Conflicts(mine, other, q.relaxed)
    {
    }
    forall a | a in q.active ensures a in q.entries && a != t && (!Clash(q, t, a) <==>
      forall mine, other :: mine in q.entries[t].claims && other in q.entries[a].claims ==> !Conflicts(mine, other, q.relaxed)) {
    }
  }

  /** It conflicts with no owner, and every earlier conflicting token is itself waiting, held
      up for long enough, and may be overtaken: by a bounded token, in strict mode by a mere reader. */
  ghost predicate MayPass(q: Queue, t: Token, now: real) {
    && t in q.entries
    && (forall a :: a in q.active && a in q.entries ==>
          forall mine, other :: mine in q.entries[t].claims && other in q.entries[a].claims ==> !Conflicts(mine, other, q.relaxed))
    && forall u :: Ahead(q, u, t) ==>
         t in q.bounded && u !in q.active && HeldUp(q, u, now) && (q.relaxed || MereReader(q, t, u))
  }

  /** A waiter may be granted exactly then. */
  lemma NotBlockedMeans(q: Queue, t: Token, now: real)
    requires WF(q) && t in q.waiting
    ensures !Blocked(q, t, now) <==> MayPass(q, t, now)
  {
    hide WF, Deps, Ahead, HeldUp, MereReader, StrictBypassAllowed, Gate, LongRunning, Excluded;
    ExcludedMeans(q, t);
    Waits(q, t);
    forall u ensures u in Deps(q, t) <==> Ahead(q, u, t) { AheadIsDep(q, u, t); }
    forall u ensures HeldUp(q, u, now) <==> exists r :: r in Gate(q, u) && LongRunning(q, r, now) { HeldUpMeans(q, u, now); }
    if Deps(q, t) == {} {
      assert forall u :: !Ahead(q, u, t);
    } else {
      MereReaders(q, t);
      AheadIsLive(q, t);
    }
  }

  lemma Waits(q: Queue, t: Token)
    requires WF(q) && t in q.waiting
    ensures t in q.entries && t !in q.active && q.active.Keys <= q.entries.Keys
  {
  }

  lemma AheadIsLive(q: Queue, t: Token)
    ensures forall u :: Ahead(q, u, t) ==> u in q.entries && t in q.entries
  {
  }

  // ---- what the transitions do -----------------------------------------------------

  /** A granted token owns its claims from now on. A waiter it overtakes for the first time
      is tied to the owners it is waiting behind at that moment; other gates stay. */
  lemma GrantMeans(q: Queue, t: Token, now: real)
    requires WF(q) && t in q.waiting
    ensures var g := Grant(q, t, now);
            && g.active == q.active[t := now] && g.entries == q.entries && g.bounded == q.bounded && g.relaxed == q.relaxed
            && (forall u :: u in g.waiting <==> u in q.waiting && u != t)
            && (forall u :: u in q.gates ==> u in g.gates && g.gates[u] == q.gates[u])
            && (forall u :: u in g.gates && u !in q.gates <==> Ahead(q, u, t) && u !in q.gates)
            && (forall u, r :: u in g.gates && u !in q.gates ==> (r in g.gates[u] <==> exists p :: Chain(q, p, u, r)))
  {
    hide WF, Chain, Roots, Ahead, Deps;
    Waits(q, t);
    forall u ensures u in Deps(q, t) <==> Ahead(q, u, t) { AheadIsDep(q, u, t); }
    forall u, r ensures r in Roots(q, u) <==> exists p :: Chain(q, p, u, r) { RootsByChain(q, u, r); }
  }

  /** A discarded token is nowhere any more, and nobody else is touched. */
  lemma DiscardMeans(q: Queue, t: Token, u: Token)
    ensures var d := Discard(q, t);
            && t !in d.entries && t !in d.waiting && t !in d.active && t !in d.bounded && t !in d.gates && t !in d.owners
            && (u != t ==> (u in d.entries <==> u in q.entries) && (u in d.waiting <==> u in q.waiting) && (u in d.active <==> u in q.active)
                           && (u in d.bounded <==> u in q.bounded) && (u in d.gates <==> u in q.gates))
            && (u != t && u in q.entries ==> d.entries[u] == q.entries[u]) && (u != t && u in q.active ==> d.active[u] == q.active[u])
            && (u != t && u in q.gates ==> d.gates[u] == q.gates[u])
  {
  }

  /** After a change of semantics every waiter may be overtaken behind any of its owners again. */
  lemma SwitchMeans(q: Queue, relaxed: bool)
    ensures var s := Switch(q, relaxed); s.relaxed == relaxed && s.gates == map[] && s == q.(relaxed := s.relaxed, gates := s.gates)
  {
  }
}
