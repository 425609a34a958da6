// The dependency graph as two dictionaries of edges, what it means for them to be exact,
// and which edge updates keep them exact.

module Graph {
  import opened Claims
  import opened QueueModel

  type Edges = map<Token, set<Token>>

  function At(m: Edges, t: Token): set<Token> {
    if t in m then m[t] else {}
  }

  /** Every waiter's dependencies are the earlier live conflicting tokens, and the
      dependents are the exact inverse, empty sets aside. */
  ghost predicate Exact(q: Queue, dependencies: Edges, dependents: Edges) {
    && (forall t :: t in dependencies <==> t in q.waiting)
    && (forall t :: t in dependencies ==> dependencies[t] == Deps(q, t))
    && Inverse(dependencies, dependents)
    && dependents.Keys <= q.entries.Keys
  }

  /** The live tokens a newcomer with these claims has to wait for. */
  function Overlapping(entries: map<Token, Entry>, claims: seq<Claim>, relaxed: bool): set<Token> {
    set held | held in entries && Overlaps(claims, entries[held].claims, relaxed)
  }

  ghost predicate Inverse(dependencies: Edges, dependents: Edges) {
    forall b, t :: t in At(dependents, b) <==> t in dependencies && b in dependencies[t]
  }

  lemma DependenciesExact(q: Queue, dependencies: Edges, dependents: Edges, t: Token)
    requires WF(q) && Exact(q, dependencies, dependents)
    ensures At(dependencies, t) == Deps(q, t)
    ensures At(dependencies, t) <= q.entries.Keys
  {
  }

  lemma EnqueueDeps(q: Queue, token: Token, op: string, claims: seq<Claim>, bounded: bool, owner: bool, t: Token)
    requires WF(q) && token !in q.entries && token !in q.retired && t in q.entries
    ensures Deps(Enqueue(q, token, op, claims, bounded, owner), t) == Deps(q, t)
  {
    hide Overlaps;
    var e := Enqueue(q, token, op, claims, bounded, owner);
    assert forall u :: u in q.entries ==> Clash(e, t, u) == Clash(q, t, u) && Before(e, u, t) == Before(q, u, t);
  }

  lemma EnqueueOwnDeps(q: Queue, token: Token, op: string, claims: seq<Claim>, bounded: bool, owner: bool)
    requires WF(q) && token !in q.entries && token !in q.retired
    ensures Deps(Enqueue(q, token, op, claims, bounded, owner), token) == Overlapping(q.entries, claims, q.relaxed)
  {
    hide Overlaps;
    var e := Enqueue(q, token, op, claims, bounded, owner);
    assert forall u :: u in q.entries ==> Clash(e, token, u) == Overlaps(claims, q.entries[u].claims, q.relaxed);
  }

  lemma GrantDeps(q: Queue, token: Token, now: real)
    ensures var g := Grant(q, token, now);
            Deps(g, token) == {} && forall t :: t != token ==> Deps(g, t) == Deps(q, t)
  {
    hide Overlaps;
    var g := Grant(q, token, now);
    forall t | t != token ensures Deps(g, t) == Deps(q, t) {
      assert forall u :: Clash(g, t, u) == Clash(q, t, u) && Before(g, u, t) == Before(q, u, t);
    }
  }

  lemma DiscardDeps(q: Queue, token: Token)
    ensures var d := Discard(q, token);
            Deps(d, token) == {} && forall t :: t != token ==> Deps(d, t) == Deps(q, t) - {token}
  {
    hide Overlaps;
    var d := Discard(q, token);
    forall t | t != token ensures Deps(d, t) == Deps(q, t) - {token} {
      assert forall u :: u != token ==> Clash(d, t, u) == Clash(q, t, u) && Before(d, u, t) == Before(q, u, t);
    }
  }

  lemma EnqueueExact(q: Queue, dependencies: Edges, dependents: Edges, added: Edges,
                     token: Token, op: string, claims: seq<Claim>, bounded: bool)
    requires WF(q) && token !in q.entries && token !in q.retired
    requires Exact(q, dependencies, dependents)
    requires var found := Overlapping(q.entries, claims, q.relaxed);
             && added.Keys == dependents.Keys + found
             && forall b :: At(added, b) == if b in found then At(dependents, b) + {token} else At(dependents, b)
    ensures Exact(Enqueue(q, token, op, claims, bounded, false),
                  dependencies[token := Overlapping(q.entries, claims, q.relaxed)], added)
  {
    hide Deps, Overlaps, At;
    var found := Overlapping(q.entries, claims, q.relaxed);
    var q' := Enqueue(q, token, op, claims, bounded, false);
    LinkedInverse(dependencies, dependents, added, token, found);
    EnqueueOwnDeps(q, token, op, claims, bounded, false);
    forall t | t in dependencies ensures t in q.entries && Deps(q', t) == dependencies[t] {
      EnqueueDeps(q, token, op, claims, bounded, false, t);
    }
  }

  lemma LinkedInverse(dependencies: Edges, dependents: Edges, added: Edges, token: Token, found: set<Token>)
    requires Inverse(dependencies, dependents) && token !in dependencies
    requires forall b :: At(added, b) == if b in found then At(dependents, b) + {token} else At(dependents, b)
    ensures Inverse(dependencies[token := found], added)
  {
    var extended := dependencies[token := found];
    forall b, t ensures t in At(added, b) <==> t in extended && b in extended[t] {
      assert t in At(dependents, b) <==> t in dependencies && b in dependencies[t];
    }
  }

  lemma GrantExact(q: Queue, dependencies: Edges, dependents: Edges, unlinked: Edges, token: Token, now: real)
    requires WF(q) && token in q.waiting && Exact(q, dependencies, dependents)
    requires forall b :: At(unlinked, b) == if b in Deps(q, token) then At(dependents, b) - {token} else At(dependents, b)
    requires unlinked.Keys <= dependents.Keys
    ensures Exact(Grant(q, token, now), dependencies - {token}, unlinked)
  {
    hide Overlaps, Deps;
    GrantDeps(q, token, now);
    UnlinkedInverse(dependencies, dependents, unlinked, token, Deps(q, token));
  }

  lemma UnlinkedInverse(dependencies: Edges, dependents: Edges, unlinked: Edges, token: Token, blockers: set<Token>)
    requires Inverse(dependencies, dependents) && blockers == At(dependencies, token)
    requires forall b :: At(unlinked, b) == if b in blockers then At(dependents, b) - {token} else At(dependents, b)
    ensures Inverse(dependencies - {token}, unlinked)
  {
    forall b, t ensures t in At(unlinked, b) <==> t in dependencies - {token} && b in (dependencies - {token})[t] {
      assert t in At(dependents, b) <==> t in dependencies && b in dependencies[t];
    }
  }

  lemma DiscardExact(q: Queue, dependencies: Edges, dependents: Edges, unlinked: Edges, released: Edges, token: Token)
    requires WF(q) && Exact(q, dependencies, dependents)
    requires forall b :: At(unlinked, b) == if b in At(dependencies, token) then At(dependents, b) - {token} else At(dependents, b)
    requires unlinked.Keys <= dependents.Keys
    requires released.Keys == dependencies.Keys - {token}
    requires forall t :: t in released ==>
               released[t] == if t in At(unlinked, token) then dependencies[t] - {token} else dependencies[t]
    ensures Exact(Discard(q, token), released, unlinked - {token})
  {
    hide Overlaps, Deps, WF;
    DiscardDeps(q, token);
    UnlinkedInverse(dependencies, dependents, unlinked, token, At(dependencies, token));
    ReleasedInverse(dependencies - {token}, unlinked, released, token);
    forall t | t in released ensures released[t] == Deps(q, t) - {token} {
      assert t in At(unlinked, token) <==> token in dependencies[t];
    }
  }

  lemma ReleasedInverse(dependencies: Edges, dependents: Edges, released: Edges, token: Token)
    requires Inverse(dependencies, dependents)
    requires released.Keys == dependencies.Keys
    requires forall t :: t in released ==>
               released[t] == if t in At(dependents, token) then dependencies[t] - {token} else dependencies[t]
    ensures Inverse(released, dependents - {token})
  {
    forall b, t ensures t in At(dependents - {token}, b) <==> t in released && b in released[t] {
      assert t in At(dependents, b) <==> t in dependencies && b in dependencies[t];
      assert t in At(dependents, token) <==> t in dependencies && token in dependencies[t];
    }
  }

  // ---- the graph computed from scratch ----------------------------------

  function PrecedingSet(entries: map<Token, Entry>, order: seq<Token>, i: nat, relaxed: bool): set<Token>
    requires i < |order| && forall t :: t in order ==> t in entries
  {
    set u | u in order[..i] && Overlaps(entries[order[i]].claims, entries[u].claims, relaxed)
  }

  lemma OrderDistinct(q: Queue, order: seq<Token>)
    requires Ordered(q, order)
    ensures Distinct(order)
  {
    forall i, j | 0 <= i < j < |order| ensures order[i] != order[j] {
      assert Before(q, order[i], order[j]);
    }
  }

  lemma EarlierIsBefore(q: Queue, order: seq<Token>, i: nat, u: Token)
    requires WF(q) && (forall t :: t in order <==> t in q.entries) && Ordered(q, order) && i < |order|
    ensures u in order[..i] <==> Before(q, u, order[i])
  {
    hide WF;
    if u in order[..i] {
      var j :| 0 <= j < i && order[j] == u;
      assert Before(q, order[j], order[i]);
    }
    if Before(q, u, order[i]) {
      var j :| 0 <= j < |order| && order[j] == u;
      assert j <= i || Before(q, order[i], order[j]);
      assert order[..i][j] == u;
    }
  }

  lemma PrecedingIsDeps(q: Queue, order: seq<Token>, i: nat)
    requires WF(q) && (forall t :: t in order <==> t in q.entries) && Ordered(q, order) && i < |order|
    requires order[i] !in q.active
    ensures PrecedingSet(q.entries, order, i, q.relaxed) == Deps(q, order[i])
  {
    hide Overlaps, WF;
    forall u ensures u in PrecedingSet(q.entries, order, i, q.relaxed) <==> u in Deps(q, order[i]) {
      EarlierIsBefore(q, order, i, u);
    }
  }

  lemma EmptyInverse()
    ensures Inverse(map[], map[])
  {
  }

  lemma RebuiltAll(q: Queue, order: seq<Token>, dependencies: Edges)
    requires WF(q) && (forall t :: t in order <==> t in q.entries)
    requires forall t :: t in dependencies <==> t in order && t !in q.active
    ensures forall t :: t in dependencies <==> t in q.waiting
  {
  }

  // ---- owning an event changes no edge ------------------------------------

  lemma OwnedExact(q: Queue, dependencies: Edges, dependents: Edges, token: Token)
    requires Exact(q, dependencies, dependents)
    ensures Exact(q.(owners := q.owners + {token}), dependencies, dependents)
  {
    hide Overlaps;
    var o := q.(owners := q.owners + {token});
    forall t ensures Deps(o, t) == Deps(q, t) {
      assert forall u :: Clash(o, t, u) == Clash(q, t, u) && Before(o, u, t) == Before(q, u, t);
    }
  }

  lemma OwnedWF(q: Queue, token: Token)
    requires WF(q) && token in q.entries
    ensures WF(q.(owners := q.owners + {token}))
  {
    var o := q.(owners := q.owners + {token});
    assert forall a, b :: Before(o, a, b) == Before(q, a, b);
  }
}
