// The queue as the program keeps it: lists and dictionaries updated in place, with the
// dependency graph maintained edge by edge. `Valid` says the graph is exact, and each
// method is tied to its transition in QueueModel.

module QueueRecords {
  import opened Claims
  import opened QueueModel

  datatype Item = Item(token: Token, op: string, claims: seq<Claim>)

  datatype Holding = Holding(op: string, claims: seq<Claim>)

  function Tokens(items: seq<Item>): (r: seq<Token>)
    ensures |r| == |items| && forall i :: 0 <= i < |items| ==> r[i] == items[i].token
  {
    if items == [] then [] else [items[0].token] + Tokens(items[1..])
  }

  function Drop(items: seq<Item>, t: Token): (r: seq<Item>)
    ensures forall x :: x in r <==> x in items && x.token != t
    ensures Tokens(r) == Without(Tokens(items), t)
  {
    if items == [] then []
    else
      assert Tokens(items)[1..] == Tokens(items[1..]);
      if items[0].token == t then Drop(items[1..], t) else [items[0]] + Drop(items[1..], t)
  }

  function TrueKeys(m: map<Token, bool>): set<Token> {
    set t | t in m && m[t]
  }

  /** The lists and dictionaries besides the graph repeat the entries consistently. */
  ghost predicate Records(q: Queue, waiting: seq<Item>, active: map<Token, Holding>, bounded: map<Token, bool>, order: seq<Token>) {
    && HoldingsMatch(q.entries, q.active.Keys, active)
    && ItemsMatch(q.entries, waiting)
    && bounded.Keys == q.entries.Keys
    && InOrder(q, order)
  }

  ghost predicate HoldingsMatch(entries: map<Token, Entry>, owners: set<Token>, active: map<Token, Holding>) {
    active.Keys == owners &&
    forall t :: t in active ==> t in entries && active[t] == Holding(entries[t].op, entries[t].claims)
  }

  ghost predicate ItemsMatch(entries: map<Token, Entry>, items: seq<Item>) {
    forall x :: x in items ==> x.token in entries && entries[x.token].op == x.op && entries[x.token].claims == x.claims
  }

  ghost predicate InOrder(q: Queue, order: seq<Token>) {
    (forall t :: t in order <==> t in q.entries) && Ordered(q, order)
  }

  lemma TokensAppend(items: seq<Item>, x: Item)
    ensures Tokens(items + [x]) == Tokens(items) + [x.token]
  {
    assert forall i :: 0 <= i < |items| ==> Tokens(items + [x])[i] == items[i].token;
  }

  lemma TrueKeysUpdate(m: map<Token, bool>, t: Token, b: bool)
    requires t !in m
    ensures TrueKeys(m[t := b]) == if b then TrueKeys(m) + {t} else TrueKeys(m)
  {
  }

  lemma EnqueueRecords(q: Queue, waiting: seq<Item>, active: map<Token, Holding>, bounded: map<Token, bool>, order: seq<Token>,
                       token: Token, op: string, claims: seq<Claim>, bound: bool)
    requires WF(q) && Records(q, waiting, active, bounded, order) && token !in q.entries && token !in q.retired
    requires q.waiting == Tokens(waiting) && q.bounded == TrueKeys(bounded)
    ensures var q' := Enqueue(q, token, op, claims, bound, false);
            && Records(q', waiting + [Item(token, op, claims)], active, bounded[token := bound], order + [token])
            && q'.waiting == Tokens(waiting + [Item(token, op, claims)]) && q'.bounded == TrueKeys(bounded[token := bound])
  {
    hide Tokens, TrueKeys, InOrder, WF;
    TrueKeysUpdate(bounded, token, bound);
    TokensAppend(waiting, Item(token, op, claims));
    EnqueueInOrder(q, token, op, claims, bound, order);
  }

  lemma EnqueueInOrder(q: Queue, token: Token, op: string, claims: seq<Claim>, bound: bool, order: seq<Token>)
    requires WF(q) && token !in q.entries && token !in q.retired && InOrder(q, order)
    ensures InOrder(Enqueue(q, token, op, claims, bound, false), order + [token])
  {
  }

  lemma GrantRecords(q: Queue, waiting: seq<Item>, active: map<Token, Holding>, bounded: map<Token, bool>, order: seq<Token>,
                     token: Token, now: real)
    requires Records(q, waiting, active, bounded, order) && token in q.entries
    ensures Records(Grant(q, token, now), Drop(waiting, token),
                    active[token := Holding(q.entries[token].op, q.entries[token].claims)], bounded, order)
  {
    hide Tokens, GatesAfter, InOrder;
    SameOrder(q, Grant(q, token, now), order);
  }

  /** The first queued item of a token. */
  function ItemOf(items: seq<Item>, t: Token): (r: Item)
    requires t in Tokens(items)
    ensures r in items && r.token == t
  {
    if items[0].token == t then items[0]
    else
      assert Tokens(items)[1..] == Tokens(items[1..]);
      ItemOf(items[1..], t)
  }

  lemma ItemMatches(q: Queue, waiting: seq<Item>, active: map<Token, Holding>, bounded: map<Token, bool>, order: seq<Token>, t: Token)
    requires Records(q, waiting, active, bounded, order) && t in Tokens(waiting)
    ensures t in q.entries
    ensures var item := ItemOf(waiting, t); item.op == q.entries[t].op && item.claims == q.entries[t].claims
  {
  }

  lemma HeldMatches(q: Queue, waiting: seq<Item>, active: map<Token, Holding>, bounded: map<Token, bool>, order: seq<Token>)
    requires Records(q, waiting, active, bounded, order)
    ensures forall t :: t in active ==> t in q.entries && active[t].claims == ClaimsOf(q, t)
  {
  }

  lemma OwnersMatch(q: Queue, waiting: seq<Item>, active: map<Token, Holding>, bounded: map<Token, bool>, order: seq<Token>)
    requires Records(q, waiting, active, bounded, order)
    ensures active.Keys == q.active.Keys && bounded.Keys == q.entries.Keys
  {
  }

  lemma SameOrder(q: Queue, q': Queue, order: seq<Token>)
    requires InOrder(q, order) && q'.entries == q.entries
    ensures InOrder(q', order)
  {
    assert forall a, b :: Before(q', a, b) == Before(q, a, b);
  }

  lemma DiscardRecords(q: Queue, waiting: seq<Item>, active: map<Token, Holding>, bounded: map<Token, bool>, order: seq<Token>,
                       token: Token)
    requires Records(q, waiting, active, bounded, order)
    requires q.bounded == TrueKeys(bounded)
    ensures Records(Discard(q, token), Drop(waiting, token), active - {token}, bounded - {token}, Without(order, token))
    ensures TrueKeys(bounded - {token}) == Discard(q, token).bounded
  {
    hide Tokens, InOrder, HoldingsMatch, ItemsMatch;
    DiscardInOrder(q, order, token);
    DiscardMatches(q, waiting, active, token);
  }

  lemma DiscardMatches(q: Queue, waiting: seq<Item>, active: map<Token, Holding>, token: Token)
    requires HoldingsMatch(q.entries, q.active.Keys, active) && ItemsMatch(q.entries, waiting)
    ensures var d := Discard(q, token);
            HoldingsMatch(d.entries, d.active.Keys, active - {token}) && ItemsMatch(d.entries, Drop(waiting, token))
  {
    hide Tokens;
  }

  lemma DiscardInOrder(q: Queue, order: seq<Token>, token: Token)
    requires InOrder(q, order)
    ensures InOrder(Discard(q, token), Without(order, token))
  {
    DiscardOrdered(q, order, token);
  }

  lemma OwnedRecords(q: Queue, waiting: seq<Item>, active: map<Token, Holding>, bounded: map<Token, bool>, order: seq<Token>,
                     token: Token)
    requires Records(q, waiting, active, bounded, order)
    ensures Records(q.(owners := q.owners + {token}), waiting, active, bounded, order)
  {
    SameOrder(q, q.(owners := q.owners + {token}), order);
  }

  lemma SwitchRecords(q: Queue, waiting: seq<Item>, active: map<Token, Holding>, bounded: map<Token, bool>, order: seq<Token>,
                      relaxed: bool)
    requires Records(q, waiting, active, bounded, order)
    ensures Records(Switch(q, relaxed), waiting, active, bounded, order)
  {
    SameOrder(q, Switch(q, relaxed), order);
  }
}

module ResourceQueues {
  import opened Claims
  import opened QueueModel
  import opened QueueRecords
  import opened Graph
  import opened Search
  import QP = QueueProperties
  import QM = QueueMeaning

  // ---- edge updates -------------------------------------------------------

  /** Record `token` as a dependent of each of its blockers. */
  method Linked(dependents: Edges, token: Token, blockers: set<Token>) returns (linked: Edges)
    ensures forall b :: At(linked, b) == if b in blockers then At(dependents, b) + {token} else At(dependents, b)
    ensures linked.Keys == dependents.Keys + blockers
  {
    linked := dependents;
    var rest := blockers;
    while rest != {}
      invariant rest <= blockers
      invariant forall b :: At(linked, b) ==
                  if b in blockers - rest then At(dependents, b) + {token} else At(dependents, b)
      invariant linked.Keys == dependents.Keys + (blockers - rest)
    {
      var blocker :| blocker in rest;
      linked := linked[blocker := At(linked, blocker) + {token}];
      rest := rest - {blocker};
    }
  }

  /** Forget `token` as a dependent; `prune` also drops a set that becomes empty. */
  method Unlinked(dependents: Edges, token: Token, blockers: set<Token>, prune: bool) returns (unlinked: Edges)
    ensures forall b :: At(unlinked, b) == if b in blockers then At(dependents, b) - {token} else At(dependents, b)
    ensures unlinked.Keys <= dependents.Keys
  {
    unlinked := dependents;
    var rest := blockers;
    while rest != {}
      invariant rest <= blockers
      invariant forall b :: At(unlinked, b) ==
                  if b in blockers - rest then At(dependents, b) - {token} else At(dependents, b)
      invariant unlinked.Keys <= dependents.Keys
    {
      var blocker :| blocker in rest;
      if blocker in unlinked {
        var left := unlinked[blocker] - {token};
        unlinked := if prune && left == {} then unlinked - {blocker} else unlinked[blocker := left];
      }
      rest := rest - {blocker};
    }
  }

  /** Nobody waits for `token` any longer. */
  method Released(dependencies: Edges, token: Token, followers: set<Token>) returns (released: Edges)
    ensures released.Keys == dependencies.Keys
    ensures forall t :: t in released ==>
              released[t] == if t in followers then dependencies[t] - {token} else dependencies[t]
  {
    released := dependencies;
    var rest := followers;
    while rest != {}
      invariant rest <= followers && released.Keys == dependencies.Keys
      invariant forall t :: t in released ==>
                  released[t] == if t in followers - rest then dependencies[t] - {token} else dependencies[t]
    {
      var follower :| follower in rest;
      if follower in released {
        released := released[follower := released[follower] - {token}];
      }
      rest := rest - {follower};
    }
  }

  /** The elements of a set in some order. */
  method Listed(s: set<Token>) returns (r: seq<Token>)
    ensures forall x :: x in r <==> x in s
  {
    r := [];
    var rest := s;
    while rest != {}
      invariant rest <= s && forall x :: x in r <==> x in s - rest
    {
      var x :| x in rest;
      r, rest := r + [x], rest - {x};
    }
  }

  /** The tokens before position `i` in conflict with the one there. */
  method Preceding(entries: map<Token, Entry>, order: seq<Token>, i: nat, relaxed: bool) returns (preceding: set<Token>)
    requires i < |order| && forall t :: t in order ==> t in entries
    requires forall j :: 0 <= j < i ==> order[j] != order[i]
    ensures preceding == PrecedingSet(entries, order, i, relaxed)
  {
    hide Overlaps;
    preceding := {};
    var j := 0;
    while order[j] != order[i]
      invariant 0 <= j <= i
      invariant forall u :: u in preceding <==> u in order[..j] && Overlaps(entries[order[i]].claims, entries[u].claims, relaxed)
      decreases i - j
    {
      assert order[..j+1] == order[..j] + [order[j]];
      if Overlaps(entries[order[i]].claims, entries[order[j]].claims, relaxed) {
        preceding := preceding + {order[j]};
      }
      j := j + 1;
    }
  }

  /** The whole graph computed anew, as `reconfigure` does. */
  method Rebuilt(ghost q: Queue, entries: map<Token, Entry>, order: seq<Token>, owners: set<Token>, relaxed: bool)
    returns (dependencies: Edges, dependents: Edges)
    requires WF(q) && InOrder(q, order)
    requires entries == q.entries && owners == q.active.Keys && relaxed == q.relaxed
    ensures Exact(q, dependencies, dependents)
  {
    hide Overlaps, Deps, WF, At, Before;
    dependencies, dependents := map[], map[];
    var i := 0;
    OrderDistinct(q, order);
    EmptyInverse();
    while i < |order|
      invariant 0 <= i <= |order|
      invariant forall t :: t in dependencies <==> t in order[..i] && t !in owners
      invariant forall t :: t in dependencies ==> dependencies[t] == Deps(q, t)
      invariant Inverse(dependencies, dependents)
      invariant dependents.Keys <= entries.Keys
    {
      assert order[..i+1] == order[..i] + [order[i]];
      if order[i] !in owners {
        var preceding := Preceding(entries, order, i, relaxed);
        PrecedingIsDeps(q, order, i);
        var linked := Linked(dependents, order[i], preceding);
        LinkedInverse(dependencies, dependents, linked, order[i], preceding);
        dependencies, dependents := dependencies[order[i] := preceding], linked;
      }
      i := i + 1;
    }
    assert order[..i] == order;
    RebuiltAll(q, order, dependencies);
  }

  class ResourceQueue {
    var relaxed: bool
    const bypassSeconds: real
    var started: map<Token, real>
    var bounded: map<Token, bool>
    var bypassRoots: Edges
    var active: map<Token, Holding>
    var waiting: seq<Item>
    var events: set<Token>
    /** `order` and `entries` are one insertion-ordered dictionary; `next` stamps insertions. */
    var entries: map<Token, Entry>
    var order: seq<Token>
    var next: nat
    var dependencies: Edges
    var dependents: Edges
    ghost var retired: set<Token>

    ghost function State(): Queue
      reads this
    {
      Queue(relaxed, bypassSeconds, next, entries, Tokens(waiting), started, TrueKeys(bounded), bypassRoots, events, retired)
    }

    ghost predicate Valid()
      reads this
    {
      && WF(State())
      && Records(State(), waiting, active, bounded, order)
      && Exact(State(), dependencies, dependents)
    }

    constructor (relaxed: bool, bypassSeconds: real)
      ensures Valid()
      ensures State() == Queue(relaxed, bypassSeconds, 0, map[], [], map[], {}, map[], {}, {})
    {
      this.relaxed, this.bypassSeconds := relaxed, bypassSeconds;
      started, bounded, bypassRoots := map[], map[], map[];
      active, waiting, events := map[], [], {};
      entries, order, next := map[], [], 0;
      dependencies, dependents, retired := map[], map[], {};
    }

    // ---- queries ----------------------------------------------------------

    /** The worklist search for the owners that `token` transitively waits for. */
    method ActiveRoots(token: Token) returns (roots: set<Token>)
      requires Valid()
      ensures roots == Roots(State(), token)
    {
      hide WF, Exact, Deps, Records, Reaches, Roots, Tokens, TrueKeys, Searched, Popped, At;
      ghost var q := State();
      var seen := {};
      var pending := [token];
      roots := {};
      OwnersMatch(q, waiting, active, bounded, order);
      SearchStarts(q, token);
      while pending != []
        invariant Searched(q, token, roots, seen, pending)
        invariant forall x :: x in pending ==> x in entries.Keys + {token}
        decreases |entries.Keys + {token} - seen|, |pending|
      {
        var current := pending[|pending|-1];
        var rest := pending[..|pending|-1];
        PopLast(pending);
        if current in seen {
          SearchSkips(q, token, roots, seen, pending, rest, current);
          pending := rest;
        } else {
          SmallerRest(entries.Keys + {token}, seen, current);
          if current in active {
            SearchFindsRoot(q, token, roots, seen, pending, rest, current);
            roots, pending := roots + {current}, rest;
          } else {
            DependenciesExact(q, dependencies, dependents, current);
            var more := Listed(At(dependencies, current));
            SearchExpands(q, token, roots, seen, pending, rest, current, more);
            pending := rest + more;
          }
          seen := seen + {current};
        }
      }
      SearchEnds(q, token, roots, seen);
    }

    function Ran(root: Token, now: real): real
      reads this
    {
      now - (if root in started then started[root] else now)
    }

    method IsBypassable(token: Token, now: real) returns (allowed: bool)
      requires Valid()
      ensures allowed == Bypassable(State(), token, now)
    {
      hide WF, Exact, Deps, Records, Reaches, Roots, Tokens, At, StrictBypassAllowed;
      ghost var q := State();
      OwnersMatch(q, waiting, active, bounded, order);
      DependenciesExact(q, dependencies, dependents, token);
      var blockers := At(dependencies, token);
      if token !in bounded || !bounded[token] || blockers == {} {
        return false;
      }
      if !relaxed && !StrictBypassAllowed(entries, token, blockers) {
        return false;
      }
      var rest := blockers;
      while rest != {}
        invariant rest <= blockers
        invariant forall b :: b in blockers - rest ==> Passable(q, b, now)
      {
        var blocker :| blocker in rest;
        if blocker in active {
          return false;
        }
        var roots := ActiveRoots(blocker);
        RootsActive(q, blocker);
        if blocker in bypassRoots {
          roots := roots * bypassRoots[blocker];
        }
        assert roots == Gate(q, blocker);
        if !exists root :: root in roots && Ran(root, now) >= bypassSeconds {
          return false;
        }
        ghost var root :| root in roots && Ran(root, now) >= bypassSeconds;
        assert LongRunning(q, root, now);
        rest := rest - {blocker};
      }
      return true;
    }

    method IsBlocked(token: Token, now: real) returns (blocked: bool)
      requires Valid()
      ensures blocked == Blocked(State(), token, now)
      ensures token in State().waiting ==> (blocked <==> !QM.MayPass(State(), token, now))
    {
      hide WF, Exact, Deps, Records, Tokens, TrueKeys, At, Bypassable, Overlaps, QM.MayPass;
      ghost var q := State();
      if token in q.waiting {
        QM.NotBlockedMeans(q, token, now);
      }
      HeldMatches(q, waiting, active, bounded, order);
      OwnersMatch(q, waiting, active, bounded, order);
      DependenciesExact(q, dependencies, dependents, token);
      var claims := if token in entries then entries[token].claims else [];
      if exists held :: held in active && held != token && Overlaps(claims, active[held].claims, relaxed) {
        return true;
      }
      if At(dependencies, token) == {} {
        return false;
      }
      var allowed := IsBypassable(token, now);
      return !allowed;
    }

    // ---- transitions --------------------------------------------------------

    /** `setdefault` of the gate of each overtaken waiter. */
    method Gated(token: Token) returns (gates: Edges)
      requires Valid()
      ensures gates == GatesAfter(State(), token)
    {
      hide WF, Exact, Deps, Records, Reaches, Roots, Tokens, TrueKeys, At;
      ghost var q := State();
      DependenciesExact(q, dependencies, dependents, token);
      gates := bypassRoots;
      var blockers := At(dependencies, token);
      var rest := blockers;
      while rest != {}
        invariant rest <= blockers
        invariant gates.Keys == bypassRoots.Keys + (blockers - rest)
        invariant forall b :: b in gates ==> gates[b] == if b in bypassRoots then bypassRoots[b] else Roots(q, b)
      {
        var blocker :| blocker in rest;
        if blocker !in gates {
          var roots := ActiveRoots(blocker);
          gates := gates[blocker := roots];
        }
        rest := rest - {blocker};
      }
    }

    /** Append `token` to the dictionaries and to the waiting list. */
    method Register(token: Token, op: string, claims: seq<Claim>, bound: bool)
      modifies `bounded, `entries, `order, `next, `waiting
      ensures bounded == old(bounded)[token := bound]
      ensures entries == old(entries)[token := Entry(old(next), op, claims)]
      ensures order == old(order) + [token] && next == old(next) + 1
      ensures waiting == old(waiting) + [Item(token, op, claims)]
    {
      bounded := bounded[token := bound];
      entries, order, next := entries[token := Entry(next, op, claims)], order + [token], next + 1;
      waiting := waiting + [Item(token, op, claims)];
    }

    /** The graph with a newcomer behind every live token it conflicts with. */
    method EnqueueGraph(token: Token, ghost op: string, claims: seq<Claim>, ghost bound: bool) returns (found: set<Token>, linked: Edges)
      requires Valid() && token !in entries && token !in retired
      ensures Exact(QueueModel.Enqueue(State(), token, op, claims, bound, false), dependencies[token := found], linked)
    {
      hide WF, Exact, Records, Overlapping, At, Tokens, TrueKeys;
      found := Overlapping(entries, claims, relaxed);
      linked := Linked(dependents, token, found);
      EnqueueExact(State(), dependencies, dependents, linked, token, op, claims, bound);
    }

    method Enqueue(token: Token, op: string, claims: seq<Claim>, bound: bool, strict: bool)
      requires Valid() && token !in entries && token !in retired
      modifies this
      ensures Valid()
      ensures State() == QueueModel.Enqueue(old(State()), token, op, claims, bound && !strict, false)
    {
      hide WF, Exact, Records, Tokens, TrueKeys;
      EnqueueWF(State(), token, op, claims, bound && !strict, false);
      EnqueueRecords(State(), waiting, active, bounded, order, token, op, claims, bound && !strict);
      var found, linked := EnqueueGraph(token, op, claims, bound && !strict);
      Register(token, op, claims, bound && !strict);
      Rewire(dependencies[token := found], linked, bypassRoots);
    }

    method Activate(token: Token, holding: Holding, now: real)
      modifies `waiting, `active, `started
      ensures waiting == Drop(old(waiting), token)
      ensures active == old(active)[token := holding] && started == old(started)[token := now]
    {
      waiting := Drop(waiting, token);
      active := active[token := holding];
      started := started[token := now];
    }

    method Rewire(dependencies: Edges, dependents: Edges, gates: Edges)
      modifies `dependencies, `dependents, `bypassRoots
      ensures this.dependencies == dependencies && this.dependents == dependents && bypassRoots == gates
    {
      this.dependencies := dependencies;
      this.dependents := dependents;
      bypassRoots := gates;
    }

    /** The graph without the waiter that is about to become an owner. */
    method GrantGraph(token: Token, ghost now: real) returns (gates: Edges, unlinked: Edges)
      requires Valid() && token in State().waiting
      ensures gates == GatesAfter(State(), token)
      ensures Exact(QueueModel.Grant(State(), token, now), dependencies - {token}, unlinked)
    {
      hide WF, Exact, Deps, Records, GatesAfter, Tokens, TrueKeys, At;
      ghost var q := State();
      gates := Gated(token);
      DependenciesExact(q, dependencies, dependents, token);
      unlinked := Unlinked(dependents, token, At(dependencies, token), false);
      GrantExact(q, dependencies, dependents, unlinked, token, now);
    }

    /** What the waiting list says the token asked for. */
    method Claimed(token: Token) returns (holding: Holding)
      requires Valid() && token in State().waiting
      ensures token in entries && holding == Holding(entries[token].op, entries[token].claims)
    {
      hide WF, Exact, Records, Tokens, TrueKeys, ItemOf;
      ItemMatches(State(), waiting, active, bounded, order, token);
      var item := ItemOf(waiting, token);
      holding := Holding(item.op, item.claims);
    }

    method Grant(token: Token, now: real)
      requires Valid() && token in State().waiting
      modifies this
      ensures Valid()
      ensures State() == QueueModel.Grant(old(State()), token, now)
    {
      hide WF, Exact, Records, GatesAfter, Tokens, TrueKeys, Drop, Without;
      var holding := Claimed(token);
      GrantWF(State(), token, now);
      GrantRecords(State(), waiting, active, bounded, order, token, now);
      var gates, unlinked := GrantGraph(token, now);
      Activate(token, holding, now);
      Rewire(dependencies - {token}, unlinked, gates);
    }

    method Forget(token: Token)
      modifies `waiting, `active, `entries, `order
      ensures waiting == Drop(old(waiting), token) && active == old(active) - {token}
      ensures entries == old(entries) - {token} && order == Without(old(order), token)
    {
      waiting := Drop(waiting, token);
      active := active - {token};
      entries := entries - {token};
      order := Without(order, token);
    }

    method ForgetMarks(token: Token)
      modifies `started, `bounded, `events, `retired
      ensures started == old(started) - {token} && bounded == old(bounded) - {token} && events == old(events) - {token}
      ensures retired == if token in old(started) then old(retired) + {token} else old(retired)
    {
      if token in started {
        retired := retired + {token};
      }
      started := started - {token};
      bounded := bounded - {token};
      events := events - {token};
    }

    /** The graph without a token that leaves. */
    method DiscardGraph(token: Token) returns (released: Edges, unlinked: Edges)
      requires Valid()
      ensures Exact(QueueModel.Discard(State(), token), released, unlinked)
    {
      hide WF, Exact, Deps, Records, Tokens, TrueKeys, At;
      unlinked := Unlinked(dependents, token, At(dependencies, token), true);
      released := Released(dependencies - {token}, token, At(unlinked, token));
      DiscardExact(State(), dependencies, dependents, unlinked, released, token);
      unlinked := unlinked - {token};
    }

    method Discard(token: Token)
      requires Valid()
      modifies this
      ensures Valid()
      ensures State() == QueueModel.Discard(old(State()), token)
    {
      hide WF, Exact, Records, Tokens, TrueKeys, Drop, Without;
      DiscardWF(State(), token);
      DiscardRecords(State(), waiting, active, bounded, order, token);
      var released, unlinked := DiscardGraph(token);
      Forget(token);
      ForgetMarks(token);
      Rewire(released, unlinked, bypassRoots - {token});
    }

    /** `slot` up to its drain: the operation will be woken through its own event. */
    method Enter(token: Token, op: string, claims: seq<Claim>, bound: bool, strict: bool)
      requires Valid() && token !in entries && token !in retired
      modifies this
      ensures Valid()
      ensures State() == QueueModel.Enqueue(old(State()), token, op, claims, bound && !strict, true)
    {
      hide WF, Exact, Records, Tokens, TrueKeys;
      this.Enqueue(token, op, claims, bound, strict);
      OwnedWF(State(), token);
      OwnedRecords(State(), waiting, active, bounded, order, token);
      OwnedExact(State(), dependencies, dependents, token);
      events := events + {token};
    }

    /** Switch semantics without touching an owner; the graph is computed anew. */
    method Reconfigure(relaxed: bool)
      requires Valid()
      modifies this
      ensures Valid()
      ensures State() == Switch(old(State()), relaxed)
    {
      hide WF, Exact, Records, Tokens, TrueKeys;
      SwitchWF(State(), relaxed);
      OwnersMatch(State(), waiting, active, bounded, order);
      SwitchRecords(State(), waiting, active, bounded, order, relaxed);
      var rebuilt, inverse := Rebuilt(Switch(State(), relaxed), entries, order, active.Keys, relaxed);
      this.relaxed := relaxed;
      Rewire(rebuilt, inverse, map[]);
    }

    /** Grant standalone waiters, oldest first, in one pass over a snapshot. */
    method Drain(now: real)
      requires Valid()
      modifies this
      ensures Valid()
      ensures State() == QP.Drain(old(State()), now)
    {
      hide WF, Exact, Records, Tokens, TrueKeys, QP.Pending, Blocked;
      ghost var q0 := State();
      var tokens := Tokens(waiting);
      QP.WaitingIsPending(q0);
      var i := 0;
      assert tokens[0..] == tokens;
      while i < |tokens|
        invariant 0 <= i <= |tokens| && Valid()
        invariant QP.Pending(State(), tokens[i..])
        invariant QP.DrainOver(State(), tokens[i..], now) == QP.DrainOver(q0, tokens, now)
      {
        QP.DrainOverHead(State(), tokens, i, now);
        if tokens[i] in events {
          var blocked := IsBlocked(tokens[i], now);
          if !blocked {
            Grant(tokens[i], now);
          }
        }
        i := i + 1;
      }
    }

    /** Admission without waiting: the same predicate as for queued grants. */
    method TryReserve(token: Token, op: string, claims: seq<Claim>, bound: bool, strict: bool, locked: bool, now: real)
      returns (granted: bool)
      requires Valid() && token !in entries && token !in retired
      modifies this
      ensures Valid()
      ensures granted <==> !locked && (forall t :: t in old(entries) ==> old(entries)[t].op != op)
                           && !Blocked(QueueModel.Enqueue(old(State()), token, op, claims, bound && !strict, false), token, now)
      ensures granted ==> State() == QueueModel.Grant(QueueModel.Enqueue(old(State()), token, op, claims, bound && !strict, false), token, now)
      ensures !granted ==> State() == if locked || exists t :: t in old(entries) && old(entries)[t].op == op then old(State())
                                      else old(State()).(next := old(next) + 1)
    {
      hide WF, Exact, Records, Tokens, TrueKeys, Blocked, QueueModel.Grant;
      ghost var q := State();
      if locked {
        return false;
      }
      if exists t :: t in entries && entries[t].op == op {
        return false;
      }
      QP.RefusedReservation(q, token, op, claims, bound && !strict, false);
      this.Enqueue(token, op, claims, bound, strict);
      var blocked := IsBlocked(token, now);
      if blocked {
        Discard(token);
        return false;
      }
      Grant(token, now);
      return true;
    }
  }

  /** The edges of the program say exactly who waits for whom: a waiter for each earlier live
      token whose claims overlap its own under the current semantics, and nobody else; the
      entries are the waiting and the active tokens, and waiting keeps the order of entry. */
  lemma EdgesAreOverlaps(queue: ResourceQueue)
    requires queue.Valid()
    ensures queue.dependencies.Keys + queue.active.Keys == queue.entries.Keys && queue.dependencies.Keys !! queue.active.Keys
    ensures forall t, u :: t in queue.dependencies ==>
              (u in queue.dependencies[t] <==>
                 u in queue.entries && queue.entries[u].arrival < queue.entries[t].arrival
                 && Overlaps(queue.entries[t].claims, queue.entries[u].claims, queue.relaxed))
    ensures forall b, t :: t in At(queue.dependents, b) <==> t in queue.dependencies && b in queue.dependencies[t]
    ensures forall x :: x in Tokens(queue.waiting) <==> x in queue.dependencies
    ensures forall i, j :: 0 <= i < j < |Tokens(queue.waiting)| ==>
              queue.entries[Tokens(queue.waiting)[i]].arrival < queue.entries[Tokens(queue.waiting)[j]].arrival
  {
    hide Overlaps, Tokens, TrueKeys;
    var q := queue.State();
    forall t, u | t in queue.dependencies
      ensures u in queue.dependencies[t] <==>
                u in queue.entries && queue.entries[u].arrival < queue.entries[t].arrival
                && Overlaps(queue.entries[t].claims, queue.entries[u].claims, queue.relaxed)
    {
      assert queue.dependencies[t] == Deps(q, t);
    }
    forall i, j | 0 <= i < j < |Tokens(queue.waiting)|
      ensures queue.entries[Tokens(queue.waiting)[i]].arrival < queue.entries[Tokens(queue.waiting)[j]].arrival
    {
      assert Before(q, q.waiting[i], q.waiting[j]);
    }
  }
}
