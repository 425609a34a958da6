// The worklist search of `_active_roots`, on values: what holds while it runs.

module Search {
  import opened Claims
  import opened QueueModel

  /** Whatever `x` waits for, `t` waits for. */
  ghost predicate Below(q: Queue, t: Token, x: Token) {
    forall r :: Reaches(q, x, r) ==> Reaches(q, t, r)
  }

  ghost predicate Searched(q: Queue, t: Token, roots: set<Token>, seen: set<Token>, pending: seq<Token>) {
    && (t in seen || t in pending)
    && (forall x :: x in seen || x in pending ==> Below(q, t, x))
    && (forall x :: x in seen && x in q.active ==> x in roots)
    && (forall x, d :: x in seen && d in Deps(q, x) ==> d in seen || d in pending)
    && (forall r :: r in roots ==> r in q.active && Reaches(q, t, r))
  }

  ghost predicate Popped(pending: seq<Token>, rest: seq<Token>, x: Token) {
    forall y :: y in pending <==> y in rest || y == x
  }

  lemma PopLast(pending: seq<Token>)
    requires pending != []
    ensures Popped(pending, pending[..|pending|-1], pending[|pending|-1])
  {
    assert pending == pending[..|pending|-1] + [pending[|pending|-1]];
  }

  lemma SearchStarts(q: Queue, t: Token)
    ensures Searched(q, t, {}, {}, [t])
  {
  }

  lemma SearchSkips(q: Queue, t: Token, roots: set<Token>, seen: set<Token>, pending: seq<Token>, rest: seq<Token>, x: Token)
    requires Searched(q, t, roots, seen, pending) && Popped(pending, rest, x) && x in seen
    ensures Searched(q, t, roots, seen, rest)
  {
    hide Below, Deps, Reaches;
  }

  lemma SearchFindsRoot(q: Queue, t: Token, roots: set<Token>, seen: set<Token>, pending: seq<Token>, rest: seq<Token>, x: Token)
    requires Searched(q, t, roots, seen, pending) && Popped(pending, rest, x) && x in q.active
    ensures Searched(q, t, roots + {x}, seen + {x}, rest)
  {
    assert Reaches(q, x, x) && Below(q, t, x);
    assert Deps(q, x) == {};
    hide Below, Deps, Reaches;
  }

  lemma SearchExpands(q: Queue, t: Token, roots: set<Token>, seen: set<Token>, pending: seq<Token>, rest: seq<Token>, x: Token, more: seq<Token>)
    requires Searched(q, t, roots, seen, pending) && Popped(pending, rest, x) && x !in q.active
    requires forall d :: d in more <==> d in Deps(q, x)
    ensures Searched(q, t, roots, seen + {x}, rest + more)
  {
    assert Below(q, t, x);
    forall d | d in more ensures Below(q, t, d) {
      BelowDep(q, t, x, d);
    }
    hide Below, Deps, Reaches;
  }

  lemma BelowDep(q: Queue, t: Token, x: Token, d: Token)
    requires Below(q, t, x) && x !in q.active && d in Deps(q, x)
    ensures Below(q, t, d)
  {
    forall r | Reaches(q, d, r) ensures Reaches(q, t, r) {
      assert Reaches(q, x, r);
    }
  }

  lemma {:induction false} ClosedSearch(q: Queue, t: Token, roots: set<Token>, seen: set<Token>, x: Token, r: Token)
    requires Searched(q, t, roots, seen, []) && x in seen && Reaches(q, x, r)
    ensures r in roots
    decreases Rank(q, x)
  {
    if x !in q.active {
      var d :| d in Deps(q, x) && Reaches(q, d, r);
      ClosedSearch(q, t, roots, seen, d, r);
    }
  }

  lemma SearchEnds(q: Queue, t: Token, roots: set<Token>, seen: set<Token>)
    requires Searched(q, t, roots, seen, [])
    ensures roots == Roots(q, t)
  {
    forall r | r in Roots(q, t) ensures r in roots {
      ClosedSearch(q, t, roots, seen, t, r);
    }
  }

  lemma SmallerRest(all: set<Token>, seen: set<Token>, x: Token)
    requires x in all && x !in seen
    ensures |all - (seen + {x})| < |all - seen|
  {
    assert all - seen == (all - (seen + {x})) + {x};
  }
}
