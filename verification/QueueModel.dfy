// The admission queue as a value. The dependency graph is not stored here: it is
// computed from arrival order and the claims, so it says what the incrementally
// maintained graph of agent/resource_queue.py has to be.

module QueueModel {
  import opened Claims

  type Token = nat

  /** `arrival` orders the live tokens the way the insertion order of `_entries` does. */
  datatype Entry = Entry(arrival: nat, op: string, claims: seq<Claim>)

  /** `active` maps an owner to the moment of its grant, `gates` is `_bypass_roots`,
      `owners` the tokens with a private event, `retired` the former owners. */
  datatype Queue = Queue(
    relaxed: bool,
    patience: real,
    next: nat,
    entries: map<Token, Entry>,
    waiting: seq<Token>,
    active: map<Token, real>,
    bounded: set<Token>,
    gates: map<Token, set<Token>>,
    owners: set<Token>,
    retired: set<Token>)

  ghost predicate Distinct<T>(s: seq<T>) {
    forall i, j :: 0 <= i < j < |s| ==> s[i] != s[j]
  }

  ghost predicate WF(q: Queue) {
    && q.active.Keys <= q.entries.Keys
    && (forall t :: t in q.waiting <==> t in q.entries && t !in q.active)
    && Ordered(q, q.waiting)
    && (forall t :: t in q.entries ==> q.entries[t].arrival < q.next)
    && (forall a, b :: a in q.entries && b in q.entries && a != b ==> q.entries[a].arrival != q.entries[b].arrival)
    && q.bounded <= q.entries.Keys
    && q.gates.Keys <= q.entries.Keys
    && q.owners <= q.entries.Keys
    && q.retired !! q.entries.Keys
    && (forall b :: b in q.gates ==> q.gates[b] <= q.active.Keys + q.retired)
  }

  // ---- the conflict graph ----------------------------------------------

  predicate Before(q: Queue, a: Token, b: Token) {
    a in q.entries && b in q.entries && q.entries[a].arrival < q.entries[b].arrival
  }

  function Held(entries: map<Token, Entry>, t: Token): seq<Claim> {
    if t in entries then entries[t].claims else []
  }

  function ClaimsOf(q: Queue, t: Token): seq<Claim> {
    Held(q.entries, t)
  }

  predicate Clash(q: Queue, a: Token, b: Token) {
    Overlaps(ClaimsOf(q, a), ClaimsOf(q, b), q.relaxed)
  }

  /** What a waiter waits for: every earlier live token in conflict with it. */
  function Deps(q: Queue, t: Token): set<Token> {
    if t in q.entries && t !in q.active
    then set u | u in q.entries && Before(q, u, t) && Clash(q, t, u)
    else {}
  }

  function Rank(q: Queue, t: Token): nat {
    if t in q.entries then q.entries[t].arrival + 1 else 0
  }

  /** `r` is an owner that `t` transitively waits for. */
  ghost predicate Reaches(q: Queue, t: Token, r: Token)
    decreases Rank(q, t)
  {
    if t in q.active then t == r
    else exists d :: d in Deps(q, t) && Reaches(q, d, r)
  }

  ghost function Roots(q: Queue, t: Token): set<Token> {
    set r | r in q.active && Reaches(q, t, r)
  }

  ghost predicate Path(q: Queue, p: seq<Token>) {
    p != [] && forall i :: 0 <= i < |p| - 1 ==> p[i+1] in Deps(q, p[i])
  }

  /** Roots is reachability in the dependency graph, restricted to owners. */
  lemma {:induction false} RootsAreReachable(q: Queue, t: Token, r: Token)
    requires WF(q)
    ensures r in Roots(q, t) <==> r in q.active && exists p :: Path(q, p) && p[0] == t && p[|p|-1] == r
    decreases Rank(q, t)
  {
    if r in Roots(q, t) {
      var p := PathTo(q, t, r);
    }
    if r in q.active {
      forall p | Path(q, p) && p[0] == t && p[|p|-1] == r ensures Reaches(q, t, r) {
        PathReaches(q, p);
      }
    }
  }

  lemma {:induction false} PathTo(q: Queue, t: Token, r: Token) returns (p: seq<Token>)
    requires Reaches(q, t, r)
    ensures Path(q, p) && p[0] == t && p[|p|-1] == r
    decreases Rank(q, t)
  {
    if t in q.active {
      p := [t];
    } else {
      var d :| d in Deps(q, t) && Reaches(q, d, r);
      var rest := PathTo(q, d, r);
      p := [t] + rest;
      forall i | 0 <= i < |p| - 1 ensures p[i+1] in Deps(q, p[i]) {
        if i > 0 { assert p[i] == rest[i-1] && p[i+1] == rest[i]; }
      }
    }
  }

  lemma {:induction false} PathReaches(q: Queue, p: seq<Token>)
    requires Path(q, p) && p[|p|-1] in q.active
    ensures Reaches(q, p[0], p[|p|-1])
    decreases |p|
  {
    if |p| > 1 {
      assert p[1] in Deps(q, p[0]);
      forall i | 0 <= i < |p[1..]| - 1 ensures p[1..][i+1] in Deps(q, p[1..][i]) {
        assert p[1..][i] == p[i+1] && p[1..][i+1] == p[i+2];
      }
      PathReaches(q, p[1..]);
    }
  }

  lemma RootsActive(q: Queue, t: Token)
    ensures Roots(q, t) <= q.active.Keys
  {
  }

  // ---- admission --------------------------------------------------------

  /** Strict mode: a read-only file token may pass claims held by processes only. */
  predicate StrictBypassAllowed(entries: map<Token, Entry>, t: Token, blockers: set<Token>) {
    && Held(entries, t) != []
    && (forall c :: c in Held(entries, t) ==> !c.write && c.holder.File?)
    && (forall b :: b in blockers ==>
          forall c, mine :: c in Held(entries, b) && mine in Held(entries, t) && Conflicts(mine, c, false) ==> c.holder.Process?)
  }

  /** The roots that still entitle younger tokens to pass `b`. */
  ghost function Gate(q: Queue, b: Token): set<Token> {
    if b in q.gates then Roots(q, b) * q.gates[b] else Roots(q, b)
  }

  ghost predicate LongRunning(q: Queue, r: Token, now: real) {
    r in q.active && now - q.active[r] >= q.patience
  }

  ghost predicate Passable(q: Queue, b: Token, now: real) {
    b !in q.active && exists r :: r in Gate(q, b) && LongRunning(q, r, now)
  }

  ghost predicate Bypassable(q: Queue, t: Token, now: real) {
    && t in q.bounded
    && Deps(q, t) != {}
    && (q.relaxed || StrictBypassAllowed(q.entries, t, Deps(q, t)))
    && forall b :: b in Deps(q, t) ==> Passable(q, b, now)
  }

  ghost predicate Excluded(q: Queue, t: Token) {
    exists a :: a in q.active && a != t && Clash(q, t, a)
  }

  ghost predicate Blocked(q: Queue, t: Token, now: real) {
    Excluded(q, t) || (Deps(q, t) != {} && !Bypassable(q, t, now))
  }

  // ---- transitions ------------------------------------------------------

  function Without<T(==, !new)>(s: seq<T>, x: T): (r: seq<T>)
    ensures forall y :: y in r <==> y in s && y != x
    ensures x !in s ==> r == s
    ensures |r| <= |s| && (x in s ==> |r| < |s|)
  {
    if s == [] then []
    else if s[0] == x then Without(s[1..], x)
    else [s[0]] + Without(s[1..], x)
  }

  function Enqueue(q: Queue, t: Token, op: string, claims: seq<Claim>, bounded: bool, owner: bool): Queue
    requires t !in q.entries && t !in q.retired
  {
    q.(next := q.next + 1,
       entries := q.entries[t := Entry(q.next, op, claims)],
       waiting := q.waiting + [t],
       bounded := if bounded then q.bounded + {t} else q.bounded,
       owners := if owner then q.owners + {t} else q.owners)
  }

  ghost function GatesAfter(q: Queue, t: Token): map<Token, set<Token>> {
    map b | b in q.gates.Keys + Deps(q, t) :: if b in q.gates then q.gates[b] else Roots(q, b)
  }

  ghost function Grant(q: Queue, t: Token, now: real): Queue {
    q.(waiting := Without(q.waiting, t), active := q.active[t := now], gates := GatesAfter(q, t))
  }

  function Discard(q: Queue, t: Token): Queue {
    q.(entries := q.entries - {t},
       waiting := Without(q.waiting, t),
       active := q.active - {t},
       bounded := q.bounded - {t},
       gates := q.gates - {t},
       owners := q.owners - {t},
       retired := if t in q.active then q.retired + {t} else q.retired)
  }

  function Switch(q: Queue, relaxed: bool): Queue {
    q.(relaxed := relaxed, gates := map[])
  }

  // ---- well-formedness is kept -----------------------------------------

  ghost predicate Ordered(q: Queue, s: seq<Token>) {
    forall i, j :: 0 <= i < j < |s| ==> Before(q, s[i], s[j])
  }

  lemma {:induction false} WithoutOrdered(q: Queue, s: seq<Token>, t: Token)
    requires Ordered(q, s)
    ensures Ordered(q, Without(s, t))
    decreases |s|
  {
    if s != [] {
      var rest := Without(s[1..], t);
      WithoutOrdered(q, s[1..], t);
      if s[0] != t {
        forall i, j | 0 <= i < j < |[s[0]] + rest| ensures Before(q, ([s[0]] + rest)[i], ([s[0]] + rest)[j]) {
          if i == 0 {
            assert rest[j-1] in rest;
            assert rest[j-1] in s[1..];
            var k :| 0 <= k < |s[1..]| && s[1..][k] == rest[j-1];
            assert s[k+1] == rest[j-1];
          }
        }
      }
    }
  }

  lemma EnqueueWF(q: Queue, t: Token, op: string, claims: seq<Claim>, bounded: bool, owner: bool)
    requires WF(q) && t !in q.entries && t !in q.retired
    ensures WF(Enqueue(q, t, op, claims, bounded, owner))
  {
    var e := Enqueue(q, t, op, claims, bounded, owner);
    forall i, j | 0 <= i < j < |e.waiting| ensures Before(e, e.waiting[i], e.waiting[j]) {
      assert e.waiting[i] == q.waiting[i] && q.waiting[i] in q.waiting;
      if j < |q.waiting| { assert e.waiting[j] == q.waiting[j] && q.waiting[j] in q.waiting; }
    }
  }

  lemma GrantWF(q: Queue, t: Token, now: real)
    requires WF(q) && t in q.waiting
    ensures WF(Grant(q, t, now))
  {
    hide Deps, Roots;
    WithoutOrdered(q, q.waiting, t);
    SameArrivals(q, Grant(q, t, now), Without(q.waiting, t));
    GatesAfterKnown(q, t);
  }

  lemma SameArrivals(q: Queue, q': Queue, s: seq<Token>)
    requires Ordered(q, s) && q'.entries == q.entries
    ensures Ordered(q', s)
  {
    forall i, j | 0 <= i < j < |s| ensures Before(q', s[i], s[j]) {
      assert Before(q, s[i], s[j]);
    }
  }

  lemma GatesAfterKnown(q: Queue, t: Token)
    requires WF(q)
    ensures GatesAfter(q, t).Keys <= q.entries.Keys
    ensures forall b :: b in GatesAfter(q, t) ==> GatesAfter(q, t)[b] <= q.active.Keys + q.retired
  {
  }

  lemma DiscardWF(q: Queue, t: Token)
    requires WF(q)
    ensures WF(Discard(q, t))
  {
    DiscardOrdered(q, q.waiting, t);
  }

  lemma DiscardOrdered(q: Queue, s: seq<Token>, t: Token)
    requires Ordered(q, s)
    ensures Ordered(Discard(q, t), Without(s, t))
  {
    WithoutOrdered(q, s, t);
    var o := Without(s, t);
    forall i, j | 0 <= i < j < |o| ensures Before(Discard(q, t), o[i], o[j]) {
      assert Before(q, o[i], o[j]);
      assert o[i] in o && o[j] in o;
    }
  }

  lemma SwitchWF(q: Queue, relaxed: bool)
    requires WF(q)
    ensures WF(Switch(q, relaxed))
  {
    var s := Switch(q, relaxed);
    forall i, j | 0 <= i < j < |s.waiting| ensures Before(s, s.waiting[i], s.waiting[j]) {
      assert Before(q, s.waiting[i], s.waiting[j]);
    }
  }
}
