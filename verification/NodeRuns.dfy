// Every entry point of the node as one transition, and what all runs keep.

module NodeRuns {
  import opened Claims
  import opened QueueModel
  import opened Settings
  import opened SchedulerModel
  import opened SchedulerProperties
  import QP = QueueProperties

  const MAX_WAITING := 1024

  datatype Step =
    | Submit(ticket: Ticket, claims: Option<seq<Claim>>, strict: bool, now: real)
    | Convert(replace: Ticket, item: Ticket, claims: Option<seq<Claim>>, strict: bool, locked: bool, now: real)
    | Finish(token: Token, now: real)
    | Configure(config: Config, limit: int, now: real)
    | Pressure(limit: int, paused: bool, now: real)
    | Close(now: real)
    | Join(token: Token, op: string, held: seq<Claim>, bounded: bool, strict: bool, now: real)
    | TryJoin(token: Token, op: string, held: seq<Claim>, bounded: bool, strict: bool, locked: bool, now: real)
    | Part(token: Token, now: real)
    | Wake(now: real)

  predicate Ticketed(n: Node, t: Token) {
    t in n.active || exists x :: x in n.waiting && x.token == t
  }

  /** A token nobody has seen: neither a ticket, nor a claim holder, nor a former owner. */
  predicate Fresh(n: Node, t: Token) {
    !Ticketed(n, t) && t !in n.q.entries && t !in n.q.retired
  }

  // ---- submission ---------------------------------------------------------

  function Queued(n: Node, ticket: Ticket, claims: Option<seq<Claim>>, strict: bool): Node
    requires Fresh(n, ticket.token)
  {
    n.(q := if claims.Some? then Enqueue(n.q, ticket.token, ticket.op, claims.value, ticket.lane.Read? && !strict, false) else n.q,
       claimed := if claims.Some? then n.claimed + {ticket.token} else n.claimed,
       waiting := n.waiting + [ticket],
       events := n.events + {ticket.token})
  }

  predicate Accepts(n: Node, project: string) {
    project != "" && !n.closed && |n.waiting| < MAX_WAITING
  }

  // ---- conversion of an owned slot ----------------------------------------

  predicate SameOperation(n: Node, replace: Ticket) {
    (exists x :: x in n.waiting && x.op == replace.op) ||
    (exists t :: t in n.active && t != replace.token && n.active[t].op == replace.op)
  }

  predicate Convertible(n: Node, replace: Ticket, item: Ticket, claims: Option<seq<Claim>>, locked: bool) {
    && !locked && Accepts(n, item.project)
    && replace.token in n.active && n.active[replace.token] == replace && replace.op == item.op
    && !SameOperation(n, replace)
    && (claims.Some? ==> replace.token !in n.claimed && forall t :: t in n.q.entries ==> n.q.entries[t].op != item.op)
  }

  /** The slot is given up for the moment and its successor takes part in the selection. */
  function Tentative(n: Node, item: Ticket, claims: Option<seq<Claim>>, strict: bool): Node
    requires claims.Some? ==> item.token !in n.q.entries && item.token !in n.q.retired
  {
    n.(q := if claims.Some? then Enqueue(n.q, item.token, item.op, claims.value, item.lane.Read? && !strict, false) else n.q,
       claimed := if claims.Some? then n.claimed + {item.token} else n.claimed,
       active := n.active - {item.token},
       waiting := n.waiting + [item])
  }

  ghost predicate Chosen(n: Node, item: Ticket, claims: Option<seq<Claim>>, strict: bool, now: real)
    requires claims.Some? ==> item.token !in n.q.entries && item.token !in n.q.retired
  {
    Selected(Tentative(n, item, claims, strict), now) == Some(|n.waiting|)
  }

  ghost function Converted(n: Node, item: Ticket, claims: Option<seq<Claim>>, strict: bool, now: real): Node
    requires claims.Some? ==> item.token !in n.q.entries && item.token !in n.q.retired
  {
    var t := Tentative(n, item, claims, strict);
    n.(q := if claims.Some? then Grant(t.q, item.token, now) else n.q,
       claimed := t.claimed,
       active := n.active[item.token := item],
       sequence := n.sequence + 1,
       turn := n.turn[(item.lane, item.project) := n.sequence + 1])
  }

  function Refused(n: Node, item: Ticket, claims: Option<seq<Claim>>, strict: bool): Node
    requires claims.Some? ==> item.token !in n.q.entries && item.token !in n.q.retired
  {
    n.(q := if claims.Some? then Discard(Tentative(n, item, claims, strict).q, item.token) else n.q)
  }

  ghost predicate Granted(n: Node, replace: Ticket, item: Ticket, claims: Option<seq<Claim>>, strict: bool, locked: bool, now: real)
    requires ValidNode(n) && item.token == replace.token
  {
    Convertible(n, replace, item, claims, locked) &&
    (FreshForClaims(n, replace, item, claims, locked); Chosen(n, item, claims, strict, now))
  }

  /** A refused conversion publishes nothing: both structures are as before, up to the
      next insertion stamp. */
  lemma RefusedChangesNothing(n: Node, item: Ticket, claims: Option<seq<Claim>>, strict: bool)
    requires ValidNode(n)
    requires claims.Some? ==> item.token !in n.q.entries && item.token !in n.q.retired
    ensures var r := Refused(n, item, claims, strict); r == n.(q := n.q.(next := r.q.next))
  {
    hide WF, Tickets, Joint, InStep;
    if claims.Some? {
      QP.RefusedReservation(n.q, item.token, item.op, claims.value, item.lane.Read? && !strict, false);
    }
  }

  lemma ConvertibleProject(n: Node, replace: Ticket, item: Ticket, claims: Option<seq<Claim>>, locked: bool)
    requires Convertible(n, replace, item, claims, locked)
    ensures item.project != "" && replace.token in n.active && n.active[replace.token] == replace
    ensures claims.Some? ==> replace.token !in n.claimed
  {
  }

  /** Putting the owned slot back after the trial restores the scheduler's side. */
  lemma TentativeUndone(n: Node, replace: Ticket, item: Ticket, claims: Option<seq<Claim>>, strict: bool)
    requires replace.token in n.active && n.active[replace.token] == replace && item.token == replace.token
    requires claims.Some? ==> item.token !in n.q.entries && item.token !in n.q.retired && item.token !in n.claimed
    ensures var t := Tentative(n, item, claims, strict);
            && t.waiting != [] && t.waiting[..|t.waiting| - 1] == n.waiting
            && t.active[replace.token := replace] == n.active
            && (claims.Some? ==> item.token in t.q.waiting && t.claimed - {item.token} == n.claimed)
  {
    assert forall x :: x in n.active <==> x in (n.active - {item.token})[replace.token := replace];
  }

  lemma ReservationUndone(n: Node, token: Token, op: string, held: seq<Claim>, bounded: bool, now: real)
    requires ValidNode(n) && Fresh(n, token)
    ensures Discard(Enqueue(n.q, token, op, held, bounded, false), token) == n.q.(next := n.q.next + 1)
    ensures token !in n.q.active && token in Grant(Enqueue(n.q, token, op, held, bounded, false), token, now).active
  {
    hide Tickets, Joint, InStep;
    QP.RefusedReservation(n.q, token, op, held, bounded, false);
  }

  // ---- release ------------------------------------------------------------

  function WithoutToken(s: seq<Ticket>, t: Token): (r: seq<Ticket>)
    ensures forall x :: x in r <==> x in s && x.token != t
    ensures |r| <= |s|
  {
    if s == [] then []
    else if s[0].token == t then WithoutToken(s[1..], t)
    else [s[0]] + WithoutToken(s[1..], t)
  }

  /** The turns of projects that still have a ticket. */
  function LiveTurns(turn: map<(Lane, string), nat>, waiting: seq<Ticket>, active: map<Token, Ticket>): map<(Lane, string), nat> {
    map k | k in turn &&
            ((exists x :: x in waiting && (x.lane, x.project) == k) ||
             (exists t :: t in active && (active[t].lane, active[t].project) == k)) :: turn[k]
  }

  function Released(n: Node, token: Token): Node {
    var waiting, active := WithoutToken(n.waiting, token), n.active - {token};
    n.(q := if token in n.claimed then Discard(n.q, token) else n.q,
       claimed := n.claimed - {token},
       waiting := waiting,
       active := active,
       events := n.events - {token},
       turn := LiveTurns(n.turn, waiting, active))
  }

  // ---- steps --------------------------------------------------------------

  /** What callers owe: fresh tokens, and only their own kind of token to release. */
  ghost predicate Legal(n: Node, s: Step) {
    match s
    case Submit(ticket, _, _, _) => Fresh(n, ticket.token)
    case Convert(replace, item, _, _, _, _) => item.token == replace.token
    case Join(token, _, _, _, _, _) => Fresh(n, token)
    case TryJoin(token, _, _, _, _, _, _) => Fresh(n, token)
    case Part(token, _) => !Ticketed(n, token)
    case _ => true
  }

  ghost function Apply(n: Node, s: Step): Node
    requires ValidNode(n) && Legal(n, s)
  {
    match s
    case Submit(ticket, claims, strict, now) =>
      if Accepts(n, ticket.project) then DrainAll(Queued(n, ticket, claims, strict), now) else n
    case Convert(replace, item, claims, strict, locked, now) =>
      if !Convertible(n, replace, item, claims, locked) then n
      else
        FreshForClaims(n, replace, item, claims, locked);
        if Chosen(n, item, claims, strict, now) then Converted(n, item, claims, strict, now)
        else Refused(n, item, claims, strict)
    case Finish(token, now) => DrainAll(Released(n, token), now)
    case Configure(config, limit, now) =>
      DrainAll(DrainAll(n.(config := config, limit := limit, q := Switch(n.q, config.relaxed)), now), now)
    case Pressure(limit, paused, now) => DrainAll(n.(limit := limit, paused := paused), now)
    case Close(now) => DrainAll(n.(closed := true), now)
    case Join(token, op, held, bounded, strict, now) =>
      DrainAll(n.(q := Enqueue(n.q, token, op, held, bounded && !strict, true)), now)
    case TryJoin(token, op, held, bounded, strict, locked, now) =>
      var e := Enqueue(n.q, token, op, held, bounded && !strict, false);
      if locked || exists t :: t in n.q.entries && n.q.entries[t].op == op then n
      else n.(q := if Blocked(e, token, now) then Discard(e, token) else Grant(e, token, now))
    case Part(token, now) => DrainAll(n.(q := Discard(n.q, token)), now)
    case Wake(now) => DrainAll(n, now)
  }

  lemma WakeDrains(n: Node, now: real)
    requires ValidNode(n)
    ensures Legal(n, Wake(now)) && Apply(n, Wake(now)) == DrainAll(n, now)
  {
    hide ValidNode, DrainAll;
  }

  lemma FreshForClaims(n: Node, replace: Ticket, item: Ticket, claims: Option<seq<Claim>>, locked: bool)
    requires ValidNode(n) && Convertible(n, replace, item, claims, locked) && item.token == replace.token
    ensures claims.Some? ==> item.token !in n.q.entries
    ensures item.token !in n.q.retired && item.token in n.active
  {
    hide WF, InStep;
  }

  // ---- every step keeps the invariant -------------------------------------

  lemma DrainAllValid(n: Node, now: real)
    requires ValidNode(n)
    ensures ValidNode(DrainAll(n, now))
  {
    hide ValidNode;
    DrainedValid(n, now);
    ServeExtends(Drained(n, now), now);
  }

  lemma QueuedValid(n: Node, ticket: Ticket, claims: Option<seq<Claim>>, strict: bool)
    requires ValidNode(n) && Fresh(n, ticket.token)
    ensures ValidNode(Queued(n, ticket, claims, strict))
  {
    hide WF, Tickets, Joint, InStep, Enqueue;
    var m := Queued(n, ticket, claims, strict);
    Known(n);
    assert ticket.token !in n.claimed;
    TicketsQueued(n.waiting, n.active, n.claimed, n.events, n.q.retired, ticket, claims.Some?);
    if claims.Some? {
      var bounded := ticket.lane.Read? && !strict;
      EnqueueWF(n.q, ticket.token, ticket.op, claims.value, bounded, false);
      EnqueueFrame(n.q, ticket.token, ticket.op, claims.value, bounded, false);
    }
    JointQueued(n.q, m.q, n.waiting, n.active, n.claimed, n.events, ticket, claims.Some?);
    StepQueued(n, m, ticket);
  }

  lemma Known(n: Node)
    requires ValidNode(n)
    ensures n.q.owners <= n.q.entries.Keys
    ensures forall t :: t in n.claimed ==> Ticketed(n, t) && t in n.q.entries
  {
    hide InStep;
  }

  lemma TicketsQueued(waiting: seq<Ticket>, active: map<Token, Ticket>, claimed: set<Token>, events: set<Token>, retired: set<Token>,
                      ticket: Ticket, claiming: bool)
    requires Tickets(waiting, active, claimed, events, retired)
    requires ticket.token !in active && ticket.token !in retired && forall x :: x in waiting ==> x.token != ticket.token
    ensures Tickets(waiting + [ticket], active, if claiming then claimed + {ticket.token} else claimed, events + {ticket.token}, retired)
  {
    var more := waiting + [ticket];
    assert ticket in more;
    assert forall x :: x in more <==> x in waiting || x == ticket;
    forall i, j | 0 <= i < j < |more| ensures more[i].token != more[j].token {
      assert more[i] == waiting[i] && waiting[i] in waiting;
    }
    assert DistinctTokens(more);
  }

  lemma EnqueueFrame(q: Queue, t: Token, op: string, claims: seq<Claim>, bounded: bool, owner: bool)
    requires WF(q) && t !in q.entries && t !in q.retired
    ensures var e := Enqueue(q, t, op, claims, bounded, owner);
            && e.entries.Keys == q.entries.Keys + {t} && e.active == q.active && e.retired == q.retired
            && e.owners == (if owner then q.owners + {t} else q.owners)
            && (forall x :: x in e.waiting <==> x in q.waiting || x == t)
            && (forall a, b :: Before(q, a, b) ==> Before(e, a, b))
            && (forall a :: a in q.entries ==> Before(e, a, t))
  {
  }

  lemma JointQueued(q: Queue, e: Queue, waiting: seq<Ticket>, active: map<Token, Ticket>, claimed: set<Token>, events: set<Token>,
                    ticket: Ticket, claiming: bool)
    requires Joint(q, waiting, active, claimed) && Tickets(waiting, active, claimed, events, q.retired)
    requires ticket.token !in active && forall x :: x in waiting ==> x.token != ticket.token
    requires ticket.token !in q.entries && q.owners <= q.entries.Keys
    requires if claiming then e.entries.Keys == q.entries.Keys + {ticket.token} && e.active == q.active && e.owners == q.owners
                              && forall x :: x in e.waiting <==> x in q.waiting || x == ticket.token
             else e == q
    ensures Joint(e, waiting + [ticket], active, if claiming then claimed + {ticket.token} else claimed)
  {
    assert forall x :: x in waiting + [ticket] <==> x in waiting || x == ticket;
    assert ticket.token !in claimed;
    hide Tickets;
  }

  lemma StepQueued(n: Node, m: Node, ticket: Ticket)
    requires InStep(n.q, n.waiting, n.claimed) && m.waiting == n.waiting + [ticket]
    requires m.claimed == n.claimed || m.claimed == n.claimed + {ticket.token}
    requires ticket.token !in n.claimed && forall x :: x in n.waiting ==> x.token != ticket.token
    requires forall a, b :: Before(n.q, a, b) ==> Before(m.q, a, b)
    requires ticket.token in m.claimed ==> forall x :: x in n.waiting && x.token in n.claimed ==> Before(m.q, x.token, ticket.token)
    ensures InStep(m.q, m.waiting, m.claimed)
  {
    forall i, j | 0 <= i < j < |m.waiting| && m.waiting[i].token in m.claimed && m.waiting[j].token in m.claimed
      ensures Before(m.q, m.waiting[i].token, m.waiting[j].token)
    {
      assert m.waiting[i] == n.waiting[i] && n.waiting[i] in n.waiting;
      if j < |n.waiting| {
        assert m.waiting[j] == n.waiting[j] && n.waiting[j] in n.waiting;
      }
    }
  }

  lemma ReleasedValid(n: Node, token: Token)
    requires ValidNode(n) && (Ticketed(n, token) || token !in n.claimed)
    ensures ValidNode(Released(n, token))
  {
    hide WF, Tickets, Joint, InStep, Discard, WithoutToken, LiveTurns;
    Known(n);
    if token in n.claimed { DiscardWF(n.q, token); }
    DiscardFrame(n.q, token);
    var r := Released(n, token);
    TicketsReleased(n.waiting, n.active, n.claimed, n.events, n.q.retired, r.q.retired, token);
    JointReleased(n.q, r.q, n.waiting, n.active, n.claimed, n.events, token);
    StepReleased(n.q, r.q, n.waiting, n.claimed, token);
  }

  lemma DiscardFrame(q: Queue, t: Token)
    ensures var d := Discard(q, t);
            && d.entries.Keys == q.entries.Keys - {t} && d.active.Keys == q.active.Keys - {t}
            && d.owners == q.owners - {t} && d.retired <= q.retired + {t}
            && (forall x :: x in d.waiting <==> x in q.waiting && x != t)
            && (forall a, b :: a != t && b != t && Before(q, a, b) ==> Before(d, a, b))
  {
  }

  lemma {:induction false} WithoutTokenDistinct(s: seq<Ticket>, t: Token)
    requires DistinctTokens(s)
    ensures DistinctTokens(WithoutToken(s, t))
    decreases |s|
  {
    if s != [] {
      assert DistinctTokens(s[1..]) by {
        assert forall i :: 0 <= i < |s[1..]| ==> s[1..][i] == s[i+1];
      }
      WithoutTokenDistinct(s[1..], t);
      var rest := WithoutToken(s[1..], t);
      forall x | x in rest ensures s[0].token != x.token {
        var k :| 0 <= k < |s[1..]| && s[1..][k] == x;
        assert s[k+1] == x;
      }
      ConsDistinct(s[0], rest);
    }
  }

  lemma ConsDistinct(x: Ticket, rest: seq<Ticket>)
    requires DistinctTokens(rest) && forall y :: y in rest ==> x.token != y.token
    ensures DistinctTokens([x] + rest)
  {
  }

  lemma TicketsReleased(waiting: seq<Ticket>, active: map<Token, Ticket>, claimed: set<Token>, events: set<Token>,
                        retired: set<Token>, retired': set<Token>, token: Token)
    requires Tickets(waiting, active, claimed, events, retired) && retired' <= retired + {token}
    ensures Tickets(WithoutToken(waiting, token), active - {token}, claimed - {token}, events - {token}, retired')
  {
    WithoutTokenDistinct(waiting, token);
    hide WithoutToken;
    forall t | t in claimed - {token} && t !in active - {token}
      ensures exists x :: x in WithoutToken(waiting, token) && x.token == t
    {
      var x :| x in waiting && x.token == t;
      assert x in WithoutToken(waiting, token);
    }
  }

  lemma JointReleased(q: Queue, d: Queue, waiting: seq<Ticket>, active: map<Token, Ticket>, claimed: set<Token>, events: set<Token>, token: Token)
    requires Joint(q, waiting, active, claimed) && q.owners <= q.entries.Keys
    requires if token in claimed then d.entries.Keys == q.entries.Keys - {token} && d.active.Keys == q.active.Keys - {token}
                                      && d.owners == q.owners - {token} && forall x :: x in d.waiting <==> x in q.waiting && x != token
             else d == q
    ensures Joint(d, WithoutToken(waiting, token), active - {token}, claimed - {token})
  {
    hide WithoutToken;
  }

  lemma {:induction false} StepReleased(q: Queue, d: Queue, waiting: seq<Ticket>, claimed: set<Token>, token: Token)
    requires InStep(q, waiting, claimed)
    requires forall a, b :: a != token && b != token && Before(q, a, b) ==> Before(d, a, b)
    ensures InStep(d, WithoutToken(waiting, token), claimed - {token})
    decreases |waiting|
  {
    hide Before;
    if waiting != [] {
      var rest := waiting[1..];
      assert InStep(q, rest, claimed) by {
        assert forall i :: 0 <= i < |rest| ==> rest[i] == waiting[i+1];
      }
      StepReleased(q, d, rest, claimed, token);
      var r := WithoutToken(rest, token);
      if waiting[0].token != token && waiting[0].token in claimed {
        forall j | 0 <= j < |r| && r[j].token in claimed ensures Before(d, waiting[0].token, r[j].token) {
          assert r[j] in rest;
          var k :| 0 <= k < |rest| && rest[k] == r[j];
          assert waiting[k+1] == r[j];
        }
      }
    }
  }

  lemma RefusedValid(n: Node, item: Ticket, claims: Option<seq<Claim>>, strict: bool)
    requires ValidNode(n)
    requires claims.Some? ==> item.token !in n.q.entries && item.token !in n.q.retired
    ensures ValidNode(Refused(n, item, claims, strict))
  {
    hide WF, Tickets, Joint, InStep, Refused;
    var r := Refused(n, item, claims, strict);
    RefusedChangesNothing(n, item, claims, strict);
    assert r.q.next >= n.q.next by { RefusedStamp(n, item, claims, strict); }
    LaterStamp(n.q, r.q.next);
    SameJoint(n.q, r.q, n.waiting, n.active, n.claimed);
    SameStep(n.q, r.q, n.waiting, n.claimed);
  }

  lemma RefusedStamp(n: Node, item: Ticket, claims: Option<seq<Claim>>, strict: bool)
    requires claims.Some? ==> item.token !in n.q.entries && item.token !in n.q.retired
    ensures Refused(n, item, claims, strict).q.next >= n.q.next
  {
  }

  lemma LaterStamp(q: Queue, next: nat)
    requires WF(q) && next >= q.next
    ensures WF(q.(next := next))
  {
    SameArrivals(q, q.(next := next), q.waiting);
  }

  lemma SameJoint(q: Queue, e: Queue, waiting: seq<Ticket>, active: map<Token, Ticket>, claimed: set<Token>)
    requires Joint(q, waiting, active, claimed)
    requires e.entries == q.entries && e.waiting == q.waiting && e.active == q.active && e.owners == q.owners
    ensures Joint(e, waiting, active, claimed)
  {
  }

  lemma ConvertedValid(n: Node, item: Ticket, claims: Option<seq<Claim>>, strict: bool, now: real)
    requires ValidNode(n) && item.token in n.active
    requires claims.Some? ==> item.token !in n.claimed && item.token !in n.q.entries && item.token !in n.q.retired
    ensures ValidNode(Converted(n, item, claims, strict, now))
  {
    hide WF, Tickets, Joint, InStep, Enqueue, Grant;
    var c := Converted(n, item, claims, strict, now);
    Known(n);
    TicketsConverted(n.waiting, n.active, n.claimed, n.events, n.q.retired, item, claims.Some?);
    if claims.Some? {
      var bounded := item.lane.Read? && !strict;
      var e := Enqueue(n.q, item.token, item.op, claims.value, bounded, false);
      EnqueueWF(n.q, item.token, item.op, claims.value, bounded, false);
      EnqueueFrame(n.q, item.token, item.op, claims.value, bounded, false);
      GrantWF(e, item.token, now);
      GrantFrame(e, item.token, now);
    }
    JointConverted(n.q, c.q, n.waiting, n.active, n.claimed, n.events, item, claims.Some?);
    StepConverted(n.q, c.q, n.waiting, n.active, n.claimed, n.events, item);
  }

  lemma TicketsConverted(waiting: seq<Ticket>, active: map<Token, Ticket>, claimed: set<Token>, events: set<Token>, retired: set<Token>,
                         item: Ticket, claiming: bool)
    requires Tickets(waiting, active, claimed, events, retired) && item.token in active
    ensures Tickets(waiting, active[item.token := item], if claiming then claimed + {item.token} else claimed, events, retired)
  {
  }

  lemma JointConverted(q: Queue, c: Queue, waiting: seq<Ticket>, active: map<Token, Ticket>, claimed: set<Token>, events: set<Token>,
                       item: Ticket, claiming: bool)
    requires Joint(q, waiting, active, claimed) && Tickets(waiting, active, claimed, events, q.retired)
    requires item.token in active && q.owners <= q.entries.Keys
    requires claiming ==> item.token !in q.entries
    requires if claiming then c.entries.Keys == q.entries.Keys + {item.token} && c.active.Keys == q.active.Keys + {item.token}
                              && c.owners == q.owners && forall x :: x in c.waiting <==> x in q.waiting && x != item.token
             else c == q
    ensures Joint(c, waiting, active[item.token := item], if claiming then claimed + {item.token} else claimed)
  {
  }

  lemma StepConverted(q: Queue, c: Queue, waiting: seq<Ticket>, active: map<Token, Ticket>, claimed: set<Token>, events: set<Token>, item: Ticket)
    requires InStep(q, waiting, claimed) && Tickets(waiting, active, claimed, events, q.retired) && item.token in active
    requires forall a, b :: Before(q, a, b) ==> Before(c, a, b)
    ensures InStep(c, waiting, claimed) && InStep(c, waiting, claimed + {item.token})
  {
    forall i, j | 0 <= i < j < |waiting| && waiting[i].token in claimed + {item.token} && waiting[j].token in claimed + {item.token}
      ensures Before(c, waiting[i].token, waiting[j].token)
    {
      assert waiting[i] in waiting && waiting[j] in waiting;
    }
  }

  // ---- standalone operations ----------------------------------------------

  lemma JoinedValid(n: Node, token: Token, op: string, held: seq<Claim>, bounded: bool)
    requires ValidNode(n) && Fresh(n, token)
    ensures ValidNode(n.(q := Enqueue(n.q, token, op, held, bounded, true)))
  {
    hide WF, Tickets, Joint, InStep, Enqueue;
    var e := Enqueue(n.q, token, op, held, bounded, true);
    Known(n);
    EnqueueWF(n.q, token, op, held, bounded, true);
    EnqueueFrame(n.q, token, op, held, bounded, true);
    JointStandalone(n.q, e, n.waiting, n.active, n.claimed, token);
    StepKept(n.q, e, n.waiting, n.claimed);
  }

  lemma JointStandalone(q: Queue, e: Queue, waiting: seq<Ticket>, active: map<Token, Ticket>, claimed: set<Token>, token: Token)
    requires Joint(q, waiting, active, claimed) && token !in claimed && q.owners <= q.entries.Keys
    requires token !in active && forall x :: x in waiting ==> x.token != token
    requires forall t :: t != token ==> (t in e.entries <==> t in q.entries) && (t in e.active <==> t in q.active)
                                        && (t in e.waiting <==> t in q.waiting) && (t in e.owners <==> t in q.owners)
    requires token in e.waiting ==> token in e.owners
    ensures Joint(e, waiting, active, claimed)
  {
  }

  lemma StepKept(q: Queue, e: Queue, waiting: seq<Ticket>, claimed: set<Token>)
    requires InStep(q, waiting, claimed) && forall a, b :: Before(q, a, b) ==> Before(e, a, b)
    ensures InStep(e, waiting, claimed)
  {
  }

  lemma StandaloneGrantValid(n: Node, token: Token, op: string, held: seq<Claim>, bounded: bool, now: real)
    requires ValidNode(n) && Fresh(n, token)
    ensures ValidNode(n.(q := Grant(Enqueue(n.q, token, op, held, bounded, false), token, now)))
  {
    hide WF, Tickets, Joint, InStep, Enqueue, Grant;
    var e := Enqueue(n.q, token, op, held, bounded, false);
    Known(n);
    EnqueueWF(n.q, token, op, held, bounded, false);
    EnqueueFrame(n.q, token, op, held, bounded, false);
    GrantWF(e, token, now);
    GrantFrame(e, token, now);
    var g := Grant(e, token, now);
    JointStandalone(n.q, g, n.waiting, n.active, n.claimed, token);
    SameStep(e, g, n.waiting, n.claimed) by { StepKept(n.q, e, n.waiting, n.claimed); }
  }

  lemma StandaloneRefusedValid(n: Node, token: Token, op: string, held: seq<Claim>, bounded: bool)
    requires ValidNode(n) && Fresh(n, token)
    ensures ValidNode(n.(q := Discard(Enqueue(n.q, token, op, held, bounded, false), token)))
  {
    hide WF, Tickets, Joint, InStep, Enqueue, Discard;
    QP.RefusedReservation(n.q, token, op, held, bounded, false);
    var d := n.q.(next := n.q.next + 1);
    LaterStamp(n.q, n.q.next + 1);
    SameJoint(n.q, d, n.waiting, n.active, n.claimed);
    SameStep(n.q, d, n.waiting, n.claimed);
  }

  lemma PartedValid(n: Node, token: Token)
    requires ValidNode(n) && !Ticketed(n, token)
    ensures ValidNode(n.(q := Discard(n.q, token)))
  {
    hide WF, Joint, InStep, Discard;
    Known(n);
    DiscardWF(n.q, token);
    DiscardFrame(n.q, token);
    var d := Discard(n.q, token);
    JointStandalone(n.q, d, n.waiting, n.active, n.claimed, token);
    StepParted(n.q, d, n.waiting, n.claimed, token);
  }

  lemma StepParted(q: Queue, d: Queue, waiting: seq<Ticket>, claimed: set<Token>, token: Token)
    requires InStep(q, waiting, claimed) && token !in claimed
    requires forall a, b :: a != token && b != token && Before(q, a, b) ==> Before(d, a, b)
    ensures InStep(d, waiting, claimed)
  {
  }

  lemma SwitchedValid(n: Node, config: Config, limit: int)
    requires ValidNode(n)
    ensures ValidNode(n.(config := config, limit := limit, q := Switch(n.q, config.relaxed)))
  {
    hide WF, Tickets, Joint, InStep;
    var d := Switch(n.q, config.relaxed);
    SwitchWF(n.q, config.relaxed);
    SameJoint(n.q, d, n.waiting, n.active, n.claimed);
    SameStep(n.q, d, n.waiting, n.claimed);
  }

  /** Every entry point keeps the joint invariant. */
  lemma StepValid(n: Node, s: Step)
    requires ValidNode(n) && Legal(n, s)
    ensures ValidNode(Apply(n, s))
  {
    hide ValidNode, DrainAll, Queued, Released, Converted, Refused, Enqueue, Grant, Discard, Switch, Chosen, Blocked;
    match s
    case Submit(ticket, claims, strict, now) =>
      QueuedValid(n, ticket, claims, strict);
      DrainAllValid(Queued(n, ticket, claims, strict), now);
    case Convert(replace, item, claims, strict, locked, now) =>
      if Convertible(n, replace, item, claims, locked) {
        FreshForClaims(n, replace, item, claims, locked);
        ConvertedValid(n, item, claims, strict, now);
        RefusedValid(n, item, claims, strict);
      }
    case Finish(token, now) =>
      FinishedIsReleased(n, token);
      ReleasedValid(n, token);
      DrainAllValid(Released(n, token), now);
    case Configure(config, limit, now) =>
      SwitchedValid(n, config, limit);
      var c := n.(config := config, limit := limit, q := Switch(n.q, config.relaxed));
      DrainAllValid(c, now);
      DrainAllValid(DrainAll(c, now), now);
    case Pressure(limit, paused, now) =>
      SettingsValid(n, n.(limit := limit, paused := paused));
      DrainAllValid(n.(limit := limit, paused := paused), now);
    case Close(now) =>
      SettingsValid(n, n.(closed := true));
      DrainAllValid(n.(closed := true), now);
    case Join(token, op, held, bounded, strict, now) =>
      JoinedValid(n, token, op, held, bounded && !strict);
      DrainAllValid(n.(q := Enqueue(n.q, token, op, held, bounded && !strict, true)), now);
    case TryJoin(token, op, held, bounded, strict, locked, now) =>
      StandaloneGrantValid(n, token, op, held, bounded && !strict, now);
      StandaloneRefusedValid(n, token, op, held, bounded && !strict);
    case Part(token, now) =>
      PartedValid(n, token);
      DrainAllValid(n.(q := Discard(n.q, token)), now);
    case Wake(now) => DrainAllValid(n, now);
  }

  lemma FinishedIsReleased(n: Node, token: Token)
    requires ValidNode(n)
    ensures Ticketed(n, token) || token !in n.claimed
  {
    Known(n);
  }

  lemma SettingsValid(n: Node, m: Node)
    requires ValidNode(n)
    requires m == n.(limit := m.limit, paused := m.paused, closed := m.closed)
    ensures ValidNode(m)
  {
  }

  // ---- runs -----------------------------------------------------------------

  ghost predicate Next(n: Node, s: Step, n': Node) {
    ValidNode(n) ==> Legal(n, s) && n' == Apply(n, s)
  }

  ghost predicate Run(states: seq<Node>, steps: seq<Step>) {
    && |states| == |steps| + 1
    && ValidNode(states[0])
    && forall i :: 0 <= i < |steps| ==> Next(states[i], steps[i], states[i+1])
  }

  lemma StepOf(states: seq<Node>, steps: seq<Step>, i: nat)
    requires Run(states, steps) && i < |steps|
    ensures Next(states[i], steps[i], states[i+1])
  {
    hide ValidNode, Next;
  }

  lemma {:induction false} RunValid(states: seq<Node>, steps: seq<Step>, i: nat)
    requires Run(states, steps) && i <= |steps|
    ensures ValidNode(states[i])
    decreases i
  {
    hide ValidNode, Apply, Legal;
    if i > 0 {
      RunValid(states, steps, i - 1);
      StepOf(states, steps, i - 1);
      StepValid(states[i-1], steps[i-1]);
    }
  }

  /** In every reachable state: a claim-carrying ticket runs exactly when its claims are
      owned; one that waits holds neither its claims nor a slot; the claims of a ticket
      and the ticket itself leave together. */
  lemma JointAdmission(states: seq<Node>, steps: seq<Step>, i: nat, t: Token)
    requires Run(states, steps) && i <= |steps| && t in states[i].claimed
    ensures var n := states[i];
            && (t in n.active <==> t in n.q.active)
            && ((exists x :: x in n.waiting && x.token == t) <==> t in n.q.waiting)
            && (t in n.active <==> t !in n.q.waiting)
  {
    RunValid(states, steps, i);
    hide InStep;
  }

  // ---- no eviction ----------------------------------------------------------

  /** Nothing but its own release or conversion ends a running ticket: shrinking limits,
      a memory emergency, a new configuration and closing leave every owner alone. */
  lemma NoEviction(n: Node, s: Step, t: Token)
    requires ValidNode(n) && Legal(n, s) && t in n.active
    requires !(s.Finish? && s.token == t) && !(s.Convert? && s.replace.token == t)
    ensures t in Apply(n, s).active && Apply(n, s).active[t] == n.active[t]
  {
    hide ValidNode, DrainAll, Enqueue, Grant, Discard, Switch, Chosen, Blocked, LiveTurns, WithoutToken;
    match s
    case Submit(ticket, claims, strict, now) =>
      QueuedValid(n, ticket, claims, strict);
      DrainAllExtends(Queued(n, ticket, claims, strict), now);
    case Convert(replace, item, claims, strict, locked, now) =>
    case Finish(token, now) =>
      FinishedIsReleased(n, token);
      ReleasedValid(n, token);
      DrainAllExtends(Released(n, token), now);
    case Configure(config, limit, now) =>
      SwitchedValid(n, config, limit);
      var c := n.(config := config, limit := limit, q := Switch(n.q, config.relaxed));
      DrainAllValid(c, now);
      DrainAllExtends(c, now);
      DrainAllExtends(DrainAll(c, now), now);
    case Pressure(limit, paused, now) =>
      SettingsValid(n, n.(limit := limit, paused := paused));
      DrainAllExtends(n.(limit := limit, paused := paused), now);
    case Close(now) =>
      SettingsValid(n, n.(closed := true));
      DrainAllExtends(n.(closed := true), now);
    case Join(token, op, held, bounded, strict, now) =>
      JoinedValid(n, token, op, held, bounded && !strict);
      DrainAllExtends(n.(q := Enqueue(n.q, token, op, held, bounded && !strict, true)), now);
    case TryJoin(token, op, held, bounded, strict, locked, now) =>
    case Part(token, now) =>
      PartedValid(n, token);
      DrainAllExtends(n.(q := Discard(n.q, token)), now);
    case Wake(now) => DrainAllExtends(n, now);
  }

  lemma DrainAllExtends(n: Node, now: real)
    requires ValidNode(n)
    ensures forall t :: t in n.active ==> t in DrainAll(n, now).active && DrainAll(n, now).active[t] == n.active[t]
  {
    hide ValidNode;
    DrainedValid(n, now);
    ServeExtends(Drained(n, now), now);
    ExtendsTransitive(n, Drained(n, now), DrainAll(n, now));
  }

  // ---- mutual exclusion over joint runs ---------------------------------------

  lemma {:induction false} ServeExclusive(n: Node, mode: bool, now: real)
    requires ValidNode(n) && QP.Exclusive(n.q, mode) && (mode || !n.q.relaxed)
    ensures QP.Exclusive(Serve(n, now).q, mode) && Serve(n, now).q.relaxed == n.q.relaxed
    decreases |n.waiting|
  {
    hide WF, Joint, InStep, Tickets, ReasonFor, Precedes, Blocked, QP.Exclusive, Grant;
    if !n.closed {
      ServeStep(n, now);
      if Selected(n, now).Some? {
        var i := Selected(n, now).value;
        var item := n.waiting[i];
        assert Eligible(n, i, now);
        if item.token in n.claimed {
          ClaimedWaits(n, i);
          GrantExclusive(n.q, item.token, mode, now);
        }
        ServeExclusive(GrantTicket(n, i, now), mode, now);
      }
    }
  }

  lemma GrantExclusive(q: Queue, t: Token, mode: bool, now: real)
    requires WF(q) && t in q.waiting && !Blocked(q, t, now)
    requires QP.Exclusive(q, mode) && (mode || !q.relaxed)
    ensures QP.Exclusive(Grant(q, t, now), mode) && Grant(q, t, now).relaxed == q.relaxed
  {
    QP.StepExclusive(q, QP.Admit(t, now), Grant(q, t, now), mode);
  }

  lemma DrainExclusive(q: Queue, mode: bool, now: real)
    requires WF(q) && QP.Exclusive(q, mode) && (mode || !q.relaxed)
    ensures QP.Exclusive(QP.Drain(q, now), mode) && QP.Drain(q, now).relaxed == q.relaxed
  {
    QP.WaitingIsPending(q);
    DrainOverExclusive(q, q.waiting, mode, now);
  }

  lemma {:induction false} DrainOverExclusive(q: Queue, toks: seq<Token>, mode: bool, now: real)
    requires WF(q) && QP.Pending(q, toks) && QP.Exclusive(q, mode) && (mode || !q.relaxed)
    ensures QP.Exclusive(QP.DrainOver(q, toks, now), mode) && QP.DrainOver(q, toks, now).relaxed == q.relaxed
    decreases |toks|
  {
    hide WF, Blocked, QP.Exclusive, Grant;
    if toks != [] {
      QP.VisitKeeps(q, toks, now);
      assert toks[0] in q.waiting;
      if toks[0] in q.owners && !Blocked(q, toks[0], now) { GrantExclusive(q, toks[0], mode, now); }
      DrainOverExclusive(QP.Visit(q, toks[0], now), toks[1..], mode, now);
    }
  }

  lemma DrainAllExclusive(n: Node, mode: bool, now: real)
    requires ValidNode(n) && QP.Exclusive(n.q, mode) && (mode || !n.q.relaxed)
    ensures QP.Exclusive(DrainAll(n, now).q, mode) && DrainAll(n, now).q.relaxed == n.q.relaxed
  {
    hide WF, Joint, InStep, Tickets, QP.Exclusive, QP.Drain;
    DrainExclusive(n.q, mode, now);
    DrainedValid(n, now);
    ServeExclusive(Drained(n, now), mode, now);
  }

  /** A change of the queue that creates no owner keeps exclusion. */
  lemma FewerOwners(q: Queue, e: Queue, mode: bool)
    requires QP.Exclusive(q, mode) && e.active.Keys <= q.active.Keys
    requires forall a :: a in e.active ==> ClaimsOf(e, a) == ClaimsOf(q, a)
    ensures QP.Exclusive(e, mode)
  {
  }

  lemma QueueWF(n: Node)
    requires ValidNode(n)
    ensures WF(n.q)
  {
    hide WF, Tickets, Joint, InStep;
  }

  lemma EnqueueExclusive(q: Queue, token: Token, op: string, held: seq<Claim>, bounded: bool, owner: bool, mode: bool)
    requires WF(q) && token !in q.entries && token !in q.retired && QP.Exclusive(q, mode)
    ensures var e := Enqueue(q, token, op, held, bounded, owner); QP.Exclusive(e, mode) && e.relaxed == q.relaxed
  {
    hide QP.Exclusive;
    FewerOwners(q, Enqueue(q, token, op, held, bounded, owner), mode);
  }

  lemma DiscardExclusive(q: Queue, token: Token, mode: bool)
    requires QP.Exclusive(q, mode)
    ensures QP.Exclusive(Discard(q, token), mode) && Discard(q, token).relaxed == q.relaxed
  {
    hide QP.Exclusive, Without;
    FewerOwners(q, Discard(q, token), mode);
  }

  lemma SwitchExclusive(q: Queue, relaxed: bool, mode: bool)
    requires QP.Exclusive(q, mode)
    ensures QP.Exclusive(Switch(q, relaxed), mode) && Switch(q, relaxed).relaxed == relaxed
  {
    hide QP.Exclusive;
    FewerOwners(q, Switch(q, relaxed), mode);
  }

  lemma StepExclusive(n: Node, s: Step, mode: bool)
    requires ValidNode(n) && Legal(n, s) && QP.Exclusive(n.q, mode)
    requires mode || (!n.q.relaxed && (s.Configure? ==> !s.config.relaxed))
    ensures QP.Exclusive(Apply(n, s).q, mode)
    ensures Apply(n, s).q.relaxed == if s.Configure? then s.config.relaxed else n.q.relaxed
  {
    hide ValidNode, DrainAll, Chosen, Blocked, LiveTurns, WithoutToken, QP.Exclusive, Enqueue, Discard, Switch, Grant, Converted, Refused;
    QueueWF(n);
    match s
    case Submit(ticket, claims, strict, now) =>
      QueuedValid(n, ticket, claims, strict);
      if claims.Some? {
        EnqueueExclusive(n.q, ticket.token, ticket.op, claims.value, ticket.lane.Read? && !strict, false, mode);
      }
      DrainAllExclusive(Queued(n, ticket, claims, strict), mode, now);
    case Convert(replace, item, claims, strict, locked, now) =>
      if Convertible(n, replace, item, claims, locked) {
        FreshForClaims(n, replace, item, claims, locked);
        ConversionExclusive(n, item, claims, strict, mode, now);
      }
    case Finish(token, now) =>
      FinishedIsReleased(n, token);
      ReleasedValid(n, token);
      DiscardExclusive(n.q, token, mode);
      DrainAllExclusive(Released(n, token), mode, now);
    case Configure(config, limit, now) =>
      SwitchedValid(n, config, limit);
      var c := n.(config := config, limit := limit, q := Switch(n.q, config.relaxed));
      SwitchExclusive(n.q, config.relaxed, mode);
      DrainAllValid(c, now);
      DrainAllExclusive(c, mode, now);
      DrainAllExclusive(DrainAll(c, now), mode, now);
    case Pressure(limit, paused, now) =>
      SettingsValid(n, n.(limit := limit, paused := paused));
      DrainAllExclusive(n.(limit := limit, paused := paused), mode, now);
    case Close(now) =>
      SettingsValid(n, n.(closed := true));
      DrainAllExclusive(n.(closed := true), mode, now);
    case Join(token, op, held, bounded, strict, now) =>
      JoinedValid(n, token, op, held, bounded && !strict);
      EnqueueExclusive(n.q, token, op, held, bounded && !strict, true, mode);
      DrainAllExclusive(n.(q := Enqueue(n.q, token, op, held, bounded && !strict, true)), mode, now);
    case TryJoin(token, op, held, bounded, strict, locked, now) =>
      TryExclusive(n.q, token, op, held, bounded && !strict, mode, now);
    case Part(token, now) =>
      PartedValid(n, token);
      DiscardExclusive(n.q, token, mode);
      DrainAllExclusive(n.(q := Discard(n.q, token)), mode, now);
    case Wake(now) => DrainAllExclusive(n, mode, now);
  }

  lemma TryExclusive(q: Queue, token: Token, op: string, held: seq<Claim>, bounded: bool, mode: bool, now: real)
    requires WF(q) && token !in q.entries && token !in q.retired
    requires QP.Exclusive(q, mode) && (mode || !q.relaxed)
    ensures var e := Enqueue(q, token, op, held, bounded, false);
            && QP.Exclusive(Discard(e, token), mode) && Discard(e, token).relaxed == q.relaxed
            && (!Blocked(e, token, now) ==> QP.Exclusive(Grant(e, token, now), mode) && Grant(e, token, now).relaxed == q.relaxed)
  {
    hide Blocked, QP.Exclusive;
    var e := Enqueue(q, token, op, held, bounded, false);
    EnqueueWF(q, token, op, held, bounded, false);
    EnqueueExclusive(q, token, op, held, bounded, false, mode);
    DiscardExclusive(e, token, mode);
    if !Blocked(e, token, now) { GrantExclusive(e, token, mode, now); }
  }

  lemma ConversionExclusive(n: Node, item: Ticket, claims: Option<seq<Claim>>, strict: bool, mode: bool, now: real)
    requires ValidNode(n) && QP.Exclusive(n.q, mode) && (mode || !n.q.relaxed)
    requires claims.Some? ==> item.token !in n.q.entries && item.token !in n.q.retired
    ensures QP.Exclusive(Refused(n, item, claims, strict).q, mode) && Refused(n, item, claims, strict).q.relaxed == n.q.relaxed
    ensures Chosen(n, item, claims, strict, now) ==>
              QP.Exclusive(Converted(n, item, claims, strict, now).q, mode) && Converted(n, item, claims, strict, now).q.relaxed == n.q.relaxed
  {
    hide WF, Tickets, Joint, InStep, Blocked, QP.Exclusive, Enqueue, Grant, Discard, ReasonFor, Precedes;
    if claims.Some? {
      TryExclusive(n.q, item.token, item.op, claims.value, item.lane.Read? && !strict, mode, now);
      if Chosen(n, item, claims, strict, now) { ChosenIsFree(n, item, claims, strict, now); }
    }
  }

  /** A conversion is granted only when its claims are free and its new slot is within limits. */
  lemma ChosenIsFree(n: Node, item: Ticket, claims: Option<seq<Claim>>, strict: bool, now: real)
    requires claims.Some? ==> item.token !in n.q.entries && item.token !in n.q.retired
    requires Chosen(n, item, claims, strict, now)
    ensures var t := Tentative(n, item, claims, strict);
            && ReasonFor(t, item) == Free
            && (item.token in t.claimed ==> !Blocked(t.q, item.token, now))
            && (forall j :: Eligible(t, j, now) && j != |n.waiting| ==> Precedes(t, |n.waiting|, j))
  {
    hide Blocked, Enqueue, ReasonFor, Precedes;
    var t := Tentative(n, item, claims, strict);
    assert Best(t, |n.waiting|, now);
    assert t.waiting[|n.waiting|] == item;
  }

  /** No two owners of the node ever overlap under relaxed semantics, whatever semantics
      were configured when; while every configuration is strict, not under strict ones. */
  lemma {:induction false} RunExclusive(states: seq<Node>, steps: seq<Step>, i: nat, mode: bool)
    requires Run(states, steps) && i <= |steps| && QP.Exclusive(states[0].q, mode)
    requires mode || (!states[0].q.relaxed && forall k :: 0 <= k < |steps| && steps[k].Configure? ==> !steps[k].config.relaxed)
    ensures QP.Exclusive(states[i].q, mode) && (mode || !states[i].q.relaxed)
    decreases i
  {
    hide ValidNode, Apply, Legal, QP.Exclusive;
    if i > 0 {
      RunExclusive(states, steps, i - 1, mode);
      RunValid(states, steps, i - 1);
      StepOf(states, steps, i - 1);
      StepExclusive(states[i-1], steps[i-1], mode);
    }
  }
}
