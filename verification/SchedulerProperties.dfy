// What joint admission guarantees: one drain, and every run of the node.

module SchedulerProperties {
  import opened Claims
  import opened QueueModel
  import opened Settings
  import opened SchedulerModel
  import QP = QueueProperties

  // ---- one grant ----------------------------------------------------------

  /** What a drain leaves alone: it grants, and nothing else. */
  ghost predicate Extends(n: Node, e: Node) {
    && e.config == n.config && e.limit == n.limit && e.paused == n.paused && e.closed == n.closed
    && e.claimed == n.claimed && e.events == n.events
    && e.q.entries == n.q.entries && e.q.owners == n.q.owners && e.q.patience == n.q.patience
    && (forall t :: t in n.active ==> t in e.active && e.active[t] == n.active[t])
    && (forall x :: x in e.waiting ==> x in n.waiting)
  }

  lemma ExtendsTransitive(a: Node, b: Node, c: Node)
    requires Extends(a, b) && Extends(b, c)
    ensures Extends(a, c)
  {
  }

  lemma GrantTicketExtends(n: Node, i: int, now: real)
    requires ValidNode(n) && 0 <= i < |n.waiting|
    ensures Extends(n, GrantTicket(n, i, now))
  {
    hide WF, Joint, InStep, Grant;
    GrantFrame(n.q, n.waiting[i].token, now);
    TicketsGranted(n.waiting, n.active, n.claimed, n.events, n.q.retired, i);
    assert n.waiting[i] in n.waiting;
    hide RemoveAt;
  }

  /** The scheduler's loop takes the best eligible ticket, until none is eligible. */
  lemma ServeStep(n: Node, now: real)
    requires ValidNode(n) && !n.closed
    ensures match Selected(n, now)
            case None => Serve(n, now) == n && forall i :: !Eligible(n, i, now)
            case Some(i) => Best(n, i, now) && Serve(n, now) == Serve(GrantTicket(n, i, now), now)
                            && ValidNode(GrantTicket(n, i, now)) && Extends(n, GrantTicket(n, i, now))
  {
    hide WF, Joint, InStep, Stuck, ReasonFor, Precedes, GrantTicket;
    NothingSelected(n, now);
    if Selected(n, now).Some? {
      var i := Selected(n, now).value;
      assert Best(n, i, now);
      assert n.waiting[i] in n.waiting;
      GrantTicketValid(n, i, now);
      GrantTicketExtends(n, i, now);
    }
  }

  lemma {:induction false} ServeExtends(n: Node, now: real)
    requires ValidNode(n)
    ensures ValidNode(Serve(n, now)) && Extends(n, Serve(n, now))
    decreases |n.waiting|
  {
    hide WF, Joint, InStep, Tickets, Stuck, ReasonFor, Precedes;
    if !n.closed {
      ServeStep(n, now);
      if Selected(n, now).Some? {
        var g := GrantTicket(n, Selected(n, now).value, now);
        ServeExtends(g, now);
        ExtendsTransitive(n, g, Serve(g, now));
      }
    }
  }

  lemma {:induction false} ServeKeepsBlocked(n: Node, t: Token, now: real)
    requires ValidNode(n) && n.q.patience > 0.0 && Blocked(n.q, t, now)
    ensures Blocked(Serve(n, now).q, t, now)
    decreases |n.waiting|
  {
    hide WF, Joint, InStep, Tickets, ReasonFor, Precedes, Blocked;
    if !n.closed {
      ServeStep(n, now);
      if Selected(n, now).Some? {
        var i := Selected(n, now).value;
        var item := n.waiting[i];
        assert Eligible(n, i, now);
        if item.token in n.claimed {
          ClaimedWaits(n, i);
          QP.GrantKeepsBlocked(n.q, item.token, t, now);
        }
        ServeKeepsBlocked(GrantTicket(n, i, now), t, now);
      }
    }
  }

  /** After the scheduler's drain no waiting ticket could still be granted. */
  lemma {:induction false} ServeIsFixpoint(n: Node, now: real)
    requires ValidNode(n) && !n.closed
    ensures forall i :: !Eligible(Serve(n, now), i, now)
    decreases |n.waiting|
  {
    hide WF, Joint, InStep, Tickets, Stuck, ReasonFor, Precedes;
    ServeStep(n, now);
    if Selected(n, now).Some? {
      assert Eligible(n, Selected(n, now).value, now);
      ServeIsFixpoint(GrantTicket(n, Selected(n, now).value, now), now);
    }
  }

  // ---- counting -----------------------------------------------------------

  lemma CountsGrow(n: Node, e: Node, lane: Lane, project: string, target: string)
    requires Extends(n, e)
    ensures Count(n, lane, project) <= Count(e, lane, project)
    ensures |OfLane(n.active, lane)| <= |OfLane(e.active, lane)|
    ensures |OfTarget(n.active, target)| <= |OfTarget(e.active, target)|
  {
    SubsetSize(OfProject(n.active, lane, project), OfProject(e.active, lane, project));
    SubsetSize(OfLane(n.active, lane), OfLane(e.active, lane));
    SubsetSize(OfTarget(n.active, target), OfTarget(e.active, target));
  }

  lemma {:induction false} SubsetSize(a: set<Token>, b: set<Token>)
    requires a <= b
    ensures |a| <= |b|
    decreases |a|
  {
    if x :| x in a {
      SubsetSize(a - {x}, b - {x});
    }
  }

  lemma ProjectAfterGrant(active: map<Token, Ticket>, item: Ticket, lane: Lane, project: string)
    requires item.token !in active
    ensures |OfProject(active[item.token := item], lane, project)|
         == |OfProject(active, lane, project)| + (if item.lane == lane && item.project == project then 1 else 0)
  {
    assert OfProject(active[item.token := item], lane, project)
        == if item.lane == lane && item.project == project then OfProject(active, lane, project) + {item.token} else OfProject(active, lane, project);
  }

  lemma LaneAfterGrant(active: map<Token, Ticket>, item: Ticket, lane: Lane)
    requires item.token !in active
    ensures |OfLane(active[item.token := item], lane)| == |OfLane(active, lane)| + (if item.lane == lane then 1 else 0)
  {
    assert OfLane(active[item.token := item], lane)
        == if item.lane == lane then OfLane(active, lane) + {item.token} else OfLane(active, lane);
  }

  lemma TargetAfterGrant(active: map<Token, Ticket>, item: Ticket, target: string)
    requires item.token !in active
    ensures |OfTarget(active[item.token := item], target)|
         == |OfTarget(active, target)| + (if item.lane.Remote? && item.target == target then 1 else 0)
  {
    assert OfTarget(active[item.token := item], target)
        == if item.lane.Remote? && item.target == target then OfTarget(active, target) + {item.token} else OfTarget(active, target);
  }

  // ---- max-min fairness ---------------------------------------------------

  /** Only a full lane holds back a ticket whose claims are free. */
  ghost predicate HeldByLane(e: Node, w: Ticket, now: real) {
    w in e.waiting && !Stuck(e, w, now) && ReasonFor(e, w) == LaneCapacity
  }

  /** Such a ticket was eligible whenever a slot of its lane was given away. */
  lemma WasEligible(n: Node, e: Node, i: int, j: int, now: real)
    requires Extends(n, e) && ValidNode(n)
    requires 0 <= i < |n.waiting| && 0 <= j < |n.waiting|
    requires ReasonFor(n, n.waiting[i]) == Free && n.waiting[i].lane == n.waiting[j].lane
    requires Blocked(n.q, n.waiting[j].token, now) ==> Blocked(e.q, n.waiting[j].token, now)
    requires HeldByLane(e, n.waiting[j], now)
    ensures Eligible(n, j, now)
  {
    hide WF, Joint, InStep, Tickets, Blocked;
    var w := n.waiting[j];
    CountsGrow(n, e, w.lane, w.project, w.target);
    hide OfProject, OfLane, OfTarget;
  }

  /** When a drain ends with a ticket of project `w.project` held back only by the full
      lane, no project that was granted a slot of that lane during the drain holds more
      than one slot above it. */
  lemma {:induction false} MaxMinFairness(n: Node, w: Ticket, p: string, now: real)
    requires ValidNode(n) && n.q.patience > 0.0
    requires HeldByLane(Serve(n, now), w, now)
    requires Count(Serve(n, now), w.lane, p) > Count(n, w.lane, p)
    ensures Count(Serve(n, now), w.lane, p) <= Count(Serve(n, now), w.lane, w.project) + 1
    decreases |n.waiting|
  {
    hide WF, Joint, InStep, Tickets, Blocked, Count, ReasonFor, Stuck;
    var e := Serve(n, now);
    ServeStep(n, now);
    var i := Selected(n, now).value;
    var g := GrantTicket(n, i, now);
    ServeExtends(g, now);
    if Count(e, w.lane, p) > Count(g, w.lane, p) {
      MaxMinFairness(g, w, p, now);
    } else {
      LastGrant(n, i, w, p, now);
    }
  }

  lemma LastGrant(n: Node, i: int, w: Ticket, p: string, now: real)
    requires ValidNode(n) && n.q.patience > 0.0 && Best(n, i, now)
    requires ValidNode(GrantTicket(n, i, now)) && Serve(n, now) == Serve(GrantTicket(n, i, now), now)
    requires Extends(n, GrantTicket(n, i, now))
    requires HeldByLane(Serve(n, now), w, now)
    requires Count(Serve(n, now), w.lane, p) > Count(n, w.lane, p)
    requires Count(Serve(n, now), w.lane, p) <= Count(GrantTicket(n, i, now), w.lane, p)
    ensures Count(Serve(n, now), w.lane, p) <= Count(Serve(n, now), w.lane, w.project) + 1
  {
    hide WF, Joint, InStep, Blocked, RemoveAt, Grant;
    var e := Serve(n, now);
    var item := n.waiting[i];
    var g := GrantTicket(n, i, now);
    assert item in n.waiting;
    ProjectAfterGrant(n.active, item, w.lane, p);
    ServeExtends(g, now);
    ExtendsTransitive(n, g, e);
    var j :| 0 <= j < |n.waiting| && n.waiting[j] == w;
    if Blocked(n.q, w.token, now) { ServeKeepsBlocked(n, w.token, now); }
    WasEligible(n, e, i, j, now);
    CountsGrow(n, e, w.lane, w.project, w.target);
    assert w.token !in g.active by { assert w in g.waiting; }
    assert i != j;
    hide Eligible, HeldByLane, OfProject, OfLane, OfTarget, TurnOf;
    assert Precedes(n, i, j);
  }

  // ---- admission bounds ---------------------------------------------------

  /** Grants stop at the limits: whatever count a drain raised is within its limit. */
  lemma {:induction false} AdmissionBounds(n: Node, lane: Lane, project: string, target: string, now: real)
    requires ValidNode(n)
    ensures var e := Serve(n, now);
            && (|OfLane(e.active, lane)| > |OfLane(n.active, lane)| ==> LaneAllows(n, lane, |OfLane(e.active, lane)|))
            && (Count(e, lane, project) > Count(n, lane, project) ==> ProjectAllows(n, lane, project, Count(e, lane, project)))
            && (|OfTarget(e.active, target)| > |OfTarget(n.active, target)| ==> TargetAllows(n, Remote, |OfTarget(e.active, target)|))
    decreases |n.waiting|
  {
    hide WF, Joint, InStep, Tickets, Stuck, Grant, OfProject, OfLane, OfTarget, Precedes;
    if !n.closed {
      ServeStep(n, now);
      if Selected(n, now).Some? {
        var i := Selected(n, now).value;
        var item := n.waiting[i];
        assert Eligible(n, i, now);
        FreshTicket(n, i);
        ProjectAfterGrant(n.active, item, lane, project);
        LaneAfterGrant(n.active, item, lane);
        TargetAfterGrant(n.active, item, target);
        AdmissionBounds(GrantTicket(n, i, now), lane, project, target, now);
      }
    }
  }

  lemma FreshTicket(n: Node, i: int)
    requires ValidNode(n) && 0 <= i < |n.waiting|
    ensures n.waiting[i].token !in n.active
  {
    hide WF, Joint, InStep;
    assert n.waiting[i] in n.waiting;
  }

  // ---- the whole drain ----------------------------------------------------

  ghost function Drained(n: Node, now: real): Node {
    n.(q := QP.Drain(n.q, now))
  }

  lemma DrainedValid(n: Node, now: real)
    requires ValidNode(n)
    ensures ValidNode(Drained(n, now)) && Extends(n, Drained(n, now))
    ensures Drained(n, now).q.relaxed == n.q.relaxed
  {
    hide WF, Tickets, Joint, InStep, QP.DrainOver, QP.Pending;
    QP.WaitingIsPending(n.q);
    QP.DrainOverFrame(n.q, n.q.waiting, now);
    var e := QP.Drain(n.q, now);
    JointDrained(n.q, e, n.waiting, n.active, n.claimed);
    SameStep(n.q, e, n.waiting, n.claimed);
  }

  lemma JointDrained(q: Queue, e: Queue, waiting: seq<Ticket>, active: map<Token, Ticket>, claimed: set<Token>)
    requires WF(q) && WF(e) && Joint(q, waiting, active, claimed)
    requires e.entries == q.entries && e.owners == q.owners
    requires forall t :: t in q.active ==> t in e.active
    requires forall t :: t in e.active && t !in q.active ==> t in q.owners
    ensures Joint(e, waiting, active, claimed)
  {
  }

  lemma SameStep(q: Queue, e: Queue, waiting: seq<Ticket>, claimed: set<Token>)
    requires InStep(q, waiting, claimed) && e.entries == q.entries
    ensures InStep(e, waiting, claimed)
  {
    assert forall a, b :: Before(e, a, b) == Before(q, a, b);
  }

  /** After a whole drain nothing that waits could be granted: a standalone waiter is
      excluded by a live conflict, a ticket by a conflict or by a limit. */
  lemma DrainAllIsFixpoint(n: Node, now: real)
    requires ValidNode(n) && !n.closed && n.q.patience > 0.0
    ensures var e := DrainAll(n, now);
            && ValidNode(e) && Extends(n, e)
            && (forall t :: t in e.q.waiting && t in e.q.owners ==> Blocked(e.q, t, now))
            && (forall x :: x in e.waiting ==> Stuck(e, x, now) || ReasonFor(e, x) != Free)
  {
    hide WF, Joint, InStep, Tickets, Blocked, ReasonFor, Stuck;
    var d := Drained(n, now);
    var e := DrainAll(n, now);
    DrainedValid(n, now);
    QP.DrainIsFixpoint(n.q, now);
    ServeExtends(d, now);
    ExtendsTransitive(n, d, e);
    ServeIsFixpoint(d, now);
    forall t | t in e.q.waiting && t in e.q.owners ensures Blocked(e.q, t, now) {
      StillWaits(d, t, now);
      ServeKeepsBlocked(d, t, now);
    }
    forall x | x in e.waiting ensures Stuck(e, x, now) || ReasonFor(e, x) != Free {
      var i :| 0 <= i < |e.waiting| && e.waiting[i] == x;
      assert !Eligible(e, i, now);
    }
  }

  lemma {:induction false} StillWaits(n: Node, t: Token, now: real)
    requires ValidNode(n) && t in Serve(n, now).q.waiting
    ensures t in n.q.waiting
    decreases |n.waiting|
  {
    hide WF, Joint, InStep, Tickets, Stuck, ReasonFor, Precedes, Grant;
    if !n.closed {
      ServeStep(n, now);
      if Selected(n, now).Some? {
        var i := Selected(n, now).value;
        GrantFrame(n.q, n.waiting[i].token, now);
        StillWaits(GrantTicket(n, i, now), t, now);
      }
    }
  }

  lemma DrainAllIsFair(n: Node, w: Ticket, p: string, now: real)
    requires ValidNode(n) && n.q.patience > 0.0
    requires HeldByLane(DrainAll(n, now), w, now)
    requires Count(DrainAll(n, now), w.lane, p) > Count(n, w.lane, p)
    ensures Count(DrainAll(n, now), w.lane, p) <= Count(DrainAll(n, now), w.lane, w.project) + 1
  {
    hide WF, Joint, InStep, Tickets, Blocked, ReasonFor, Stuck, HeldByLane;
    DrainedValid(n, now);
    MaxMinFairness(Drained(n, now), w, p, now);
  }

  // ---- an idle node makes progress ----------------------------------------

  /** With nothing running and no standalone waiter, the oldest ticket is not blocked. */
  lemma OldestTicketIsFree(n: Node, now: real)
    requires ValidNode(n) && n.waiting != [] && n.q.active == map[]
    requires forall t :: t in n.q.waiting ==> t !in n.q.owners
    ensures !Stuck(n, n.waiting[0], now)
  {
    var first := n.waiting[0];
    assert first in n.waiting;
    if first.token in n.claimed {
      forall u | u in n.q.entries ensures !Before(n.q, u, first.token) {
        assert u in n.q.waiting && u in n.claimed;
        EarliestClaimed(n, u);
      }
      assert Deps(n.q, first.token) == {};
    }
  }

  lemma EarliestClaimed(n: Node, u: Token)
    requires ValidNode(n) && n.waiting != [] && n.waiting[0].token in n.claimed
    requires u in n.claimed && u in n.q.waiting
    ensures u == n.waiting[0].token || Before(n.q, n.waiting[0].token, u)
  {
    assert u !in n.active by { assert u !in n.q.active; }
    var x :| x in n.waiting && x.token == u;
    var k :| 0 <= k < |n.waiting| && n.waiting[k] == x;
  }

  /** An idle node whose oldest ticket has any capacity in its lane grants something. */
  lemma IdleNodeGrants(n: Node, now: real)
    requires ValidNode(n) && ValidConfig(n.config) && !n.closed
    requires n.waiting != [] && n.active == map[] && n.q.active == map[]
    requires forall t :: t in n.q.waiting ==> t !in n.q.owners
    requires LaneLimit(n, n.waiting[0].lane) >= 1
    ensures DrainAll(n, now).active != map[]
  {
    hide WF, Joint, InStep, Tickets, Blocked, Precedes;
    QP.NothingToVisit(n.q, n.q.waiting, now);
    assert Drained(n, now) == n;
    OldestTicketIsFree(n, now);
    NobodyRuns(n, n.waiting[0]);
    assert Eligible(n, 0, now);
    ServeStep(n, now);
    var g := GrantTicket(n, Selected(n, now).value, now);
    ServeExtends(g, now);
    assert n.waiting[Selected(n, now).value].token in Serve(g, now).active;
  }

  lemma NobodyRuns(n: Node, item: Ticket)
    requires ValidConfig(n.config) && n.active == map[] && LaneLimit(n, item.lane) >= 1
    ensures ReasonFor(n, item) == Free
  {
    assert OfProject(n.active, item.lane, item.project) == {};
    assert OfLane(n.active, item.lane) == {} && OfTarget(n.active, item.target) == {};
  }
}
