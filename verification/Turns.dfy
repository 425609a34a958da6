// Turns: among equally loaded projects the one served longest ago goes first.

module Turns {
  import opened QueueModel
  import opened Settings
  import opened SchedulerModel
  import opened SchedulerProperties
  import opened NodeRuns

  /** No turn is numbered ahead of the last grant. */
  ghost predicate InSequence(n: Node) {
    forall key :: key in n.turn ==> n.turn[key] <= n.sequence
  }

  /** The selected ticket's project has waited for a turn at least as long as any other
      eligible one with the same load, and yields to all of them afterwards. */
  lemma LongestWaitFirst(n: Node, i: int, j: int, now: real)
    requires ValidNode(n) && InSequence(n) && Best(n, i, now) && Eligible(n, j, now)
    requires var a, b := n.waiting[i], n.waiting[j];
             (a.lane, a.project) != (b.lane, b.project) && Count(n, a.lane, a.project) == Count(n, b.lane, b.project)
    ensures var a, b, g := n.waiting[i], n.waiting[j], GrantTicket(n, i, now);
            && TurnOf(n, a.lane, a.project) <= TurnOf(n, b.lane, b.project)
            && TurnOf(g, a.lane, a.project) > TurnOf(g, b.lane, b.project)
            && Count(g, a.lane, a.project) == Count(g, b.lane, b.project) + 1
  {
    hide Stuck, ReasonFor, Grant, OfProject, RemoveAt, ValidNode;
    FreshTicket(n, i);
    ProjectAfterGrant(n.active, n.waiting[i], n.waiting[i].lane, n.waiting[i].project);
    ProjectAfterGrant(n.active, n.waiting[i], n.waiting[j].lane, n.waiting[j].project);
  }

  /** Of tickets alike in load and turn, such as two of one project, the earlier goes first. */
  lemma EarliestFirst(n: Node, i: int, j: int, now: real)
    requires Best(n, i, now) && Eligible(n, j, now)
    requires n.waiting[i].lane == n.waiting[j].lane && n.waiting[i].project == n.waiting[j].project
    ensures i <= j
  {
    hide Stuck, ReasonFor, OfProject;
    if i != j { assert Precedes(n, i, j); }
  }

  lemma {:induction false} ServeInSequence(n: Node, now: real)
    requires InSequence(n)
    ensures InSequence(Serve(n, now))
    decreases |n.waiting|
  {
    hide Stuck, ReasonFor, Precedes, Grant, RemoveAt;
    if !n.closed && Selected(n, now).Some? {
      var i := Selected(n, now).value;
      assert Best(n, i, now) && Eligible(n, i, now);
      if n.waiting[i].token in n.events {
        RemovedMembers(n.waiting, i);
        ServeInSequence(GrantTicket(n, i, now), now);
      }
    }
  }

  lemma StepInSequence(n: Node, s: Step)
    requires ValidNode(n) && Legal(n, s) && InSequence(n)
    ensures InSequence(Apply(n, s))
  {
    hide ValidNode, Serve, Enqueue, Grant, Discard, Switch, Chosen, Blocked, WithoutToken, SchedulerProperties.QP.Drain;
    match s
    case Submit(ticket, claims, strict, now) =>
      if Accepts(n, ticket.project) { DrainAllInSequence(Queued(n, ticket, claims, strict), now); }
    case Convert(replace, item, claims, strict, locked, now) =>
      if Convertible(n, replace, item, claims, locked) { FreshForClaims(n, replace, item, claims, locked); }
    case Finish(token, now) => DrainAllInSequence(Released(n, token), now);
    case Configure(config, limit, now) =>
      var c := n.(config := config, limit := limit, q := Switch(n.q, config.relaxed));
      DrainAllInSequence(c, now);
      DrainAllInSequence(DrainAll(c, now), now);
    case Pressure(limit, paused, now) => DrainAllInSequence(n.(limit := limit, paused := paused), now);
    case Close(now) => DrainAllInSequence(n.(closed := true), now);
    case Join(token, op, held, bounded, strict, now) =>
      DrainAllInSequence(n.(q := Enqueue(n.q, token, op, held, bounded && !strict, true)), now);
    case TryJoin(token, op, held, bounded, strict, locked, now) =>
    case Part(token, now) => DrainAllInSequence(n.(q := Discard(n.q, token)), now);
    case Wake(now) => DrainAllInSequence(n, now);
  }

  lemma DrainAllInSequence(n: Node, now: real)
    requires InSequence(n)
    ensures InSequence(DrainAll(n, now))
  {
    hide Serve;
    ServeInSequence(Drained(n, now), now);
  }

  /** So it is in every state of every run that begins with no turns taken. */
  lemma {:induction false} RunInSequence(states: seq<Node>, steps: seq<Step>, i: nat)
    requires Run(states, steps) && i <= |steps| && InSequence(states[0])
    ensures InSequence(states[i])
    decreases i
  {
    hide ValidNode, Apply, Legal, InSequence;
    if i > 0 {
      RunInSequence(states, steps, i - 1);
      RunValid(states, steps, i - 1);
      StepOf(states, steps, i - 1);
      StepInSequence(states[i-1], steps[i-1]);
    }
  }
}
