// Whatever an entry point of the node lets run is within the limits it leaves behind.

module Admission {
  import Claims
  import opened QueueModel
  import opened Settings
  import opened SchedulerModel
  import opened SchedulerProperties
  import opened NodeRuns

  /** A count that is higher in `e` than in `n` is within the limit of `e`. */
  ghost predicate Bounded(n: Node, e: Node, lane: Lane, project: string, target: string) {
    && (|OfLane(e.active, lane)| > |OfLane(n.active, lane)| ==> LaneAllows(e, lane, |OfLane(e.active, lane)|))
    && (Count(e, lane, project) > Count(n, lane, project) ==> ProjectAllows(e, lane, project, Count(e, lane, project)))
    && (|OfTarget(e.active, target)| > |OfTarget(n.active, target)| ==> TargetAllows(e, Remote, |OfTarget(e.active, target)|))
  }

  lemma ServeBounded(n: Node, lane: Lane, project: string, target: string, now: real)
    requires ValidNode(n)
    ensures Bounded(n, Serve(n, now), lane, project, target) && Extends(n, Serve(n, now))
  {
    hide ValidNode, Serve, OfLane, OfTarget, OfProject;
    AdmissionBounds(n, lane, project, target, now);
    ServeExtends(n, now);
  }

  lemma DrainBounded(n: Node, lane: Lane, project: string, target: string, now: real)
    requires ValidNode(n)
    ensures Bounded(n, DrainAll(n, now), lane, project, target) && Extends(n, DrainAll(n, now))
  {
    hide ValidNode, Serve, OfLane, OfTarget, OfProject;
    DrainedValid(n, now);
    ServeBounded(Drained(n, now), lane, project, target, now);
    ExtendsTransitive(n, Drained(n, now), DrainAll(n, now));
  }

  /** Two drains in a row under the same limits. */
  lemma BoundedTwice(n: Node, m: Node, e: Node, lane: Lane, project: string, target: string)
    requires Bounded(n, m, lane, project, target) && Bounded(m, e, lane, project, target) && Extends(m, e)
    ensures Bounded(n, e, lane, project, target)
  {
    CountsGrow(m, e, lane, project, target);
    hide OfLane, OfTarget, OfProject;
  }

  /** A drain after something was released or reconfigured. */
  lemma BoundedAfter(n: Node, m: Node, e: Node, lane: Lane, project: string, target: string)
    requires Bounded(m, e, lane, project, target)
    requires forall t :: t in m.active ==> t in n.active && m.active[t] == n.active[t]
    ensures Bounded(n, e, lane, project, target)
  {
    hide OfLane, OfTarget, OfProject;
    FewerRun(n.active, m.active, lane, project, target);
  }

  /** A conversion counts its slot where it goes, with the old one already given up. */
  lemma ConversionBounded(n: Node, item: Ticket, claims: Option<seq<Claims.Claim>>, strict: bool, now: real,
                          lane: Lane, project: string, target: string)
    requires item.token in n.active
    requires claims.Some? ==> item.token !in n.q.entries && item.token !in n.q.retired
    requires Chosen(n, item, claims, strict, now)
    ensures Bounded(n, Converted(n, item, claims, strict, now), lane, project, target)
  {
    hide Blocked, Enqueue, Grant, Eligible, Precedes, Chosen, OfLane, OfTarget, OfProject;
    ChosenIsFree(n, item, claims, strict, now);
    var rest := n.active - {item.token};
    assert n.active[item.token := item] == rest[item.token := item];
    ProjectAfterGrant(rest, item, lane, project);
    LaneAfterGrant(rest, item, lane);
    TargetAfterGrant(rest, item, target);
    FewerRun(n.active, rest, lane, project, target);
  }

  lemma FewerRun(active: map<Token, Ticket>, rest: map<Token, Ticket>, lane: Lane, project: string, target: string)
    requires forall t :: t in rest ==> t in active && rest[t] == active[t]
    ensures |OfProject(rest, lane, project)| <= |OfProject(active, lane, project)|
    ensures |OfLane(rest, lane)| <= |OfLane(active, lane)| && |OfTarget(rest, target)| <= |OfTarget(active, target)|
  {
    SubsetSize(OfProject(rest, lane, project), OfProject(active, lane, project));
    SubsetSize(OfLane(rest, lane), OfLane(active, lane));
    SubsetSize(OfTarget(rest, target), OfTarget(active, target));
  }

  /** Whatever step the node takes, grants and conversions alike: a lane, project or target
      that runs more afterwards runs no more than its limit. */
  lemma StepAdmits(n: Node, s: Step, lane: Lane, project: string, target: string)
    requires ValidNode(n) && Legal(n, s)
    ensures Bounded(n, Apply(n, s), lane, project, target)
  {
    hide ValidNode, DrainAll, Enqueue, Grant, Discard, Switch, Chosen, Blocked, LiveTurns, WithoutToken, Bounded, Converted, Refused;
    match s
    case Submit(ticket, claims, strict, now) =>
      QueuedValid(n, ticket, claims, strict);
      Drains(n, Queued(n, ticket, claims, strict), lane, project, target, now);
      Unchanged(n, n, lane, project, target);
    case Convert(replace, item, claims, strict, locked, now) =>
      Unchanged(n, n, lane, project, target);
      if Convertible(n, replace, item, claims, locked) {
        FreshForClaims(n, replace, item, claims, locked);
        RefusedKeeps(n, item, claims, strict);
        Unchanged(n, Refused(n, item, claims, strict), lane, project, target);
        if Chosen(n, item, claims, strict, now) { ConversionBounded(n, item, claims, strict, now, lane, project, target); }
      }
    case Finish(token, now) =>
      FinishedIsReleased(n, token);
      ReleasedValid(n, token);
      Drains(n, Released(n, token), lane, project, target, now);
    case Configure(config, limit, now) =>
      SwitchedValid(n, config, limit);
      var c := n.(config := config, limit := limit, q := Switch(n.q, config.relaxed));
      DrainAllValid(c, now);
      DrainBounded(c, lane, project, target, now);
      DrainBounded(DrainAll(c, now), lane, project, target, now);
      BoundedTwice(c, DrainAll(c, now), DrainAll(DrainAll(c, now), now), lane, project, target);
      BoundedAfter(n, c, DrainAll(DrainAll(c, now), now), lane, project, target);
    case Pressure(limit, paused, now) =>
      SettingsValid(n, n.(limit := limit, paused := paused));
      Drains(n, n.(limit := limit, paused := paused), lane, project, target, now);
    case Close(now) =>
      SettingsValid(n, n.(closed := true));
      Drains(n, n.(closed := true), lane, project, target, now);
    case Join(token, op, held, bounded, strict, now) =>
      JoinedValid(n, token, op, held, bounded && !strict);
      Drains(n, n.(q := Enqueue(n.q, token, op, held, bounded && !strict, true)), lane, project, target, now);
    case TryJoin(token, op, held, bounded, strict, locked, now) =>
      Unchanged(n, Apply(n, s), lane, project, target);
    case Part(token, now) =>
      PartedValid(n, token);
      Drains(n, n.(q := Discard(n.q, token)), lane, project, target, now);
    case Wake(now) => Drains(n, n, lane, project, target, now);
  }

  lemma Drains(n: Node, m: Node, lane: Lane, project: string, target: string, now: real)
    requires ValidNode(m) && forall t :: t in m.active ==> t in n.active && m.active[t] == n.active[t]
    ensures Bounded(n, DrainAll(m, now), lane, project, target)
  {
    hide ValidNode, DrainAll, Bounded;
    DrainBounded(m, lane, project, target, now);
    BoundedAfter(n, m, DrainAll(m, now), lane, project, target);
  }

  lemma Unchanged(n: Node, e: Node, lane: Lane, project: string, target: string)
    requires e.active == n.active
    ensures Bounded(n, e, lane, project, target)
  {
  }

  lemma RefusedKeeps(n: Node, item: Ticket, claims: Option<seq<Claims.Claim>>, strict: bool)
    requires claims.Some? ==> item.token !in n.q.entries && item.token !in n.q.retired
    ensures Refused(n, item, claims, strict).active == n.active
  {
    hide Enqueue, Discard;
  }

  /** So it is at every step of every run. */
  lemma RunAdmits(states: seq<Node>, steps: seq<Step>, i: nat, lane: Lane, project: string, target: string)
    requires Run(states, steps) && i < |steps|
    ensures Bounded(states[i], states[i+1], lane, project, target)
  {
    hide ValidNode, Apply, Legal, Bounded;
    RunValid(states, steps, i);
    StepOf(states, steps, i);
    StepAdmits(states[i], steps[i], lane, project, target);
  }
}
