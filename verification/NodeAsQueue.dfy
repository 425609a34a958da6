// The joint node never does more to the resource queue than a legal run of the queue,
// so every theorem about queue runs (bounded overtaking, strict order) speaks of the node.

module NodeAsQueue {
  import opened Claims
  import opened QueueModel
  import opened Settings
  import opened SchedulerModel
  import opened SchedulerProperties
  import opened NodeRuns
  import QP = QueueProperties

  /** A legal run of the queue from `q` to `q'`; only a reconfiguration switches semantics
      and only the operation's own token leaves. */
  ghost predicate Connects(q: Queue, states: seq<Queue>, steps: seq<QP.Step>, q': Queue, switching: bool, leaving: set<Token>) {
    && QP.Run(states, steps) && states[0] == q && states[|steps|] == q'
    && (forall s :: s in steps && s.Semantics? ==> switching)
    && (forall s :: s in steps && s.Leave? ==> s.t in leaving)
  }

  ghost predicate Reachable(q: Queue, q': Queue, switching: bool, leaving: set<Token>) {
    exists states, steps :: Connects(q, states, steps, q', switching, leaving)
  }

  lemma Stays(q: Queue, switching: bool, leaving: set<Token>)
    requires WF(q)
    ensures Reachable(q, q, switching, leaving)
  {
    hide WF;
    assert Connects(q, [q], [], q, switching, leaving);
  }

  lemma OneStep(q: Queue, s: QP.Step, q': Queue, switching: bool, leaving: set<Token>)
    requires WF(q) && QP.Next(q, s, q') && (s.Semantics? ==> switching) && (s.Leave? ==> s.t in leaving)
    ensures Reachable(q, q', switching, leaving)
  {
    hide WF, QP.Next;
    assert QP.Run([q, q'], [s]);
    assert Connects(q, [q, q'], [s], q', switching, leaving);
  }

  lemma Joined(a: seq<Queue>, x: seq<QP.Step>, b: seq<Queue>, y: seq<QP.Step>)
    requires QP.Run(a, x) && QP.Run(b, y) && a[|x|] == b[0]
    ensures QP.Run(a + b[1..], x + y)
    ensures (a + b[1..])[0] == a[0] && (a + b[1..])[|x + y|] == b[|y|]
  {
    hide WF, QP.Next;
    var c, z := a + b[1..], x + y;
    forall i | 0 <= i < |z| ensures QP.Next(c[i], z[i], c[i+1]) {
      if i < |x| {
        assert QP.Next(a[i], x[i], a[i+1]);
      } else {
        assert QP.Next(b[i-|x|], y[i-|x|], b[i-|x|+1]);
      }
    }
  }

  lemma Then(q: Queue, m: Queue, e: Queue, switching: bool, leaving: set<Token>)
    requires Reachable(q, m, switching, leaving) && Reachable(m, e, switching, leaving)
    ensures Reachable(q, e, switching, leaving)
  {
    hide QP.Next, WF;
    var a, x :| Connects(q, a, x, m, switching, leaving);
    var b, y :| Connects(m, b, y, e, switching, leaving);
    Joined(a, x, b, y);
    assert Connects(q, a + b[1..], x + y, e, switching, leaving);
  }

  lemma {:induction false} ServeReaches(n: Node, now: real, switching: bool, leaving: set<Token>)
    requires ValidNode(n)
    ensures Reachable(n.q, Serve(n, now).q, switching, leaving)
    decreases |n.waiting|
  {
    hide WF, Joint, InStep, Tickets, ReasonFor, Precedes, Blocked, Grant, Reachable;
    Stays(n.q, switching, leaving);
    if !n.closed {
      ServeStep(n, now);
      if Selected(n, now).Some? {
        var i := Selected(n, now).value;
        var item := n.waiting[i];
        assert Eligible(n, i, now);
        var g := GrantTicket(n, i, now);
        ServeReaches(g, now, switching, leaving);
        if item.token in n.claimed {
          ClaimedWaits(n, i);
          OneStep(n.q, QP.Admit(item.token, now), g.q, switching, leaving);
          Then(n.q, g.q, Serve(g, now).q, switching, leaving);
        }
      }
    }
  }

  lemma DrainAllReaches(n: Node, now: real, switching: bool, leaving: set<Token>)
    requires ValidNode(n)
    ensures Reachable(n.q, DrainAll(n, now).q, switching, leaving)
  {
    hide WF, Joint, InStep, Tickets, QP.Run;
    QP.WaitingIsPending(n.q);
    var states, steps := QP.DrainIsRun(n.q, n.q.waiting, now);
    assert Connects(n.q, states, steps, QP.Drain(n.q, now), switching, leaving);
    DrainedValid(n, now);
    ServeReaches(Drained(n, now), now, switching, leaving);
    Then(n.q, QP.Drain(n.q, now), DrainAll(n, now).q, switching, leaving);
  }

  /** The tokens whose claims a step gives back. */
  function Leaving(s: Step): set<Token> {
    match s
    case Finish(token, _) => {token}
    case Part(token, _) => {token}
    case Convert(_, item, _, _, _, _) => {item.token}
    case TryJoin(token, _, _, _, _, _, _) => {token}
    case _ => {}
  }

  lemma TryReaches(q: Queue, token: Token, op: string, held: seq<Claim>, bounded: bool, now: real, switching: bool, leaving: set<Token>)
    requires WF(q) && token !in q.entries && token !in q.retired && token in leaving
    ensures var e := Enqueue(q, token, op, held, bounded, false);
            && Reachable(q, Discard(e, token), switching, leaving)
            && (!Blocked(e, token, now) ==> Reachable(q, Grant(e, token, now), switching, leaving))
  {
    hide Blocked, Reachable, Without;
    var e := Enqueue(q, token, op, held, bounded, false);
    EnqueueWF(q, token, op, held, bounded, false);
    OneStep(q, QP.Enter(token, op, held, bounded, false), e, switching, leaving);
    OneStep(e, QP.Leave(token), Discard(e, token), switching, leaving);
    Then(q, e, Discard(e, token), switching, leaving);
    if !Blocked(e, token, now) {
      OneStep(e, QP.Admit(token, now), Grant(e, token, now), switching, leaving);
      Then(q, e, Grant(e, token, now), switching, leaving);
    }
  }

  /** Each entry point of the node is a legal run of the resource queue. */
  lemma StepReaches(n: Node, s: Step)
    requires ValidNode(n) && Legal(n, s)
    ensures Reachable(n.q, Apply(n, s).q, s.Configure?, Leaving(s))
  {
    hide ValidNode, DrainAll, Chosen, Blocked, LiveTurns, WithoutToken, Reachable, Enqueue, Discard, Switch, Grant, Converted, Refused;
    var w, l := s.Configure?, Leaving(s);
    QueueWF(n);
    Stays(n.q, w, l);
    match s
    case Submit(ticket, claims, strict, now) =>
      var m := Queued(n, ticket, claims, strict);
      QueuedValid(n, ticket, claims, strict);
      if claims.Some? {
        EnterReaches(n.q, ticket.token, ticket.op, claims.value, ticket.lane.Read? && !strict, false, w, l);
      }
      DrainAllReaches(m, now, w, l);
      Then(n.q, m.q, DrainAll(m, now).q, w, l);
    case Convert(replace, item, claims, strict, locked, now) =>
      if Convertible(n, replace, item, claims, locked) {
        FreshForClaims(n, replace, item, claims, locked);
        ConversionReaches(n, item, claims, strict, now, w, l);
      }
    case Finish(token, now) =>
      FinishedIsReleased(n, token);
      ReleasedValid(n, token);
      LeaveReaches(n.q, token, w, l);
      DrainAllReaches(Released(n, token), now, w, l);
      Then(n.q, Released(n, token).q, DrainAll(Released(n, token), now).q, w, l);
    case Configure(config, limit, now) =>
      var c := n.(config := config, limit := limit, q := Switch(n.q, config.relaxed));
      SwitchedValid(n, config, limit);
      SwitchReaches(n.q, config.relaxed, l);
      DrainAllValid(c, now);
      DrainAllReaches(c, now, w, l);
      DrainAllReaches(DrainAll(c, now), now, w, l);
      Then(n.q, c.q, DrainAll(c, now).q, w, l);
      Then(n.q, DrainAll(c, now).q, DrainAll(DrainAll(c, now), now).q, w, l);
    case Pressure(limit, paused, now) =>
      SettingsValid(n, n.(limit := limit, paused := paused));
      DrainAllReaches(n.(limit := limit, paused := paused), now, w, l);
    case Close(now) =>
      SettingsValid(n, n.(closed := true));
      DrainAllReaches(n.(closed := true), now, w, l);
    case Join(token, op, held, bounded, strict, now) =>
      var m := n.(q := Enqueue(n.q, token, op, held, bounded && !strict, true));
      JoinedValid(n, token, op, held, bounded && !strict);
      EnterReaches(n.q, token, op, held, bounded && !strict, true, w, l);
      DrainAllReaches(m, now, w, l);
      Then(n.q, m.q, DrainAll(m, now).q, w, l);
    case TryJoin(token, op, held, bounded, strict, locked, now) =>
      TryReaches(n.q, token, op, held, bounded && !strict, now, w, l);
    case Part(token, now) =>
      PartedValid(n, token);
      LeaveReaches(n.q, token, w, l);
      DrainAllReaches(n.(q := Discard(n.q, token)), now, w, l);
      Then(n.q, Discard(n.q, token), DrainAll(n.(q := Discard(n.q, token)), now).q, w, l);
    case Wake(now) => DrainAllReaches(n, now, w, l);
  }

  lemma EnterReaches(q: Queue, token: Token, op: string, held: seq<Claim>, bounded: bool, owner: bool, switching: bool, leaving: set<Token>)
    requires WF(q) && token !in q.entries && token !in q.retired
    ensures Reachable(q, Enqueue(q, token, op, held, bounded, owner), switching, leaving)
  {
    OneStep(q, QP.Enter(token, op, held, bounded, owner), Enqueue(q, token, op, held, bounded, owner), switching, leaving);
  }

  lemma LeaveReaches(q: Queue, token: Token, switching: bool, leaving: set<Token>)
    requires WF(q) && token in leaving
    ensures Reachable(q, Discard(q, token), switching, leaving)
  {
    OneStep(q, QP.Leave(token), Discard(q, token), switching, leaving);
  }

  lemma SwitchReaches(q: Queue, relaxed: bool, leaving: set<Token>)
    requires WF(q)
    ensures Reachable(q, Switch(q, relaxed), true, leaving)
  {
    OneStep(q, QP.Semantics(relaxed), Switch(q, relaxed), true, leaving);
  }

  lemma ConversionReaches(n: Node, item: Ticket, claims: Option<seq<Claim>>, strict: bool, now: real, switching: bool, leaving: set<Token>)
    requires ValidNode(n) && item.token in leaving
    requires claims.Some? ==> item.token !in n.q.entries && item.token !in n.q.retired
    ensures Reachable(n.q, Refused(n, item, claims, strict).q, switching, leaving)
    ensures Chosen(n, item, claims, strict, now) ==> Reachable(n.q, Converted(n, item, claims, strict, now).q, switching, leaving)
  {
    hide WF, Tickets, Joint, InStep, Blocked, Enqueue, Grant, Discard, ReasonFor, Precedes, Reachable;
    Stays(n.q, switching, leaving);
    if claims.Some? {
      TryReaches(n.q, item.token, item.op, claims.value, item.lane.Read? && !strict, now, switching, leaving);
      if Chosen(n, item, claims, strict, now) { ChosenIsFree(n, item, claims, strict, now); }
    }
  }

  // ---- bounded overtaking at the node ---------------------------------------

  lemma Widen(q: Queue, q': Queue, switching: bool, leaving: set<Token>, more: set<Token>)
    requires Reachable(q, q', switching, leaving) && leaving <= more
    ensures Reachable(q, q', switching, more)
  {
    hide QP.Run;
    var states, steps :| Connects(q, states, steps, q', switching, leaving);
    assert Connects(q, states, steps, q', switching, more);
  }

  lemma {:induction false} RunReaches(states: seq<Node>, steps: seq<Step>, i: nat, j: nat, leaving: set<Token>)
    requires Run(states, steps) && i <= j <= |steps|
    requires forall k :: i <= k < j ==> !steps[k].Configure? && Leaving(steps[k]) <= leaving
    ensures Reachable(states[i].q, states[j].q, false, leaving)
    decreases j
  {
    hide ValidNode, Apply, Legal, Reachable;
    RunValid(states, steps, i);
    QueueWF(states[i]);
    Stays(states[i].q, false, leaving);
    if i < j {
      RunReaches(states, steps, i, j - 1, leaving);
      RunValid(states, steps, j - 1);
      StepOf(states, steps, j - 1);
      StepReaches(states[j-1], steps[j-1]);
      Widen(states[j-1].q, states[j].q, false, Leaving(steps[j-1]), leaving);
      Then(states[i].q, states[j-1].q, states[j].q, false, leaving);
    }
  }

  /** Once the last owner that excused the overtaking of `u` has left, no later ticket or
      operation in conflict with `u` can be granted before it, at any reading of the clock,
      until `u` itself leaves or the node is reconfigured. */
  lemma ExhaustedGate(states: seq<Node>, steps: seq<Step>, i: nat, j: nat, u: Token, g: Token, now: real)
    requires Run(states, steps) && i <= j <= |steps|
    requires forall k :: i <= k < j ==> !steps[k].Configure? && u !in Leaving(steps[k])
    requires u in states[i].q.gates && states[i].q.gates[u] !! states[i].q.active.Keys
    requires g in states[j].q.waiting && u in states[j].q.waiting
    requires Before(states[j].q, u, g) && Clash(states[j].q, g, u)
    ensures Blocked(states[j].q, g, now)
  {
    hide ValidNode, Apply, Legal, Clash, WF;
    var leaving := set k, t | i <= k < j && t in Leaving(steps[k]) :: t;
    RunReaches(states, steps, i, j, leaving);
    var qs: seq<Queue>, ss: seq<QP.Step> :| Connects(states[i].q, qs, ss, states[j].q, false, leaving);
    forall k | 0 <= k < |ss| ensures !ss[k].Semantics? && ss[k] != QP.Leave(u) {
      assert ss[k] in ss;
    }
    QP.GateStays(qs, ss, 0, |ss|, u);
    RunValid(states, steps, j);
    QueueWF(states[j]);
    if !Blocked(states[j].q, g, now) {
      var r := QP.OvertakeNeedsRoot(states[j].q, g, u, now);
    }
  }
}
