// What the entry points of the node do, spelled out on its fields.

module SchedulerMeaning {
  import opened Claims
  import opened QueueModel
  import opened Settings
  import opened SchedulerModel
  import opened SchedulerProperties
  import opened NodeRuns
  import QP = QueueProperties
  import QM = QueueMeaning

  /** A ticket nobody should take is refused without effect: no project, a node that is
      closing, or 1024 tickets waiting already. Any other is known from then on, waiting or
      running, and may be overtaking only as a reader that did not ask for strict order. */
  lemma SubmissionMeans(n: Node, ticket: Ticket, claims: Option<seq<Claim>>, strict: bool, now: real)
    requires ValidNode(n) && Fresh(n, ticket.token)
    ensures var e := Apply(n, Submit(ticket, claims, strict, now));
            if ticket.project == "" || n.closed || |n.waiting| >= 1024 then e == n
            else
              && (ticket in e.waiting || (ticket.token in e.active && e.active[ticket.token] == ticket))
              && (ticket.token in e.claimed <==> claims.Some?)
              && (claims.Some? ==> ticket.token in e.q.entries && e.q.entries[ticket.token].claims == claims.value && e.q.entries[ticket.token].op == ticket.op)
              && (ticket.token in e.q.bounded <==> claims.Some? && ticket.lane == Read && !strict)
  {
    hide ValidNode, Serve, Drained;
    if !(ticket.project == "" || n.closed || |n.waiting| >= 1024) {
      QueuedValid(n, ticket, claims, strict);
      QueuedMeans(n, ticket, claims, strict);
      var m := Queued(n, ticket, claims, strict);
      DrainAllKeeps(m, ticket, now);
    }
  }

  lemma QueuedMeans(n: Node, ticket: Ticket, claims: Option<seq<Claim>>, strict: bool)
    requires ValidNode(n) && Fresh(n, ticket.token)
    ensures var m := Queued(n, ticket, claims, strict);
            && ticket in m.waiting && (ticket.token in m.claimed <==> claims.Some?)
            && (claims.Some? ==> ticket.token in m.q.entries && m.q.entries[ticket.token].claims == claims.value && m.q.entries[ticket.token].op == ticket.op)
            && (ticket.token in m.q.bounded <==> claims.Some? && ticket.lane == Read && !strict)
  {
    hide InStep;
    Known(n);
    assert ticket == (n.waiting + [ticket])[|n.waiting|];
  }

  /** A drain moves a ticket from waiting to running or leaves it waiting, and nothing else of it changes. */
  lemma DrainAllKeeps(n: Node, ticket: Ticket, now: real)
    requires ValidNode(n) && ticket in n.waiting
    ensures var e := DrainAll(n, now);
            && (ticket in e.waiting || (ticket.token in e.active && e.active[ticket.token] == ticket))
            && e.claimed == n.claimed && e.q.entries == n.q.entries && e.q.bounded == n.q.bounded
  {
    hide ValidNode, Serve;
    DrainedValid(n, now);
    ServeMoves(Drained(n, now), ticket, now);
    DrainBounds(n.q, now);
  }

  lemma DrainBounds(q: Queue, now: real)
    ensures QP.Drain(q, now).bounded == q.bounded
  {
    DrainOverBounds(q, q.waiting, now);
  }

  lemma {:induction false} DrainOverBounds(q: Queue, toks: seq<Token>, now: real)
    ensures QP.DrainOver(q, toks, now).bounded == q.bounded
    decreases |toks|
  {
    if toks != [] { DrainOverBounds(QP.Visit(q, toks[0], now), toks[1..], now); }
  }

  lemma {:induction false} ServeMoves(n: Node, ticket: Ticket, now: real)
    requires ValidNode(n)
    ensures var e := Serve(n, now);
            && e.claimed == n.claimed && e.q.entries == n.q.entries && e.q.bounded == n.q.bounded
            && (ticket in n.waiting ==> ticket in e.waiting || (ticket.token in e.active && e.active[ticket.token] == ticket))
    decreases |n.waiting|
  {
    hide WF, Joint, InStep, Tickets, Stuck, ReasonFor, Precedes;
    if !n.closed {
      ServeStep(n, now);
      if Selected(n, now).Some? {
        var i := Selected(n, now).value;
        var g := GrantTicket(n, i, now);
        ServeMoves(g, ticket, now);
        if ticket in n.waiting && ticket !in g.waiting {
          RemovedMembers(n.waiting, i);
          ServeExtends(g, now);
        }
      }
    }
  }

  /** A released ticket leaves nothing behind: neither a slot nor a place in line nor a claim. */
  lemma ReleaseMeans(n: Node, token: Token, now: real)
    requires ValidNode(n)
    ensures var e := Apply(n, Finish(token, now));
            && token !in e.active && (forall x :: x in e.waiting ==> x.token != token)
            && token !in e.claimed && token !in e.events && (Ticketed(n, token) ==> token !in e.q.entries)
  {
    hide WF, Serve, WithoutToken, LiveTurns;
    var r := Released(n, token);
    FinishedIsReleased(n, token);
    ReleasedValid(n, token);
    DrainedValid(r, now);
    ServeExtends(Drained(r, now), now);
    ServeOnlyWaiting(Drained(r, now), token, now);
    ReleasedMeans(n, token);
  }

  lemma ReleasedMeans(n: Node, token: Token)
    requires ValidNode(n)
    ensures Ticketed(n, token) ==> token !in Released(n, token).q.entries
  {
    hide WF, InStep, LiveTurns;
  }

  /** Only waiting tickets begin to run. */
  lemma {:induction false} ServeOnlyWaiting(n: Node, token: Token, now: real)
    requires ValidNode(n) && token !in n.active && forall x :: x in n.waiting ==> x.token != token
    ensures token !in Serve(n, now).active
    decreases |n.waiting|
  {
    hide WF, Joint, InStep, Tickets, Stuck, ReasonFor, Precedes;
    if !n.closed {
      ServeStep(n, now);
      if Selected(n, now).Some? {
        var i := Selected(n, now).value;
        assert Eligible(n, i, now);
        assert n.waiting[i] in n.waiting;
        ServeOnlyWaiting(GrantTicket(n, i, now), token, now);
      }
    }
  }

  /** A project that still has a ticket keeps its turn through a release, the others begin anew. */
  lemma TurnsOutlive(n: Node, token: Token, lane: Lane, project: string)
    ensures var r := Released(n, token);
            && ((lane, project) in r.turn <==>
                  (lane, project) in n.turn &&
                  ((exists x :: x in n.waiting && x.token != token && x.lane == lane && x.project == project) ||
                   (exists t :: t in n.active && t != token && n.active[t].lane == lane && n.active[t].project == project)))
            && ((lane, project) in r.turn ==> r.turn[(lane, project)] == n.turn[(lane, project)])
  {
    hide Discard, WithoutToken;
    var r := Released(n, token);
    if (lane, project) in n.turn {
      if x :| x in n.waiting && x.token != token && x.lane == lane && x.project == project {
        assert x in r.waiting && (x.lane, x.project) == (lane, project);
      }
      if t :| t in n.active && t != token && n.active[t].lane == lane && n.active[t].project == project {
        assert t in r.active && (r.active[t].lane, r.active[t].project) == (lane, project);
      }
    }
  }

  /** A conversion that is granted satisfied every one of its guards. */
  lemma ConversionMeans(n: Node, replace: Ticket, item: Ticket, claims: Option<seq<Claim>>, strict: bool, locked: bool, now: real)
    requires ValidNode(n) && item.token == replace.token
    requires Granted(n, replace, item, claims, strict, locked, now)
    ensures !locked && !n.closed && |n.waiting| < 1024 && item.project != ""
    ensures replace.token in n.active && n.active[replace.token] == replace && replace.op == item.op
    ensures forall x :: x in n.waiting ==> x.op != replace.op
    ensures forall t :: t in n.active && t != replace.token ==> n.active[t].op != replace.op
    ensures claims.Some? ==> replace.token !in n.claimed && forall t :: t in n.q.entries ==> n.q.entries[t].op != item.op
    ensures var e := Apply(n, Convert(replace, item, claims, strict, locked, now));
            && e.active == n.active[item.token := item] && e.waiting == n.waiting
            && e.claimed == (if claims.Some? then n.claimed + {item.token} else n.claimed)
            && (claims.Some? ==> item.token in e.q.active && e.q.active[item.token] == now && e.q.entries[item.token].claims == claims.value)
            && (claims.Some? ==> (item.token in e.q.bounded <==> item.lane == Read && !strict))
            && (item.lane, item.project) in e.turn && e.turn[(item.lane, item.project)] == e.sequence == n.sequence + 1
  {
    FreshForClaims(n, replace, item, claims, locked);
    if claims.Some? { UnheldNotBounded(n, item.token); }
    hide ValidNode, Chosen;
  }

  lemma UnheldNotBounded(n: Node, t: Token)
    requires ValidNode(n) && t !in n.q.entries
    ensures t !in n.q.bounded
  {
  }

  /** A closed node lets nothing new run: no ticket, no conversion. */
  lemma ClosedNodeAdmitsNothing(n: Node, s: Step, t: Token)
    requires ValidNode(n) && Legal(n, s) && n.closed && t in Apply(n, s).active
    ensures t in n.active && Apply(n, s).active[t] == n.active[t]
  {
    hide ValidNode, Chosen, Enqueue, Grant, Discard, Switch, Blocked, WithoutToken, LiveTurns, QP.Drain;
  }

  /** New settings are in force at once. */
  lemma SettingsMean(n: Node, config: Config, limit: int, now: real)
    requires ValidNode(n)
    ensures var e := Apply(n, Configure(config, limit, now));
            e.config == config && e.limit == limit && e.paused == n.paused && e.q.relaxed == config.relaxed && e.q.entries == n.q.entries
  {
    hide ValidNode, Serve, Drained;
    var c := n.(config := config, limit := limit, q := Switch(n.q, config.relaxed));
    SwitchedValid(n, config, limit);
    DrainedKeeps(c, now);
    DrainAllValid(c, now);
    DrainedKeeps(DrainAll(c, now), now);
  }

  lemma DrainedKeeps(n: Node, now: real)
    requires ValidNode(n)
    ensures var e := DrainAll(n, now);
            e.config == n.config && e.limit == n.limit && e.paused == n.paused && e.q.relaxed == n.q.relaxed && e.q.entries == n.q.entries
  {
    hide ValidNode, Serve;
    DrainedValid(n, now);
    ServeExtends(Drained(n, now), now);
    ServeMode(Drained(n, now), now);
  }

  lemma {:induction false} ServeMode(n: Node, now: real)
    requires ValidNode(n)
    ensures Serve(n, now).q.relaxed == n.q.relaxed
    decreases |n.waiting|
  {
    hide WF, Joint, InStep, Tickets, Stuck, ReasonFor, Precedes;
    if !n.closed {
      ServeStep(n, now);
      if Selected(n, now).Some? { ServeMode(GrantTicket(n, Selected(n, now).value, now), now); }
    }
  }

  /** A standalone operation that will not wait is admitted exactly when nobody holds the
      node's lock, its operation is new, and its claims may be granted at once. */
  lemma TryJoinMeans(n: Node, token: Token, op: string, held: seq<Claim>, bounded: bool, strict: bool, locked: bool, now: real)
    requires ValidNode(n) && Fresh(n, token)
    ensures var e := Apply(n, TryJoin(token, op, held, bounded, strict, locked, now));
            var q := Enqueue(n.q, token, op, held, bounded && !strict, false);
            token in e.q.active <==> !locked && (forall t :: t in n.q.entries ==> n.q.entries[t].op != op) && QM.MayPass(q, token, now)
  {
    hide WF, Tickets, Joint, InStep, Blocked, QM.MayPass, Enqueue, Grant, Discard, DrainAll, Queued, Released, Switch, Convertible, Converted, Refused, Chosen;
    var q := Enqueue(n.q, token, op, held, bounded && !strict, false);
    EnqueueWF(n.q, token, op, held, bounded && !strict, false);
    EnqueueFrame(n.q, token, op, held, bounded && !strict, false);
    NotActive(n.q, token);
    QM.NotBlockedMeans(q, token, now);
    GrantFrame(q, token, now);
    DiscardFrame(q, token);
  }

  lemma NotActive(q: Queue, t: Token)
    requires WF(q) && t !in q.entries
    ensures t !in q.active
  {
  }

  /** Standalone operations come before tickets: the first of them that may go does go in a
      drain, however many tickets wait. */
  lemma StandaloneFirst(n: Node, k: nat, now: real)
    requires ValidNode(n) && k < |n.q.waiting| && n.q.waiting[k] in n.q.owners && !Blocked(n.q, n.q.waiting[k], now)
    requires forall m :: 0 <= m < k && n.q.waiting[m] in n.q.owners ==> Blocked(n.q, n.q.waiting[m], now)
    ensures n.q.waiting[k] in DrainAll(n, now).q.active
  {
    hide WF, Tickets, Joint, InStep, Blocked, Serve, QP.Drain;
    QP.DrainInOrder(n.q, k, now);
    DrainedValid(n, now);
    var d, t := Drained(n, now), n.q.waiting[k];
    ServeExtends(d, now);
    OwnsOrWaits(d.q, t);
    OwnsOrWaits(Serve(d, now).q, t);
    if t in Serve(d, now).q.waiting { StillWaits(d, t, now); }
  }

  // ---- after every step ---------------------------------------------------------

  /** Every entry point but the two that refuse to wait ends in a drain: afterwards no
      standalone operation could go, and unless the node is closing no ticket could. */
  lemma StepSettles(n: Node, s: Step)
    requires ValidNode(n) && Legal(n, s) && !s.Convert? && !s.TryJoin? && n.q.patience > 0.0
    requires s.Submit? ==> s.ticket.project != "" && !n.closed && |n.waiting| < 1024
    ensures Settled(Apply(n, s), s.now)
  {
    hide ValidNode, DrainAll, Queued, Released, Enqueue, Discard, Switch, Settled;
    match s
    case Submit(ticket, claims, strict, now) =>
      QueuedValid(n, ticket, claims, strict);
      SamePatience(n, s);
      DrainSettles(Queued(n, ticket, claims, strict), now);
    case Finish(token, now) =>
      FinishedIsReleased(n, token);
      ReleasedValid(n, token);
      SamePatience(n, s);
      DrainSettles(Released(n, token), now);
    case Configure(config, limit, now) =>
      SwitchedValid(n, config, limit);
      var c := n.(config := config, limit := limit, q := Switch(n.q, config.relaxed));
      SamePatience(n, s);
      DrainAllValid(c, now);
      DrainSettles(c, now);
      DrainSettles(DrainAll(c, now), now);
    case Pressure(limit, paused, now) =>
      SettingsValid(n, n.(limit := limit, paused := paused));
      DrainSettles(n.(limit := limit, paused := paused), now);
    case Close(now) =>
      SettingsValid(n, n.(closed := true));
      DrainSettles(n.(closed := true), now);
    case Join(token, op, held, bounded, strict, now) =>
      JoinedValid(n, token, op, held, bounded && !strict);
      SamePatience(n, s);
      DrainSettles(n.(q := Enqueue(n.q, token, op, held, bounded && !strict, true)), now);
    case Part(token, now) =>
      PartedValid(n, token);
      SamePatience(n, s);
      DrainSettles(n.(q := Discard(n.q, token)), now);
    case Wake(now) => DrainSettles(n, now);
  }

  ghost predicate Settled(n: Node, now: real) {
    && (forall t :: t in n.q.waiting && t in n.q.owners ==> Blocked(n.q, t, now))
    && (!n.closed ==> forall x :: x in n.waiting ==> (x.token in n.claimed && Blocked(n.q, x.token, now)) || ReasonFor(n, x) != Free)
  }

  lemma SamePatience(n: Node, s: Step)
    requires ValidNode(n) && Legal(n, s)
    ensures s.Submit? ==> Queued(n, s.ticket, s.claims, s.strict).q.patience == n.q.patience
    ensures s.Finish? ==> Released(n, s.token).q.patience == n.q.patience
    ensures s.Configure? ==> Switch(n.q, s.config.relaxed).patience == n.q.patience
    ensures s.Join? ==> Enqueue(n.q, s.token, s.op, s.held, s.bounded && !s.strict, true).patience == n.q.patience
    ensures s.Part? ==> Discard(n.q, s.token).patience == n.q.patience
  {
    hide ValidNode;
  }

  lemma DrainSettles(n: Node, now: real)
    requires ValidNode(n) && n.q.patience > 0.0
    ensures Settled(DrainAll(n, now), now) && DrainAll(n, now).q.patience == n.q.patience
  {
    hide WF, Tickets, Joint, InStep, Blocked, ReasonFor;
    DrainedValid(n, now);
    ServeExtends(Drained(n, now), now);
    if n.closed {
      QP.DrainIsFixpoint(n.q, now);
    } else {
      DrainAllIsFixpoint(n, now);
    }
  }

  /** A standalone operation that waits is known from then on with its claims, and may be
      overtaking only as a bounded one that did not ask for strict order. */
  lemma JoinMeans(n: Node, token: Token, op: string, held: seq<Claim>, bounded: bool, strict: bool, now: real)
    requires ValidNode(n) && Fresh(n, token)
    ensures var e := Apply(n, Join(token, op, held, bounded, strict, now));
            && token in e.q.owners && token in e.q.entries && e.q.entries[token].claims == held && e.q.entries[token].op == op
            && (token in e.q.bounded <==> bounded && !strict)
  {
    hide ValidNode, Serve, Drained;
    JoinedValid(n, token, op, held, bounded && !strict);
    var m := n.(q := Enqueue(n.q, token, op, held, bounded && !strict, true));
    UnheldNotBounded(n, token);
    DrainAllFrame(m, now);
  }

  lemma DrainAllFrame(n: Node, now: real)
    requires ValidNode(n)
    ensures var e := DrainAll(n, now);
            && e.q.entries == n.q.entries && e.q.owners == n.q.owners && e.q.bounded == n.q.bounded
            && e.limit == n.limit && e.paused == n.paused && e.closed == n.closed
  {
    hide ValidNode, Serve;
    DrainedValid(n, now);
    ServeExtends(Drained(n, now), now);
    DrainBounds(n.q, now);
    ServeBounds(Drained(n, now), now);
  }

  lemma {:induction false} ServeBounds(n: Node, now: real)
    requires ValidNode(n)
    ensures Serve(n, now).q.bounded == n.q.bounded
    decreases |n.waiting|
  {
    hide WF, Joint, InStep, Tickets, Stuck, ReasonFor, Precedes;
    if !n.closed {
      ServeStep(n, now);
      if Selected(n, now).Some? { ServeBounds(GrantTicket(n, Selected(n, now).value, now), now); }
    }
  }

  /** Pressure, closing and the end of a standalone operation take effect at once. */
  lemma SignalsMean(n: Node, limit: int, paused: bool, token: Token, now: real)
    requires ValidNode(n)
    ensures Apply(n, Pressure(limit, paused, now)).limit == limit && Apply(n, Pressure(limit, paused, now)).paused == paused
    ensures Apply(n, Close(now)).closed && Apply(n, Wake(now)).closed == n.closed
    ensures !Ticketed(n, token) ==> Apply(n, Part(token, now)).q.entries == n.q.entries - {token}
  {
    hide ValidNode, Serve, Drained, DrainAll;
    SettingsValid(n, n.(limit := limit, paused := paused));
    SettingsValid(n, n.(closed := true));
    DrainAllFrame(n.(limit := limit, paused := paused), now);
    DrainAllFrame(n.(closed := true), now);
    DrainAllFrame(n, now);
    if !Ticketed(n, token) {
      PartedValid(n, token);
      DrainAllFrame(n.(q := Discard(n.q, token)), now);
    }
  }

  lemma OwnsOrWaits(q: Queue, t: Token)
    requires WF(q)
    ensures t in q.entries <==> t in q.waiting || t in q.active
    ensures !(t in q.waiting && t in q.active)
  {
  }
}
