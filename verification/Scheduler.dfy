// The scheduler as the program keeps it: fields updated in place beside the resource
// queue and the capacity governor. Each method is tied to its step in NodeRuns.

module Schedulers {
  import opened Settings
  import opened Claims
  import opened QueueModel
  import opened SchedulerModel
  import opened SchedulerProperties
  import opened CapacityModel
  import opened Capacities
  import opened ResourceQueues
  import QP = QueueProperties
  import NR = NodeRuns

  /** The governor works on the scheduler's settings and keeps its limit in range. */
  ghost predicate Governed(g: Governor, config: Config) {
    InRange(g) && g.config == config
  }

  datatype Outcome = Entered | InvalidIdentity | Stopping | QueueFull

  datatype Conversion = Admitted(ticket: Ticket) | NotAdmitted | InvalidProject

  class ProjectScheduler {
    const resources: ResourceQueue
    const capacity: AdaptiveCapacity
    var config: Config
    var waiting: seq<Ticket>
    var active: map<Token, Ticket>
    var turn: map<(Lane, string), nat>
    var sequence: nat
    var closed: bool
    var events: set<Token>
    var resourceTokens: set<Token>

    ghost function State(): Node
      reads this, resources, capacity
    {
      Node(resources.State(), config, capacity.limit, capacity.memoryPaused, waiting, active, turn, sequence, closed, resourceTokens, events)
    }

    ghost predicate Valid()
      reads this, resources, capacity
    {
      resources.Valid() && ValidNode(State()) && Governed(capacity.State(), config)
    }

    constructor (config: Config, resources: ResourceQueue, now: real)
      requires ValidConfig(config) && resources.Valid() && resources.entries == map[]
      modifies resources
      ensures Valid() && this.resources == resources && fresh(capacity)
      ensures State() == Node(Switch(old(resources.State()), config.relaxed), config, config.initial, false, [], map[], map[], 0, false, {}, {})
    {
      hide WF, ResourceQueue.Valid, ResourceQueue.State;
      this.resources := resources;
      capacity := new AdaptiveCapacity(config, now);
      this.config := config;
      waiting, active, turn, sequence := [], map[], map[], 0;
      closed, events, resourceTokens := false, {}, {};
      new;
      EmptyQueue(resources);
      resources.Reconfigure(config.relaxed);
      QueueIsWF(resources);
    }

    // ---- limits -----------------------------------------------------------

    function LaneLimit(lane: Lane): (r: int)
      reads this, resources, capacity
      ensures r == SchedulerModel.LaneLimit(State(), lane)
    {
      if lane.Execution? then capacity.limit
      else if capacity.memoryPaused then (if lane.Read? then 1 else 0)
      else if lane.Read? then config.readLimit else config.remoteLimit
    }

    function ReasonFor(item: Ticket): (r: Reason)
      reads this, resources, capacity
      ensures r == SchedulerModel.ReasonFor(State(), item)
    {
      var limit := LaneLimit(item.lane);
      var projectCap := Min(if item.project in config.projectLimits then config.projectLimits[item.project] else 64, Max(1, limit - 1));
      if |OfProject(active, item.lane, item.project)| >= projectCap then ProjectLimit
      else if item.lane.Remote? && |OfTarget(active, item.target)| >= config.remoteTargetLimit then RemoteTargetLimit
      else if |OfLane(active, item.lane)| >= limit then (if limit == 0 then ResourcePressure else LaneCapacity)
      else Free
    }

    // ---- selection ----------------------------------------------------------

    function RowAt(index: int): (r: Row)
      requires 0 <= index < |waiting|
      reads this, resources, capacity
      ensures r == RowOf(State(), index)
    {
      var item := waiting[index];
      Row(|OfProject(active, item.lane, item.project)|,
          if (item.lane, item.project) in turn then turn[(item.lane, item.project)] else 0, index)
    }

    /** The first eligible ticket of each lane and project, in order of arrival. */
    method EligibleRows(now: real) returns (rows: seq<Row>, ghost seen: set<(Lane, string)>)
      requires resources.Valid()
      ensures Scanned(State(), rows, seen, |waiting|, now)
      ensures forall k :: 0 <= k < |rows| ==> Eligible(State(), rows[k].index, now)
      ensures rows == [] ==> forall i :: !Eligible(State(), i, now)
    {
      hide ResourceQueue.Valid, ResourceQueue.State, Blocked, SchedulerModel.ReasonFor, Scanned, RowOf;
      ghost var n := State();
      rows := [];
      var found: set<(Lane, string)> := {};
      var index := 0;
      ScanStarts(n, now);
      while index < |waiting|
        invariant 0 <= index <= |waiting|
        invariant Scanned(n, rows, found, index, now)
      {
        var item := waiting[index];
        var key := (item.lane, item.project);
        if key in found {
          ScanSeen(n, rows, found, index, now);
        } else {
          var stuck := false;
          if item.token in resourceTokens {
            stuck := resources.IsBlocked(item.token, now);
          }
          if stuck || ReasonFor(item) != Free {
            ScanSkips(n, rows, found, index, now);
          } else {
            ScanAdds(n, rows, found, index, now);
            found := found + {key};
            rows := rows + [RowAt(index)];
          }
        }
        index := index + 1;
      }
      seen := found;
      ScannedRows(n, rows, seen, now);
    }

    /** The eligible row with the fewest running tickets, the oldest turn, the earliest arrival. */
    method Selected(now: real) returns (r: Option<int>)
      requires resources.Valid()
      ensures r == SchedulerModel.Selected(State(), now)
    {
      hide ResourceQueue.Valid, ResourceQueue.State, Scanned, SchedulerModel.Selected;
      var rows, seen := EligibleRows(now);
      if rows == [] {
        ScannedNothing(State(), seen, now);
        return None;
      }
      var best := LeastRow(rows);
      ScannedBest(State(), rows, seen, best, now);
      return Some(rows[best].index);
    }

    // ---- draining -----------------------------------------------------------

    /** Publish one grant: its claims, its slot and its turn. */
    method Publish(index: int, now: real)
      requires Valid() && 0 <= index < |waiting|
      modifies this, resources
      ensures resources.Valid() && State() == GrantTicket(old(State()), index, now)
    {
      hide ResourceQueue.Valid, ResourceQueue.State, WF, Tickets, InStep, QueueModel.Grant;
      var item := waiting[index];
      ClaimedWaits(State(), index);
      if item.token in resourceTokens {
        resources.Grant(item.token, now);
      }
      waiting := RemoveAt(waiting, index);
      active := active[item.token := item];
      sequence := sequence + 1;
      turn := turn[(item.lane, item.project) := sequence];
    }

    method DrainTickets(now: real)
      requires Valid()
      modifies this, resources
      ensures Valid() && State() == Serve(old(State()), now)
    {
      hide ResourceQueue.Valid, ResourceQueue.State, ValidNode, GrantTicket, SchedulerModel.Selected;
      if closed {
        return;
      }
      ghost var target := Serve(State(), now);
      var going := true;
      while going
        invariant Valid() && !closed && Serve(State(), now) == target
        invariant !going ==> State() == target
        decreases going, |waiting|
      {
        ServeStep(State(), now);
        var selected := Selected(now);
        match selected
        case None => going := false;
        case Some(index) =>
          SelectedHasEvent(State(), index, now);
          if waiting[index].token !in events {
            going := false;
          } else {
            OneFewer(State(), index, now);
            Publish(index, now);
          }
      }
    }

    method DrainAll(now: real)
      requires Valid()
      modifies this, resources
      ensures Valid() && State() == SchedulerModel.DrainAll(old(State()), now)
    {
      hide ResourceQueue.Valid, ResourceQueue.State, ValidNode, Serve, Governed;
      DrainedValid(State(), now);
      resources.Drain(now);
      DrainTickets(now);
    }

    // ---- entry points ---------------------------------------------------------

    /** `slot` up to its wait: refused, or queued in both structures and drained. */
    method Slot(ticket: Ticket, claims: Option<seq<Claim>>, strict: bool, now: real) returns (outcome: Outcome)
      requires Valid() && NR.Fresh(State(), ticket.token)
      modifies this, resources
      ensures Valid() && State() == NR.Apply(old(State()), NR.Submit(ticket, claims, strict, now))
      ensures outcome == if ticket.project == "" then InvalidIdentity else if old(closed) then Stopping
                         else if |old(waiting)| >= NR.MAX_WAITING then QueueFull else Entered
      ensures !outcome.Entered? ==> State() == old(State())
    {
      hide ResourceQueue.Valid, ValidNode, SchedulerModel.DrainAll, Governed, QueueModel.Enqueue;
      if ticket.project == "" {
        return InvalidIdentity;
      }
      if closed {
        return Stopping;
      }
      if |waiting| >= NR.MAX_WAITING {
        return QueueFull;
      }
      NR.QueuedValid(State(), ticket, claims, strict);
      waiting := waiting + [ticket];
      events := events + {ticket.token};
      if claims.Some? {
        resources.Enqueue(ticket.token, ticket.op, claims.value, ticket.lane.Read?, strict);
        resourceTokens := resourceTokens + {ticket.token};
      }
      DrainAll(now);
      return Entered;
    }

    method Reconfigure(config: Config, now: real)
      requires Valid() && ValidConfig(config)
      modifies this, resources, capacity
      ensures Valid() && capacity.State() == Reconfigured(old(capacity.State()), config, now)
      ensures State() == NR.Apply(old(State()), NR.Configure(config, capacity.limit, now))
    {
      hide ResourceQueue.Valid, ResourceQueue.State, ValidNode, SchedulerModel.DrainAll, Switch, Reconfigured, InRange;
      ReconfigureInRange(capacity.State(), config, now);
      this.config := config;
      capacity.Reconfigure(config, now);
      NR.SwitchedValid(old(State()), config, capacity.limit);
      resources.Reconfigure(config.relaxed);
      DrainAll(now);
      DrainAll(now);
    }

    method UpdatePressure(sample: Sample, now: real)
      requires Valid()
      modifies this, resources, capacity
      ensures Valid() && capacity.State() == Updated(old(capacity.State()), sample, now)
      ensures State() == NR.Apply(old(State()), NR.Pressure(capacity.limit, capacity.memoryPaused, now))
    {
      hide ResourceQueue.Valid, ResourceQueue.State, ValidNode, SchedulerModel.DrainAll, Updated, InRange;
      UpdateInRange(capacity.State(), sample, now);
      UpdateKeepsConfig(capacity.State(), sample, now);
      var limit := capacity.Update(sample, now);
      NR.SettingsValid(old(State()), State());
      DrainAll(now);
    }

    method Close(now: real)
      requires Valid()
      modifies this, resources
      ensures Valid() && State() == NR.Apply(old(State()), NR.Close(now))
    {
      hide ResourceQueue.Valid, ResourceQueue.State, ValidNode, SchedulerModel.DrainAll, Governed;
      NR.SettingsValid(State(), State().(closed := true));
      closed := true;
      DrainAll(now);
    }

    /** The timer of the queue, or the notification of a conversion: the step `Wake`, which
        is a drain (`NR.WakeDrains`). */
    method Wake(now: real)
      requires Valid()
      modifies this, resources
      ensures Valid() && State() == SchedulerModel.DrainAll(old(State()), now)
    {
      DrainAll(now);
    }

    method ReleaseOwned(token: Token, now: real)
      requires Valid()
      modifies this, resources
      ensures Valid() && State() == NR.Apply(old(State()), NR.Finish(token, now))
    {
      hide ResourceQueue.Valid, ResourceQueue.State, ValidNode, SchedulerModel.DrainAll, Governed, QueueModel.Discard, NR.LiveTurns;
      NR.FinishedIsReleased(State(), token);
      NR.ReleasedValid(State(), token);
      Withdraw(token);
      assert token !in resourceTokens ==> resourceTokens - {token} == resourceTokens;
      if token in resourceTokens {
        resources.Discard(token);
        resourceTokens := resourceTokens - {token};
      }
      assert State() == NR.Released(old(State()), token);
      DrainAll(now);
    }

    /** The ticket, its slot and the turns nobody needs any more. */
    method Withdraw(token: Token)
      modifies `waiting, `active, `events, `turn
      ensures waiting == NR.WithoutToken(old(waiting), token) && active == old(active) - {token}
      ensures events == old(events) - {token} && turn == NR.LiveTurns(old(turn), waiting, active)
    {
      waiting := NR.WithoutToken(waiting, token);
      active := active - {token};
      events := events - {token};
      turn := NR.LiveTurns(turn, waiting, active);
    }

    // ---- conversion -----------------------------------------------------------

    /** `try_reserve`: an owned slot is exchanged for another in one step, or nothing happens. */
    method TryReserve(replace: Ticket, op: string, project: string, lane: Lane, target: string,
                      claims: Option<seq<Claim>>, strict: bool, locked: bool, now: real) returns (outcome: Conversion)
      requires Valid()
      modifies this, resources
      ensures var item := Ticket(replace.token, op, project, lane, target);
              && Valid() && State() == NR.Apply(old(State()), NR.Convert(replace, item, claims, strict, locked, now))
              && (outcome == InvalidProject <==> project == "")
              && (outcome.Admitted? ==> outcome.ticket == item)
              && (outcome.Admitted? <==> NR.Granted(old(State()), replace, item, claims, strict, locked, now))
              && (!outcome.Admitted? ==> State() == old(State()).(q := old(State()).q.(next := State().q.next)))
    {
      hide ResourceQueue.Valid, ResourceQueue.State, ValidNode, Governed, NR.Convertible, NR.Chosen, NR.Converted, NR.Refused;
      var item := Ticket(replace.token, op, project, lane, target);
      var possible := CanConvert(replace, item, claims, locked);
      if !possible {
        return if project == "" then InvalidProject else NotAdmitted;
      }
      NR.ConvertibleProject(State(), replace, item, claims, locked);
      NR.FreshForClaims(State(), replace, item, claims, locked);
      NR.RefusedChangesNothing(State(), item, claims, strict);
      var done := Attempt(replace, item, claims, strict, now);
      return if done then Admitted(item) else NotAdmitted;
    }

    /** The guards in front of a conversion, none of which changes anything. */
    method CanConvert(replace: Ticket, item: Ticket, claims: Option<seq<Claim>>, locked: bool) returns (r: bool)
      requires Valid()
      ensures r == NR.Convertible(State(), replace, item, claims, locked)
    {
      hide ResourceQueue.Valid, ValidNode, Governed;
      if item.project == "" || locked || closed || |waiting| >= NR.MAX_WAITING {
        return false;
      }
      if replace.token !in active || active[replace.token] != replace || replace.op != item.op {
        return false;
      }
      if (exists x :: x in waiting && x.op == replace.op) || (exists t :: t in active && t != replace.token && active[t].op == replace.op) {
        return false;
      }
      return claims.Some? ==>
        replace.token !in resourceTokens && forall t :: t in resources.entries ==> resources.entries[t].op != item.op;
    }

    /** Trial selection, and either the exchange or the undo. */
    method Attempt(replace: Ticket, item: Ticket, claims: Option<seq<Claim>>, strict: bool, now: real) returns (done: bool)
      requires Valid() && item.token == replace.token && replace.token in active && active[replace.token] == replace
      requires claims.Some? ==> item.token !in State().q.entries && item.token !in State().q.retired && item.token !in resourceTokens
      modifies this, resources
      ensures Valid() && done == NR.Chosen(old(State()), item, claims, strict, now)
      ensures State() == if done then NR.Converted(old(State()), item, claims, strict, now) else NR.Refused(old(State()), item, claims, strict)
    {
      hide ResourceQueue.Valid, ValidNode, Governed, QueueModel.Enqueue, QueueModel.Discard, QueueModel.Grant, SchedulerModel.Selected, SchedulerModel.GrantTicket;
      ghost var n := State();
      NR.ConvertedValid(n, item, claims, strict, now);
      NR.RefusedValid(n, item, claims, strict);
      NR.TentativeUndone(n, replace, item, claims, strict);
      Propose(item, claims, strict);
      var selected := Selected(now);
      PutBack(replace);
      if selected != Some(|waiting|) {
        if claims.Some? {
          Abandon(item.token);
        }
        return false;
      }
      Settle(item, claims.Some?, now);
      return true;
    }

    /** The slot is given up for the moment and its successor queued. */
    method Propose(item: Ticket, claims: Option<seq<Claim>>, strict: bool)
      requires resources.Valid()
      requires claims.Some? ==> item.token !in resources.entries && item.token !in resources.retired
      modifies this, resources
      ensures resources.Valid() && State() == NR.Tentative(old(State()), item, claims, strict)
    {
      hide ResourceQueue.Valid, QueueModel.Enqueue;
      if claims.Some? {
        resources.Enqueue(item.token, item.op, claims.value, item.lane.Read?, strict);
        resourceTokens := resourceTokens + {item.token};
      }
      active, waiting := active - {item.token}, waiting + [item];
    }

    /** The `finally` of the selection: the slot is owned again. */
    method PutBack(replace: Ticket)
      requires waiting != []
      modifies `waiting, `active
      ensures waiting == old(waiting)[..|old(waiting)| - 1] && active == old(active)[replace.token := replace]
    {
      waiting := waiting[..|waiting| - 1];
      active := active[replace.token := replace];
    }

    method Abandon(token: Token)
      requires resources.Valid()
      modifies `resourceTokens, resources
      ensures resources.Valid() && resources.State() == QueueModel.Discard(old(resources.State()), token)
      ensures resourceTokens == old(resourceTokens) - {token}
    {
      hide ResourceQueue.Valid, QueueModel.Discard;
      resources.Discard(token);
      resourceTokens := resourceTokens - {token};
    }

    /** The successor owns its claims and its slot. */
    method Settle(item: Ticket, claiming: bool, now: real)
      requires resources.Valid() && (claiming ==> item.token in resources.State().waiting)
      modifies `active, `sequence, `turn, resources
      ensures resources.Valid()
      ensures resources.State() == if claiming then QueueModel.Grant(old(resources.State()), item.token, now) else old(resources.State())
      ensures active == old(active)[item.token := item] && sequence == old(sequence) + 1
      ensures turn == old(turn)[(item.lane, item.project) := old(sequence) + 1]
    {
      hide ResourceQueue.Valid, QueueModel.Grant;
      if claiming {
        resources.Grant(item.token, now);
      }
      active := active[item.token := item];
      sequence := sequence + 1;
      turn := turn[(item.lane, item.project) := sequence];
    }

    // ---- standalone operations ----------------------------------------------

    method StandaloneTryReserve(token: Token, op: string, held: seq<Claim>, bound: bool, strict: bool, locked: bool, now: real)
      returns (granted: bool)
      requires Valid() && NR.Fresh(State(), token)
      modifies this, resources
      ensures Valid() && State() == NR.Apply(old(State()), NR.TryJoin(token, op, held, bound, strict, locked, now))
      ensures granted <==> token in State().q.active
      ensures !granted ==> State() == old(State()).(q := old(State()).q.(next := State().q.next))
    {
      hide ResourceQueue.Valid, ValidNode, Governed, QueueModel.Enqueue, QueueModel.Grant, QueueModel.Discard, Blocked;
      NR.StandaloneGrantValid(State(), token, op, held, bound && !strict, now);
      NR.StandaloneRefusedValid(State(), token, op, held, bound && !strict);
      NR.ReservationUndone(State(), token, op, held, bound && !strict, now);
      granted := resources.TryReserve(token, op, held, bound, strict, locked, now);
    }

    method StandaloneSlot(token: Token, op: string, held: seq<Claim>, bound: bool, strict: bool, now: real)
      requires Valid() && NR.Fresh(State(), token)
      modifies this, resources
      ensures Valid() && State() == NR.Apply(old(State()), NR.Join(token, op, held, bound, strict, now))
    {
      hide ResourceQueue.Valid, ValidNode, SchedulerModel.DrainAll, Governed, QueueModel.Enqueue;
      NR.JoinedValid(State(), token, op, held, bound && !strict);
      resources.Enter(token, op, held, bound, strict);
      DrainAll(now);
    }

    method StandaloneRelease(token: Token, now: real)
      requires Valid() && !NR.Ticketed(State(), token)
      modifies this, resources
      ensures Valid() && State() == NR.Apply(old(State()), NR.Part(token, now))
    {
      hide ResourceQueue.Valid, ResourceQueue.State, ValidNode, SchedulerModel.DrainAll, Governed, QueueModel.Discard;
      NR.PartedValid(State(), token);
      resources.Discard(token);
      DrainAll(now);
    }
  }

  /** `min` over the rows. */
  method LeastRow(rows: seq<Row>) returns (best: nat)
    requires rows != []
    ensures best < |rows| && forall m :: 0 <= m < |rows| ==> !Less(rows[m], rows[best])
  {
    best := 0;
    var k := 1;
    while k < |rows|
      invariant 0 <= best < k <= |rows|
      invariant forall m :: 0 <= m < k ==> !Less(rows[m], rows[best])
    {
      if Less(rows[k], rows[best]) {
        best := k;
      }
      k := k + 1;
    }
  }

  // ---- what the scan of the waiting list knows ----------------------------

  /** Some row of the same count and turn arrived no later. */
  predicate Covered(rows: seq<Row>, count: nat, turn: nat, index: int) {
    exists k :: 0 <= k < |rows| && rows[k].count == count && rows[k].turn == turn && rows[k].index <= index
  }

  ghost predicate Scanned(n: Node, rows: seq<Row>, seen: set<(Lane, string)>, upTo: int, now: real) {
    && (forall k :: 0 <= k < |rows| ==> Eligible(n, rows[k].index, now) && rows[k] == RowOf(n, rows[k].index))
    && (forall j :: 0 <= j < upTo && Eligible(n, j, now) ==> Covered(rows, RowOf(n, j).count, RowOf(n, j).turn, j))
    && (forall key :: key in seen ==> Covered(rows, Count(n, key.0, key.1), TurnOf(n, key.0, key.1), upTo - 1))
  }

  lemma ScanStarts(n: Node, now: real)
    ensures Scanned(n, [], {}, 0, now)
  {
  }

  lemma CoveredLater(rows: seq<Row>, count: nat, turn: nat, index: int, later: int)
    requires Covered(rows, count, turn, index) && index <= later
    ensures Covered(rows, count, turn, later)
  {
  }

  lemma ScanSkips(n: Node, rows: seq<Row>, seen: set<(Lane, string)>, index: int, now: real)
    requires Scanned(n, rows, seen, index, now) && 0 <= index && !Eligible(n, index, now)
    ensures Scanned(n, rows, seen, index + 1, now)
  {
    hide Eligible, Count, TurnOf, Covered;
    forall key | key in seen ensures Covered(rows, Count(n, key.0, key.1), TurnOf(n, key.0, key.1), index) {
      CoveredLater(rows, Count(n, key.0, key.1), TurnOf(n, key.0, key.1), index - 1, index);
    }
  }

  lemma ScanSeen(n: Node, rows: seq<Row>, seen: set<(Lane, string)>, index: int, now: real)
    requires Scanned(n, rows, seen, index, now) && 0 <= index < |n.waiting|
    requires (n.waiting[index].lane, n.waiting[index].project) in seen
    ensures Scanned(n, rows, seen, index + 1, now)
  {
    hide Eligible, Count, TurnOf, Covered;
    forall key | key in seen ensures Covered(rows, Count(n, key.0, key.1), TurnOf(n, key.0, key.1), index) {
      CoveredLater(rows, Count(n, key.0, key.1), TurnOf(n, key.0, key.1), index - 1, index);
    }
    assert RowOf(n, index).count == Count(n, n.waiting[index].lane, n.waiting[index].project);
  }

  lemma CoveredMore(rows: seq<Row>, x: Row, count: nat, turn: nat, index: int)
    requires Covered(rows, count, turn, index)
    ensures Covered(rows + [x], count, turn, index)
  {
    var k :| 0 <= k < |rows| && rows[k].count == count && rows[k].turn == turn && rows[k].index <= index;
    assert (rows + [x])[k] == rows[k];
  }

  lemma CoveredByLast(rows: seq<Row>, x: Row)
    ensures Covered(rows + [x], x.count, x.turn, x.index)
  {
    assert (rows + [x])[|rows|] == x;
  }

  lemma ScanAdds(n: Node, rows: seq<Row>, seen: set<(Lane, string)>, index: int, now: real)
    requires Scanned(n, rows, seen, index, now) && Eligible(n, index, now)
    ensures Scanned(n, rows + [RowOf(n, index)], seen + {(n.waiting[index].lane, n.waiting[index].project)}, index + 1, now)
  {
    hide Stuck, ReasonFor, Count, TurnOf, Covered;
    var x := RowOf(n, index);
    var item := n.waiting[index];
    var more, seen' := rows + [x], seen + {(item.lane, item.project)};
    CoveredByLast(rows, x);
    forall j | 0 <= j < index && Eligible(n, j, now) ensures Covered(more, RowOf(n, j).count, RowOf(n, j).turn, j) {
      CoveredMore(rows, x, RowOf(n, j).count, RowOf(n, j).turn, j);
    }
    forall key | key in seen' ensures Covered(more, Count(n, key.0, key.1), TurnOf(n, key.0, key.1), index) {
      if key in seen {
        CoveredMore(rows, x, Count(n, key.0, key.1), TurnOf(n, key.0, key.1), index - 1);
        CoveredLater(more, Count(n, key.0, key.1), TurnOf(n, key.0, key.1), index - 1, index);
      }
    }
  }

  lemma ScannedRows(n: Node, rows: seq<Row>, seen: set<(Lane, string)>, now: real)
    requires Scanned(n, rows, seen, |n.waiting|, now)
    ensures forall k :: 0 <= k < |rows| ==> Eligible(n, rows[k].index, now)
    ensures rows == [] ==> forall i :: !Eligible(n, i, now)
  {
    hide Stuck, ReasonFor, RowOf;
    if rows == [] {
      forall i ensures !Eligible(n, i, now) {
        assert Eligible(n, i, now) ==> Covered([], RowOf(n, i).count, RowOf(n, i).turn, i);
      }
    }
  }

  lemma ScannedNothing(n: Node, seen: set<(Lane, string)>, now: real)
    requires Scanned(n, [], seen, |n.waiting|, now)
    ensures SchedulerModel.Selected(n, now) == None
  {
    hide Stuck, ReasonFor, RowOf;
    ScannedRows(n, [], seen, now);
    NothingSelected(n, now);
  }

  /** The least row beats every eligible ticket, scanned or passed over. */
  lemma ScannedBest(n: Node, rows: seq<Row>, seen: set<(Lane, string)>, best: nat, now: real)
    requires Scanned(n, rows, seen, |n.waiting|, now)
    requires best < |rows| && forall m :: 0 <= m < |rows| ==> !Less(rows[m], rows[best])
    ensures SchedulerModel.Selected(n, now) == Some(rows[best].index)
  {
    hide Stuck, ReasonFor, Count, TurnOf;
    var i := rows[best].index;
    forall j | Eligible(n, j, now) && j != i ensures Precedes(n, i, j) {
      assert Covered(rows, RowOf(n, j).count, RowOf(n, j).turn, j);
    }
    SelectedIs(n, i, now);
  }

  lemma EmptyQueue(resources: ResourceQueue)
    requires resources.Valid() && resources.entries == map[]
    ensures resources.State().waiting == [] && resources.State().entries == map[]
    ensures resources.State().active == map[] && resources.State().owners == {} && resources.State().gates == map[]
  {
    hide QueueRecords.Records, Graph.Exact;
    var q := resources.State();
    if q.waiting != [] { FirstIsMember(q.waiting); }
  }

  lemma FirstIsMember(s: seq<Token>)
    requires s != []
    ensures s[0] in s
  {
  }

  lemma QueueIsWF(resources: ResourceQueue)
    requires resources.Valid()
    ensures WF(resources.State())
  {
    hide QueueRecords.Records, Graph.Exact, WF;
  }

  lemma SelectedHasEvent(n: Node, index: int, now: real)
    requires ValidNode(n) && Best(n, index, now)
    ensures 0 <= index < |n.waiting| && n.waiting[index].token in n.events
  {
    hide WF, Joint, InStep, Stuck, ReasonFor, Precedes;
    assert n.waiting[index] in n.waiting;
  }

  lemma OneFewer(n: Node, index: int, now: real)
    requires 0 <= index < |n.waiting|
    ensures |GrantTicket(n, index, now).waiting| < |n.waiting|
    ensures GrantTicket(n, index, now).closed == n.closed
  {
    hide QueueModel.Grant;
  }

  lemma UpdateKeepsConfig(g: Governor, s: Sample, now: real)
    ensures Updated(g, s, now).config == g.config
  {
    hide Critical, Safe, Strained, Healthy;
  }
}
