// Joint admission as a value: the resource queue together with the project-fair
// scheduler of agent/scheduler.py. A ticket takes its claims and its slot in one step.

module SchedulerModel {
  import opened Claims
  import opened QueueModel
  import opened Settings
  import QP = QueueProperties

  datatype Lane = Execution | Read | Remote

  datatype Ticket = Ticket(token: Token, op: string, project: string, lane: Lane, target: string)

  /** `claimed` is `_resource_tokens`, `limit` and `paused` the state of the capacity governor. */
  datatype Node = Node(
    q: Queue,
    config: Config,
    limit: int,
    paused: bool,
    waiting: seq<Ticket>,
    active: map<Token, Ticket>,
    turn: map<(Lane, string), nat>,
    sequence: nat,
    closed: bool,
    claimed: set<Token>,
    events: set<Token>)

  // ---- limits -------------------------------------------------------------

  function LaneLimit(n: Node, lane: Lane): int {
    match lane
    case Execution => n.limit
    case Read => if n.paused then 1 else n.config.readLimit
    case Remote => if n.paused then 0 else n.config.remoteLimit
  }

  function ProjectCap(n: Node, lane: Lane, project: string): int {
    Min(if project in n.config.projectLimits then n.config.projectLimits[project] else 64,
        Max(1, LaneLimit(n, lane) - 1))
  }

  function OfProject(active: map<Token, Ticket>, lane: Lane, project: string): set<Token> {
    set t | t in active && active[t].lane == lane && active[t].project == project
  }

  function OfLane(active: map<Token, Ticket>, lane: Lane): set<Token> {
    set t | t in active && active[t].lane == lane
  }

  function OfTarget(active: map<Token, Ticket>, target: string): set<Token> {
    set t | t in active && active[t].lane.Remote? && active[t].target == target
  }

  function Count(n: Node, lane: Lane, project: string): nat {
    |OfProject(n.active, lane, project)|
  }

  datatype Reason = Free | ProjectLimit | RemoteTargetLimit | ResourcePressure | LaneCapacity

  function ReasonFor(n: Node, item: Ticket): Reason {
    if Count(n, item.lane, item.project) >= ProjectCap(n, item.lane, item.project) then ProjectLimit
    else if item.lane.Remote? && |OfTarget(n.active, item.target)| >= n.config.remoteTargetLimit then RemoteTargetLimit
    else if |OfLane(n.active, item.lane)| >= LaneLimit(n, item.lane) then
      if LaneLimit(n, item.lane) == 0 then ResourcePressure else LaneCapacity
    else Free
  }

  // ---- limits spelled out on the settings -----------------------------------

  /** The lane may run this many. */
  predicate LaneAllows(n: Node, lane: Lane, running: int) {
    && (lane == Execution ==> running <= n.limit)
    && (lane == Read && !n.paused ==> running <= n.config.readLimit)
    && (lane == Read && n.paused ==> running <= 1)
    && (lane == Remote && !n.paused ==> running <= n.config.remoteLimit)
    && (lane == Remote && n.paused ==> running <= 0)
  }

  /** One project may run this many in the lane: its own limit or 64, and beyond the first
      it leaves a slot of the lane to others. */
  predicate ProjectAllows(n: Node, lane: Lane, project: string, running: int) {
    && (project in n.config.projectLimits ==> running <= n.config.projectLimits[project])
    && (project !in n.config.projectLimits ==> running <= 64)
    && (running >= 2 ==> LaneAllows(n, lane, running + 1))
  }

  predicate TargetAllows(n: Node, lane: Lane, running: int) {
    lane == Remote ==> running <= n.config.remoteTargetLimit
  }

  /** A ticket is held back exactly when one more would be too many for its project, its
      target or its lane, in this order; a lane without any slot is under pressure. */
  lemma ReasonMeans(n: Node, item: Ticket)
    ensures var own := |set t | t in n.active && n.active[t].lane == item.lane && n.active[t].project == item.project|;
            var there := |set t | t in n.active && n.active[t].lane == Remote && n.active[t].target == item.target|;
            var running := |set t | t in n.active && n.active[t].lane == item.lane|;
            var project, target, lane := ProjectAllows(n, item.lane, item.project, own + 1), TargetAllows(n, item.lane, there + 1), LaneAllows(n, item.lane, running + 1);
            && (ReasonFor(n, item) == Free <==> project && target && lane)
            && (ReasonFor(n, item) == ProjectLimit <==> !project)
            && (ReasonFor(n, item) == RemoteTargetLimit <==> project && !target)
            && (ReasonFor(n, item) == LaneCapacity || ReasonFor(n, item) == ResourcePressure <==> project && target && !lane)
            && (ReasonFor(n, item) == ResourcePressure ==> LaneAllows(n, item.lane, 0) && !LaneAllows(n, item.lane, 1))
            && (ReasonFor(n, item) == LaneCapacity ==> !(LaneAllows(n, item.lane, 0) && !LaneAllows(n, item.lane, 1)))
  {
    var own := set t | t in n.active && n.active[t].lane == item.lane && n.active[t].project == item.project;
    var there := set t | t in n.active && n.active[t].lane == Remote && n.active[t].target == item.target;
    var running := set t | t in n.active && n.active[t].lane == item.lane;
    assert own == OfProject(n.active, item.lane, item.project);
    assert there == OfTarget(n.active, item.target);
    assert running == OfLane(n.active, item.lane);
    hide OfProject, OfTarget, OfLane;
  }

  lemma LimitsMean(n: Node, lane: Lane, project: string, k: int)
    ensures LaneAllows(n, lane, k) <==> k <= LaneLimit(n, lane)
    ensures ProjectAllows(n, lane, project, k) <==> k <= ProjectCap(n, lane, project)
  {
  }

  /** In an emergency a single reader may run, and nobody else. */
  lemma PausedNode(n: Node, item: Ticket)
    requires n.paused && n.limit == 0 && ReasonFor(n, item) == Free
    ensures item.lane.Read? && OfLane(n.active, Read) == {}
  {
  }

  // ---- selection ----------------------------------------------------------

  ghost predicate Stuck(n: Node, item: Ticket, now: real) {
    item.token in n.claimed && Blocked(n.q, item.token, now)
  }

  ghost predicate Eligible(n: Node, i: int, now: real) {
    0 <= i < |n.waiting| && !Stuck(n, n.waiting[i], now) && ReasonFor(n, n.waiting[i]) == Free
  }

  function TurnOf(n: Node, lane: Lane, project: string): nat {
    if (lane, project) in n.turn then n.turn[(lane, project)] else 0
  }

  /** Fewer running tickets first, then the longer wait for a turn, then arrival. */
  datatype Row = Row(count: nat, turn: nat, index: int)

  predicate Less(a: Row, b: Row) {
    a.count < b.count || (a.count == b.count && (a.turn < b.turn || (a.turn == b.turn && a.index < b.index)))
  }

  function RowOf(n: Node, i: int): Row
    requires 0 <= i < |n.waiting|
  {
    var item := n.waiting[i];
    Row(Count(n, item.lane, item.project), TurnOf(n, item.lane, item.project), i)
  }

  predicate Precedes(n: Node, i: int, j: int)
    requires 0 <= i < |n.waiting| && 0 <= j < |n.waiting|
  {
    Less(RowOf(n, i), RowOf(n, j))
  }

  ghost predicate Best(n: Node, i: int, now: real) {
    Eligible(n, i, now) && forall j :: Eligible(n, j, now) && j != i ==> Precedes(n, i, j)
  }

  ghost function Selected(n: Node, now: real): Option<int> {
    if exists i :: Best(n, i, now) then
      var i :| Best(n, i, now); Some(i)
    else None
  }

  lemma SelectedIs(n: Node, i: int, now: real)
    requires Best(n, i, now)
    ensures Selected(n, now) == Some(i)
  {
    hide Stuck, ReasonFor, Count, TurnOf;
    forall j | Best(n, j, now) ensures j == i {
      assert Eligible(n, j, now);
    }
  }

  lemma {:induction false} SomeBest(n: Node, k: nat, now: real) returns (i: int)
    requires k <= |n.waiting| && exists j :: j < k && Eligible(n, j, now)
    ensures i < k && Eligible(n, i, now)
    ensures forall j :: j < k && Eligible(n, j, now) && j != i ==> Precedes(n, i, j)
    decreases k
  {
    hide Stuck, ReasonFor, Count, TurnOf;
    if exists j :: j < k - 1 && Eligible(n, j, now) {
      i := SomeBest(n, k - 1, now);
      if Eligible(n, k - 1, now) && !Precedes(n, i, k - 1) {
        forall j | j < k - 1 && Eligible(n, j, now) ensures Precedes(n, k - 1, j) {
          assert j == i || Precedes(n, i, j);
        }
        i := k - 1;
      }
    } else {
      i := k - 1;
    }
  }

  lemma NothingSelected(n: Node, now: real)
    ensures Selected(n, now).None? <==> forall i :: !Eligible(n, i, now)
  {
    hide Stuck, ReasonFor, Precedes;
    if exists j :: Eligible(n, j, now) {
      var j :| Eligible(n, j, now);
      assert j < |n.waiting|;
      var i := SomeBest(n, |n.waiting|, now);
      assert Best(n, i, now);
      SelectedIs(n, i, now);
    } else {
      assert forall i :: !Best(n, i, now);
    }
  }

  // ---- the scheduler's drain ----------------------------------------------

  function RemoveAt(s: seq<Ticket>, i: int): seq<Ticket>
    requires 0 <= i < |s|
  {
    s[..i] + s[i+1..]
  }

  ghost function GrantTicket(n: Node, i: int, now: real): Node
    requires 0 <= i < |n.waiting|
  {
    var item := n.waiting[i];
    n.(q := if item.token in n.claimed then Grant(n.q, item.token, now) else n.q,
       waiting := RemoveAt(n.waiting, i),
       active := n.active[item.token := item],
       sequence := n.sequence + 1,
       turn := n.turn[(item.lane, item.project) := n.sequence + 1])
  }

  ghost function Serve(n: Node, now: real): Node
    decreases |n.waiting|
  {
    if n.closed then n
    else
      match Selected(n, now)
      case None => n
      case Some(i) =>
        assert Best(n, i, now);
        if n.waiting[i].token !in n.events then n else Serve(GrantTicket(n, i, now), now)
  }

  /** Standalone operations first, then tickets, at one reading of the clock. */
  ghost function DrainAll(n: Node, now: real): Node {
    Serve(n.(q := QP.Drain(n.q, now)), now)
  }

  // ---- the invariant ------------------------------------------------------

  ghost predicate DistinctTokens(s: seq<Ticket>) {
    forall i, j :: 0 <= i < j < |s| ==> s[i].token != s[j].token
  }

  ghost predicate Tickets(waiting: seq<Ticket>, active: map<Token, Ticket>, claimed: set<Token>, events: set<Token>, retired: set<Token>) {
    && DistinctTokens(waiting)
    && (forall x :: x in waiting ==> x.token !in active && x.token in events && x.token !in retired)
    && (forall t :: t in active ==> active[t].token == t && t !in retired)
    && (forall t :: t in claimed ==> t in active || exists x :: x in waiting && x.token == t)
  }

  /** A claim-carrying ticket runs exactly when its claims are owned, and waits in both
      queues otherwise; a ticket without claims is unknown to the resource queue. */
  ghost predicate Joint(q: Queue, waiting: seq<Ticket>, active: map<Token, Ticket>, claimed: set<Token>) {
    && (forall x :: x in waiting ==> if x.token in claimed then x.token in q.waiting else x.token !in q.entries)
    && (forall t :: t in active ==> if t in claimed then t in q.active else t !in q.entries)
    && q.owners !! claimed
    && (forall t :: t in q.waiting ==> t in claimed || t in q.owners)
  }

  /** Claim-carrying tickets wait in the order of their claims. */
  ghost predicate InStep(q: Queue, waiting: seq<Ticket>, claimed: set<Token>) {
    forall i, j :: 0 <= i < j < |waiting| && waiting[i].token in claimed && waiting[j].token in claimed ==>
      Before(q, waiting[i].token, waiting[j].token)
  }

  ghost predicate ValidNode(n: Node) {
    && WF(n.q)
    && Tickets(n.waiting, n.active, n.claimed, n.events, n.q.retired)
    && Joint(n.q, n.waiting, n.active, n.claimed)
    && InStep(n.q, n.waiting, n.claimed)
  }

  // ---- a joint grant keeps it ---------------------------------------------

  lemma GrantTicketValid(n: Node, i: int, now: real)
    requires ValidNode(n) && 0 <= i < |n.waiting|
    ensures ValidNode(GrantTicket(n, i, now))
  {
    hide WF, Tickets, InStep, RemoveAt, Grant, Joint;
    var t := n.waiting[i].token;
    ClaimedWaits(n, i);
    if t in n.claimed { GrantWF(n.q, t, now); }
    GrantFrame(n.q, t, now);
    TicketsGranted(n.waiting, n.active, n.claimed, n.events, n.q.retired, i);
    JointGranted(n.q, GrantTicket(n, i, now).q, n.waiting, n.active, n.claimed, n.events, i);
    RemovedInStep(n.q, GrantTicket(n, i, now).q, n.waiting, n.claimed, i);
  }

  lemma ClaimedWaits(n: Node, i: int)
    requires ValidNode(n) && 0 <= i < |n.waiting|
    ensures if n.waiting[i].token in n.claimed then n.waiting[i].token in n.q.waiting else n.waiting[i].token !in n.q.entries
  {
    hide WF, Tickets, InStep;
    assert n.waiting[i] in n.waiting;
  }

  lemma RemovedMembers(s: seq<Ticket>, i: int)
    requires 0 <= i < |s|
    ensures |RemoveAt(s, i)| == |s| - 1
    ensures forall k :: 0 <= k < |s| - 1 ==> RemoveAt(s, i)[k] == if k < i then s[k] else s[k+1]
    ensures forall x :: x in s ==> x in RemoveAt(s, i) || x == s[i]
  {
    assert s == s[..i] + [s[i]] + s[i+1..];
  }

  lemma RemovedInStep(q: Queue, q': Queue, waiting: seq<Ticket>, claimed: set<Token>, i: int)
    requires InStep(q, waiting, claimed) && 0 <= i < |waiting| && q'.entries == q.entries
    ensures InStep(q', RemoveAt(waiting, i), claimed)
  {
    RemovedMembers(waiting, i);
    hide RemoveAt;
    assert forall a, b :: Before(q', a, b) == Before(q, a, b);
  }

  lemma Remaining(waiting: seq<Ticket>, i: int, x: Ticket)
    requires 0 <= i < |waiting| && x in RemoveAt(waiting, i)
    requires DistinctTokens(waiting)
    ensures x in waiting && x.token != waiting[i].token
  {
    var left := RemoveAt(waiting, i);
    var k :| 0 <= k < |left| && left[k] == x;
    var m := if k < i then k else k + 1;
    assert left[k] == waiting[m];
  }

  lemma TicketsGranted(waiting: seq<Ticket>, active: map<Token, Ticket>, claimed: set<Token>, events: set<Token>, retired: set<Token>, i: int)
    requires Tickets(waiting, active, claimed, events, retired) && 0 <= i < |waiting|
    ensures Tickets(RemoveAt(waiting, i), active[waiting[i].token := waiting[i]], claimed, events, retired)
    ensures forall x :: x in RemoveAt(waiting, i) ==> x in waiting && x.token != waiting[i].token
  {
    forall x | x in RemoveAt(waiting, i) ensures x in waiting && x.token != waiting[i].token {
      Remaining(waiting, i, x);
    }
    RemovedMembers(waiting, i);
    assert waiting[i] in waiting;
    hide RemoveAt;
  }

  lemma GrantFrame(q: Queue, t: Token, now: real)
    ensures var g := Grant(q, t, now);
            && g.entries == q.entries && g.retired == q.retired && g.owners == q.owners && g.patience == q.patience
            && g.active.Keys == q.active.Keys + {t}
            && forall x :: x in g.waiting <==> x in q.waiting && x != t
  {
  }

  lemma JointGranted(q: Queue, q': Queue, waiting: seq<Ticket>, active: map<Token, Ticket>, claimed: set<Token>, events: set<Token>, i: int)
    requires Joint(q, waiting, active, claimed) && 0 <= i < |waiting|
    requires Tickets(waiting, active, claimed, events, q.retired)
    requires q'.entries == q.entries && q'.owners == q.owners
    requires var t := waiting[i].token;
             if t in claimed then q'.active.Keys == q.active.Keys + {t} && forall x :: x in q'.waiting <==> x in q.waiting && x != t
             else q' == q
    ensures Joint(q', RemoveAt(waiting, i), active[waiting[i].token := waiting[i]], claimed)
  {
    hide RemoveAt;
    TicketsGranted(waiting, active, claimed, events, q.retired, i);
    hide Tickets;
    assert waiting[i] in waiting;
  }
}
