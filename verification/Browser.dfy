// Requests to the browser extension: delivered at most once, answered only after delivery,
// and reported as never delivered only when that is true. Models the broker and the
// consumed observations of agent/background_browser.py.

module BrokerModel {
  import opened Settings

  type Request = nat

  const MAX_PENDING: nat := 32

  datatype Outcome = Answered | Failed | Rejected | TimedOut | Uncertain | Stopped | Abandoned

  /** The future of a waiting call: open, or settled with or without success. */
  datatype Future = Open | Settled(good: bool)

  /** The last four fields are the history. */
  datatype Broker = Broker(
    pending: map<Request, Future>,
    claimed: set<Request>,
    queue: seq<Request>,
    closed: bool,
    issued: set<Request>,
    delivered: seq<Request>,
    settled: seq<Request>,
    outcomes: map<Request, Outcome>)

  datatype Step =
    | Call(r: Request, connected: bool)
    | Poll
    | Reply(r: Request, valid: bool, good: bool)
    | Return(r: Request)
    | Expire(r: Request)
    | Drop(r: Request)
    | Close

  predicate Refused(b: Broker, connected: bool) {
    b.closed || !connected || |b.pending| >= MAX_PENDING || |b.queue| >= MAX_PENDING
  }

  /** Fresh request ids; a call ends in its own task, which timers and replies resume. */
  predicate Legal(b: Broker, s: Step) {
    match s
    case Call(r, _) => r !in b.issued
    case Return(r) => r in b.pending && b.pending[r].Settled?
    case Expire(r) => r in b.pending
    case Drop(r) => r in b.pending
    case _ => true
  }

  /** The queue from its first request that somebody still waits for. */
  function Skipped(queue: seq<Request>, pending: map<Request, Future>): (rest: seq<Request>)
    ensures rest == [] || rest[0] in pending
    ensures |rest| <= |queue| && queue[|queue| - |rest|..] == rest
    ensures forall k :: 0 <= k < |queue| - |rest| ==> queue[k] !in pending
  {
    if queue == [] || queue[0] in pending then queue else Skipped(queue[1..], pending)
  }

  predicate Accepts(b: Broker, r: Request) {
    r in b.pending && r in b.claimed && b.pending[r].Open?
  }

  function Ended(b: Broker, r: Request, outcome: Outcome): Broker {
    b.(pending := b.pending - {r}, claimed := b.claimed - {r}, outcomes := b.outcomes[r := outcome])
  }

  function Result(f: Future): Outcome {
    if f.Open? then Stopped else if f.good then Answered else Failed
  }

  function Do(b: Broker, s: Step): Broker
    requires Legal(b, s)
  {
    match s
    case Call(r, connected) =>
      if Refused(b, connected) then b.(issued := b.issued + {r}, outcomes := b.outcomes[r := Rejected])
      else b.(pending := b.pending[r := Open], queue := b.queue + [r], issued := b.issued + {r})
    case Poll =>
      var rest := Skipped(b.queue, b.pending);
      if rest == [] then b.(queue := [])
      else b.(queue := rest[1..], claimed := b.claimed + {rest[0]}, delivered := b.delivered + [rest[0]])
    case Reply(r, valid, good) =>
      if Accepts(b, r) && valid then b.(pending := b.pending[r := Settled(good)], settled := b.settled + [r]) else b
    case Return(r) => Ended(b, r, Result(b.pending[r]))
    case Expire(r) => Ended(b, r, if r in b.claimed then Uncertain else TimedOut)
    case Drop(r) => Ended(b, r, Abandoned)
    case Close =>
      b.(closed := true, pending := map[],
         outcomes := map r | r in b.outcomes.Keys + b.pending.Keys :: if r in b.pending then Result(b.pending[r]) else b.outcomes[r])
  }

  ghost predicate Distinct(s: seq<Request>) {
    forall i, j :: 0 <= i < j < |s| ==> s[i] != s[j]
  }

  ghost predicate Sound(b: Broker) {
    && b.pending.Keys <= b.issued
    && Distinct(b.queue) && Distinct(b.delivered) && Distinct(b.settled)
    && (forall r :: r in b.queue ==> r in b.issued)
    && (forall r :: r in b.delivered ==> r in b.issued && r !in b.queue && (r in b.pending ==> r in b.claimed))
    && (forall r :: r in b.claimed ==> r in b.delivered)
    && (forall r :: r in b.settled ==> r in b.delivered)
    && (forall r :: r in b.pending ==> (r in b.settled <==> b.pending[r].Settled?))
    && (forall r :: r in b.outcomes ==> r in b.issued && r !in b.pending && Honest(b, r))
  }

  /** What the caller was told is true of the history. */
  ghost predicate Honest(b: Broker, r: Request)
    requires r in b.outcomes
  {
    && (b.outcomes[r].TimedOut? || b.outcomes[r].Rejected? ==> r !in b.delivered)
    && (b.outcomes[r].Uncertain? ==> r in b.delivered)
    && (b.outcomes[r].Answered? || b.outcomes[r].Failed? ==> r in b.settled)
  }

  lemma StepSound(b: Broker, s: Step)
    requires Sound(b) && Legal(b, s)
    ensures Sound(Do(b, s))
  {
    hide Sound, Do;
    match s
    case Call(r, connected) => CallSound(b, r, connected);
    case Poll => PollSound(b);
    case Reply(r, valid, good) => ReplySound(b, r, valid, good);
    case Return(r) => EndSound(b, s);
    case Expire(r) => EndSound(b, s);
    case Drop(r) => EndSound(b, s);
    case Close => CloseSound(b);
  }

  lemma CallSound(b: Broker, r: Request, connected: bool)
    requires Sound(b) && r !in b.issued
    ensures Sound(Do(b, Call(r, connected)))
  {
    hide Skipped, Distinct, Refused;
    if r !in b.queue { DistinctMore(b.queue, r); }
  }

  lemma ReplySound(b: Broker, r: Request, valid: bool, good: bool)
    requires Sound(b)
    ensures Sound(Do(b, Reply(r, valid, good)))
  {
    hide Skipped, Distinct;
    if r !in b.settled { DistinctMore(b.settled, r); }
  }

  lemma EndSound(b: Broker, s: Step)
    requires Sound(b) && Legal(b, s) && (s.Return? || s.Expire? || s.Drop?)
    ensures Sound(Do(b, s))
  {
    hide Skipped, Distinct;
  }

  lemma CloseSound(b: Broker)
    requires Sound(b)
    ensures Sound(Do(b, Close))
  {
    hide Skipped, Distinct;
  }

  lemma PollSound(b: Broker)
    requires Sound(b)
    ensures Sound(Do(b, Poll))
  {
    hide Skipped, Distinct;
    SkippedDistinct(b.queue, b.pending);
    var rest := Skipped(b.queue, b.pending);
    NoneLeft();
    if rest != [] {
      assert rest[0] in rest;
      DistinctMore(b.delivered, rest[0]);
    }
  }

  lemma NoneLeft()
    ensures Distinct([])
  {
  }

  lemma DistinctMore(s: seq<Request>, r: Request)
    requires Distinct(s) && r !in s
    ensures Distinct(s + [r])
  {
  }

  lemma {:induction false} SkippedDistinct(queue: seq<Request>, pending: map<Request, Future>)
    requires Distinct(queue)
    ensures var rest := Skipped(queue, pending); Distinct(rest) && forall r :: r in rest ==> r in queue
    ensures var rest := Skipped(queue, pending);
            rest != [] ==> rest[0] !in rest[1..] && Distinct(rest[1..]) && forall r :: r in rest[1..] ==> r in queue
  {
  }

  // ---- runs ----------------------------------------------------------------------

  ghost predicate Next(b: Broker, s: Step, b': Broker) {
    Legal(b, s) && b' == Do(b, s)
  }

  ghost predicate Run(states: seq<Broker>, steps: seq<Step>) {
    && |states| == |steps| + 1
    && states[0] == Broker(map[], {}, [], false, {}, [], [], map[])
    && forall i :: 0 <= i < |steps| ==> Next(states[i], steps[i], states[i+1])
  }

  lemma StepOf(states: seq<Broker>, steps: seq<Step>, i: nat)
    requires Run(states, steps) && i < |steps|
    ensures Legal(states[i], steps[i]) && states[i+1] == Do(states[i], steps[i])
  {
    hide Legal, Do;
    assert Next(states[i], steps[i], states[i+1]);
  }

  lemma {:induction false} AlwaysSound(states: seq<Broker>, steps: seq<Step>, i: nat)
    requires Run(states, steps) && i <= |steps|
    ensures Sound(states[i])
    decreases i
  {
    hide Next, Legal, Do;
    if i > 0 {
      AlwaysSound(states, steps, i - 1);
      StepOf(states, steps, i - 1);
      StepSound(states[i-1], steps[i-1]);
    }
  }

  /** What was told to a caller is never changed, and history only grows. */
  lemma Told(b: Broker, s: Step, r: Request)
    requires Sound(b) && Legal(b, s)
    ensures r in b.outcomes ==> r in Do(b, s).outcomes && Do(b, s).outcomes[r] == b.outcomes[r]
    ensures b.delivered <= Do(b, s).delivered && b.settled <= Do(b, s).settled && b.issued <= Do(b, s).issued
  {
  }

  lemma {:induction false} ToldForEver(states: seq<Broker>, steps: seq<Step>, i: nat, j: nat, r: Request)
    requires Run(states, steps) && i <= j <= |steps| && r in states[i].outcomes
    ensures r in states[j].outcomes && states[j].outcomes[r] == states[i].outcomes[r]
    decreases j
  {
    hide Next, Legal, Do;
    if i < j {
      ToldForEver(states, steps, i, j - 1, r);
      AlwaysSound(states, steps, j - 1);
      StepOf(states, steps, j - 1);
      Told(states[j-1], steps[j-1], r);
    }
  }

  /** A call reported as timed out was not and will never be delivered, one reported as
      uncertain was. */
  lemma ReportsAreTrue(states: seq<Broker>, steps: seq<Step>, i: nat, j: nat, r: Request)
    requires Run(states, steps) && i <= |steps| && j <= |steps| && r in states[i].outcomes
    ensures states[i].outcomes[r].TimedOut? || states[i].outcomes[r].Rejected? ==> r !in states[j].delivered
    ensures states[i].outcomes[r].Uncertain? ==> r in states[i].delivered
    ensures states[i].outcomes[r].Answered? ==> r in states[i].settled && r in states[i].delivered
  {
    AlwaysSound(states, steps, i);
    assert Honest(states[i], r);
    if j >= i {
      ToldForEver(states, steps, i, j, r);
      AlwaysSound(states, steps, j);
      assert Honest(states[j], r);
    } else {
      DeliveredGrows(states, steps, j, i);
    }
  }

  lemma {:induction false} DeliveredGrows(states: seq<Broker>, steps: seq<Step>, i: nat, j: nat)
    requires Run(states, steps) && i <= j <= |steps|
    ensures states[i].delivered <= states[j].delivered
    decreases j
  {
    hide Next, Legal, Do;
    if i < j {
      DeliveredGrows(states, steps, i, j - 1);
      AlwaysSound(states, steps, j - 1);
      StepOf(states, steps, j - 1);
      Told(states[j-1], steps[j-1], 0);
    }
  }

  /** Among the first `i` steps the browser's one accepted reply to a request, good or bad. */
  ghost predicate Replied(states: seq<Broker>, steps: seq<Step>, i: nat, r: Request, good: bool)
    requires |states| == |steps| + 1 && i <= |steps|
  {
    exists k :: 0 <= k < i && steps[k] == Reply(r, true, good) && r !in states[k].settled && r in states[k+1].settled
  }

  lemma RepliedOn(states: seq<Broker>, steps: seq<Step>, i: nat, r: Request, good: bool)
    requires |states| == |steps| + 1 && 0 < i <= |steps|
    requires Replied(states, steps, i - 1, r, good)
             || (steps[i-1] == Reply(r, true, good) && r !in states[i-1].settled && r in states[i].settled)
    ensures Replied(states, steps, i, r, good)
  {
    if !Replied(states, steps, i - 1, r, good) {
      var k := i - 1;
      assert steps[k] == Reply(r, true, good) && r !in states[k].settled && r in states[k+1].settled;
    }
  }

  lemma AnswerStep(b: Broker, s: Step, r: Request, good: bool)
    requires Sound(b) && Legal(b, s)
    ensures r in Do(b, s).pending && Do(b, s).pending[r] == Settled(good) ==>
              || (r in b.pending && b.pending[r] == Settled(good))
              || (s == Reply(r, true, good) && r !in b.settled && r in Do(b, s).settled)
    ensures r in Do(b, s).outcomes && Do(b, s).outcomes[r] == (if good then Answered else Failed) ==>
              || (r in b.outcomes && b.outcomes[r] == if good then Answered else Failed)
              || (r in b.pending && b.pending[r] == Settled(good))
  {
    hide Skipped, Distinct;
  }

  /** A caller is told of a success only if the browser's accepted reply was good, and of a
      failure only if it was bad. */
  lemma {:induction false} AnswersAreReplies(states: seq<Broker>, steps: seq<Step>, i: nat, r: Request, good: bool)
    requires Run(states, steps) && i <= |steps|
    ensures r in states[i].pending && states[i].pending[r] == Settled(good) ==> Replied(states, steps, i, r, good)
    ensures r in states[i].outcomes && states[i].outcomes[r] == (if good then Answered else Failed) ==> Replied(states, steps, i, r, good)
    decreases i
  {
    hide Next, Legal, Do, Sound, Replied;
    if i > 0 {
      AnswersAreReplies(states, steps, i - 1, r, good);
      AlwaysSound(states, steps, i - 1);
      StepOf(states, steps, i - 1);
      AnswerStep(states[i-1], steps[i-1], r, good);
      if Replied(states, steps, i - 1, r, good)
         || (steps[i-1] == Reply(r, true, good) && r !in states[i-1].settled && r in states[i].settled) {
        RepliedOn(states, steps, i, r, good);
      }
    }
  }

  /** Each request is handed to the browser at most once and settled at most once, and
      settled only after it was handed over. */
  lemma AtMostOnce(states: seq<Broker>, steps: seq<Step>, i: nat)
    requires Run(states, steps) && i <= |steps|
    ensures Distinct(states[i].delivered) && Distinct(states[i].settled)
    ensures forall r :: r in states[i].settled ==> r in states[i].delivered
  {
    hide Next;
    AlwaysSound(states, steps, i);
  }
}

// One observation of a page drives at most one action, whatever crashes.

module Leases {
  import opened Settings

  type Id = string

  /** `observation` is the saved row; `armed` the action about to be sent; `sent` its history. */
  datatype Lease = Lease(ready: bool, observation: Option<Id>, armed: Option<Id>, issued: set<Id>, sent: seq<Id>)

  datatype Step = Observe(id: Id) | Consume(id: Id) | Dispatch | Crash | Release

  predicate Legal(l: Lease, s: Step) {
    match s
    case Observe(id) => l.armed.None? && id !in l.issued
    case Consume(_) => l.armed.None?
    case Dispatch => l.armed.Some?
    case _ => true
  }

  /** The saved row forgets the observation before the request is sent. */
  function Do(l: Lease, s: Step): Lease
    requires Legal(l, s)
  {
    match s
    case Observe(id) => if l.ready then l.(observation := Some(id), issued := l.issued + {id}) else l
    case Consume(id) => if l.ready && l.observation == Some(id) then l.(observation := None, armed := Some(id)) else l
    case Dispatch => l.(armed := None, sent := l.sent + [l.armed.value])
    case Crash => l.(armed := None)
    case Release => l.(ready := false, observation := None)
  }

  ghost predicate Sound(l: Lease) {
    && (forall i, j :: 0 <= i < j < |l.sent| ==> l.sent[i] != l.sent[j])
    && (forall id :: id in l.sent ==> id in l.issued && l.observation != Some(id) && l.armed != Some(id))
    && (l.observation.Some? ==> l.observation.value in l.issued && l.observation != l.armed)
    && (l.armed.Some? ==> l.armed.value in l.issued)
  }

  ghost predicate Next(l: Lease, s: Step, l': Lease) {
    Legal(l, s) && l' == Do(l, s)
  }

  ghost predicate Run(states: seq<Lease>, steps: seq<Step>) {
    && |states| == |steps| + 1 && states[0] == Lease(true, None, None, {}, [])
    && forall i :: 0 <= i < |steps| ==> Next(states[i], steps[i], states[i+1])
  }

  /** An observation can be acted on: observed, consumed and sent. After a crash in between, or
      once it was sent, the same observation arms nothing any more. */
  lemma ActedOn(l: Lease, id: Id)
    requires l.ready && l.armed.None? && id !in l.issued
    ensures var c := Do(Do(l, Observe(id)), Consume(id));
            && c.armed == Some(id) && Do(c, Dispatch).sent == l.sent + [id]
            && Do(Do(c, Dispatch), Consume(id)).armed.None? && Do(Do(c, Crash), Consume(id)).armed.None?
            && Do(c, Crash).sent == l.sent
  {
  }

  /** Over any run with crashes between consuming and sending, no observation is acted on twice. */
  lemma {:induction false} ActedOnce(states: seq<Lease>, steps: seq<Step>, i: nat)
    requires Run(states, steps) && i <= |steps|
    ensures Sound(states[i])
    ensures forall a, b :: 0 <= a < b < |states[i].sent| ==> states[i].sent[a] != states[i].sent[b]
    decreases i
  {
    if i > 0 {
      ActedOnce(states, steps, i - 1);
      assert Next(states[i-1], steps[i-1], states[i]);
    }
  }
}

module BrowserBrokers {
  import opened Settings
  import opened BrokerModel

  class BrowserBroker {
    var pending: map<Request, Future>
    var claimed: set<Request>
    var queue: seq<Request>
    var closed: bool
    ghost var issued: set<Request>
    ghost var delivered: seq<Request>
    ghost var settled: seq<Request>
    ghost var outcomes: map<Request, Outcome>

    ghost function State(): Broker
      reads this
    {
      Broker(pending, claimed, queue, closed, issued, delivered, settled, outcomes)
    }

    ghost predicate Valid()
      reads this
    {
      Sound(State())
    }

    constructor ()
      ensures Valid() && State() == Broker(map[], {}, [], false, {}, [], [], map[])
    {
      pending, claimed, queue, closed := map[], {}, [], false;
      issued, delivered, settled, outcomes := {}, [], [], map[];
    }

    /** The first half of `rpc`, up to its wait. */
    method Call(r: Request, connected: bool) returns (accepted: bool)
      requires Valid() && r !in issued
      modifies this
      ensures Valid() && State() == Do(old(State()), Step.Call(r, connected))
      ensures accepted <==> !old(closed) && connected && |old(pending)| < 32 && |old(queue)| < 32
      ensures accepted ==> pending == old(pending)[r := Open] && queue == old(queue) + [r]
      ensures !accepted ==> pending == old(pending) && queue == old(queue) && outcomes == old(outcomes)[r := Rejected]
    {
      hide Sound;
      Unissued(State(), r);
      StepSound(State(), Step.Call(r, connected));
      issued := issued + {r};
      if closed || !connected || |pending| >= MAX_PENDING {
        outcomes := outcomes[r := Rejected];
        return false;
      }
      if |queue| >= MAX_PENDING {
        outcomes := outcomes[r := Rejected];
        return false;
      }
      pending := pending[r := Open];
      queue := queue + [r];
      return true;
    }

    /** The wait ends without an answer: the report depends on whether a poll took the request. */
    method Expire(r: Request) returns (outcome: Outcome)
      requires Valid() && r in pending
      modifies this
      ensures Valid() && State() == Do(old(State()), Step.Expire(r))
      ensures outcome == if r in old(delivered) then Uncertain else TimedOut
      ensures outcomes == old(outcomes)[r := outcome] && pending == old(pending) - {r}
    {
      hide Sound;
      ClaimedIsDelivered(State(), r);
      StepSound(State(), Step.Expire(r));
      outcome := if r in claimed then Uncertain else TimedOut;
      Forget(r, outcome);
    }

    /** The caller gives up waiting, and nobody is told anything. */
    method Drop(r: Request)
      requires Valid() && r in pending
      modifies this
      ensures Valid() && State() == Do(old(State()), Step.Drop(r))
      ensures pending == old(pending) - {r} && claimed == old(claimed) - {r} && queue == old(queue) && delivered == old(delivered)
    {
      hide Sound;
      StepSound(State(), Step.Drop(r));
      Forget(r, Abandoned);
    }

    /** The wait ends with the settled future. */
    method Return(r: Request) returns (outcome: Outcome)
      requires Valid() && r in pending && pending[r].Settled?
      modifies this
      ensures Valid() && State() == Do(old(State()), Step.Return(r))
      ensures outcome == if old(pending)[r].good then Answered else Failed
      ensures outcomes == old(outcomes)[r := outcome] && pending == old(pending) - {r}
    {
      hide Sound;
      StepSound(State(), Step.Return(r));
      outcome := if pending[r].good then Answered else Failed;
      Forget(r, outcome);
    }

    method Forget(r: Request, ghost outcome: Outcome)
      modifies `pending, `claimed, `outcomes
      ensures pending == old(pending) - {r} && claimed == old(claimed) - {r} && outcomes == old(outcomes)[r := outcome]
    {
      pending, claimed, outcomes := pending - {r}, claimed - {r}, outcomes[r := outcome];
    }

    /** Hand the oldest request that is still waited for to the browser. */
    method Poll() returns (request: Option<Request>)
      requires Valid()
      modifies `queue, `claimed, `delivered
      ensures Valid() && State() == Do(old(State()), Step.Poll)
      ensures request.Some? ==> request.value in pending && delivered == old(delivered) + [request.value]
      ensures request.Some? ==> exists k :: 0 <= k < |old(queue)| && old(queue)[k] == request.value && queue == old(queue)[k+1..]
                                            && forall m :: 0 <= m < k ==> old(queue)[m] !in pending
      ensures request.None? ==> delivered == old(delivered) && forall r :: r in old(queue) ==> r !in pending
    {
      hide Sound, Skipped;
      StepSound(State(), Step.Poll);
      SkippedDead(queue, pending);
      var rest := Waited(queue, pending);
      if rest == [] {
        queue := [];
        return None;
      }
      ghost var k := |queue| - |rest|;
      assert queue[k] == rest[0] && queue[k+1..] == rest[1..];
      queue, claimed, delivered := rest[1..], claimed + {rest[0]}, delivered + [rest[0]];
      return Some(rest[0]);
    }

    /** Answers count only for requests handed over, still waited for and not yet answered. */
    method Reply(r: Request, valid: bool, good: bool) returns (accepted: bool)
      requires Valid()
      modifies this
      ensures Valid() && State() == Do(old(State()), Step.Reply(r, valid, good))
      ensures accepted <==> valid && r in old(pending) && r in old(claimed) && old(pending)[r].Open?
      ensures accepted ==> pending == old(pending)[r := Settled(good)]
    {
      hide Sound;
      StepSound(State(), Step.Reply(r, valid, good));
      if r !in pending || r !in claimed || pending[r].Settled? || !valid {
        return false;
      }
      pending, settled := pending[r := Settled(good)], settled + [r];
      return true;
    }

    method Close()
      requires Valid()
      modifies this
      ensures Valid() && State() == Do(old(State()), Step.Close) && closed && pending == map[]
      ensures forall r :: r in old(pending) ==>
                r in outcomes && outcomes[r] == if old(pending)[r].Open? then Stopped else if old(pending)[r].good then Answered else Failed
    {
      hide Sound;
      StepSound(State(), Step.Close);
      outcomes := map r | r in outcomes.Keys + pending.Keys :: if r in pending then Result(pending[r]) else outcomes[r];
      closed, pending := true, map[];
    }
  }

  /** Take requests off the queue until one is still waited for. */
  method Waited(queue: seq<Request>, pending: map<Request, Future>) returns (rest: seq<Request>)
    ensures rest == Skipped(queue, pending)
  {
    rest := queue;
    while rest != [] && rest[0] !in pending
      invariant Skipped(rest, pending) == Skipped(queue, pending)
    {
      rest := rest[1..];
    }
  }

  lemma {:induction false} SkippedDead(queue: seq<Request>, pending: map<Request, Future>)
    ensures var rest := Skipped(queue, pending);
            if rest == [] then forall r :: r in queue ==> r !in pending else rest[0] in pending
  {
    if queue != [] && queue[0] !in pending { SkippedDead(queue[1..], pending); }
  }

  lemma ClaimedIsDelivered(b: Broker, r: Request)
    requires Sound(b) && r in b.pending
    ensures r in b.claimed <==> r in b.delivered
  {
  }

  lemma Unissued(b: Broker, r: Request)
    requires Sound(b) && r !in b.issued
    ensures r !in b.pending
  {
  }
}
