// Flow control of transcript sync: a window clocked by acknowledgements, and a growing
// delay for sessions that make no progress. Models agent/native_sync_flow.py.

module FlowModel {
  import opened Settings

  type Sid = string

  const WINDOW: nat := 2
  const INFLIGHT_TIMEOUT: real := 20.0
  const MAX_INFLIGHT_ENTRIES: nat := 256
  const NO_PROGRESS_INITIAL: real := 1.0
  const NO_PROGRESS_MAX: real := 300.0
  const CACHE_QUOTA_INITIAL: real := 30.0
  const DEFERRED_DEFAULT: real := 2.0
  const PAUSE_INITIAL: real := 120.0
  const PAUSE_MAX: real := 3600.0
  const MAX_FAILURES: nat := 64

  /** `chunks` maps each session to the offset where its chunk ends. */
  datatype Entry = Entry(seqno: nat, sent: real, chunks: map<Sid, int>)

  /** `misses` counts the outcomes without progress since the session was last forgotten;
      the program keeps only the other two. */
  datatype Wait = Wait(until: real, delay: real, misses: nat)

  datatype Pause = Pause(until: real, failures: nat)

  /** `permit` is the answer of the last window check, until it is used; `left` are the
      packets that are no longer in flight. */
  datatype Flow = Flow(
    inflight: seq<Entry>,
    seqno: nat,
    waits: map<Sid, Wait>,
    paused: map<Sid, Pause>,
    permit: bool,
    left: seq<nat>)

  /** `seqs` is absent in acknowledgements of old hubs. */
  datatype Ack = Ack(seqs: Option<set<nat>>, offsets: map<Sid, int>, rejected: set<Sid>, deferred: map<Sid, string>)

  function Lower(a: real, b: real): real { if a <= b then a else b }

  function Upper(a: real, b: real): real { if a <= b then b else a }

  function Pow2(k: nat): (r: real)
    ensures r >= 1.0
  {
    if k == 0 then 1.0 else 2.0 * Pow2(k - 1)
  }

  // ---- one session --------------------------------------------------------------

  function Initial(reason: Option<string>): real {
    if reason.None? || reason.value == "" then NO_PROGRESS_INITIAL
    else if reason.value == "cache_quota" then CACHE_QUOTA_INITIAL
    else DEFERRED_DEFAULT
  }

  /** `_no_progress`: the delay doubles, within bounds. */
  function Missed(w: Option<Wait>, reason: Option<string>, now: real): Wait {
    var last := if w.Some? then w.value.delay else 0.0;
    var delay := Lower(NO_PROGRESS_MAX, Upper(Initial(reason), last * 2.0));
    Wait(now + delay, delay, (if w.Some? then w.value.misses else 0) + 1)
  }

  function Get<T>(m: map<Sid, T>, sid: Sid): Option<T> {
    if sid in m then Some(m[sid]) else None
  }

  function MissAll(waits: map<Sid, Wait>, sids: set<Sid>, now: real): map<Sid, Wait> {
    map sid | sid in waits.Keys + sids :: if sid in sids then Missed(Get(waits, sid), None, now) else waits[sid]
  }

  /** Exponential growth: after `k` outcomes without progress at least `2^(k-1)` seconds, up to the cap. */
  ghost predicate Backed(w: Wait) {
    w.misses >= 1 && w.delay <= NO_PROGRESS_MAX && w.delay >= Lower(NO_PROGRESS_MAX, Pow2(w.misses - 1))
  }

  ghost predicate AllBacked(waits: map<Sid, Wait>) {
    forall sid :: sid in waits ==> Backed(waits[sid])
  }

  lemma MissedBacked(w: Option<Wait>, reason: Option<string>, now: real)
    requires w.Some? ==> Backed(w.value)
    ensures Backed(Missed(w, reason, now)) && Missed(w, reason, now).until == now + Missed(w, reason, now).delay
  {
    if w.Some? {
      assert Pow2(w.value.misses) == 2.0 * Pow2(w.value.misses - 1);
    }
  }

  // ---- the window ------------------------------------------------------------------

  function Loaded(inflight: seq<Entry>): nat {
    if inflight == [] then 0
    else Loaded(inflight[..|inflight| - 1]) + if inflight[|inflight| - 1].chunks != map[] then 1 else 0
  }

  predicate Overdue(e: Entry, now: real) {
    now - e.sent > INFLIGHT_TIMEOUT
  }

  /** Drop overdue packets from the front; their sessions made no progress. */
  function Expired(f: Flow, now: real, wall: real): Flow
    decreases |f.inflight|
  {
    if f.inflight == [] || !Overdue(f.inflight[0], now) then f
    else
      var e := f.inflight[0];
      Expired(f.(inflight := f.inflight[1..], waits := MissAll(f.waits, e.chunks.Keys, wall), left := f.left + [e.seqno]), now, wall)
  }

  /** The packets of an acknowledgement: the named ones, or the oldest. */
  predicate Named(ack: Ack, e: Entry) {
    ack.seqs.Some? && e.seqno in ack.seqs.value
  }

  function Taken(inflight: seq<Entry>, ack: Ack): seq<Entry> {
    if ack.seqs.None? then (if inflight == [] then [] else inflight[..1])
    else Filtered(inflight, ack, true)
  }

  function Rest(inflight: seq<Entry>, ack: Ack): seq<Entry> {
    if ack.seqs.None? then (if inflight == [] then [] else inflight[1..])
    else Filtered(inflight, ack, false)
  }

  function Filtered(inflight: seq<Entry>, ack: Ack, named: bool): (r: seq<Entry>)
    ensures forall e :: e in r <==> e in inflight && Named(ack, e) == named
    ensures |r| <= |inflight|
  {
    if inflight == [] then []
    else
      var last := inflight[|inflight| - 1];
      Filtered(inflight[..|inflight| - 1], ack, named) + if Named(ack, last) == named then [last] else []
  }

  function Numbers(inflight: seq<Entry>): (r: seq<nat>)
    ensures |r| == |inflight| && forall k :: 0 <= k < |r| ==> r[k] == inflight[k].seqno
  {
    if inflight == [] then [] else Numbers(inflight[..|inflight| - 1]) + [inflight[|inflight| - 1].seqno]
  }

  // ---- acknowledgements ---------------------------------------------------------------

  predicate Judged(e: Entry, ack: Ack, sid: Sid) {
    sid in e.chunks && sid !in ack.rejected
  }

  predicate Progressed(e: Entry, ack: Ack, sid: Sid) {
    sid in e.chunks && sid in ack.offsets && ack.offsets[sid] >= e.chunks[sid]
  }

  /** What one acknowledged packet means for its sessions: progress ends the waiting, the
      lack of it prolongs it, and a refusal is not judged here. */
  function Credited(waits: map<Sid, Wait>, e: Entry, ack: Ack, now: real): map<Sid, Wait> {
    map sid | sid in waits.Keys + e.chunks.Keys && (if Judged(e, ack, sid) then !Progressed(e, ack, sid) else sid in waits) ::
      if Judged(e, ack, sid) then Missed(Get(waits, sid), Get(ack.deferred, sid), now) else waits[sid]
  }

  function CreditedAll(waits: map<Sid, Wait>, entries: seq<Entry>, ack: Ack, now: real): map<Sid, Wait> {
    if entries == [] then waits
    else Credited(CreditedAll(waits, entries[..|entries| - 1], ack, now), entries[|entries| - 1], ack, now)
  }

  function PauseDelay(failures: nat): real
    requires failures >= 1
  {
    Lower(PAUSE_MAX, PAUSE_INITIAL * Pow2(failures - 1))
  }

  function Paused(p: Option<Pause>, now: real): Pause {
    var failures := if p.None? then 1 else if p.value.failures + 1 < MAX_FAILURES then p.value.failures + 1 else MAX_FAILURES;
    Pause(now + PauseDelay(failures), failures)
  }

  function PauseAll(paused: map<Sid, Pause>, rejected: set<Sid>, now: real): map<Sid, Pause> {
    map sid | sid in paused.Keys + rejected :: if sid in rejected then Paused(Get(paused, sid), now) else paused[sid]
  }

  function Acked(f: Flow, ack: Ack, now: real): Flow {
    f.(inflight := Rest(f.inflight, ack),
       left := f.left + Numbers(Taken(f.inflight, ack)),
       paused := PauseAll(f.paused, ack.rejected, now) - (ack.offsets.Keys - ack.rejected),
       waits := CreditedAll(f.waits - ack.rejected, Taken(f.inflight, ack), ack, now))
  }

  // ---- steps -------------------------------------------------------------------------

  datatype Step =
    | Check(now: real, wall: real)
    | Number
    | Send(n: nat, chunks: map<Sid, int>, now: real)
    | Acknowledge(ack: Ack, wall: real)
    | Reset
    | Forget(wall: real)

  /** The sender's loop: chunks only after the window was found open, the number drawn last,
      and a clock that does not run back. */
  predicate Legal(f: Flow, s: Step) {
    match s
    case Send(n, chunks, now) =>
      && (chunks != map[] ==> f.permit) && n <= f.seqno && n !in f.left
      && forall e :: e in f.inflight ==> e.sent <= now && e.seqno < n
    case _ => true
  }

  function Capped(f: Flow): Flow {
    if |f.inflight| > MAX_INFLIGHT_ENTRIES
    then f.(inflight := f.inflight[1..], left := f.left + [f.inflight[0].seqno])
    else f
  }

  function Remembered(waits: map<Sid, Wait>, wall: real): map<Sid, Wait> {
    map sid | sid in waits && waits[sid].until + NO_PROGRESS_MAX >= wall :: waits[sid]
  }

  function Do(f: Flow, s: Step): Flow {
    match s
    case Check(now, wall) => var e := Expired(f, now, wall); e.(permit := Loaded(e.inflight) < WINDOW)
    case Number => f.(seqno := f.seqno + 1)
    case Send(n, chunks, now) => Capped(f.(inflight := f.inflight + [Entry(n, now, chunks)], permit := false))
    case Acknowledge(ack, wall) => Acked(f, ack, wall)
    case Reset => f.(inflight := [], left := f.left + Numbers(f.inflight))
    case Forget(wall) => f.(waits := Remembered(f.waits, wall))
  }

  /** Sequence numbers and send times grow along the queue. */
  ghost predicate Ordered(inflight: seq<Entry>) {
    forall i, j :: 0 <= i < j < |inflight| ==> inflight[i].seqno < inflight[j].seqno && inflight[i].sent <= inflight[j].sent
  }

  ghost predicate Once(inflight: seq<Entry>, left: seq<nat>, seqno: nat) {
    && (forall i, j :: 0 <= i < j < |left| ==> left[i] != left[j])
    && (forall n :: n in left ==> n <= seqno)
    && (forall e :: e in inflight ==> e.seqno <= seqno && e.seqno !in left)
  }

  ghost predicate Sound(f: Flow) {
    && Ordered(f.inflight) && Once(f.inflight, f.left, f.seqno)
    && Loaded(f.inflight) <= WINDOW && (f.permit ==> Loaded(f.inflight) < WINDOW)
    && |f.inflight| <= MAX_INFLIGHT_ENTRIES
    && AllBacked(f.waits)
  }

  // ---- removing packets -----------------------------------------------------------------

  lemma {:induction false} LoadedAppend(a: seq<Entry>, b: seq<Entry>)
    ensures Loaded(a + b) == Loaded(a) + Loaded(b)
    decreases |b|
  {
    if b == [] {
      assert a + b == a;
    } else {
      assert (a + b)[..|a + b| - 1] == a + b[..|b| - 1];
      LoadedAppend(a, b[..|b| - 1]);
    }
  }

  lemma LoadedTail(s: seq<Entry>)
    requires s != []
    ensures Loaded(s[1..]) <= Loaded(s)
  {
    assert s == s[..1] + s[1..];
    LoadedAppend(s[..1], s[1..]);
  }

  lemma {:induction false} FilteredLoaded(s: seq<Entry>, ack: Ack, named: bool)
    ensures Loaded(Filtered(s, ack, named)) <= Loaded(s)
    decreases |s|
  {
    hide Loaded, Named;
    if s != [] {
      var front, last := s[..|s| - 1], s[|s| - 1];
      FilteredLoaded(front, ack, named);
      LoadedAppend(Filtered(front, ack, named), [last]);
      LoadedAppend(front, [last]);
      assert front + [last] == s;
      assert Filtered(front, ack, named) + [] == Filtered(front, ack, named);
    } else {
      assert Filtered(s, ack, named) == s;
    }
  }

  lemma {:induction false} FilteredOrdered(s: seq<Entry>, ack: Ack, named: bool)
    requires Ordered(s)
    ensures Ordered(Filtered(s, ack, named))
    decreases |s|
  {
    if s != [] {
      var front := s[..|s| - 1];
      FilteredOrdered(front, ack, named);
      assert forall e :: e in front ==> e.seqno < s[|s| - 1].seqno && e.sent <= s[|s| - 1].sent;
    }
  }

  /** Packets that leave the queue are counted as gone, once. */
  lemma Leaves(inflight: seq<Entry>, left: seq<nat>, seqno: nat, taken: seq<Entry>, rest: seq<Entry>)
    requires Once(inflight, left, seqno) && Ordered(taken)
    requires forall e :: e in taken ==> e in inflight
    requires forall e :: e in rest ==> e in inflight && forall t :: t in taken ==> t.seqno != e.seqno
    ensures Once(rest, left + Numbers(taken), seqno)
  {
    var gone := left + Numbers(taken);
    forall i, j | 0 <= i < j < |gone| ensures gone[i] != gone[j] {
      if j >= |left| {
        assert taken[j - |left|] in inflight && gone[j] == taken[j - |left|].seqno;
      }
    }
    forall n | n in gone ensures n <= seqno {
      var k :| 0 <= k < |gone| && gone[k] == n;
      if k >= |left| { assert taken[k - |left|] in inflight; }
    }
    forall e | e in rest ensures e.seqno <= seqno && e.seqno !in gone {
      NotNumbered(taken, e.seqno);
    }
  }

  lemma NotNumbered(taken: seq<Entry>, n: nat)
    requires forall t :: t in taken ==> t.seqno != n
    ensures n !in Numbers(taken)
  {
    forall k | 0 <= k < |taken| ensures Numbers(taken)[k] != n { assert taken[k] in taken; }
  }

  lemma SeqnosDiffer(s: seq<Entry>, a: Entry, b: Entry)
    requires Ordered(s) && a in s && b in s && a.seqno == b.seqno
    ensures a == b
  {
  }

  lemma FirstLeaves(f: Flow)
    requires Ordered(f.inflight) && Once(f.inflight, f.left, f.seqno) && f.inflight != []
    ensures Ordered(f.inflight[1..]) && Once(f.inflight[1..], f.left + [f.inflight[0].seqno], f.seqno)
    ensures Loaded(f.inflight[1..]) <= Loaded(f.inflight)
  {
    LoadedTail(f.inflight);
    var head, rest := f.inflight[..1], f.inflight[1..];
    assert forall k :: 0 <= k < |rest| ==> rest[k] == f.inflight[k+1];
    Leaves(f.inflight, f.left, f.seqno, head, rest);
    assert head[..0] == [];
    assert Numbers(head) == [f.inflight[0].seqno];
  }

  // ---- every step keeps it -----------------------------------------------------------------

  /** After expiry nothing in flight is overdue, although only the front was looked at. */
  lemma {:induction false} ExpiredSound(f: Flow, now: real, wall: real)
    requires Sound(f.(permit := false))
    ensures var e := Expired(f, now, wall);
            && Sound(e.(permit := false)) && e.permit == f.permit && Loaded(e.inflight) <= Loaded(f.inflight)
            && forall k :: 0 <= k < |e.inflight| ==> !Overdue(e.inflight[k], now)
    decreases |f.inflight|
  {
    if f.inflight != [] && Overdue(f.inflight[0], now) {
      var e := f.inflight[0];
      FirstLeaves(f);
      MissAllBacked(f.waits, e.chunks.Keys, wall);
      ExpiredSound(f.(inflight := f.inflight[1..], waits := MissAll(f.waits, e.chunks.Keys, wall), left := f.left + [e.seqno]), now, wall);
    }
  }

  lemma MissAllBacked(waits: map<Sid, Wait>, sids: set<Sid>, now: real)
    requires AllBacked(waits)
    ensures AllBacked(MissAll(waits, sids, now))
  {
    hide Backed, Missed;
    forall sid | sid in sids ensures Backed(Missed(Get(waits, sid), None, now)) {
      MissedBacked(Get(waits, sid), None, now);
    }
  }

  lemma CreditedBacked(waits: map<Sid, Wait>, e: Entry, ack: Ack, now: real)
    requires AllBacked(waits)
    ensures AllBacked(Credited(waits, e, ack, now))
  {
    hide Backed, Missed;
    forall sid ensures Backed(Missed(Get(waits, sid), Get(ack.deferred, sid), now)) {
      MissedBacked(Get(waits, sid), Get(ack.deferred, sid), now);
    }
  }

  lemma {:induction false} CreditedAllBacked(waits: map<Sid, Wait>, entries: seq<Entry>, ack: Ack, now: real)
    requires AllBacked(waits)
    ensures AllBacked(CreditedAll(waits, entries, ack, now))
    decreases |entries|
  {
    hide AllBacked, Credited;
    if entries != [] {
      var front := entries[..|entries| - 1];
      CreditedAllBacked(waits, front, ack, now);
      CreditedBacked(CreditedAll(waits, front, ack, now), entries[|entries| - 1], ack, now);
    }
  }

  lemma AckedSound(f: Flow, ack: Ack, now: real)
    requires Sound(f)
    ensures Sound(Acked(f, ack, now))
  {
    hide CreditedAll, Ordered, Once, Loaded, Rest, Taken, PauseAll;
    CreditedAllBacked(f.waits - ack.rejected, Taken(f.inflight, ack), ack, now);
    AckLeaves(f, ack);
  }

  lemma AckLeaves(f: Flow, ack: Ack)
    requires Ordered(f.inflight) && Once(f.inflight, f.left, f.seqno)
    ensures var rest := Rest(f.inflight, ack);
            && Ordered(rest) && Once(rest, f.left + Numbers(Taken(f.inflight, ack)), f.seqno)
            && Loaded(rest) <= Loaded(f.inflight) && |rest| <= |f.inflight|
  {
    if ack.seqs.None? {
      if f.inflight != [] {
        FirstLeaves(f);
        assert f.inflight[..1][..0] == [];
        assert Numbers(f.inflight[..1]) == [f.inflight[0].seqno];
      } else {
        assert f.left + [] == f.left;
      }
    } else {
      FilteredLoaded(f.inflight, ack, false);
      FilteredOrdered(f.inflight, ack, false);
      FilteredOrdered(f.inflight, ack, true);
      forall e, t | e in Rest(f.inflight, ack) && t in Taken(f.inflight, ack) ensures t.seqno != e.seqno {
        if t.seqno == e.seqno { SeqnosDiffer(f.inflight, e, t); }
      }
      Leaves(f.inflight, f.left, f.seqno, Taken(f.inflight, ack), Rest(f.inflight, ack));
    }
  }

  lemma SendSound(f: Flow, n: nat, chunks: map<Sid, int>, now: real)
    requires Sound(f) && Legal(f, Send(n, chunks, now))
    ensures Sound(Do(f, Send(n, chunks, now)))
  {
    hide AllBacked, Ordered, Once, Loaded;
    var e := Entry(n, now, chunks);
    var g := f.(inflight := f.inflight + [e], permit := false);
    Enters(f.inflight, f.left, f.seqno, e);
    if |g.inflight| > MAX_INFLIGHT_ENTRIES { FirstLeaves(g); }
  }

  lemma Enters(inflight: seq<Entry>, left: seq<nat>, seqno: nat, e: Entry)
    requires Ordered(inflight) && Once(inflight, left, seqno)
    requires e.seqno <= seqno && e.seqno !in left && forall x :: x in inflight ==> x.sent <= e.sent && x.seqno < e.seqno
    ensures Ordered(inflight + [e]) && Once(inflight + [e], left, seqno)
    ensures Loaded(inflight + [e]) == Loaded(inflight) + if e.chunks != map[] then 1 else 0
  {
    assert forall k :: 0 <= k < |inflight| ==> inflight[k] in inflight;
    assert (inflight + [e])[..|inflight|] == inflight;
  }

  lemma ResetSound(f: Flow)
    requires Sound(f)
    ensures Sound(Do(f, Reset))
  {
    hide Backed;
    Leaves(f.inflight, f.left, f.seqno, f.inflight, []);
  }

  lemma StepSound(f: Flow, s: Step)
    requires Sound(f) && Legal(f, s)
    ensures Sound(Do(f, s))
  {
    match s
    case Check(now, wall) => ExpiredSound(f, now, wall);
    case Number =>
    case Send(n, chunks, now) => SendSound(f, n, chunks, now);
    case Acknowledge(ack, wall) => AckedSound(f, ack, wall);
    case Reset => ResetSound(f);
    case Forget(wall) =>
  }

  // ---- runs ------------------------------------------------------------------------------

  ghost predicate Next(f: Flow, s: Step, f': Flow) {
    Legal(f, s) && f' == Do(f, s)
  }

  ghost predicate Run(states: seq<Flow>, steps: seq<Step>) {
    && |states| == |steps| + 1
    && states[0].inflight == [] && states[0].waits == map[] && states[0].left == [] && !states[0].permit
    && forall i :: 0 <= i < |steps| ==> Next(states[i], steps[i], states[i+1])
  }

  lemma StepOf(states: seq<Flow>, steps: seq<Step>, i: nat)
    requires Run(states, steps) && i < |steps|
    ensures Legal(states[i], steps[i]) && states[i+1] == Do(states[i], steps[i])
  {
    hide Legal, Do;
    assert Next(states[i], steps[i], states[i+1]);
  }

  lemma {:induction false} AlwaysSound(states: seq<Flow>, steps: seq<Step>, i: nat)
    requires Run(states, steps) && i <= |steps|
    ensures Sound(states[i])
    decreases i
  {
    hide Next, Legal, Do, AllBacked;
    if i > 0 {
      AlwaysSound(states, steps, i - 1);
      StepOf(states, steps, i - 1);
      StepSound(states[i-1], steps[i-1]);
    } else {
      NoWaits(states[0].waits);
    }
  }

  lemma NoWaits(waits: map<Sid, Wait>)
    requires waits == map[]
    ensures AllBacked(waits)
  {
  }

  /** A sender that asks before every chunk packet keeps at most the window in flight; the
      queue stays in order, and every packet leaves it at most once. */
  lemma WindowBound(states: seq<Flow>, steps: seq<Step>, i: nat)
    requires Run(states, steps) && i <= |steps|
    ensures |set k | 0 <= k < |states[i].inflight| && states[i].inflight[k].chunks != map[]| <= 2 && |states[i].inflight| <= 256
    ensures Ordered(states[i].inflight) && Once(states[i].inflight, states[i].left, states[i].seqno)
  {
    hide Next;
    AlwaysSound(states, steps, i);
    LoadedMeans(states[i].inflight);
  }

  /** After a window check nothing that is still in flight is overdue. */
  lemma NothingOverdue(states: seq<Flow>, steps: seq<Step>, i: nat, k: nat)
    requires Run(states, steps) && i < |steps| && steps[i].Check? && k < |states[i+1].inflight|
    ensures steps[i].now - states[i+1].inflight[k].sent <= 20.0
  {
    hide Next;
    AlwaysSound(states, steps, i);
    StepOf(states, steps, i);
    ExpiredSound(states[i], steps[i].now, steps[i].wall);
  }

  /** However a session's packets fared, `k` outcomes without progress since it was last
      forgotten have earned it a delay of at least `2^(k-1)` seconds, up to five minutes. */
  lemma DelayGrows(states: seq<Flow>, steps: seq<Step>, i: nat, sid: Sid)
    requires Run(states, steps) && i <= |steps| && sid in states[i].waits
    ensures states[i].waits[sid].misses >= 1 && states[i].waits[sid].delay <= 300.0
    ensures states[i].waits[sid].delay >= 300.0 || states[i].waits[sid].delay >= Pow2(states[i].waits[sid].misses - 1)
  {
    hide Next;
    AlwaysSound(states, steps, i);
    assert Backed(states[i].waits[sid]);
  }

  /** What an acknowledgement does to one session whose packet it names. */
  lemma AckOutcome(f: Flow, ack: Ack, now: real, e: Entry, sid: Sid)
    requires Taken(f.inflight, ack) == [e] && sid in e.chunks
    ensures var g := Acked(f, ack, now);
            if sid in ack.rejected then sid in g.paused && sid !in g.waits
            else if sid in ack.offsets && ack.offsets[sid] >= e.chunks[sid] then sid !in g.waits
            else sid in g.waits && g.waits[sid] == Missed(Get(f.waits, sid), Get(ack.deferred, sid), now)
  {
    assert [e][..0] == [];
    assert CreditedAll(f.waits - ack.rejected, [], ack, now) == f.waits - ack.rejected;
  }

  // ---- in numbers --------------------------------------------------------------------------

  lemma Pow2Means(k: nat)
    ensures Pow2(0) == 1.0 && Pow2(k + 1) == 2.0 * Pow2(k)
  {
  }

  /** The window counts the packets that carry chunks. */
  lemma {:induction false} LoadedMeans(inflight: seq<Entry>)
    ensures Loaded(inflight) == |set k | 0 <= k < |inflight| && inflight[k].chunks != map[]|
    decreases |inflight|
  {
    if inflight != [] {
      var front, n := inflight[..|inflight| - 1], |inflight| - 1;
      LoadedMeans(front);
      assert (set k | 0 <= k < |inflight| && inflight[k].chunks != map[])
          == (set k | 0 <= k < |front| && front[k].chunks != map[]) + if inflight[n].chunks != map[] then {n} else {};
    }
  }

  /** The first delay of a session is one second, 30 for a full cache and two for other given
      reasons; each further one doubles it, five minutes at most. */
  lemma MissedMeans(w: Option<Wait>, reason: Option<string>, now: real)
    ensures var initial := if reason == None || reason == Some("") then 1.0 else if reason == Some("cache_quota") then 30.0 else 2.0;
            var m := Missed(w, reason, now);
            && m.until == now + m.delay
            && (w.None? ==> m.delay == initial && m.misses == 1)
            && (w.Some? ==> m.misses == w.value.misses + 1)
            && (w.Some? && initial <= 2.0 * w.value.delay <= 300.0 ==> m.delay == 2.0 * w.value.delay)
            && (w.Some? && 2.0 * w.value.delay < initial ==> m.delay == initial)
            && (w.Some? && 2.0 * w.value.delay > 300.0 ==> m.delay == 300.0)
  {
    assert Missed(w, reason, now).delay == Lower(300.0, Upper(Initial(reason), if w.Some? then w.value.delay * 2.0 else 0.0));
  }

  lemma {:induction false} RefusedNotCredited(waits: map<Sid, Wait>, entries: seq<Entry>, ack: Ack, now: real, sid: Sid)
    requires sid in ack.rejected && sid !in waits
    ensures sid !in CreditedAll(waits, entries, ack, now)
    decreases |entries|
  {
    if entries != [] { RefusedNotCredited(waits, entries[..|entries| - 1], ack, now, sid); }
  }

  /** A refusal pauses a session, for two minutes at first and twice as long after every
      further refusal, an hour at most; an offset for a session that is not refused lifts its
      pause; other pauses stay. */
  lemma PauseMeans(f: Flow, ack: Ack, now: real, sid: Sid)
    ensures var g := Acked(f, ack, now);
            var failures := if sid !in f.paused then 1 else if f.paused[sid].failures >= 64 then 64 else f.paused[sid].failures + 1;
            var delay := 120.0 * Pow2(failures - 1);
            if sid in ack.rejected
            then sid in g.paused && g.paused[sid] == Pause(now + if delay <= 3600.0 then delay else 3600.0, failures) && sid !in g.waits
            else if sid in ack.offsets then sid !in g.paused
            else (sid in g.paused <==> sid in f.paused) && (sid in f.paused ==> g.paused[sid] == f.paused[sid])
  {
    hide CreditedAll, Taken, Rest, Pow2;
    if sid in ack.rejected { RefusedNotCredited(f.waits - ack.rejected, Taken(f.inflight, ack), ack, now, sid); }
  }

  /** An acknowledgement that names packets takes these out of flight and no others; one that
      names none takes the oldest. */
  lemma AckTakes(f: Flow, ack: Ack, now: real, e: Entry)
    ensures ack.seqs.Some? ==> (e in Acked(f, ack, now).inflight <==> e in f.inflight && e.seqno !in ack.seqs.value)
    ensures ack.seqs.None? && f.inflight != [] ==> [f.inflight[0]] + Acked(f, ack, now).inflight == f.inflight
    ensures ack.seqs.Some? ==> (e in Taken(f.inflight, ack) <==> e in f.inflight && e.seqno in ack.seqs.value)
    ensures ack.seqs.None? && f.inflight != [] ==> Taken(f.inflight, ack) == [f.inflight[0]]
  {
    hide CreditedAll, PauseAll;
  }

  /** Expiry takes the packets sent more than 20 seconds ago, and only their sessions miss. */
  lemma {:induction false} ExpiredMeans(f: Flow, now: real, wall: real) returns (n: nat)
    requires Ordered(f.inflight)
    ensures n <= |f.inflight| && Expired(f, now, wall).inflight == f.inflight[n..]
    ensures forall k :: 0 <= k < |f.inflight| ==> (k < n <==> now - f.inflight[k].sent > 20.0)
    ensures forall sid :: (forall k :: 0 <= k < n ==> sid !in f.inflight[k].chunks) ==>
              Get(Expired(f, now, wall).waits, sid) == Get(f.waits, sid)
    decreases |f.inflight|
  {
    if f.inflight == [] || !Overdue(f.inflight[0], now) {
      n := 0;
    } else {
      var e, rest := f.inflight[0], f.inflight[1..];
      assert forall k :: 0 <= k < |rest| ==> rest[k] == f.inflight[k+1];
      var g := f.(inflight := rest, waits := MissAll(f.waits, e.chunks.Keys, wall), left := f.left + [e.seqno]);
      var m := ExpiredMeans(g, now, wall);
      n := m + 1;
      forall k | 0 <= k < |f.inflight| ensures k < n <==> now - f.inflight[k].sent > 20.0 {
        if k > 0 { assert rest[k-1] == f.inflight[k]; }
      }
      forall sid | forall k :: 0 <= k < n ==> sid !in f.inflight[k].chunks
        ensures Get(Expired(f, now, wall).waits, sid) == Get(f.waits, sid)
      {
        assert sid !in e.chunks;
        assert forall k :: 0 <= k < m ==> sid !in rest[k].chunks;
      }
    }
  }

  function Misses(waits: map<Sid, Wait>, sid: Sid): nat {
    if sid in waits then waits[sid].misses else 0
  }

  /** The packets behind position `p` that carry a chunk of the session. */
  function Carriers(entries: seq<Entry>, sid: Sid, p: int): set<int>
    requires p >= -1
  {
    set k | p < k < |entries| && sid in entries[k].chunks
  }

  lemma CarriersSplit(entries: seq<Entry>, sid: Sid, p: int)
    requires -1 <= p < |entries|
    ensures p == |entries| - 1 ==> Carriers(entries, sid, p) == {}
    ensures p < |entries| - 1 ==>
              |Carriers(entries, sid, p)| ==
              |Carriers(entries[..|entries| - 1], sid, p)| + if sid in entries[|entries| - 1].chunks then 1 else 0
  {
    if p < |entries| - 1 {
      var n := |entries| - 1;
      assert Carriers(entries, sid, p) == Carriers(entries[..n], sid, p) + if sid in entries[n].chunks then {n} else {};
    }
  }

  lemma CreditedOnce(waits: map<Sid, Wait>, e: Entry, ack: Ack, now: real, sid: Sid)
    requires (sid in waits <==> Misses(waits, sid) > 0) && sid !in ack.rejected
    ensures var after := Credited(waits, e, ack, now);
            && (sid in after <==> Misses(after, sid) > 0)
            && Misses(after, sid) == if Progressed(e, ack, sid) then 0 else Misses(waits, sid) + if sid in e.chunks then 1 else 0
  {
    hide Lower, Upper, Initial;
  }

  /** How often a session missed after an acknowledgement: each packet since the last one whose
      offset was reached counts, and if none was, on top of what was counted before. */
  lemma {:induction false} CreditedCounts(waits: map<Sid, Wait>, entries: seq<Entry>, ack: Ack, now: real, sid: Sid, p: int)
    requires (sid in waits <==> Misses(waits, sid) > 0) && sid !in ack.rejected && -1 <= p < |entries|
    requires (p >= 0 ==> Progressed(entries[p], ack, sid)) && forall k :: p < k < |entries| ==> !Progressed(entries[k], ack, sid)
    ensures var after := CreditedAll(waits, entries, ack, now);
            && (sid in after <==> Misses(after, sid) > 0)
            && Misses(after, sid)
            == |Carriers(entries, sid, p)| + if p == -1 then Misses(waits, sid) else 0
    decreases |entries|
  {
    hide Credited, Misses, Progressed, Carriers;
    CarriersSplit(entries, sid, p);
    if entries != [] {
      var n := |entries| - 1;
      var front, last := entries[..n], entries[n];
      var q := if p == n then LastProgress(front, ack, sid) else p;
      CreditedCounts(waits, front, ack, now, sid, q);
      CreditedOnce(CreditedAll(waits, front, ack, now), last, ack, now, sid);
    }
  }

  /** The last of the packets whose offset for the session was reached, or -1. */
  function LastProgress(entries: seq<Entry>, ack: Ack, sid: Sid): (p: int)
    ensures -1 <= p < |entries| && (p >= 0 ==> Progressed(entries[p], ack, sid))
    ensures forall k :: p < k < |entries| ==> !Progressed(entries[k], ack, sid)
  {
    if entries == [] then -1
    else if Progressed(entries[|entries| - 1], ack, sid) then |entries| - 1
    else LastProgress(entries[..|entries| - 1], ack, sid)
  }
}

// The flow as the program keeps it.

module SyncFlows {
  import opened Settings
  import opened FlowModel

  class SyncFlow {
    var inflight: seq<Entry>
    var seqno: nat
    var waits: map<Sid, Wait>
    var paused: map<Sid, Pause>
    ghost var permit: bool
    ghost var left: seq<nat>

    ghost function State(): Flow
      reads this
    {
      Flow(inflight, seqno, waits, paused, permit, left)
    }

    ghost predicate Valid()
      reads this
    {
      Sound(State())
    }

    constructor ()
      ensures Valid() && State() == Flow([], 0, map[], map[], false, [])
    {
      inflight, seqno, waits, paused := [], 0, map[], map[];
      permit, left := false, [];
    }

    method ResetConnection()
      requires Valid()
      modifies `inflight, `left
      ensures Valid() && State() == Do(old(State()), Reset) && inflight == []
    {
      hide Sound;
      StepSound(State(), Reset);
      left := left + Numbers(inflight);
      inflight := [];
    }

    method NextSeq() returns (r: nat)
      requires Valid()
      modifies `seqno
      ensures Valid() && State() == Do(old(State()), Number) && r == seqno == old(seqno) + 1
    {
      hide Sound;
      StepSound(State(), Number);
      seqno := seqno + 1;
      return seqno;
    }

    method Expire(now: real, wall: real)
      modifies `inflight, `waits, `left
      ensures State() == Expired(old(State()), now, wall)
    {
      while inflight != [] && Overdue(inflight[0], now)
        invariant Expired(State(), now, wall) == Expired(old(State()), now, wall)
        decreases |inflight|
      {
        var e := inflight[0];
        left := left + [e.seqno];
        inflight := inflight[1..];
        waits := AllMissed(waits, e.chunks.Keys, wall);
      }
    }

    /** Whether another packet with chunks may be sent. */
    method WindowOpen(now: real, wall: real) returns (open: bool)
      requires Valid()
      modifies `inflight, `waits, `left, `permit
      ensures Valid() && State() == Do(old(State()), Check(now, wall))
      ensures open <==> Loaded(inflight) < 2
      ensures forall k :: 0 <= k < |inflight| ==> now - inflight[k].sent <= 20.0
    {
      hide Sound, Expired, Overdue, Loaded;
      CheckSound(State(), now, wall);
      Expire(now, wall);
      var loaded := CountLoaded(inflight);
      open := loaded < WINDOW;
      permit := open;
    }

    method Sent(n: nat, chunks: map<Sid, int>, now: real)
      requires Valid() && Legal(State(), Send(n, chunks, now))
      modifies `inflight, `left, `permit
      ensures Valid() && State() == Do(old(State()), Send(n, chunks, now))
      ensures inflight == (if |old(inflight)| < 256 then old(inflight) else old(inflight)[1..]) + [Entry(n, now, chunks)]
    {
      hide Sound;
      StepSound(State(), Send(n, chunks, now));
      inflight, permit := inflight + [Entry(n, now, chunks)], false;
      if |inflight| > MAX_INFLIGHT_ENTRIES {
        left := left + [inflight[0].seqno];
        inflight := inflight[1..];
      }
    }

    method OnAck(ack: Ack, now: real)
      requires Valid()
      modifies `inflight, `waits, `paused, `left
      ensures Valid() && State() == Do(old(State()), Acknowledge(ack, now))
    {
      hide Sound, Taken, Rest, CreditedAll, PauseAll;
      StepSound(State(), Acknowledge(ack, now));
      var entries := Taken(inflight, ack);
      inflight := Rest(inflight, ack);
      left := left + Numbers(entries);
      paused := PauseAll(paused, ack.rejected, now) - (ack.offsets.Keys - ack.rejected);
      waits := AllCredited(waits - ack.rejected, entries, ack, now);
    }

    /** Sessions that must not send now: paused ones, and those that still wait. */
    method Skip(wall: real) returns (skipped: set<Sid>)
      requires Valid()
      modifies `waits
      ensures Valid() && State() == Do(old(State()), Forget(wall))
      ensures waits == map sid | sid in old(waits) && old(waits)[sid].until + 300.0 >= wall :: old(waits)[sid]
      ensures forall sid :: sid in skipped <==> sid in paused || (sid in old(waits) && old(waits)[sid].until > wall)
    {
      hide Sound;
      StepSound(State(), Forget(wall));
      waits := Remembered(waits, wall);
      skipped := paused.Keys + set sid | sid in waits && waits[sid].until > wall;
    }
  }

  method CountLoaded(inflight: seq<Entry>) returns (n: nat)
    ensures n == Loaded(inflight)
  {
    n := 0;
    var k := 0;
    while k < |inflight|
      invariant k <= |inflight| && n == Loaded(inflight[..k])
    {
      assert inflight[..k+1][..k] == inflight[..k];
      if inflight[k].chunks != map[] { n := n + 1; }
      k := k + 1;
    }
    assert inflight[..k] == inflight;
  }

  /** `_no_progress` for each session of a packet, in any order. */
  method AllMissed(waits: map<Sid, Wait>, sids: set<Sid>, now: real) returns (after: map<Sid, Wait>)
    ensures after == MissAll(waits, sids, now)
  {
    hide Missed;
    after := waits;
    var rest := sids;
    while rest != {}
      invariant rest <= sids && after.Keys == waits.Keys + (sids - rest)
      invariant forall sid :: sid in after ==>
                  after[sid] == if sid in sids - rest then Missed(Get(waits, sid), None, now) else waits[sid]
    {
      var sid :| sid in rest;
      after := after[sid := Missed(Get(after, sid), None, now)];
      rest := rest - {sid};
    }
  }

  /** One acknowledged packet, session by session. */
  method OneCredited(waits: map<Sid, Wait>, e: Entry, ack: Ack, now: real) returns (after: map<Sid, Wait>)
    ensures after == Credited(waits, e, ack, now)
  {
    hide Missed;
    after := waits;
    var rest := e.chunks.Keys;
    while rest != {}
      invariant rest <= e.chunks.Keys
      invariant forall sid :: sid in after <==>
                  if sid in e.chunks.Keys - rest && Judged(e, ack, sid) then !Progressed(e, ack, sid) else sid in waits
      invariant forall sid :: sid in after ==>
                  after[sid] == if sid in e.chunks.Keys - rest && Judged(e, ack, sid)
                                then Missed(Get(waits, sid), Get(ack.deferred, sid), now) else waits[sid]
    {
      var sid :| sid in rest;
      rest := rest - {sid};
      if sid !in ack.rejected {
        if sid in ack.offsets && ack.offsets[sid] >= e.chunks[sid] {
          after := after - {sid};
        } else {
          after := after[sid := Missed(Get(after, sid), Get(ack.deferred, sid), now)];
        }
      }
    }
  }

  method AllCredited(waits: map<Sid, Wait>, entries: seq<Entry>, ack: Ack, now: real) returns (after: map<Sid, Wait>)
    ensures after == CreditedAll(waits, entries, ack, now)
  {
    hide Credited;
    after := waits;
    var k := 0;
    while k < |entries|
      invariant k <= |entries| && after == CreditedAll(waits, entries[..k], ack, now)
    {
      assert entries[..k+1][..k] == entries[..k];
      after := OneCredited(after, entries[k], ack, now);
      k := k + 1;
    }
    assert entries[..k] == entries;
  }

  lemma CheckSound(f: Flow, now: real, wall: real)
    requires Sound(f)
    ensures Sound(Do(f, Check(now, wall)))
    ensures forall k :: 0 <= k < |Expired(f, now, wall).inflight| ==> now - Expired(f, now, wall).inflight[k].sent <= 20.0
  {
    ExpiredSound(f, now, wall);
    StepSound(f, Check(now, wall));
  }
}
