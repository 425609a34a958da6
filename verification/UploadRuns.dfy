// Every run of upload effects, with a crash between any two of them.

module UploadRuns {
  import opened Settings
  import opened UploadModel

  ghost predicate Next(w: World, w': World) {
    exists e :: Allowed(w, e) && w' == Do(w, e)
  }

  ghost predicate Initial(w: World) {
    w.saved == map[] && w.rows == map[] && w.spool == map[] && w.phase.Quiet? && w.published == []
  }

  /** Any effects in any order, with crashes anywhere between them. */
  ghost predicate Run(trace: seq<World>) {
    && trace != [] && Initial(trace[0])
    && forall i :: 0 <= i < |trace| - 1 ==> Next(trace[i], trace[i+1])
  }

  lemma Taken(trace: seq<World>, i: nat) returns (e: Effect)
    requires Run(trace) && i + 1 < |trace|
    ensures Allowed(trace[i], e) && trace[i+1] == Do(trace[i], e)
  {
    hide Allowed, Do, Initial;
    assert Next(trace[i], trace[i+1]);
    e :| Allowed(trace[i], e) && trace[i+1] == Do(trace[i], e);
  }

  lemma {:induction false} AlwaysSound(trace: seq<World>, i: nat)
    requires Run(trace) && i < |trace|
    ensures Sound(trace[i])
    decreases i
  {
    hide Allowed, Do, Next;
    if i > 0 {
      AlwaysSound(trace, i - 1);
      var e := Taken(trace, i - 1);
      EffectSound(trace[i-1], e);
    }
  }

  /** The committed row of an upload counts exactly the acknowledged bytes; while the upload
      is neither published nor expired they are on disk at the front of its spool file. */
  lemma AcknowledgedIsDurable(trace: seq<World>, i: nat, id: Id)
    requires Run(trace) && i < |trace| && id in trace[i].saved
    ensures var w := trace[i]; var r := w.saved[id];
            && r.received == |r.content| <= r.size
            && (r.received > 0 && !Over(r, w.clock) ==> id in w.spool)
            && (id in w.spool && r.inode == Some(w.spool[id].inode) ==>
                  r.received <= w.spool[id].safe <= |w.spool[id].bytes| && w.spool[id].bytes[..r.received] == r.content)
  {
    hide Run;
    AlwaysSound(trace, i);
    RowOf(trace[i].saved, trace[i].spool, trace[i].clock, trace[i].serial, id);
  }

  /** Reserved capacity, counted for committed rows, never exceeds the node's 2 GiB. */
  lemma CapacityBound(trace: seq<World>, i: nat)
    requires Run(trace) && i < |trace|
    ensures Reserved(trace[i].saved) <= 2147483648
  {
    hide Run;
    AlwaysSound(trace, i);
  }

  // ---- acknowledged bytes are never taken back -----------------------------

  ghost predicate Remembers(w: World, id: Id, serial: nat, content: Bytes) {
    && serial < w.serial
    && (id in w.saved && w.saved[id].serial == serial ==> content <= w.saved[id].content)
    && (id in w.rows && w.rows[id].serial == serial ==> content <= w.rows[id].content)
  }

  lemma StillRemembers(w: World, e: Effect, id: Id, serial: nat, content: Bytes)
    requires Allowed(w, e) && Remembers(w, id, serial, content)
    ensures Remembers(Do(w, e), id, serial, content)
  {
    hide Reserved, Over, Survives, Lesser;
  }

  lemma {:induction false} AcknowledgedSurvives(trace: seq<World>, i: nat, j: nat, id: Id)
    requires Run(trace) && i <= j < |trace| && id in trace[i].saved
    requires id in trace[j].saved && trace[j].saved[id].serial == trace[i].saved[id].serial
    ensures trace[i].saved[id].content <= trace[j].saved[id].content
  {
    hide Run;
    var r := trace[i].saved[id];
    AlwaysSound(trace, i);
    RowOf(trace[i].saved, trace[i].spool, trace[i].clock, trace[i].serial, id);
    RemembersAll(trace, i, j, id, r.serial, r.content);
  }

  lemma {:induction false} RemembersAll(trace: seq<World>, i: nat, j: nat, id: Id, serial: nat, content: Bytes)
    requires Run(trace) && i <= j < |trace| && Remembers(trace[i], id, serial, content)
    ensures Remembers(trace[j], id, serial, content)
    decreases j
  {
    hide Allowed, Do, Next, Remembers;
    if i < j {
      RemembersAll(trace, i, j - 1, id, serial, content);
      var e := Taken(trace, j - 1);
      StillRemembers(trace[j-1], e, id, serial, content);
    }
  }

  // ---- publication ----------------------------------------------------------

  /** What is published is exactly the acknowledged content of the committed row, of the
      declared size and digest, at a path that held nothing. */
  lemma PublishesAcknowledged(w: World, id: Id)
    requires Sound(w) && Allowed(w, Publish(id))
    ensures var r, w' := w.saved[id], Do(w, Publish(id));
            && r.path !in w.targets && w'.targets == w.targets[r.path := r.content]
            && w'.published == w.published + [Publication(r.serial, r.path, r.content, r.size, r.sha)]
            && |r.content| == r.size && w.hash(r.content) == r.sha
            && forall p :: p in w.published ==> p.serial != r.serial
  {
    hide Table, Backed, Once, Marked, Apart;
    RowOf(w.saved, w.spool, w.clock, w.serial, id);
    RowOf(w.rows, w.spool, w.clock, w.serial, id);
    assert Continues(w.saved[id], w.rows[id]);
    SameLength(w.saved[id].content, w.rows[id].content);
  }

  lemma SameLength(a: Bytes, b: Bytes)
    requires a <= b && |a| == |b|
    ensures a == b
  {
  }

  /** Whatever the run, each upload is published at most once. */
  lemma PublishedOnce(trace: seq<World>, i: nat, a: nat, b: nat)
    requires Run(trace) && i < |trace| && a < |trace[i].published| && b < |trace[i].published|
    ensures |trace[i].published[a].content| == trace[i].published[a].size
    ensures trace[i].hash(trace[i].published[a].content) == trace[i].published[a].sha
    ensures trace[i].published[a].serial == trace[i].published[b].serial ==> a == b
  {
    hide Run;
    AlwaysSound(trace, i);
  }

  /** Files of the project that exist are changed by nobody but outsiders. */
  lemma ExistingFilesAreKept(w: World, e: Effect, path: string)
    requires Allowed(w, e) && !e.Outside? && path in w.targets
    ensures path in Do(w, e).targets && Do(w, e).targets[path] == w.targets[path]
  {
    hide Reserved, Opened, Over, Survives, Lesser;
  }

  // ---- an interrupted publication is never adopted ---------------------------

  /** A crash left the row half way through a publication. */
  ghost predicate Interrupted(w: World, id: Id, serial: nat, status: Status) {
    && id in w.saved && w.saved[id].serial == serial && w.saved[id].status == status
    && id in w.rows && w.rows[id].serial == serial && w.rows[id].status == status
    && (status.Staging? || status.Publishing?)
    && (w.phase.Quiet? || w.phase.Created? || w.phase.id != id)
  }

  lemma StaysInterrupted(w: World, e: Effect, id: Id, serial: nat, status: Status)
    requires Allowed(w, e) && Interrupted(w, id, serial, status)
    requires Apart(w.rows, w.rows)
    ensures Interrupted(Do(w, e), id, serial, status)
    ensures forall p :: p in Do(w, e).published && p.serial == serial ==> p in w.published
  {
    hide Reserved, Opened, Over, Survives;
    if e.Publish? {
      assert e.id != id;
    } else if e.Commit? || e.Rollback? || e.Crash? || e.Tick? || e.Outside? || e.Trim? || e.Flush? || e.Write? || e.Unlink? {
      SameRows(w, e);
    } else {
      OtherRow(w, e, id, serial, status);
    }
  }

  /** Effects on the clock, the spool or the project change no row but by commit or rollback. */
  lemma SameRows(w: World, e: Effect)
    requires Allowed(w, e)
    requires e.Commit? || e.Rollback? || e.Crash? || e.Tick? || e.Outside? || e.Trim? || e.Flush? || e.Write? || e.Unlink?
    ensures var w' := Do(w, e);
            && (w'.rows == w.rows || w'.rows == w.saved) && (w'.saved == w.saved || w'.saved == w.rows)
            && (w'.phase == w.phase || w'.phase.Quiet?) && w'.published == w.published
  {
    hide Reserved, Opened, Over, Survives;
  }

  /** No effect on rows is allowed on a row half way through a publication that nobody pursues. */
  lemma OtherRow(w: World, e: Effect, id: Id, serial: nat, status: Status)
    requires Allowed(w, e) && Interrupted(w, id, serial, status)
    requires e.Reserve? || e.Create? || e.Register? || e.Acknowledge? || e.Reject? || e.Stage? || e.Intend? || e.Receipt? || e.Release? || e.Remove?
    ensures Interrupted(Do(w, e), id, serial, status) && Do(w, e).published == w.published
  {
    hide Reserved, Opened, Over, Survives, Allowed, Interrupted;
    NotPursued(w, e, id, serial, status);
    OtherId(w, e, id);
    assert Interrupted(Do(w, e), id, serial, status) by { SameInterrupted(w, Do(w, e), id, serial, status); }
  }

  lemma NotPursued(w: World, e: Effect, id: Id, serial: nat, status: Status)
    requires Allowed(w, e) && Interrupted(w, id, serial, status)
    requires e.Reserve? || e.Create? || e.Register? || e.Acknowledge? || e.Reject? || e.Stage? || e.Intend? || e.Receipt? || e.Release? || e.Remove?
    ensures id in w.rows && (e.id != id || e.Create? || e.Register? || e.Release?)
  {
    hide Reserved, Opened, Over, Survives, Do;
  }

  lemma OtherId(w: World, e: Effect, id: Id)
    requires e.Reserve? || e.Create? || e.Register? || e.Acknowledge? || e.Reject? || e.Stage? || e.Intend? || e.Receipt? || e.Release? || e.Remove?
    requires Allowed(w, e) && id in w.rows && (e.id != id || e.Create? || e.Register? || e.Release?)
    ensures var w' := Do(w, e);
            && w'.saved == w.saved && w'.published == w.published
            && id in w'.rows && w'.rows[id].serial == w.rows[id].serial && w'.rows[id].status == w.rows[id].status
            && (w'.phase == w.phase || w'.phase.Quiet? || w'.phase.Created? || (w'.phase.id == e.id && e.id != id))
  {
    hide Reserved, Opened, Over, Survives;
  }

  lemma SameInterrupted(w: World, w': World, id: Id, serial: nat, status: Status)
    requires Interrupted(w, id, serial, status) && w'.saved == w.saved && id in w'.rows
    requires w'.rows[id].serial == w.rows[id].serial && w'.rows[id].status == w.rows[id].status
    requires w'.phase == w.phase || w'.phase.Quiet? || w'.phase.Created? || w'.phase.id != id
    ensures Interrupted(w', id, serial, status)
  {
  }

  lemma {:induction false} NeverAdopted(trace: seq<World>, i: nat, j: nat, id: Id, serial: nat, status: Status)
    requires Run(trace) && i <= j < |trace| && Interrupted(trace[i], id, serial, status)
    ensures Interrupted(trace[j], id, serial, status)
    ensures forall p :: p in trace[j].published && p.serial == serial ==> p in trace[i].published
    decreases j
  {
    hide Allowed, Do, Next, Interrupted, Table, Once, Marked, Prepared;
    if i < j {
      NeverAdopted(trace, i, j - 1, id, serial, status);
      AlwaysSound(trace, j - 1);
      var e := Taken(trace, j - 1);
      StaysInterrupted(trace[j-1], e, id, serial, status);
    }
  }

  /** Every crash during a publication leaves such a row. */
  lemma CrashInterrupts(w: World, spool: map<Id, File>, id: Id)
    requires Survives(w.spool, spool) && id in w.saved && (w.saved[id].status.Staging? || w.saved[id].status.Publishing?)
    ensures Interrupted(Do(w, Crash(spool)), id, w.saved[id].serial, w.saved[id].status)
  {
  }

  // ---- an unregistered spool file is never adopted ----------------------------

  /** A crash or an error came between creating the spool file and committing its identity. */
  ghost predicate Orphaned(w: World, id: Id, serial: nat) {
    && id in w.spool && id in w.saved && id in w.rows && w.phase != Created(id)
    && w.saved[id].serial == serial && w.saved[id].inode.None? && w.saved[id].spooled
    && w.rows[id].serial == serial && w.rows[id].inode.None? && w.rows[id].spooled
  }

  /** Every crash or error between the two leaves such an upload. */
  lemma CreationOrphans(w: World, e: Effect, id: Id)
    requires Sound(w) && w.phase == Created(id) && id in w.spool && Allowed(w, e) && (e.Rollback? || e.Crash?)
    ensures id in w.saved && Orphaned(Do(w, e), id, w.saved[id].serial)
  {
    hide Reserved, Once, Marked, Proper, Apart;
  }

  lemma CreationIsPending(w: World, id: Id)
    requires Allowed(w, Create(id))
    ensures var v := Do(w, Create(id)); v.phase == Created(id) && id in v.spool
    ensures var v := Do(Do(w, Create(id)), Flush(id)); v.phase == Created(id) && id in v.spool
  {
  }

  lemma StaysOrphaned(w: World, e: Effect, id: Id, serial: nat)
    requires Allowed(w, e) && Orphaned(w, id, serial)
    ensures Orphaned(Do(w, e), id, serial)
  {
    hide Reserved;
  }

  /** Such an upload keeps its row, its file and its reservation until an operator steps in. */
  lemma {:induction false} OrphanStays(trace: seq<World>, i: nat, j: nat, id: Id, serial: nat)
    requires Run(trace) && i <= j < |trace| && Orphaned(trace[i], id, serial)
    ensures Orphaned(trace[j], id, serial)
    decreases j
  {
    hide Allowed, Do, Next, Orphaned;
    if i < j {
      OrphanStays(trace, i, j - 1, id, serial);
      var e := Taken(trace, j - 1);
      StaysOrphaned(trace[j-1], e, id, serial);
    }
  }
}
