// The upload service step by step: every database and file effect is one call, so a crash
// may come between any two lines. `Valid` says the recorded trace is a run of UploadRuns.

module Uploads {
  import opened Settings
  import opened UploadModel
  import opened UploadRuns

  const MAX_IMPORT_BYTES: nat := 512 * 1024 * 1024

  /** The connection's rights, as the policy of the node reports them. */
  datatype Caller = Caller(binding: string, owner: string, allowed: bool, writable: string -> bool)

  datatype Code =
    | Configuration | TooLarge | InvalidChunk | ChunkIntegrity | Forbidden | NotFound | Recovery | ExpiredUpload
    | Integrity | Conflict | DestinationExists | Quota | AlreadyComplete | BadOffset | Incomplete | Storage

  datatype Reply = Done(received: nat, complete: bool) | Error(code: Code)

  datatype Found = Found(row: Row) | Missing(code: Code)

  /** `_row`: rights before existence, then the state of the upload. */
  function Lookup(rows: map<Id, Row>, clock: real, id: Id, caller: Caller): (r: Found)
    ensures r.Found? ==> id in rows && r.row == rows[id]
  {
    if !caller.allowed then Missing(Forbidden)
    else if id !in rows || rows[id].binding != caller.binding then Missing(NotFound)
    else if !caller.writable(rows[id].path) then Missing(Forbidden)
    else if rows[id].status.Staging? || rows[id].status.Publishing? then Missing(Recovery)
    else if rows[id].expires <= clock then Missing(ExpiredUpload)
    else if rows[id].status.Failed? then Missing(Integrity)
    else Found(rows[id])
  }

  lemma FoundIsOpen(trace: seq<World>, id: Id, caller: Caller)
    requires Run(trace)
    requires var w := trace[|trace| - 1]; Lookup(w.rows, w.clock, id, caller).Found?
    ensures var w := trace[|trace| - 1]; var r := Lookup(w.rows, w.clock, id, caller).row;
            && id in w.rows && r == w.rows[id] && (r.status.Receiving? || r.status.Complete?)
            && (r.status.Receiving? ==> !Over(r, w.clock)) && r.received == |r.content| <= r.size
  {
    hide Run;
    SpoolFacts(trace, id);
  }

  lemma NotRefused(w: World, id: Id, caller: Caller, path: string, size: nat, sha: string, limit: nat)
    ensures BeginRefusal(w, id, caller, path, size, sha, limit).None? ==>
              if id in w.rows then Lookup(w.rows, w.clock, id, caller).Found? && Declared(w.rows[id], caller.binding, path, size, sha)
              else path !in w.targets && Reserved(w.rows) + 2 * size <= RESERVED_BYTES
  {
  }

  /** No spool file is left over from an earlier lifetime of the id. */
  lemma NewIsUsable(trace: seq<World>, id: Id, r: Row)
    requires Run(trace) && id !in trace[|trace| - 1].rows && r.spooled && r.inode.None?
    ensures var w := trace[|trace| - 1]; forall v: World :: v.rows == w.rows[id := r] && v.spool == w.spool ==> Usable(v, id)
  {
    hide Next, Proper, Backed;
    AlwaysSound(trace, |trace| - 1);
  }

  /** The spool can be used: its file is registered and not longer than declared, or the
      upload has none yet. */
  predicate Usable(w: World, id: Id)
    requires id in w.rows
  {
    var r := w.rows[id];
    r.spooled &&
    if r.inode.None? then id !in w.spool
    else id in w.spool && w.spool[id].inode == r.inode.value && |w.spool[id].bytes| <= r.size
  }

  /** Exactly the acknowledged bytes are in the spool file, all of them synced, and nothing
      else has changed. */
  ghost predicate Trimmed(w: World, id: Id, w': World)
    requires id in w.rows
  {
    && id in w'.rows && id in w'.spool && Opened(w', id)
    && w'.rows[id] == w.rows[id].(inode := w'.rows[id].inode)
    && (w.rows[id].inode.Some? ==> w'.rows[id] == w.rows[id])
    && w'.spool[id] == File(w'.spool[id].inode, w.rows[id].content, w.rows[id].received)
    && w' == w.(rows := w.rows[id := w'.rows[id]], spool := w.spool[id := w'.spool[id]], inode := w'.inode)
  }

  /** What an unfinished request may have changed: only what a rollback or the next request undoes. */
  ghost predicate Untouched(w: World, w': World) {
    w'.saved == w.saved && w'.targets == w.targets && w'.published == w.published && w'.clock == w.clock
  }

  lemma SpoolFacts(trace: seq<World>, id: Id)
    requires Run(trace) && id in trace[|trace| - 1].rows
    ensures var w := trace[|trace| - 1];
            && Backed(w.rows[id], id, w.spool, w.clock) && Proper(w.rows[id], w.clock, w.serial)
            && (id in w.spool ==> w.rows[id].spooled)
  {
    hide Next, Proper, Backed;
    AlwaysSound(trace, |trace| - 1);
    var w := trace[|trace| - 1];
    RowOf(w.rows, w.spool, w.clock, w.serial, id);
  }

  // ---- who may do what, spelled out on caller and row --------------------------

  /** The caller may use the upload: with write permission for its path, on the binding it
      was begun with, before it expires, and while no publication of it is open or failed. */
  predicate Entitled(caller: Caller, rows: map<Id, Row>, id: Id, now: real) {
    && caller.allowed && id in rows && rows[id].binding == caller.binding && caller.writable(rows[id].path)
    && now < rows[id].expires && (rows[id].status == Receiving || rows[id].status == Complete)
  }

  /** The first condition that is not met, and its answer: permission before existence, and
      an interrupted publication before expiry and failure. */
  predicate Denied(caller: Caller, rows: map<Id, Row>, id: Id, now: real, code: Code) {
    if !caller.allowed then code == Forbidden
    else if !(id in rows && rows[id].binding == caller.binding) then code == NotFound
    else if !caller.writable(rows[id].path) then code == Forbidden
    else if rows[id].status == Staging || rows[id].status == Publishing then code == Recovery
    else if now >= rows[id].expires then code == ExpiredUpload
    else rows[id].status == Failed && code == Integrity
  }

  lemma LookupMeans(caller: Caller, rows: map<Id, Row>, id: Id, now: real, code: Code)
    ensures Lookup(rows, now, id, caller).Found? <==> Entitled(caller, rows, id, now)
    ensures Lookup(rows, now, id, caller) == Missing(code) <==> Denied(caller, rows, id, now, code)
  {
  }

  lemma EntitledRow(caller: Caller, rows: map<Id, Row>, id: Id, now: real)
    ensures Entitled(caller, rows, id, now) ==> id in rows && (rows[id].status == Receiving || rows[id].status == Complete)
  {
  }

  lemma LookupsMean(caller: Caller, rows: map<Id, Row>, id: Id, now: real)
    ensures Lookup(rows, now, id, caller).Found? <==> Entitled(caller, rows, id, now)
    ensures forall code :: Lookup(rows, now, id, caller) == Missing(code) <==> Denied(caller, rows, id, now, code)
  {
    hide Lookup, Denied;
    forall code ensures Lookup(rows, now, id, caller) == Missing(code) <==> Denied(caller, rows, id, now, code) {
      LookupMeans(caller, rows, id, now, code);
    }
    LookupMeans(caller, rows, id, now, Storage);
  }

  /** A begin that is not refused is of an admissible size, by a caller with write permission
      for the path; it repeats an upload of its own as declared, or finds the path free, room
      for twice the size within 2 GiB, and fewer than 256 unfinished uploads, 32 of the owner. */
  lemma BeginMeans(w: World, id: Id, caller: Caller, path: string, size: nat, sha: string, limit: nat)
    ensures BeginRefusal(w, id, caller, path, size, sha, limit).None? <==>
            && size <= limit <= 536870912 && caller.allowed && caller.writable(path)
            && if id in w.rows
               then Entitled(caller, w.rows, id, w.clock) && w.rows[id].path == path && w.rows[id].size == size && w.rows[id].sha == sha
               else
                 && path !in w.targets && Reserved(w.rows) + 2 * size <= 2147483648
                 && |set x | x in w.rows && w.rows[x].status != Complete| < 256
                 && |set x | x in w.rows && w.rows[x].status != Complete && w.rows[x].owner == caller.owner| < 32
  {
    LookupMeans(caller, w.rows, id, w.clock, Storage);
    var active := set x | x in w.rows && !w.rows[x].status.Complete?;
    assert active == set x | x in w.rows && w.rows[x].status != Complete;
    assert (set x | x in active && w.rows[x].owner == caller.owner) == set x | x in w.rows && w.rows[x].status != Complete && w.rows[x].owner == caller.owner;
  }

  /** And one that is refused gets the first of these reasons. */
  lemma BeginRefusalMeans(w: World, id: Id, caller: Caller, path: string, size: nat, sha: string, limit: nat)
    ensures var r := BeginRefusal(w, id, caller, path, size, sha, limit);
            && (limit > 536870912 ==> r == Some(Configuration))
            && (limit <= 536870912 && size > limit ==> r == Some(TooLarge))
            && (size <= limit <= 536870912 && !(caller.allowed && caller.writable(path)) ==> r == Some(Forbidden))
            && (size <= limit <= 536870912 && caller.allowed && caller.writable(path) ==>
                  && (id in w.rows ==> forall code :: Denied(caller, w.rows, id, w.clock, code) ==> r == Some(code))
                  && (id in w.rows && Entitled(caller, w.rows, id, w.clock) && w.rows[id].path != path ==> r == Some(Conflict))
                  && (id in w.rows && Entitled(caller, w.rows, id, w.clock) && w.rows[id].size != size ==> r == Some(Conflict))
                  && (id in w.rows && Entitled(caller, w.rows, id, w.clock) && w.rows[id].sha != sha ==> r == Some(Conflict))
                  && (id !in w.rows && path in w.targets ==> r == Some(DestinationExists))
                  && (id !in w.rows && path !in w.targets ==> r.None? || r == Some(Quota)))
  {
    hide Lookup, Denied, Entitled;
    LookupsMean(caller, w.rows, id, w.clock);
  }

  /** A chunk can be taken when the spool is still the upload's and its file, if one was made,
      is there, is the one made, and is no longer than declared. */
  lemma UsableMeans(w: World, id: Id)
    requires id in w.rows
    ensures Usable(w, id) <==>
            && w.rows[id].spooled
            && (w.rows[id].inode == None ==> id !in w.spool)
            && (w.rows[id].inode != None ==>
                  id in w.spool && w.rows[id].inode == Some(w.spool[id].inode) && |w.spool[id].bytes| <= w.rows[id].size)
  {
  }

  /** Reservations are twice the size of every row that has a spool or an open publication. */
  lemma ReservedMeans(m: map<Id, Row>, id: Id)
    ensures Reserved(map[]) == 0
    ensures id in m && (m[id].spooled || m[id].status == Staging || m[id].status == Publishing) ==>
              Reserved(m) == Reserved(m - {id}) + 2 * m[id].size
    ensures id in m && !(m[id].spooled || m[id].status == Staging || m[id].status == Publishing) ==> Reserved(m) == Reserved(m - {id})
  {
    if id in m { ReservedSplit(m, id); }
  }

  lemma Extended(trace: seq<World>, e: Effect)
    requires Run(trace) && Allowed(trace[|trace| - 1], e)
    ensures Run(trace + [Do(trace[|trace| - 1], e)])
  {
    hide Allowed, Do, Initial;
    var more := trace + [Do(trace[|trace| - 1], e)];
    forall i | 0 <= i < |more| - 1 ensures Next(more[i], more[i+1]) {
      if i < |trace| - 1 { assert Next(trace[i], trace[i+1]); }
    }
  }

  lemma Begins(w: World)
    requires Initial(w)
    ensures Run([w])
  {
  }

  class IncomingUploads {
    const hash: Bytes -> string
    var saved: map<Id, Row>
    var rows: map<Id, Row>
    var spool: map<Id, File>
    var targets: map<string, Bytes>
    var clock: real
    var serial: nat
    var inode: nat
    ghost var phase: Phase
    ghost var published: seq<Publication>
    ghost var trace: seq<World>

    ghost function State(): World
      reads this
    {
      World(saved, rows, spool, targets, phase, clock, hash, serial, inode, published)
    }

    /** The trace is a run that ends here. */
    ghost predicate Valid()
      reads this
    {
      Run(trace) && trace[|trace| - 1] == State()
    }

    /** No transaction is open. */
    ghost predicate Idle()
      reads this
    {
      Valid() && rows == saved && phase.Quiet?
    }

    constructor (hash: Bytes -> string, targets: map<string, Bytes>, now: real)
      ensures Idle() && saved == map[] && this.targets == targets && this.hash == hash
    {
      this.hash, this.targets, clock := hash, targets, now;
      saved, rows, spool := map[], map[], map[];
      serial, inode, phase, published := 0, 0, Quiet, [];
      var start := World(map[], map[], map[], targets, Quiet, now, hash, 0, 0, []);
      trace := [start];
      Begins(start);
    }

    // ---- effects ------------------------------------------------------------

    ghost method Record(w: World, e: Effect)
      requires Run(trace) && trace[|trace| - 1] == w && Allowed(w, e) && State() == Do(w, e)
      modifies `trace
      ensures Valid() && old(trace) <= trace
    {
      hide Allowed, Do, Run;
      Extended(trace, e);
      trace := trace + [Do(w, e)];
    }

    method Tick(now: real)
      requires Valid() && Allowed(State(), Effect.Tick(now))
      modifies `clock, `trace
      ensures Valid() && old(trace) <= trace && State() == old(State()).(clock := now)
    {
      clock := now;
      Record(old(State()), Effect.Tick(now));
    }

    method Commit()
      requires Valid() && Allowed(State(), Effect.Commit)
      modifies `saved, `trace
      ensures Valid() && old(trace) <= trace && State() == old(State()).(saved := rows)
    {
      saved := rows;
      Record(old(State()), Effect.Commit);
    }

    method Rollback()
      requires Valid() && Allowed(State(), Effect.Rollback)
      modifies `rows, `phase, `trace
      ensures Valid() && old(trace) <= trace && State() == old(State()).(rows := saved, phase := Quiet)
    {
      rows, phase := saved, Quiet;
      Record(old(State()), Effect.Rollback);
    }

    method Reserve(id: Id, caller: Caller, path: string, size: nat, sha: string)
      requires Valid() && Allowed(State(), Effect.Reserve(id, caller.binding, caller.owner, path, size, sha))
      modifies `rows, `serial, `trace
      ensures Valid() && old(trace) <= trace && State() == Do(old(State()), Effect.Reserve(id, caller.binding, caller.owner, path, size, sha))
    {
      rows := rows[id := NewRow(serial, caller.binding, caller.owner, path, size, sha, clock)];
      serial := serial + 1;
      Record(old(State()), Effect.Reserve(id, caller.binding, caller.owner, path, size, sha));
    }

    method Create(id: Id)
      requires Valid() && Allowed(State(), Effect.Create(id))
      modifies `spool, `inode, `phase, `trace
      ensures Valid() && old(trace) <= trace && State() == Do(old(State()), Effect.Create(id))
    {
      spool := spool[id := File(inode, [], 0)];
      inode, phase := inode + 1, Created(id);
      Record(old(State()), Effect.Create(id));
    }

    method Register(id: Id)
      requires Valid() && Allowed(State(), Effect.Register(id))
      modifies `rows, `phase, `trace
      ensures Valid() && old(trace) <= trace && State() == Do(old(State()), Effect.Register(id))
    {
      rows := rows[id := rows[id].(inode := Some(spool[id].inode))];
      phase := Quiet;
      Record(old(State()), Effect.Register(id));
    }

    method Trim(id: Id)
      requires Valid() && Allowed(State(), Effect.Trim(id))
      modifies `spool, `trace
      ensures Valid() && old(trace) <= trace && State() == Do(old(State()), Effect.Trim(id))
    {
      var f, n := spool[id], rows[id].received;
      spool := spool[id := f.(bytes := f.bytes[..n], safe := Lesser(f.safe, n))];
      Record(old(State()), Effect.Trim(id));
    }

    method Flush(id: Id)
      requires Valid() && Allowed(State(), Effect.Flush(id))
      modifies `spool, `trace
      ensures Valid() && old(trace) <= trace && State() == Do(old(State()), Effect.Flush(id))
    {
      spool := spool[id := spool[id].(safe := |spool[id].bytes|)];
      Record(old(State()), Effect.Flush(id));
    }

    method Write(id: Id, at: nat, data: Bytes)
      requires Valid() && Allowed(State(), Effect.Write(id, at, data))
      modifies `spool, `trace
      ensures Valid() && old(trace) <= trace && State() == Do(old(State()), Effect.Write(id, at, data))
    {
      spool := spool[id := Overwritten(spool[id], at, data)];
      Record(old(State()), Effect.Write(id, at, data));
    }

    method Acknowledge(id: Id, data: Bytes)
      requires Valid() && Allowed(State(), Effect.Acknowledge(id, data))
      modifies `rows, `trace
      ensures Valid() && old(trace) <= trace && State() == Do(old(State()), Effect.Acknowledge(id, data))
    {
      rows := rows[id := Grown(rows[id], data)];
      Record(old(State()), Effect.Acknowledge(id, data));
    }

    method Reject(id: Id)
      requires Valid() && Allowed(State(), Effect.Reject(id))
      modifies `rows, `trace
      ensures Valid() && old(trace) <= trace && State() == Do(old(State()), Effect.Reject(id))
    {
      rows := rows[id := rows[id].(status := Failed)];
      Record(old(State()), Effect.Reject(id));
    }

    method Stage(id: Id)
      requires Valid() && Allowed(State(), Effect.Stage(id))
      modifies `rows, `phase, `trace
      ensures Valid() && old(trace) <= trace && State() == Do(old(State()), Effect.Stage(id))
    {
      rows := rows[id := rows[id].(status := Staging, expires := clock + RECEIPT_SECONDS)];
      phase := Copying(id);
      Record(old(State()), Effect.Stage(id));
    }

    method Intend(id: Id, copy: Bytes)
      requires Valid() && Allowed(State(), Effect.Intend(id, copy))
      modifies `rows, `phase, `trace
      ensures Valid() && old(trace) <= trace && State() == Do(old(State()), Effect.Intend(id, copy))
    {
      rows := rows[id := rows[id].(status := Publishing, expires := clock + RECEIPT_SECONDS)];
      phase := Ready(id, copy);
      Record(old(State()), Effect.Intend(id, copy));
    }

    method Publish(id: Id, copy: Bytes)
      requires Valid() && phase == Ready(id, copy) && Allowed(State(), Effect.Publish(id))
      modifies `targets, `published, `phase, `trace
      ensures Valid() && old(trace) <= trace && State() == Do(old(State()), Effect.Publish(id))
    {
      ghost var r := rows[id];
      targets := targets[rows[id].path := copy];
      published := published + [Publication(r.serial, r.path, copy, r.size, r.sha)];
      phase := Published(id);
      Record(old(State()), Effect.Publish(id));
    }

    method Receipt(id: Id)
      requires Valid() && Allowed(State(), Effect.Receipt(id))
      modifies `rows, `phase, `trace
      ensures Valid() && old(trace) <= trace && State() == Do(old(State()), Effect.Receipt(id))
    {
      rows := rows[id := rows[id].(status := Complete, expires := clock + RECEIPT_SECONDS)];
      phase := Quiet;
      Record(old(State()), Effect.Receipt(id));
    }

    method Unlink(id: Id)
      requires Valid() && Allowed(State(), Effect.Unlink(id))
      modifies `spool, `trace
      ensures Valid() && old(trace) <= trace && State() == Do(old(State()), Effect.Unlink(id))
    {
      spool := spool - {id};
      Record(old(State()), Effect.Unlink(id));
    }

    method Release(id: Id)
      requires Valid() && Allowed(State(), Effect.Release(id))
      modifies `rows, `trace
      ensures Valid() && old(trace) <= trace && State() == Do(old(State()), Effect.Release(id))
    {
      rows := rows[id := rows[id].(spooled := false)];
      Record(old(State()), Effect.Release(id));
    }

    method Remove(id: Id)
      requires Valid() && Allowed(State(), Effect.Remove(id))
      modifies `rows, `trace
      ensures Valid() && old(trace) <= trace && State() == Do(old(State()), Effect.Remove(id))
    {
      rows := rows - {id};
      Record(old(State()), Effect.Remove(id));
    }

    // ---- the spool file -------------------------------------------------------

    /** Create and register the spool file of an upload that has none. */
    method Materialize(id: Id) returns (fault: Option<Code>)
      requires Idle() && id in rows && rows[id].spooled
      modifies this
      ensures Valid() && old(trace) <= trace && Untouched(old(State()), State())
      ensures fault.None? ==> State() == if old(rows)[id].inode.Some? then old(State()) else NewSpool(old(State()), id)
      ensures fault.None? && old(rows)[id].inode.None? ==> id !in old(spool)
      ensures fault.Some? ==> fault.value.Storage? || (fault.value.Recovery? && !Usable(old(State()), id))
    {
      hide Run;
      if rows[id].inode.Some? {
        return None;
      }
      SpoolFacts(trace, id);
      if rows[id].received != 0 || id in spool {
        return Some(Recovery);
      }
      Create(id);
      var synced := *;
      if !synced {
        return Some(Storage);
      }
      Flush(id);
      Register(id);
      return None;
    }

    /** Open the spool file and discard whatever follows the acknowledged bytes. */
    method Reconcile(id: Id) returns (fault: Option<Code>)
      requires Valid() && phase.Quiet? && id in rows && !Over(rows[id], clock)
      modifies this
      ensures Valid() && old(trace) <= trace && Untouched(old(State()), State())
      ensures fault.None? ==> old(rows)[id].inode.Some? && Usable(old(State()), id) && Trimmed(old(State()), id, State())
      ensures fault.Some? ==> fault.value.Storage? || (fault.value.Recovery? && (old(rows)[id].inode.Some? ==> !Usable(old(State()), id)))
    {
      hide Run;
      SpoolFacts(trace, id);
      var r := rows[id];
      if !r.spooled || id !in spool || r.inode != Some(spool[id].inode) {
        return Some(Recovery);
      }
      var actual := |spool[id].bytes|;
      if actual < r.received || actual > r.size {
        return Some(Recovery);
      }
      if actual > r.received {
        Trim(id);
        var synced := *;
        if !synced {
          return Some(Storage);
        }
        Flush(id);
      }
      return None;
    }

    method OpenSpool(id: Id) returns (fault: Option<Code>)
      requires Idle() && id in rows && !Over(rows[id], clock)
      modifies this
      ensures Valid() && old(trace) <= trace && Untouched(old(State()), State())
      ensures fault.None? ==> Usable(old(State()), id) && Trimmed(old(State()), id, State())
      ensures fault.Some? ==> fault.value.Storage? || (fault.value.Recovery? && !Usable(old(State()), id))
    {
      hide Run;
      SpoolFacts(trace, id);
      fault := Materialize(id);
      if fault.Some? {
        return;
      }
      fault := Reconcile(id);
    }

    /** Short writes are continued; any failure leaves an unacknowledged tail. */
    method WriteAll(id: Id, data: Bytes) returns (fault: Option<Code>)
      requires Valid() && Opened(State(), id) && |spool[id].bytes| == rows[id].received == spool[id].safe
      modifies `spool, `trace
      ensures Valid() && old(trace) <= trace && Opened(State(), id)
      ensures State() == old(State()).(spool := old(spool)[id := spool[id]])
      ensures fault.Some? ==> fault.value.Storage?
      ensures fault.None? ==> spool[id] == File(old(spool)[id].inode, old(spool)[id].bytes + data, |old(spool)[id].bytes| + |data|)
    {
      hide Run;
      ghost var w, before := State(), spool[id].bytes;
      var at := |spool[id].bytes|;
      var view := data;
      while view != []
        invariant Valid() && old(trace) <= trace && Opened(State(), id)
        invariant State() == w.(spool := w.spool[id := spool[id]]) && spool[id].inode == w.spool[id].inode
        invariant |before| <= at == |spool[id].bytes| && spool[id].bytes + view == before + data
        decreases |view|
      {
        var failed := *;
        if failed {
          return Some(Storage);
        }
        var written: nat :| 1 <= written <= |view|;
        assert view[..written] + view[written..] == view;
        Write(id, at, view[..written]);
        at, view := at + written, view[written..];
      }
      Flush(id);
      return None;
    }

    /** An error of any kind: the transaction is undone. */
    method Fail(code: Code) returns (reply: Reply)
      requires Valid()
      modifies this
      ensures Idle() && old(trace) <= trace && Untouched(old(State()), State()) && reply == Error(code)
    {
      hide Run;
      Rollback();
      return Error(code);
    }

    // ---- chunk ------------------------------------------------------------------

    /** A chunk is refused, repeated, or appended and acknowledged; `Storage` errors aside
        its outcome is determined by the committed row, and a refusal commits nothing. */
    method Chunk(id: Id, caller: Caller, offset: nat, data: Bytes, sha: string, now: real) returns (reply: Reply)
      requires Idle() && clock <= now
      modifies this
      ensures Idle() && old(trace) <= trace
      ensures reply == Error(Storage) || reply == ChunkReply(old(State()).(clock := now), id, caller, offset, data, sha)
      ensures data == [] || |data| > 262144 ==> reply == Error(InvalidChunk)
      ensures 0 < |data| <= 262144 && hash(data) != sha ==> reply == Error(ChunkIntegrity)
      ensures reply.Done? ==> 0 < |data| <= 262144 && hash(data) == sha
      ensures reply.Done? ==> Entitled(caller, old(saved), id, now) && old(saved)[id].status == Receiving
      ensures forall code :: 0 < |data| <= 262144 && hash(data) == sha && Denied(caller, old(saved), id, now, code) ==> reply == Error(code)
      ensures 0 < |data| <= 262144 && hash(data) == sha && Entitled(caller, old(saved), id, now) ==>
                && (old(saved)[id].status == Complete ==> reply == Error(AlreadyComplete))
                && (old(saved)[id].status == Receiving ==>
                      var r, end := old(saved)[id], offset + |data|;
                      && (reply == Error(BadOffset) <==> end > r.size || offset > r.received || (offset < r.received && end > r.received))
                      && (end <= r.size && offset == r.received && Usable(old(State()).(clock := now), id) ==> reply == Done(end, false) || reply == Error(Storage)))
      ensures reply.Error? ==> saved == old(saved)
      ensures reply.Done? ==> id in old(saved) && id in saved && saved == old(saved)[id := saved[id]]
      ensures reply.Done? ==> ChunkTaken(old(saved)[id], saved[id], offset, data)
      ensures targets == old(targets) && published == old(published)
    {
      hide Run, Usable, ChunkTaken, Lookup, Entitled, Denied;
      if data == [] || |data| > CHUNK_BYTES {
        return Error(InvalidChunk);
      }
      if hash(data) != sha {
        return Error(ChunkIntegrity);
      }
      Tick(now);
      LookupsMean(caller, rows, id, clock);
      EntitledRow(caller, rows, id, clock);
      match Lookup(rows, clock, id, caller)
      case Missing(code) => return Error(code);
      case Found(row) =>
        FoundIsOpen(trace, id, caller);
        if row.status.Complete? {
          return Error(AlreadyComplete);
        }
        var end := offset + |data|;
        if end > row.size || offset > row.received || offset < row.received < end {
          return Error(BadOffset);
        }
        reply := Accept(id, offset, data);
    }

    /** The part of a chunk request that touches the disk. */
    method Accept(id: Id, offset: nat, data: Bytes) returns (reply: Reply)
      requires Idle() && id in rows && rows[id].status.Receiving? && !Over(rows[id], clock) && data != []
      requires rows[id].received == |rows[id].content|
      requires offset + |data| <= rows[id].received || (offset == rows[id].received && offset + |data| <= rows[id].size)
      modifies this
      ensures Idle() && old(trace) <= trace
      ensures reply == Error(Storage) || reply == AcceptReply(old(State()), id, offset, data)
      ensures reply.Error? ==> saved == old(saved)
      ensures reply.Done? ==> id in saved && saved == old(saved)[id := saved[id]] && ChunkTaken(old(saved)[id], saved[id], offset, data)
      ensures targets == old(targets) && published == old(published)
    {
      hide Run, Usable;
      var fault := OpenSpool(id);
      if fault.Some? {
        reply := Fail(fault.value);
        return;
      }
      var end := offset + |data|;
      if offset < rows[id].received {
        if spool[id].bytes[offset..end] != data {
          reply := Fail(Conflict);
          return;
        }
      } else {
        fault := WriteAll(id, data);
        if fault.Some? {
          reply := Fail(fault.value);
          return;
        }
        Acknowledge(id, data);
      }
      Commit();
      return Done(rows[id].received, false);
    }

    // ---- begin and status ---------------------------------------------------------

    /** The sum the database computes over its rows. */
    method ReservedBytes() returns (total: nat)
      ensures total == Reserved(rows)
    {
      total := 0;
      var rest := rows;
      while rest != map[]
        invariant total + Reserved(rest) == Reserved(rows)
        decreases |rest|
      {
        var id :| id in rest;
        ReservedSplit(rest, id);
        total, rest := total + Weight(rest[id]), rest - {id};
      }
    }

    /** The upload exists afterwards as declared; a new one is committed before its spool
        file is touched, so only its bare row can remain of a failed start. */
    method Begin(id: Id, caller: Caller, path: string, size: nat, sha: string, limit: nat, now: real) returns (reply: Reply)
      requires Idle() && clock <= now
      modifies this
      ensures Idle() && old(trace) <= trace
      ensures targets == old(targets) && published == old(published)
      ensures reply.Done? ==> id in saved && saved == old(saved)[id := saved[id]]
      ensures reply.Done? ==> Declared(saved[id], caller.binding, path, size, sha) && reply == Done(saved[id].received, saved[id].status.Complete?)
      ensures reply.Done? && id in old(saved) ==> saved[id] == old(saved)[id].(inode := saved[id].inode)
      ensures reply.Done? && id !in old(saved) ==>
                path !in targets && saved[id] == NewRow(old(serial), caller.binding, caller.owner, path, size, sha, now).(inode := saved[id].inode)
      ensures reply.Done? && id !in old(saved) ==>
                saved[id].expires == now + 86400.0 && saved[id].received == 0 && saved[id].status == Receiving && saved[id].owner == caller.owner
      ensures reply.Error? && saved != old(saved) ==>
                id !in old(saved) && path !in targets &&
                saved == old(saved)[id := NewRow(old(serial), caller.binding, caller.owner, path, size, sha, now)]
      ensures var refusal := BeginRefusal(old(State()).(clock := now), id, caller, path, size, sha, limit);
              if refusal.Some? then reply == Error(refusal.value) && saved == old(saved)
              else reply.Done? || reply == Error(Storage) || (reply == Error(Recovery) && id in old(saved) && !Usable(old(State()).(clock := now), id))
    {
      hide Run, Usable, Lookup, BeginRefusal;
      Tick(now);
      var refusal := Refusal(id, caller, path, size, sha, limit);
      NotRefused(State(), id, caller, path, size, sha, limit);
      if refusal.Some? {
        return Error(refusal.value);
      }
      if id in rows {
        FoundIsOpen(trace, id, caller);
        if rows[id].status.Complete? {
          return Done(rows[id].received, true);
        }
      } else {
        NewIsUsable(trace, id, NewRow(serial, caller.binding, caller.owner, path, size, sha, clock));
        Reserve(id, caller, path, size, sha);
        Commit();
      }
      reply := Resume(id);
    }

    /** The checks of a `begin`, none of which changes anything. */
    method Refusal(id: Id, caller: Caller, path: string, size: nat, sha: string, limit: nat) returns (r: Option<Code>)
      ensures r == BeginRefusal(State(), id, caller, path, size, sha, limit)
    {
      if limit > MAX_IMPORT_BYTES {
        return Some(Configuration);
      }
      if size > limit {
        return Some(TooLarge);
      }
      if !caller.allowed || !caller.writable(path) {
        return Some(Forbidden);
      }
      if id in rows {
        match Lookup(rows, clock, id, caller)
        case Missing(code) => return Some(code);
        case Found(row) =>
          if row.path != path || row.size != size || row.sha != sha {
            return Some(Conflict);
          }
          return None;
      }
      if path in targets {
        return Some(DestinationExists);
      }
      var reserved := ReservedBytes();
      if reserved + 2 * size > RESERVED_BYTES || Crowded(rows, caller.owner) {
        return Some(Quota);
      }
      return None;
    }

    /** Make sure of the spool file and report what has been acknowledged. */
    method Resume(id: Id) returns (reply: Reply)
      requires Idle() && id in rows && rows[id].status.Receiving? && !Over(rows[id], clock)
      modifies this
      ensures Idle() && old(trace) <= trace && targets == old(targets) && published == old(published) && clock == old(clock)
      ensures reply.Done? ==> id in saved && saved == old(saved)[id := old(saved)[id].(inode := saved[id].inode)]
      ensures reply.Done? ==> reply == Done(saved[id].received, false)
      ensures reply.Error? ==> saved == old(saved)
      ensures reply == Error(Storage) || (reply.Done? <==> Usable(old(State()), id))
      ensures reply.Error? ==> reply.code.Storage? || reply.code.Recovery?
    {
      hide Run, Usable;
      var fault := OpenSpool(id);
      if fault.Some? {
        reply := Fail(fault.value);
        return;
      }
      Commit();
      return Done(rows[id].received, false);
    }

    method Status(id: Id, caller: Caller, now: real) returns (reply: Reply)
      requires Idle() && clock <= now
      modifies this
      ensures Idle() && old(trace) <= trace && targets == old(targets) && published == old(published)
      ensures reply.Done? ==> id in old(saved) && id in saved && saved == old(saved)[id := old(saved)[id].(inode := saved[id].inode)]
      ensures reply.Done? ==> reply == Done(old(saved)[id].received, old(saved)[id].status.Complete?)
      ensures reply.Done? ==> Entitled(caller, old(saved), id, now)
      ensures forall code :: Denied(caller, old(saved), id, now, code) ==> reply == Error(code)
      ensures Entitled(caller, old(saved), id, now) && reply.Error? ==> reply == Error(Storage) || reply == Error(Recovery)
      ensures reply.Error? ==> saved == old(saved)
    {
      hide Run, Usable, Lookup, Entitled, Denied;
      Tick(now);
      LookupsMean(caller, rows, id, clock);
      match Lookup(rows, clock, id, caller)
      case Missing(code) => return Error(code);
      case Found(row) =>
        FoundIsOpen(trace, id, caller);
        if row.status.Complete? {
          return Done(row.received, true);
        }
        reply := Resume(id);
    }

    // ---- finish ----------------------------------------------------------------

    /** A finished upload is published once, whole and verified, at a free path; a repeated
        `finish` returns the receipt. An error after the publication leaves the row
        `complete`, or `publishing`, which nothing but an operator resolves. */
    method Finish(id: Id, caller: Caller, now: real) returns (reply: Reply)
      requires Idle() && clock <= now
      modifies this
      ensures Idle() && old(trace) <= trace
      ensures reply == Error(Storage) || FinishRefusal(old(State()).(clock := now), id, caller).None? || reply == Error(FinishRefusal(old(State()).(clock := now), id, caller).value)
      ensures FinishRefusal(old(State()).(clock := now), id, caller).Some? ==> reply.Error? && saved == old(saved) && targets == old(targets) && published == old(published)
      ensures reply.Done? ==> Entitled(caller, old(saved), id, now)
      ensures forall code :: Denied(caller, old(saved), id, now, code) ==> reply == Error(code)
      ensures Entitled(caller, old(saved), id, now) && old(saved)[id].status == Receiving ==>
                && (old(saved)[id].received != old(saved)[id].size ==> reply == Error(Incomplete))
                && (old(saved)[id].received == old(saved)[id].size && old(saved)[id].path in old(targets) ==> reply == Error(DestinationExists))
      ensures reply.Done? ==> id in old(saved) && id in saved && saved[id].status.Complete? && saved[id].content == old(saved)[id].content
      ensures reply.Done? && old(saved)[id].status.Complete? ==> published == old(published) && targets == old(targets)
      ensures reply.Done? && !old(saved)[id].status.Complete? ==> PublishedRow(old(State()), State(), id)
      ensures reply.Done? && !old(saved)[id].status.Complete? ==> saved[id].expires == now + 604800.0
      ensures reply.Done? ==> reply == Done(old(saved)[id].received, true)
      ensures reply.Error? && published != old(published) ==>
                id in saved && Out(saved[id]) && PublishedRow(old(State()), State(), id)
      ensures published == old(published) ==> targets == old(targets)
      ensures reply.Error? && id in old(saved) && id in saved && saved[id].status.Failed? && !old(saved)[id].status.Failed? ==>
                reply == Error(Integrity) && hash(old(saved)[id].content) != old(saved)[id].sha
      ensures forall other :: other != id ==> (other in saved <==> other in old(saved)) && (other in saved ==> saved[other] == old(saved)[other])
    {
      hide Run, Usable, Lookup, Entitled, Denied;
      Tick(now);
      LookupsMean(caller, rows, id, clock);
      EntitledRow(caller, rows, id, clock);
      match Lookup(rows, clock, id, caller)
      case Missing(code) => return Error(code);
      case Found(row) =>
        FoundIsOpen(trace, id, caller);
        if row.status.Complete? {
          DiscardSpool(id);
          Commit();
          return Done(row.received, true);
        }
        if row.received != row.size {
          return Error(Incomplete);
        }
        if row.path in targets {
          return Error(DestinationExists);
        }
        reply := VerifyAndPublish(id);
    }

    /** Check the whole file against its digest before anything of the project is touched. */
    method VerifyAndPublish(id: Id) returns (reply: Reply)
      requires Idle() && id in rows && rows[id].status.Receiving? && !Over(rows[id], clock)
      requires rows[id].received == rows[id].size && rows[id].path !in targets
      modifies this
      ensures Idle() && old(trace) <= trace && FinishResult(old(State()), id, reply, State())
      ensures !Usable(old(State()), id) ==>
                (reply == Error(Storage) || reply == Error(Recovery)) && saved == old(saved) && published == old(published)
    {
      hide Run, Usable;
      SpoolFacts(trace, id);
      var fault := OpenSpool(id);
      if fault.Some? {
        reply := Fail(fault.value);
        return;
      }
      if hash(spool[id].bytes) != rows[id].sha {
        Reject(id);
        Commit();
        return Error(Integrity);
      }
      reply := PublishVerified(id);
    }

    /** Stage, copy, record the intent, publish, record the receipt: committed one by one. */
    method PublishVerified(id: Id) returns (reply: Reply)
      requires Valid() && id in rows && Allowed(State(), Effect.Stage(id)) && id in saved && rows == saved[id := rows[id]]
      requires rows[id] == saved[id].(inode := rows[id].inode) && spool[id].bytes == rows[id].content
      modifies this
      ensures Idle() && old(trace) <= trace && FinishResult(old(State()), id, reply, State())
    {
      hide Run, Usable;
      var failed := *;
      if failed {
        reply := Fail(Storage);
        return;
      }
      Stage(id);
      Commit();
      var copy, intact := CopyOut(id);
      if !intact {
        reply := Fail(Integrity);
        return;
      }
      var permitted := *;
      if !permitted {
        reply := Fail(Recovery);
        return;
      }
      reply := PublishCopy(id, copy);
    }

    method PublishCopy(id: Id, copy: Bytes) returns (reply: Reply)
      requires Valid() && Allowed(State(), Effect.Intend(id, copy)) && rows == saved && copy == rows[id].content
      modifies this
      ensures Idle() && old(trace) <= trace
      ensures id in saved && saved == old(saved)[id := saved[id]] && saved[id].content == old(saved)[id].content
      ensures reply.Done? ==> saved[id].status.Complete? && PublishedRow(old(State()), State(), id)
      ensures reply.Done? ==> saved[id].expires == old(clock) + 604800.0 && reply == Done(old(saved)[id].received, true)
      ensures reply.Error? ==> Out(saved[id])
      ensures if published == old(published) then targets == old(targets) else PublishedRow(old(State()), State(), id)
    {
      hide Run;
      Intend(id, copy);
      Commit();
      reply := PublishIntended(id, copy);
    }

    method PublishIntended(id: Id, copy: Bytes) returns (reply: Reply)
      requires Valid() && phase == Ready(id, copy) && rows == saved && id in rows && rows[id].status.Publishing?
      requires copy == rows[id].content && |copy| == rows[id].size && hash(copy) == rows[id].sha
      modifies this
      ensures Idle() && old(trace) <= trace
      ensures id in saved && saved == old(saved)[id := saved[id]] && saved[id].content == old(saved)[id].content
      ensures reply.Done? ==> saved[id].status.Complete? && PublishedRow(old(State()), State(), id)
      ensures reply.Done? ==> saved[id].expires == old(clock) + 604800.0 && reply == Done(old(saved)[id].received, true)
      ensures reply.Error? ==> Out(saved[id])
      ensures if published == old(published) then targets == old(targets) else PublishedRow(old(State()), State(), id)
    {
      hide Run, Usable;
      var fault := TryPublish(id, copy);
      if fault.Some? {
        reply := Fail(fault.value);
        return;
      }
      var closed := Conclude(id);
      return if closed then Done(rows[id].received, true) else Error(Storage);
    }

    /** The receipt is committed before the destination is closed and the spool file goes. */
    method Conclude(id: Id) returns (closed: bool)
      requires Valid() && phase == Published(id) && rows == saved && id in rows
      modifies this
      ensures Idle() && old(trace) <= trace && targets == old(targets) && published == old(published)
      ensures id in saved && saved[id].status.Complete? && saved[id].content == old(saved)[id].content
      ensures saved[id].expires == old(clock) + 604800.0 && saved[id].received == old(saved)[id].received
      ensures saved == old(saved)[id := saved[id]]
    {
      hide Run;
      Receipt(id);
      Commit();
      closed := *;
      if closed {
        DiscardSpool(id);
        Commit();
      }
    }

    /** Read the spool file block by block and hash what was read. */
    method CopyOut(id: Id) returns (copy: Bytes, intact: bool)
      requires id in spool && id in rows
      ensures intact ==> copy == spool[id].bytes && |copy| == rows[id].size && hash(copy) == rows[id].sha
    {
      copy := [];
      var at := 0;
      while at < |spool[id].bytes|
        invariant at <= |spool[id].bytes| && copy == spool[id].bytes[..at]
      {
        var failed := *;
        if failed {
          return copy, false;
        }
        var next := Lesser(at + CHUNK_BYTES, |spool[id].bytes|);
        copy, at := copy + spool[id].bytes[at..next], next;
      }
      intact := |copy| == rows[id].size && hash(copy) == rows[id].sha;
    }

    /** Publication never replaces a file; it can fail before or after it took effect. */
    method TryPublish(id: Id, copy: Bytes) returns (fault: Option<Code>)
      requires Valid() && phase == Ready(id, copy) && id in rows && id in saved && saved[id].status.Publishing?
      modifies `targets, `published, `phase, `trace
      ensures Valid() && old(trace) <= trace
      ensures fault.None? ==> rows[id].path !in old(targets) && State() == Do(old(State()), Effect.Publish(id))
      ensures fault.Some? ==> State() == old(State()) || (rows[id].path !in old(targets) && State() == Do(old(State()), Effect.Publish(id)))
    {
      hide Run;
      if rows[id].path in targets {
        return Some(DestinationExists);
      }
      var failed := *;
      if failed {
        return Some(Storage);
      }
      Publish(id, copy);
      failed := *;
      return if failed then Some(Storage) else None;
    }

    /** The spool of a published upload goes away; failures keep its evidence and capacity. */
    method DiscardSpool(id: Id)
      requires Idle() && id in rows && rows[id].status.Complete?
      modifies `spool, `rows, `trace
      ensures Valid() && old(trace) <= trace && id in rows
      ensures rows == old(rows)[id := old(rows)[id].(spooled := rows[id].spooled)]
    {
      hide Run;
      if rows[id].spooled {
        var gone := DropSpool(id);
      }
    }

    /** Remove a spool file that is no longer needed, if it is the recorded one. */
    method DropSpool(id: Id) returns (gone: bool)
      requires Valid() && phase.Quiet? && id in rows && id in saved && rows[id].spooled
      requires Over(rows[id], clock) && Over(saved[id], clock)
      modifies `spool, `rows, `trace
      ensures Valid() && old(trace) <= trace && id in rows
      ensures rows == old(rows)[id := old(rows)[id].(spooled := !gone)]
      ensures spool == old(spool) || (id in old(spool) && spool == old(spool) - {id} && old(rows)[id].inode == Some(old(spool)[id].inode))
      ensures gone ==> id !in spool
    {
      hide Run;
      var failed := *;
      if failed || (id in spool && rows[id].inode != Some(spool[id].inode)) {
        return false;
      }
      if id in spool {
        Unlink(id);
        failed := *;
        if failed {
          return false;
        }
      }
      Release(id);
      return true;
    }

    // ---- cleanup -----------------------------------------------------------------

    /** Expired spool files and receipts go; an unresolved publication, a file of another
        identity and everything in the project stay. */
    method Cleanup(now: real)
      requires Idle() && clock <= now
      modifies this
      ensures Idle() && old(trace) <= trace && targets == old(targets) && published == old(published)
      ensures saved.Keys <= old(saved).Keys
      ensures forall id :: id in old(saved) ==> Cleaned(old(saved)[id], id, saved, spool, now)
      ensures forall id :: id in old(saved) && !Due(old(saved)[id], now) ==> id in saved && saved[id] == old(saved)[id]
      ensures forall id :: id in spool ==> id in old(spool) && spool[id] == old(spool)[id]
      ensures forall id :: id in old(spool) && id in old(saved) && old(saved)[id].spoolExpires > now ==> id in spool
      ensures forall id :: id in old(saved) && id !in saved ==>
                old(saved)[id].expires <= now && old(saved)[id].status != Staging && old(saved)[id].status != Publishing && id !in spool
      ensures forall id :: id in saved ==> id in old(saved) && saved[id] == old(saved)[id].(spooled := saved[id].spooled)
      ensures forall id :: id in saved && saved[id].spooled != old(saved)[id].spooled ==> old(saved)[id].spoolExpires <= now && id !in spool
      ensures forall id :: id in saved && old(saved)[id].expires <= now && saved[id].spooled != old(saved)[id].spooled ==>
                saved[id].status == Staging || saved[id].status == Publishing
    {
      hide Run, Sweeping;
      Tick(now);
      ghost var spool0 := spool;
      var due := DueIds(rows, clock);
      SweepStarts(saved, spool, now);
      while due != {}
        invariant Valid() && old(trace) <= trace && phase.Quiet? && clock == now
        invariant saved == old(saved) && targets == old(targets) && published == old(published) && spool0 == old(spool)
        invariant Sweeping(saved, rows, spool0, spool, due, now)
      {
        var id :| id in due;
        SweptNext(saved, rows, spool0, spool, due, id, now);
        ghost var rows0, spool1 := rows, spool;
        Expire(id);
        SweptOne(saved, rows0, rows, spool0, spool1, spool, due, id, now);
        due := due - {id};
      }
      SweepEnds(saved, rows, spool0, spool, now);
      Commit();
    }

    method Expire(id: Id)
      requires Valid() && phase.Quiet? && id in rows && id in saved && rows[id] == saved[id]
      modifies `rows, `spool, `trace
      ensures Valid() && old(trace) <= trace
      ensures Cleaned(old(rows)[id], id, rows, spool, clock)
      ensures rows == old(rows) - {id} || (id in rows && rows == old(rows)[id := rows[id]])
      ensures spool == old(spool) || (spool == old(spool) - {id} && old(rows)[id].spoolExpires <= clock)
    {
      hide Run;
      SpoolFacts(trace, id);
      if rows[id].spooled && rows[id].spoolExpires <= clock {
        var gone := DropSpool(id);
        if !gone {
          return;
        }
      }
      if rows[id].expires <= clock && !rows[id].status.Staging? && !rows[id].status.Publishing? {
        Remove(id);
      }
    }
  }

  // ---- what a cleanup knows half way ---------------------------------------------

  ghost predicate Sweeping(saved: map<Id, Row>, rows: map<Id, Row>, before: map<Id, File>, spool: map<Id, File>, due: set<Id>, now: real) {
    && rows.Keys <= saved.Keys
    && (forall id :: id in due ==> id in saved && id in rows && rows[id] == saved[id] && Due(saved[id], now))
    && (forall id :: id in saved && id !in due ==> Cleaned(saved[id], id, rows, spool, now))
    && (forall id :: id in saved && !Due(saved[id], now) ==> id in rows && rows[id] == saved[id])
    && (forall id :: id in spool ==> id in before && spool[id] == before[id])
    && (forall id :: id in before && id in saved && saved[id].spoolExpires > now ==> id in spool)
  }

  lemma SweepStarts(saved: map<Id, Row>, spool: map<Id, File>, now: real)
    ensures Sweeping(saved, saved, spool, spool, DueIds(saved, now), now)
  {
  }

  lemma SweptNext(saved: map<Id, Row>, rows: map<Id, Row>, before: map<Id, File>, spool: map<Id, File>, due: set<Id>, id: Id, now: real)
    requires Sweeping(saved, rows, before, spool, due, now) && id in due
    ensures id in saved && id in rows && rows[id] == saved[id]
  {
  }

  lemma SweptOne(saved: map<Id, Row>, rows: map<Id, Row>, rows': map<Id, Row>, before: map<Id, File>, spool: map<Id, File>, spool': map<Id, File>,
                 due: set<Id>, id: Id, now: real)
    requires Sweeping(saved, rows, before, spool, due, now) && id in due && id in saved
    requires Cleaned(saved[id], id, rows', spool', now)
    requires rows' == rows - {id} || (id in rows' && rows' == rows[id := rows'[id]])
    requires spool' == spool || (spool' == spool - {id} && saved[id].spoolExpires <= now)
    ensures Sweeping(saved, rows', before, spool', due - {id}, now)
  {
    hide Cleaned, Due;
    forall other | other in saved && other !in due ensures Cleaned(saved[other], other, rows', spool', now) {
      CleanedOther(saved[other], other, rows, rows', spool, spool', id, now);
    }
  }

  lemma CleanedOther(r: Row, other: Id, rows: map<Id, Row>, rows': map<Id, Row>, spool: map<Id, File>, spool': map<Id, File>, id: Id, now: real)
    requires Cleaned(r, other, rows, spool, now) && other != id
    requires other in rows <==> other in rows'
    requires other in rows ==> rows'[other] == rows[other]
    requires other in spool <==> other in spool'
    ensures Cleaned(r, other, rows', spool', now)
  {
  }

  lemma SweepEnds(saved: map<Id, Row>, rows: map<Id, Row>, before: map<Id, File>, spool: map<Id, File>, now: real)
    requires Sweeping(saved, rows, before, spool, {}, now)
    ensures rows.Keys <= saved.Keys
    ensures forall id :: id in saved ==> Cleaned(saved[id], id, rows, spool, now)
    ensures forall id :: id in saved && !Due(saved[id], now) ==> id in rows && rows[id] == saved[id]
    ensures forall id :: id in spool ==> id in before && spool[id] == before[id]
    ensures forall id :: id in before && id in saved && saved[id].spoolExpires > now ==> id in spool
  {
  }

  predicate Due(r: Row, now: real) {
    r.spoolExpires <= now || r.expires <= now
  }

  function DueIds(rows: map<Id, Row>, now: real): set<Id> {
    set id | id in rows && Due(rows[id], now)
  }

  /** A row goes only when it has expired and no publication of it is open; then its file is
      gone too. What stays is unchanged, or has lost its spool file. */
  predicate Cleaned(r: Row, id: Id, rows: map<Id, Row>, spool: map<Id, File>, now: real) {
    if id in rows then
      && rows[id] == r.(spooled := rows[id].spooled)
      && (rows[id].spooled != r.spooled ==> id !in spool && r.spoolExpires <= now)
      && (r.expires <= now ==> r.spooled == rows[id].spooled || r.status.Staging? || r.status.Publishing?)
    else r.expires <= now && !r.status.Staging? && !r.status.Publishing? && id !in spool
  }

  /** Why a `finish` is refused before it verifies anything. */
  function FinishRefusal(w: World, id: Id, caller: Caller): Option<Code> {
    match Lookup(w.rows, w.clock, id, caller)
    case Missing(code) => Some(code)
    case Found(row) =>
      if row.status.Complete? then None
      else if row.received != row.size then Some(Incomplete)
      else if row.path in w.targets then Some(DestinationExists)
      else if !Usable(w, id) then Some(Recovery)
      else None
  }

  ghost predicate FinishResult(w: World, id: Id, reply: Reply, w': World) {
    && id in w.saved && id in w'.saved && w'.saved == w.saved[id := w'.saved[id]] && w'.saved[id].content == w.saved[id].content
    && (reply.Done? ==> w'.saved[id].status.Complete? && PublishedRow(w, w', id) && w'.saved[id].expires == w.clock + 604800.0)
    && (reply.Done? ==> reply == Done(w.saved[id].received, true))
    && (reply.Error? && w'.published != w.published ==> Out(w'.saved[id]))
    && (if w'.published == w.published then w'.targets == w.targets else PublishedRow(w, w', id))
    && (reply.Error? && w'.saved[id].status.Failed? ==> reply == Error(Integrity) && w.hash(w.saved[id].content) != w.saved[id].sha)
  }

  /** Exactly the content of the row was published, at a path that was free. */
  ghost predicate PublishedRow(w: World, w': World, id: Id) {
    id in w.saved &&
    var r := w.saved[id];
    && r.path !in w.targets && w'.targets == w.targets[r.path := r.content]
    && w'.published == w.published + [Publication(r.serial, r.path, r.content, r.size, r.sha)]
    && |r.content| == r.size && w.hash(r.content) == r.sha
  }

  /** 256 unfinished uploads of the node, or 32 of the owner. */
  predicate Crowded(rows: map<Id, Row>, owner: string) {
    var active := set id | id in rows && !rows[id].status.Complete?;
    |active| >= NODE_UPLOADS || |set id | id in active && rows[id].owner == owner| >= OWNER_UPLOADS
  }

  /** Why a `begin` is refused, in the order of the checks. */
  ghost function BeginRefusal(w: World, id: Id, caller: Caller, path: string, size: nat, sha: string, limit: nat): Option<Code> {
    if limit > MAX_IMPORT_BYTES then Some(Configuration)
    else if size > limit then Some(TooLarge)
    else if !caller.allowed || !caller.writable(path) then Some(Forbidden)
    else if id in w.rows then
      match Lookup(w.rows, w.clock, id, caller)
      case Missing(code) => Some(code)
      case Found(row) => if Declared(row, caller.binding, path, size, sha) then None else Some(Conflict)
    else if path in w.targets then Some(DestinationExists)
    else if Reserved(w.rows) + 2 * size > RESERVED_BYTES || Crowded(w.rows, caller.owner) then Some(Quota)
    else None
  }

  predicate Declared(r: Row, binding: string, path: string, size: nat, sha: string) {
    r.binding == binding && r.path == path && r.size == size && r.sha == sha
  }

  /** The outcome of an admissible chunk when the disk does not fail. */
  function AcceptReply(w: World, id: Id, offset: nat, data: Bytes): Reply
    requires id in w.rows
  {
    var row, end := w.rows[id], offset + |data|;
    if !Usable(w, id) then Error(Recovery)
    else if offset < row.received then
      if end <= |row.content| && row.content[offset..end] == data then Done(row.received, false) else Error(Conflict)
    else Done(end, false)
  }

  /** The outcome of a chunk when the disk does not fail. */
  function ChunkReply(w: World, id: Id, caller: Caller, offset: nat, data: Bytes, sha: string): Reply {
    if data == [] || |data| > CHUNK_BYTES then Error(InvalidChunk)
    else if w.hash(data) != sha then Error(ChunkIntegrity)
    else
      match Lookup(w.rows, w.clock, id, caller)
      case Missing(code) => Error(code)
      case Found(row) =>
        var end := offset + |data|;
        if row.status.Complete? then Error(AlreadyComplete)
        else if end > row.size || offset > row.received || offset < row.received < end then Error(BadOffset)
        else AcceptReply(w, id, offset, data)
  }

  /** The acknowledged content contains the chunk at its offset, and nothing else has changed. */
  predicate ChunkTaken(r: Row, s: Row, offset: nat, data: Bytes) {
    && offset + |data| <= s.received == |s.content| && s.content[offset..offset + |data|] == data
    && s.content == (if offset == r.received then r.content + data else r.content)
    && s == r.(content := s.content, received := s.received, inode := s.inode)
  }

  ghost function NewSpool(w: World, id: Id): World
    requires id in w.rows
  {
    w.(spool := w.spool[id := File(w.inode, [], 0)], inode := w.inode + 1,
       rows := w.rows[id := w.rows[id].(inode := Some(w.inode))])
  }
}
