// Resumable uploads as single effects: the database reverts to its last commit on a
// crash, the spool directory does not, and unsynced file contents may be lost.
// Models agent/incoming_uploads.py.

module UploadModel {
  import opened Settings

  newtype Byte = x: int | 0 <= x < 256
  type Bytes = seq<Byte>
  type Id = string

  const RESERVED_BYTES: nat := 2 * 1024 * 1024 * 1024
  const CHUNK_BYTES: nat := 256 * 1024
  const OWNER_UPLOADS: nat := 32
  const NODE_UPLOADS: nat := 256
  const ACTIVE_SECONDS: real := 86400.0
  const RECEIPT_SECONDS: real := 604800.0

  datatype Status = Receiving | Failed | Staging | Publishing | Complete

  /** `serial` tells the lifetimes of a reused id apart, and `content` is the concatenation
      of the chunks that `received` counts; neither is a column of the table. */
  datatype Row = Row(
    serial: nat, binding: string, owner: string, path: string, size: nat, sha: string,
    content: Bytes, received: nat, status: Status,
    expires: real, spoolExpires: real, spooled: bool, inode: Option<nat>)

  /** The first `safe` bytes are known to be on disk. */
  datatype File = File(inode: nat, bytes: Bytes, safe: nat)

  datatype Publication = Publication(serial: nat, path: string, content: Bytes, size: nat, sha: string)

  /** How far the running request has come; a crash or an error forgets it. */
  datatype Phase = Quiet | Created(id: Id) | Copying(id: Id) | Ready(id: Id, copy: Bytes) | Published(id: Id)

  datatype World = World(
    saved: map<Id, Row>,
    rows: map<Id, Row>,
    spool: map<Id, File>,
    targets: map<string, Bytes>,
    phase: Phase,
    clock: real,
    hash: Bytes -> string,
    serial: nat,
    inode: nat,
    published: seq<Publication>)

  datatype Effect =
    | Tick(now: real)
    | Commit
    | Rollback
    | Reserve(id: Id, binding: string, owner: string, path: string, size: nat, sha: string)
    | Create(id: Id)
    | Register(id: Id)
    | Trim(id: Id)
    | Flush(id: Id)
    | Write(id: Id, at: nat, data: Bytes)
    | Acknowledge(id: Id, data: Bytes)
    | Reject(id: Id)
    | Stage(id: Id)
    | Intend(id: Id, copy: Bytes)
    | Publish(id: Id)
    | Receipt(id: Id)
    | Unlink(id: Id)
    | Release(id: Id)
    | Remove(id: Id)
    | Outside(path: string, content: Option<Bytes>)
    | Crash(spool: map<Id, File>)

  // ---- capacity -----------------------------------------------------------

  predicate Holds(r: Row) {
    r.spooled || r.status.Staging? || r.status.Publishing?
  }

  function Weight(r: Row): nat {
    if Holds(r) then 2 * r.size else 0
  }

  ghost function Reserved(m: map<Id, Row>): nat
    decreases |m|
  {
    if m == map[] then 0
    else
      var id :| id in m;
      Weight(m[id]) + Reserved(m - {id})
  }

  lemma {:induction false} ReservedSplit(m: map<Id, Row>, id: Id)
    requires id in m
    ensures Reserved(m) == Weight(m[id]) + Reserved(m - {id})
    decreases |m|
  {
    var x :| x in m && Reserved(m) == Weight(m[x]) + Reserved(m - {x});
    if x != id {
      ReservedSplit(m - {x}, id);
      ReservedSplit(m - {id}, x);
      assert m - {x} - {id} == m - {id} - {x};
    }
  }

  lemma ReservedUpdate(m: map<Id, Row>, id: Id, r: Row)
    ensures Reserved(m[id := r]) == Reserved(m - {id}) + Weight(r)
    ensures Reserved(m) == Reserved(m - {id}) + if id in m then Weight(m[id]) else 0
  {
    ReservedSplit(m[id := r], id);
    assert m[id := r] - {id} == m - {id};
    if id in m { ReservedSplit(m, id); } else { assert m - {id} == m; }
  }

  // ---- effects ------------------------------------------------------------

  /** The spool file is no longer needed: published, or expired. */
  predicate Over(r: Row, clock: real) {
    r.status.Complete? || r.spoolExpires <= clock
  }

  predicate Opened(w: World, id: Id) {
    id in w.rows && id in w.spool && w.rows[id].inode == Some(w.spool[id].inode)
  }

  /** What the code has checked, or just done, before each effect. */
  ghost predicate Allowed(w: World, e: Effect) {
    match e
    case Tick(now) => w.clock <= now
    case Commit => true
    case Rollback => true
    case Reserve(id, _, _, _, size, _) =>
      id !in w.rows && id !in w.saved && Reserved(w.rows) + 2 * size <= RESERVED_BYTES
    case Create(id) => id in w.rows && id in w.saved && w.rows[id].spooled && w.saved[id].spooled && w.rows[id].inode.None? && w.rows[id].received == 0 && id !in w.spool && w.phase.Quiet?
    case Register(id) => w.phase == Created(id) && id in w.rows && id in w.spool
    case Trim(id) => Opened(w, id) && w.rows[id].received <= |w.spool[id].bytes|
    case Flush(id) => id in w.spool
    case Write(id, at, data) => Opened(w, id) && w.rows[id].received <= at <= |w.spool[id].bytes|
    case Acknowledge(id, data) =>
      && Opened(w, id) && w.rows[id].status.Receiving?
      && w.rows[id].received + |data| <= Lesser(w.rows[id].size, w.spool[id].safe)
      && w.spool[id].safe <= |w.spool[id].bytes|
      && w.spool[id].bytes[w.rows[id].received .. w.rows[id].received + |data|] == data
    case Reject(id) => id in w.rows && w.rows[id].status.Receiving?
    case Stage(id) =>
      && Opened(w, id) && w.phase.Quiet? && w.rows[id].status.Receiving?
      && w.rows[id].received == w.rows[id].size == |w.spool[id].bytes|
      && w.hash(w.spool[id].bytes) == w.rows[id].sha
    case Intend(id, copy) =>
      && Opened(w, id) && w.phase == Copying(id)
      && copy == w.spool[id].bytes && |copy| == w.rows[id].size && w.hash(copy) == w.rows[id].sha
    case Publish(id) =>
      w.phase.Ready? && w.phase.id == id && id in w.saved && id in w.rows && w.saved[id].status.Publishing? && w.rows[id].path !in w.targets
    case Receipt(id) => w.phase == Published(id) && id in w.rows
    case Unlink(id) => w.phase.Quiet? && Opened(w, id) && id in w.saved && Over(w.rows[id], w.clock) && Over(w.saved[id], w.clock)
    case Release(id) => w.phase.Quiet? && id in w.rows && id !in w.spool && Over(w.rows[id], w.clock)
    case Remove(id) =>
      && w.phase.Quiet? && id in w.rows && !w.rows[id].spooled && w.rows[id].expires <= w.clock
      && !w.rows[id].status.Staging? && !w.rows[id].status.Publishing?
    case Outside(_, _) => true
    case Crash(spool) => Survives(w.spool, spool)
  }

  function Lesser(a: nat, b: nat): nat { if a <= b then a else b }

  /** A crash keeps every file, and of each file what was synced. */
  ghost predicate Survives(before: map<Id, File>, after: map<Id, File>) {
    after.Keys == before.Keys &&
    forall id :: id in before ==> Torn(before[id], after[id])
  }

  ghost predicate Torn(f: File, g: File) {
    && g.inode == f.inode && g.safe == f.safe
    && (f.safe <= |f.bytes| ==> f.safe <= |g.bytes| && g.bytes[..f.safe] == f.bytes[..f.safe])
  }

  function Overwritten(f: File, at: nat, data: Bytes): File
    requires at <= |f.bytes|
  {
    File(f.inode, f.bytes[..at] + data + (if at + |data| <= |f.bytes| then f.bytes[at + |data|..] else []), Lesser(f.safe, at))
  }

  ghost function Do(w: World, e: Effect): World
    requires Allowed(w, e)
  {
    match e
    case Tick(now) => w.(clock := now)
    case Commit => w.(saved := w.rows)
    case Rollback => w.(rows := w.saved, phase := Quiet)
    case Reserve(id, binding, owner, path, size, sha) =>
      w.(rows := w.rows[id := NewRow(w.serial, binding, owner, path, size, sha, w.clock)], serial := w.serial + 1)
    case Create(id) => w.(spool := w.spool[id := File(w.inode, [], 0)], inode := w.inode + 1, phase := Created(id))
    case Register(id) => w.(rows := w.rows[id := w.rows[id].(inode := Some(w.spool[id].inode))], phase := Quiet)
    case Trim(id) =>
      var f, n := w.spool[id], w.rows[id].received;
      w.(spool := w.spool[id := f.(bytes := f.bytes[..n], safe := Lesser(f.safe, n))])
    case Flush(id) => w.(spool := w.spool[id := w.spool[id].(safe := |w.spool[id].bytes|)])
    case Write(id, at, data) => w.(spool := w.spool[id := Overwritten(w.spool[id], at, data)])
    case Acknowledge(id, data) => w.(rows := w.rows[id := Grown(w.rows[id], data)])
    case Reject(id) => w.(rows := w.rows[id := w.rows[id].(status := Failed)])
    case Stage(id) =>
      w.(rows := w.rows[id := w.rows[id].(status := Staging, expires := w.clock + RECEIPT_SECONDS)], phase := Copying(id))
    case Intend(id, copy) =>
      w.(rows := w.rows[id := w.rows[id].(status := Publishing, expires := w.clock + RECEIPT_SECONDS)], phase := Ready(id, copy))
    case Publish(id) =>
      var r := w.rows[id];
      w.(targets := w.targets[r.path := w.phase.copy], phase := Published(id),
         published := w.published + [Publication(r.serial, r.path, w.phase.copy, r.size, r.sha)])
    case Receipt(id) =>
      w.(rows := w.rows[id := w.rows[id].(status := Complete, expires := w.clock + RECEIPT_SECONDS)], phase := Quiet)
    case Unlink(id) => w.(spool := w.spool - {id})
    case Release(id) => w.(rows := w.rows[id := w.rows[id].(spooled := false)])
    case Remove(id) => w.(rows := w.rows - {id})
    case Outside(path, content) =>
      w.(targets := if content.Some? then w.targets[path := content.value] else w.targets - {path})
    case Crash(spool) => w.(rows := w.saved, spool := spool, phase := Quiet)
  }

  function NewRow(serial: nat, binding: string, owner: string, path: string, size: nat, sha: string, now: real): Row {
    Row(serial, binding, owner, path, size, sha, [], 0, Receiving, now + ACTIVE_SECONDS, now + ACTIVE_SECONDS, true, None)
  }

  function Grown(r: Row, data: Bytes): Row {
    r.(content := r.content + data, received := r.received + |data|)
  }

  // ---- the invariant ------------------------------------------------------

  /** The spool file of a row begins with the acknowledged bytes, and they are synced.
      A file is missing only before it is registered, or after its upload has expired
      or been published. */
  ghost predicate Backed(r: Row, id: Id, spool: map<Id, File>, clock: real) {
    if r.inode.None? then r.received == 0 && (id in spool ==> spool[id].safe <= |spool[id].bytes|)
    else if id in spool then
      && r.spooled && spool[id].inode == r.inode.value
      && r.received <= spool[id].safe <= |spool[id].bytes|
      && spool[id].bytes[..r.received] == r.content
    else Over(r, clock)
  }

  ghost predicate Proper(r: Row, clock: real, serial: nat) {
    && r.received == |r.content| <= r.size && r.serial < serial
    && r.spoolExpires <= r.expires && r.spoolExpires <= clock + ACTIVE_SECONDS
    && (if r.status.Receiving? || r.status.Failed? then r.expires == r.spoolExpires else r.received == r.size)
    && (!r.spooled ==> Over(r, clock))
  }

  ghost predicate Table(m: map<Id, Row>, spool: map<Id, File>, clock: real, serial: nat) {
    && (forall id :: id in m ==> Proper(m[id], clock, serial) && Backed(m[id], id, spool, clock))
    && (forall id :: id in spool ==> id in m && m[id].spooled)
    && Reserved(m) <= RESERVED_BYTES
  }

  /** The transaction in progress has only moved forward from the last commit. */
  ghost predicate Ahead(saved: map<Id, Row>, rows: map<Id, Row>) {
    && (forall id :: id in saved && id in rows ==> Continues(saved[id], rows[id]))
    && Apart(rows, rows) && Apart(saved, saved) && Apart(saved, rows)
  }

  /** Different ids never share a lifetime. */
  ghost predicate Apart(m: map<Id, Row>, n: map<Id, Row>) {
    forall a, b :: a in m && b in n && a != b ==> m[a].serial != n[b].serial
  }

  ghost predicate Continues(r: Row, s: Row) {
    && s.serial == r.serial && r.content <= s.content && r.size == s.size && r.sha == s.sha && r.path == s.path
    && (r.inode.Some? ==> s.inode == r.inode)
    && (r.status.Complete? ==> s.status.Complete?) && s.spoolExpires == r.spoolExpires
    && (r.status.Publishing? ==> s.status.Publishing? || s.status.Complete?)
  }

  ghost predicate Faithful(p: Publication, hash: Bytes -> string) {
    |p.content| == p.size && hash(p.content) == p.sha
  }

  predicate Out(r: Row) {
    r.status.Publishing? || r.status.Complete?
  }

  /** At most one publication of each row, whole and with the declared digest. */
  ghost predicate Once(published: seq<Publication>, hash: Bytes -> string, serial: nat) {
    && (forall i :: 0 <= i < |published| ==> Faithful(published[i], hash) && published[i].serial < serial)
    && (forall i, j :: 0 <= i < j < |published| ==> published[i].serial != published[j].serial)
  }

  ghost predicate Marked(m: map<Id, Row>, published: seq<Publication>) {
    forall id, i :: id in m && 0 <= i < |published| && published[i].serial == m[id].serial ==> Out(m[id])
  }

  /** The publication the running `finish` prepares has not been made before. */
  ghost predicate Prepared(rows: map<Id, Row>, phase: Phase, hash: Bytes -> string, published: seq<Publication>) {
    match phase
    case Quiet => true
    case Created(id) => id in rows && rows[id].inode.None? && rows[id].received == 0
    case Copying(id) => id in rows && rows[id].status.Staging?
    case Ready(id, copy) =>
      && id in rows && rows[id].status.Publishing? && copy == rows[id].content
      && |copy| == rows[id].size && hash(copy) == rows[id].sha
      && forall i :: 0 <= i < |published| ==> published[i].serial != rows[id].serial
    case Published(id) => id in rows && rows[id].status.Publishing?
  }

  ghost predicate Sound(w: World) {
    && Table(w.saved, w.spool, w.clock, w.serial) && Table(w.rows, w.spool, w.clock, w.serial)
    && Ahead(w.saved, w.rows)
    && Once(w.published, w.hash, w.serial) && Marked(w.saved, w.published) && Marked(w.rows, w.published)
    && Prepared(w.rows, w.phase, w.hash, w.published)
  }

  // ---- every effect keeps it ----------------------------------------------

  lemma EffectSound(w: World, e: Effect)
    requires Sound(w) && Allowed(w, e)
    ensures Sound(Do(w, e))
  {
    hide Allowed, Do, Sound;
    if {
      case e.Tick? || e.Commit? || e.Rollback? || e.Outside? => SettingSound(w, e);
      case e.Reserve? => ReserveSound(w, e);
      case e.Create? || e.Trim? || e.Flush? || e.Write? => FileSound(w, e);
      case e.Register? || e.Acknowledge? || e.Reject? || e.Stage? || e.Intend? || e.Receipt? || e.Release? => RowSound(w, e);
      case e.Publish? => PublishSound(w, e);
      case e.Unlink? => UnlinkSound(w, e);
      case e.Remove? => RemoveSound(w, e);
      case e.Crash? => CrashSound(w, e);
    }
  }

  lemma SettingSound(w: World, e: Effect)
    requires Sound(w) && Allowed(w, e) && (e.Tick? || e.Commit? || e.Rollback? || e.Outside?)
    ensures Sound(Do(w, e))
  {
    if e.Tick? {
      LaterTable(w.saved, w.spool, w.clock, e.now, w.serial, w.serial);
      LaterTable(w.rows, w.spool, w.clock, e.now, w.serial, w.serial);
    }
    hide Table, Once, Marked;
  }

  lemma LaterTable(m: map<Id, Row>, spool: map<Id, File>, clock: real, now: real, serial: nat, next: nat)
    requires Table(m, spool, clock, serial) && clock <= now && serial <= next
    ensures Table(m, spool, now, next)
  {
  }

  lemma ReserveSound(w: World, e: Effect)
    requires Sound(w) && e.Reserve? && Allowed(w, e)
    ensures Sound(Do(w, e))
  {
    hide Table, Once, Marked, Prepared, Ahead, Backed, Proper, Reserved;
    var r := NewRow(w.serial, e.binding, e.owner, e.path, e.size, e.sha, w.clock);
    NoFile(w.rows, w.spool, w.clock, w.serial, e.id);
    NewFits(r, e.id, w);
    LaterTable(w.saved, w.spool, w.clock, w.clock, w.serial, w.serial + 1);
    LaterTable(w.rows, w.spool, w.clock, w.clock, w.serial, w.serial + 1);
    NewTable(w.rows, w.spool, w.clock, w.serial + 1, e.id, r);
    Newest(w.saved, w.rows, w.spool, w.clock, w.serial);
    NewMarks(w, e.id, r);
  }

  lemma NewFits(r: Row, id: Id, w: World)
    requires id !in w.spool
    requires exists binding, owner, path, size, sha :: r == NewRow(w.serial, binding, owner, path, size, sha, w.clock)
    ensures Proper(r, w.clock, w.serial + 1) && Backed(r, id, w.spool, w.clock) && Weight(r) == 2 * r.size
  {
  }

  /** A row of a new lifetime does not disturb what is said of the others. */
  lemma NewMarks(w: World, id: Id, r: Row)
    requires Ahead(w.saved, w.rows) && Once(w.published, w.hash, w.serial)
    requires Marked(w.saved, w.published) && Marked(w.rows, w.published) && Prepared(w.rows, w.phase, w.hash, w.published)
    requires id !in w.rows && id !in w.saved && r.serial == w.serial && r.status.Receiving?
    requires forall x :: x in w.saved ==> w.saved[x].serial < w.serial
    requires forall x :: x in w.rows ==> w.rows[x].serial < w.serial
    ensures Ahead(w.saved, w.rows[id := r]) && Once(w.published, w.hash, w.serial + 1)
    ensures Marked(w.rows[id := r], w.published) && Prepared(w.rows[id := r], w.phase, w.hash, w.published)
  {
    hide Continues;
  }

  lemma NoFile(m: map<Id, Row>, spool: map<Id, File>, clock: real, serial: nat, id: Id)
    requires Table(m, spool, clock, serial) && id !in m
    ensures id !in spool
  {
  }

  lemma Newest(saved: map<Id, Row>, rows: map<Id, Row>, spool: map<Id, File>, clock: real, serial: nat)
    requires Table(saved, spool, clock, serial) && Table(rows, spool, clock, serial)
    ensures forall id :: id in saved ==> saved[id].serial < serial
    ensures forall id :: id in rows ==> rows[id].serial < serial
  {
  }

  /** A table stays sound when one row changes and no more capacity is held. */
  lemma NewTable(m: map<Id, Row>, spool: map<Id, File>, clock: real, serial: nat, id: Id, r: Row)
    requires Table(m, spool, clock, serial)
    requires Proper(r, clock, serial) && Backed(r, id, spool, clock) && (id in spool ==> r.spooled)
    requires Reserved(m) - (if id in m then Weight(m[id]) else 0) + Weight(r) <= RESERVED_BYTES
    ensures Table(m[id := r], spool, clock, serial)
  {
    hide Proper, Backed;
    ReservedUpdate(m, id, r);
  }

  lemma RowSound(w: World, e: Effect)
    requires Sound(w) && Allowed(w, e)
    requires e.Register? || e.Acknowledge? || e.Reject? || e.Stage? || e.Intend? || e.Receipt? || e.Release?
    ensures Sound(Do(w, e))
  {
    hide Once, Apart, Table, Proper, Backed, Marked, Prepared, Allowed, Continues, Do, Weight;
    RowChanges(w, e);
    RowOf(w.rows, w.spool, w.clock, w.serial, e.id);
    RowFits(w, e);
    var s := Do(w, e).rows[e.id];
    NewTable(w.rows, w.spool, w.clock, w.serial, e.id, s);
    if e.id in w.saved { ContinuesOn(w.saved[e.id], w.rows[e.id], s); }
    SameSerials(w.saved, w.rows, e.id, s);
    RowMarks(w, e);
  }

  lemma RowChanges(w: World, e: Effect)
    requires Allowed(w, e)
    requires e.Register? || e.Acknowledge? || e.Reject? || e.Stage? || e.Intend? || e.Receipt? || e.Release?
    ensures e.id in w.rows && e.id in Do(w, e).rows
    ensures Do(w, e) == w.(rows := w.rows[e.id := Do(w, e).rows[e.id]], phase := Do(w, e).phase)
    ensures Do(w, e).rows[e.id].serial == w.rows[e.id].serial
  {
  }

  lemma ContinuesOn(a: Row, b: Row, c: Row)
    requires Continues(a, b) && Continues(b, c)
    ensures Continues(a, c)
  {
  }

  lemma RowMarks(w: World, e: Effect)
    requires Allowed(w, e) && Marked(w.rows, w.published) && Prepared(w.rows, w.phase, w.hash, w.published)
    requires e.Register? || e.Acknowledge? || e.Reject? || e.Stage? || e.Intend? || e.Receipt? || e.Release?
    requires e.id in w.rows && Backed(w.rows[e.id], e.id, w.spool, w.clock) && Proper(w.rows[e.id], w.clock, w.serial)
    ensures Marked(Do(w, e).rows, w.published) && Prepared(Do(w, e).rows, Do(w, e).phase, w.hash, w.published)
  {
  }

  lemma RowOf(m: map<Id, Row>, spool: map<Id, File>, clock: real, serial: nat, id: Id)
    requires Table(m, spool, clock, serial) && id in m
    ensures Proper(m[id], clock, serial) && Backed(m[id], id, spool, clock) && (id in spool ==> m[id].spooled)
    ensures Reserved(m) <= RESERVED_BYTES
  {
  }

  lemma SameSerials(saved: map<Id, Row>, rows: map<Id, Row>, id: Id, s: Row)
    requires Ahead(saved, rows) && id in rows && s.serial == rows[id].serial
    requires id in saved ==> Continues(saved[id], s)
    ensures Ahead(saved, rows[id := s])
  {
    hide Continues;
  }

  /** The changed row is proper, backed, holds no more capacity, and continues the old one. */
  lemma RowFits(w: World, e: Effect)
    requires Allowed(w, e)
    requires e.Register? || e.Acknowledge? || e.Reject? || e.Stage? || e.Intend? || e.Receipt? || e.Release?
    requires e.id in w.rows && Prepared(w.rows, w.phase, w.hash, w.published)
    requires Proper(w.rows[e.id], w.clock, w.serial) && Backed(w.rows[e.id], e.id, w.spool, w.clock)
    requires e.id in w.spool ==> w.rows[e.id].spooled
    ensures var r, s := w.rows[e.id], Do(w, e).rows[e.id];
            && Proper(s, w.clock, w.serial) && Backed(s, e.id, w.spool, w.clock) && (e.id in w.spool ==> s.spooled)
            && Weight(s) <= Weight(r) && Continues(r, s)
  {
  }

  /** Creating, trimming, syncing and writing leave the acknowledged bytes of every row alone. */
  lemma FileSound(w: World, e: Effect)
    requires Sound(w) && Allowed(w, e) && (e.Create? || e.Trim? || e.Flush? || e.Write?)
    ensures Sound(Do(w, e))
  {
    hide Once, Marked, Apart;
    var f := Do(w, e).spool[e.id];
    RowOf(w.rows, w.spool, w.clock, w.serial, e.id);
    assert e.id in w.saved;
    RowOf(w.saved, w.spool, w.clock, w.serial, e.id);
    hide Table;
    FileFits(w, e, w.rows[e.id]);
    FileFits(w, e, w.saved[e.id]);
    NewFile(w.rows, w.spool, w.clock, w.serial, e.id, f);
    NewFile(w.saved, w.spool, w.clock, w.serial, e.id, f);
  }

  lemma FileFits(w: World, e: Effect, r: Row)
    requires Allowed(w, e) && (e.Create? || e.Trim? || e.Flush? || e.Write?)
    requires e.id in w.rows && Continues(r, w.rows[e.id]) && Proper(r, w.clock, w.serial)
    requires Backed(r, e.id, w.spool, w.clock) && (e.id in w.spool || e.Create? ==> r.spooled)
    requires Proper(w.rows[e.id], w.clock, w.serial)
    ensures Backed(r, e.id, w.spool[e.id := Do(w, e).spool[e.id]], w.clock) && r.spooled
  {
    assert r.received <= w.rows[e.id].received;
  }

  lemma NewFile(m: map<Id, Row>, spool: map<Id, File>, clock: real, serial: nat, id: Id, f: File)
    requires Table(m, spool, clock, serial) && id in m
    requires Backed(m[id], id, spool[id := f], clock) && m[id].spooled
    ensures Table(m, spool[id := f], clock, serial)
  {
    hide Proper;
  }

  lemma PublishSound(w: World, e: Effect)
    requires Sound(w) && e.Publish? && Allowed(w, e)
    ensures Sound(Do(w, e))
  {
    hide Table, Proper, Backed, Continues;
    Newest(w.saved, w.rows, w.spool, w.clock, w.serial);
    SameRow(w.saved, w.rows, e.id);
    Appended(w, e.id, Do(w, e).published);
  }

  lemma SameRow(saved: map<Id, Row>, rows: map<Id, Row>, id: Id)
    requires Ahead(saved, rows) && id in saved && id in rows
    ensures saved[id].serial == rows[id].serial && (Out(saved[id]) ==> Out(rows[id]))
  {
  }

  lemma Appended(w: World, id: Id, published: seq<Publication>)
    requires Once(w.published, w.hash, w.serial) && Prepared(w.rows, w.phase, w.hash, w.published)
    requires w.phase.Ready? && w.phase.id == id && w.rows[id].serial < w.serial
    requires published == w.published + [Publication(w.rows[id].serial, w.rows[id].path, w.phase.copy, w.rows[id].size, w.rows[id].sha)]
    ensures Once(published, w.hash, w.serial)
  {
  }

  lemma UnlinkSound(w: World, e: Effect)
    requires Sound(w) && e.Unlink? && Allowed(w, e)
    ensures Sound(Do(w, e))
  {
    hide Once, Marked, Prepared, Apart, Table;
    NoLongerBacked(w.rows, w.spool, w.clock, w.serial, e.id);
    NoLongerBacked(w.saved, w.spool, w.clock, w.serial, e.id);
  }

  lemma NoLongerBacked(m: map<Id, Row>, spool: map<Id, File>, clock: real, serial: nat, id: Id)
    requires Table(m, spool, clock, serial) && id in m && Over(m[id], clock)
    ensures Table(m, spool - {id}, clock, serial)
  {
    hide Proper;
  }

  lemma RemoveSound(w: World, e: Effect)
    requires Sound(w) && e.Remove? && Allowed(w, e)
    ensures Sound(Do(w, e))
  {
    hide Once, Continues, Table, Reserved;
    FewerRows(w.rows, w.spool, w.clock, w.serial, e.id);
  }

  lemma FewerRows(m: map<Id, Row>, spool: map<Id, File>, clock: real, serial: nat, id: Id)
    requires Table(m, spool, clock, serial) && id in m && !m[id].spooled
    ensures Table(m - {id}, spool, clock, serial)
  {
    hide Proper, Backed;
    ReservedSplit(m, id);
  }

  lemma CrashSound(w: World, e: Effect)
    requires Sound(w) && e.Crash? && Allowed(w, e)
    ensures Sound(Do(w, e))
  {
    hide Once, Marked, Table, Survives;
    TornTable(w.saved, w.spool, e.spool, w.clock, w.serial);
  }

  lemma TornTable(m: map<Id, Row>, before: map<Id, File>, after: map<Id, File>, clock: real, serial: nat)
    requires Table(m, before, clock, serial) && Survives(before, after)
    ensures Table(m, after, clock, serial)
  {
    hide Proper;
    forall id | id in m ensures Backed(m[id], id, after, clock) {
      if m[id].inode.Some? && id in after { TornBacked(m[id], before[id], after[id]); }
    }
  }

  lemma TornBacked(r: Row, f: File, g: File)
    requires Torn(f, g) && r.received <= f.safe <= |f.bytes| && f.bytes[..r.received] == r.content
    ensures r.received <= g.safe <= |g.bytes| && g.bytes[..r.received] == r.content
  {
    assert f.bytes[..r.received] == f.bytes[..f.safe][..r.received];
  }
}
