// The journal of calls and its recovery material, with the retirement of old backups
// running beside writers, readers and restarts.
// Models agent/journal.py and agent/journal_retention.py.

module JournalModel {
  import opened Settings

  type Id = string

  const MAX_INTERRUPTED_READS: nat := 3
  const EXPIRED_RESULT := "RESULT_EXPIRED"
  const RESTART_LIMIT_RESULT := "AGENT_RESTART_LIMIT"
  const INTERRUPTED_RESULT := "INTERRUPTED"

  datatype Status = Accepted | Running | Retryable | Done | Interrupted

  datatype Call = Call(fingerprint: string, status: Status, result: Option<string>, acked: bool,
                       tool: Option<string>, attempts: nat, expired: bool, at: real)

  /** `replayable` are the read and upload tools; `runs` counts how often an id began to run. */
  datatype Log = Log(calls: map<Id, Call>, replayable: set<string>, runs: map<Id, nat>)

  datatype Answer = Proceed | Stored(result: string) | Conflict | Busy

  function Runs(log: Log, id: Id): nat {
    if id in log.runs then log.runs[id] else 0
  }

  predicate Replayable(c: Call, replayable: set<string>) {
    c.tool.Some? && c.tool.value in replayable
  }

  // ---- transactions on calls ------------------------------------------------

  function Answered(log: Log, id: Id, fingerprint: string): Answer {
    if id !in log.calls then Proceed
    else if log.calls[id].fingerprint != fingerprint then Conflict
    else
      match log.calls[id].status
      case Running => Busy
      case Accepted => Busy
      case Retryable => Proceed
      case _ => Stored(if log.calls[id].result.Some? then log.calls[id].result.value else "")
  }

  function Started(log: Log, id: Id, fingerprint: string, tool: Option<string>, now: real): Log {
    if !Answered(log, id, fingerprint).Proceed? then log
    else if id in log.calls then log.(calls := log.calls[id := log.calls[id].(status := Accepted, result := None, acked := false)])
    else log.(calls := log.calls[id := Call(fingerprint, Accepted, None, false, tool, 0, false, now)])
  }

  function Marked(log: Log, id: Id): Log {
    if id in log.calls && log.calls[id].status.Accepted?
    then log.(calls := log.calls[id := log.calls[id].(status := Running)], runs := log.runs[id := Runs(log, id) + 1])
    else log
  }

  function Finished(log: Log, id: Id, result: string): Log {
    if id in log.calls then log.(calls := log.calls[id := log.calls[id].(status := Done, result := Some(result), acked := false)])
    else log
  }

  function Acked(log: Log, id: Id): Log {
    if id in log.calls then log.(calls := log.calls[id := log.calls[id].(acked := true)]) else log
  }

  /** What the next process makes of a call it finds. */
  function Recovered(c: Call, replayable: set<string>): Call {
    match c.status
    case Accepted => c.(status := Retryable)
    case Running =>
      if !Replayable(c, replayable) then c.(status := Interrupted, acked := false, result := Some(INTERRUPTED_RESULT))
      else if c.attempts + 1 >= MAX_INTERRUPTED_READS then
        c.(status := Interrupted, acked := false, result := Some(RESTART_LIMIT_RESULT), attempts := c.attempts + 1)
      else c.(status := Retryable, attempts := c.attempts + 1)
    case _ => c
  }

  function Restarted(log: Log): Log {
    log.(calls := map id | id in log.calls :: Recovered(log.calls[id], log.replayable))
  }

  predicate Settled(c: Call) {
    c.acked && (c.status.Done? || c.status.Interrupted?)
  }

  function ForgottenCalls(calls: map<Id, Call>, ids: set<Id>): map<Id, Call> {
    map id | id in calls ::
      if id in ids then calls[id].(result := Some(EXPIRED_RESULT), expired := true) else calls[id]
  }

  function Forgotten(log: Log, ids: set<Id>): Log {
    log.(calls := ForgottenCalls(log.calls, ids))
  }

  /** Some call is not finished, or its result not yet delivered. */
  predicate Active(calls: map<Id, Call>) {
    exists id :: id in calls && !Settled(calls[id])
  }

  // ---- at most once -----------------------------------------------------------

  ghost predicate CallSound(c: Call, runs: nat, replayable: set<string>) {
    && (c.status.Done? || c.status.Interrupted? ==> c.result.Some?)
    && if Replayable(c, replayable) then
         match c.status
         case Accepted => runs == c.attempts < MAX_INTERRUPTED_READS
         case Retryable => runs == c.attempts < MAX_INTERRUPTED_READS
         case Running => runs == c.attempts + 1 <= MAX_INTERRUPTED_READS
         case _ => runs <= MAX_INTERRUPTED_READS
       else
         match c.status
         case Accepted => runs == 0
         case Retryable => runs == 0
         case _ => runs <= 1
  }

  ghost predicate LogSound(log: Log) {
    && (forall id :: id in log.calls ==> CallSound(log.calls[id], Runs(log, id), log.replayable))
    && log.runs.Keys <= log.calls.Keys
  }

  /** A call keeps its identity, never runs again once finished, and is never forgotten. */
  ghost predicate Follows(c: Call, d: Call) {
    && d.fingerprint == c.fingerprint && d.tool == c.tool && d.at == c.at
    && (c.status.Done? || c.status.Interrupted? ==> d.status.Done? || d.status.Interrupted?)
    && (c.expired ==> d.expired)
  }

  ghost predicate Continues(log: Log, log': Log) {
    && log'.replayable == log.replayable
    && forall id :: id in log.calls ==> id in log'.calls && Follows(log.calls[id], log'.calls[id])
  }

  lemma ContinuesOn(a: Log, b: Log, c: Log)
    requires Continues(a, b) && Continues(b, c)
    ensures Continues(a, c)
  {
    hide Follows;
    forall id | id in a.calls ensures id in c.calls && Follows(a.calls[id], c.calls[id]) {
      FollowsOn(a.calls[id], b.calls[id], c.calls[id]);
    }
  }

  lemma FollowsOn(a: Call, b: Call, c: Call)
    requires Follows(a, b) && Follows(b, c)
    ensures Follows(a, c)
  {
  }

  lemma StartedSound(log: Log, id: Id, fingerprint: string, tool: Option<string>, now: real)
    requires LogSound(log)
    ensures LogSound(Started(log, id, fingerprint, tool, now)) && Continues(log, Started(log, id, fingerprint, tool, now))
    ensures !Answered(log, id, fingerprint).Proceed? ==> Started(log, id, fingerprint, tool, now) == log
  {
  }

  lemma MarkedSound(log: Log, id: Id)
    requires LogSound(log)
    ensures LogSound(Marked(log, id)) && Continues(log, Marked(log, id))
  {
  }

  lemma FinishedSound(log: Log, id: Id, result: string)
    requires LogSound(log)
    ensures LogSound(Finished(log, id, result)) && Continues(log, Finished(log, id, result))
  {
  }

  lemma AckedSound(log: Log, id: Id)
    requires LogSound(log)
    ensures LogSound(Acked(log, id)) && Continues(log, Acked(log, id))
  {
  }

  lemma RestartedSound(log: Log)
    requires LogSound(log)
    ensures LogSound(Restarted(log)) && Continues(log, Restarted(log))
  {
  }

  lemma ForgottenSound(log: Log, ids: set<Id>)
    requires LogSound(log) && forall id :: id in ids ==> id in log.calls && Settled(log.calls[id])
    ensures LogSound(Forgotten(log, ids)) && Continues(log, Forgotten(log, ids))
  {
  }

  // ---- recovery material ------------------------------------------------------

  /** `sha` is the digest of the content, or `new` where there was none. */
  datatype Backup = Backup(root: string, path: string, existed: bool, sha: string, at: real)

  /** A backup being written: its file is there, its row is not. */
  datatype Draft = Draft(call: Id, existed: bool, sha: string)

  datatype Kind = Stale | Orphan

  datatype Item = Item(kind: Kind, id: Id)

  datatype Pruner =
    | Resting
    | Searching(found: set<Id>)
    | Draining(todo: set<Item>)
    | Cleared(item: Item, todo: set<Item>)
    | Unlinked(item: Item, todo: set<Item>)

  /** `used` are all backup ids ever drawn; `reading` holds the rows a call has looked up. */
  datatype World = World(
    log: Log,
    backups: map<Id, Backup>,
    files: set<Id>,
    queue: set<Item>,
    used: set<Id>,
    writing: map<Id, Draft>,
    reading: set<(Id, Id)>,
    pruner: Pruner)

  datatype Step =
    | Start(id: Id, fingerprint: string, tool: Option<string>, now: real)
    | MarkRunning(id: Id)
    | Finish(id: Id, result: string)
    | Ack(id: Id)
    | Restart
    | WriteFile(call: Id, backup: Id, existed: bool, sha: string)
    | InsertRow(backup: Id, root: string, path: string, now: real)
    | Abandon(backup: Id)
    | LookUp(call: Id, backup: Id)
    | Leave(call: Id, backup: Id)
    | Expire(ids: set<Id>)
    | Find(found: set<Id>)
    | Retire(stale: set<Id>)
    | Take(todo: set<Item>)
    | Check(item: Item)
    | Unlink
    | Forget
    | GiveUp

  predicate Works(log: Log, id: Id) {
    id in log.calls && log.calls[id].status.Running?
  }

  /** Writers and readers work inside running calls, draw fresh ids, and stop before their
      call finishes; the pruner's steps come in its program's order. */
  ghost predicate Legal(w: World, s: Step) {
    match s
    case Finish(id, _) =>
      (forall b :: b in w.writing ==> w.writing[b].call != id) && (forall r :: r in w.reading ==> r.0 != id)
    case WriteFile(call, b, _, _) => Works(w.log, call) && b !in w.used
    case InsertRow(b, _, _, _) => b in w.writing
    case Abandon(b) => b in w.writing
    case LookUp(call, b) => Works(w.log, call) && b in w.backups
    case Expire(ids) => w.pruner.Resting? && forall id :: id in ids ==> id in w.log.calls && Settled(w.log.calls[id])
    case Find(found) => w.pruner.Searching? && found <= w.files - w.backups.Keys
    case Retire(stale) => w.pruner.Searching? && stale <= w.backups.Keys
    case Take(todo) => w.pruner == Draining({}) && todo <= w.queue
    case Check(item) => w.pruner.Draining? && item in w.pruner.todo
    case Unlink => w.pruner.Cleared?
    case Forget => w.pruner.Unlinked?
    case _ => true
  }

  /** The second transaction of a prune: unless a call came in meanwhile, outdated rows and
      files without a row are queued for removal, and the rows go at once. */
  function RetiredBy(w: World, stale: set<Id>, found: set<Id>): World {
    if Active(w.log.calls) then w.(pruner := Resting)
    else
      w.(backups := w.backups - stale,
         queue := w.queue + (set b | b in stale :: Item(Stale, b))
                + (set b | b in found && b !in w.backups && Item(Stale, b) !in w.queue :: Item(Orphan, b)),
         pruner := Draining({}))
  }

  function Checked(w: World, item: Item): World
    requires w.pruner.Draining? && item in w.pruner.todo
  {
    var rest := w.pruner.todo - {item};
    if Active(w.log.calls) then w.(pruner := Resting)
    else if item.kind.Orphan? && item.id in w.backups then w.(queue := w.queue - {item}, pruner := Draining(rest))
    else w.(pruner := Cleared(item, rest))
  }

  function Do(w: World, s: Step): World
    requires Legal(w, s)
  {
    match s
    case Start(id, fingerprint, tool, now) => w.(log := Started(w.log, id, fingerprint, tool, now))
    case MarkRunning(id) => w.(log := Marked(w.log, id))
    case Finish(id, result) => w.(log := Finished(w.log, id, result))
    case Ack(id) => w.(log := Acked(w.log, id))
    case Restart => w.(log := Restarted(w.log), writing := map[], reading := {}, pruner := Resting)
    case WriteFile(call, b, existed, sha) =>
      w.(used := w.used + {b}, files := if existed then w.files + {b} else w.files, writing := w.writing[b := Draft(call, existed, sha)])
    case InsertRow(b, root, path, now) =>
      w.(backups := w.backups[b := Backup(root, path, w.writing[b].existed, w.writing[b].sha, now)], writing := w.writing - {b})
    case Abandon(b) => w.(writing := w.writing - {b})
    case LookUp(call, b) => w.(reading := w.reading + {(call, b)})
    case Leave(call, b) => w.(reading := w.reading - {(call, b)})
    case Expire(ids) =>
      var log := Forgotten(w.log, ids);
      w.(log := log, pruner := if Active(log.calls) then Resting else Searching({}))
    case Find(found) => w.(pruner := Searching(w.pruner.found + found))
    case Retire(stale) => RetiredBy(w, stale, w.pruner.found)
    case Take(todo) => w.(pruner := if todo == {} then Resting else Draining(todo))
    case Check(item) => Checked(w, item)
    case Unlink => w.(files := w.files - {w.pruner.item.id}, pruner := Unlinked(w.pruner.item, w.pruner.todo))
    case Forget => w.(queue := w.queue - {w.pruner.item}, pruner := Draining(w.pruner.todo))
    case GiveUp => w.(pruner := Resting)
  }

  /** Nobody can reach this backup any more. */
  ghost predicate Unreachable(w: World, b: Id) {
    && b in w.used && b !in w.backups && b !in w.writing
    && forall r :: r in w.reading ==> r.1 != b
  }

  ghost predicate Sound(w: World) {
    && LogSound(w.log)
    && w.backups.Keys <= w.used && w.files <= w.used && w.writing.Keys <= w.used
    && (forall b :: b in w.backups && w.backups[b].existed ==> b in w.files)
    && (forall b :: b in w.writing ==> b !in w.backups && Works(w.log, w.writing[b].call) && (w.writing[b].existed ==> b in w.files))
    && (forall r :: r in w.reading ==> Works(w.log, r.0) && r.1 in w.backups)
    && (forall x :: x in w.queue ==> Unreachable(w, x.id))
    && (w.pruner.Searching? ==> w.pruner.found <= w.used)
    && (w.pruner.Draining? || w.pruner.Cleared? || w.pruner.Unlinked? ==> w.pruner.todo <= w.queue)
    && (w.pruner.Cleared? || w.pruner.Unlinked? ==> w.pruner.item in w.queue && w.pruner.item !in w.pruner.todo)
    && (w.pruner.Unlinked? ==> w.pruner.item.id !in w.files)
  }
}
