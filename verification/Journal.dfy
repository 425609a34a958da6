// The journal object: each method is one transaction, or a few in their program's order.
// `Valid` says the recorded steps are a run of JournalRuns, so its theorems hold of the object.

module Journals {
  import opened Settings
  import opened JournalModel
  import opened JournalRuns

  const DAY: real := 86400.0
  const OUTBOX_BYTES: nat := 4 * 1024 * 1024
  const BATCH: nat := 1000

  datatype Retention = Retention(callDays: nat, maxCalls: nat, backupDays: nat, backupsPerPath: nat, maxBackups: nat)

  datatype Lookup = Found(row: Backup, data: Option<string>) | NotFound | BackupExpired | BackupCorrupt

  datatype Delivery = Delivery(id: Id, result: string)

  function Size(items: seq<Delivery>): nat {
    if items == [] then 0 else Size(items[..|items| - 1]) + |items[|items| - 1].result|
  }

  lemma SizeMore(items: seq<Delivery>, x: Delivery)
    ensures Size(items + [x]) == Size(items) + |x.result| && Size([]) == 0
  {
    assert (items + [x])[..|items|] == items;
  }

  // ---- what a prune selects ---------------------------------------------------------

  function SettledIds(calls: map<Id, Call>): set<Id> {
    set id | id in calls && Settled(calls[id]) && !calls[id].expired
  }

  /** Settled results that are too old, or have enough newer ones. */
  function OldResults(calls: map<Id, Call>, now: real, settings: Retention): set<Id> {
    set id | id in SettledIds(calls) &&
      (calls[id].at < now - settings.callDays as real * DAY
       || |set x | x in SettledIds(calls) && calls[x].at > calls[id].at| >= settings.maxCalls)
  }

  /** Backups that are too old, or have enough newer ones of their path or altogether. */
  function Outdated(backups: map<Id, Backup>, now: real, settings: Retention): set<Id> {
    set b | b in backups &&
      (backups[b].at < now - settings.backupDays as real * DAY
       || |set x | x in backups && backups[x].root == backups[b].root && backups[x].path == backups[b].path && backups[x].at > backups[b].at|
          >= settings.backupsPerPath
       || |set x | x in backups && backups[x].at > backups[b].at| >= settings.maxBackups)
  }

  /** Results are forgotten only once delivered, and only too old ones or those with enough newer. */
  lemma OldResultsMeans(calls: map<Id, Call>, now: real, settings: Retention)
    ensures OldResults(calls, now, settings) <= calls.Keys
    ensures forall id :: id in calls ==>
              (id in OldResults(calls, now, settings) <==>
                 && calls[id].acked && calls[id].status in {Done, Interrupted} && !calls[id].expired
                 && (calls[id].at < now - settings.callDays as real * 86400.0
                     || |set x | x in calls && calls[x].acked && calls[x].status in {Done, Interrupted}
                                 && !calls[x].expired && calls[x].at > calls[id].at| >= settings.maxCalls))
  {
    forall id | id in calls
      ensures (set x | x in SettledIds(calls) && calls[x].at > calls[id].at)
           == set x | x in calls && calls[x].acked && calls[x].status in {Done, Interrupted}
                      && !calls[x].expired && calls[x].at > calls[id].at
    {
    }
  }

  // ---- the updates of a restart -----------------------------------------------------

  function Requeued(c: Call): Call {
    if c.status.Accepted? then c.(status := Retryable) else c
  }

  function Counted(c: Call, replayable: set<string>): Call {
    if c.status.Running? && Replayable(c, replayable) then c.(attempts := c.attempts + 1) else c
  }

  function Limited(c: Call, replayable: set<string>): Call {
    if c.status.Running? && Replayable(c, replayable) && c.attempts >= MAX_INTERRUPTED_READS
    then c.(status := Interrupted, acked := false, result := Some(RESTART_LIMIT_RESULT)) else c
  }

  function Repeated(c: Call, replayable: set<string>): Call {
    if c.status.Running? && Replayable(c, replayable) then c.(status := Retryable) else c
  }

  function Closed(c: Call): Call {
    if c.status.Running? then c.(status := Interrupted, acked := false, result := Some(INTERRUPTED_RESULT)) else c
  }

  lemma UpdatesRecover(c: Call, replayable: set<string>)
    ensures Closed(Repeated(Limited(Counted(Requeued(c), replayable), replayable), replayable)) == Recovered(c, replayable)
  {
  }

  /** One update over the table after another, in the order of the program. */
  method RecoveredCalls(found: map<Id, Call>, replayable: set<string>) returns (calls: map<Id, Call>)
    ensures calls == map id | id in found :: Recovered(found[id], replayable)
  {
    hide Requeued, Counted, Limited, Repeated, Closed, Recovered;
    calls := map id | id in found :: Requeued(found[id]);
    calls := map id | id in calls :: Counted(calls[id], replayable);
    calls := map id | id in calls :: Limited(calls[id], replayable);
    calls := map id | id in calls :: Repeated(calls[id], replayable);
    calls := map id | id in calls :: Closed(calls[id]);
    forall id | id in found ensures calls[id] == Recovered(found[id], replayable) {
      UpdatesRecover(found[id], replayable);
    }
  }

  // ---- batches ----------------------------------------------------------------------

  function Least(a: nat, b: nat): nat { if a <= b then a else b }

  /** `ORDER BY at LIMIT 1000`: a full batch of the oldest. */
  method OldestBatch(calls: map<Id, Call>, ids: set<Id>) returns (batch: set<Id>)
    requires ids <= calls.Keys
    ensures batch <= ids && |batch| == Least(|ids|, BATCH)
    ensures forall x, y :: x in batch && y in ids - batch ==> calls[x].at <= calls[y].at
  {
    batch := {};
    var rest := ids;
    while rest != {} && |batch| < BATCH
      invariant batch + rest == ids && batch !! rest && |batch| + |rest| == |ids| && |batch| <= BATCH
      invariant forall x, y :: x in batch && y in rest ==> calls[x].at <= calls[y].at
    {
      var x := Oldest(calls, rest);
      batch, rest := batch + {x}, rest - {x};
    }
  }

  method Oldest(calls: map<Id, Call>, ids: set<Id>) returns (oldest: Id)
    requires ids != {} && ids <= calls.Keys
    ensures oldest in ids && forall y :: y in ids ==> calls[oldest].at <= calls[y].at
  {
    oldest :| oldest in ids;
    var rest := ids - {oldest};
    while rest != {}
      invariant rest <= ids && oldest in ids && forall y :: y in ids - rest ==> calls[oldest].at <= calls[y].at
    {
      var y :| y in rest;
      if calls[y].at < calls[oldest].at {
        oldest := y;
      }
      rest := rest - {y};
    }
  }

  /** `LIMIT 1000` where the order does not matter. */
  method Batch<T(==)>(items: set<T>) returns (batch: set<T>)
    ensures batch <= items && |batch| == Least(|items|, BATCH)
  {
    batch := {};
    var rest := items;
    while rest != {} && |batch| < BATCH
      invariant batch + rest == items && batch !! rest && |batch| + |rest| == |items| && |batch| <= BATCH
    {
      var x :| x in rest;
      batch, rest := batch + {x}, rest - {x};
    }
  }

  /** The stored digest of every backup with a file is that of the file. */
  ghost predicate Intact(backups: map<Id, Backup>, files: map<Id, string>, hash: string -> string) {
    forall b :: b in backups && backups[b].existed && b in files ==> hash(files[b]) == backups[b].sha
  }

  class Journal {
    const replayable: set<string>
    const hash: string -> string
    var calls: map<Id, Call>
    var backups: map<Id, Backup>
    var files: map<Id, string>
    var queue: set<Item>
    ghost var runs: map<Id, nat>
    ghost var used: set<Id>
    ghost var writing: map<Id, Draft>
    ghost var reading: set<(Id, Id)>
    ghost var pruner: Pruner
    ghost var states: seq<World>
    ghost var steps: seq<Step>

    ghost function State(): World
      reads this
    {
      World(Log(calls, replayable, runs), backups, files.Keys, queue, used, writing, reading, pruner)
    }

    ghost predicate Valid()
      reads this
    {
      Run(states, steps) && states[|steps|] == State() && Intact(backups, files, hash)
    }

    constructor (replayable: set<string>, hash: string -> string)
      ensures Valid() && Initial(State()) && this.replayable == replayable && this.hash == hash
    {
      this.replayable, this.hash := replayable, hash;
      calls, backups, files, queue := map[], map[], map[], {};
      runs, used, writing, reading, pruner := map[], {}, map[], {}, Resting;
      states, steps := [World(Log(map[], replayable, map[]), map[], {}, {}, {}, map[], {}, Resting)], [];
    }

    /** One more step of the run. */
    ghost method Record(w: World, s: Step)
      requires Run(states, steps) && states[|steps|] == w && Legal(w, s) && State() == Do(w, s) && Intact(backups, files, hash)
      modifies `states, `steps
      ensures Valid() && steps == old(steps) + [s] && old(states) <= states
    {
      hide Legal, Do, Next, Initial;
      Extended(states, steps, s);
      states, steps := states + [Do(w, s)], steps + [s];
    }

    lemma Facts()
      requires Valid()
      ensures Sound(State())
    {
      hide Sound, Next;
      AlwaysSound(states, steps, |steps|);
    }

    // ---- calls ------------------------------------------------------------------------

    /** The process was replaced. */
    method Recover()
      requires Valid()
      modifies this
      ensures Valid() && steps == old(steps) + [Restart] && State() == Do(old(State()), Restart)
    {
      hide Run;
      calls := RecoveredCalls(calls, replayable);
      writing, reading, pruner := map[], {}, Resting;
      Record(old(State()), Restart);
    }

    /** Admit a request, or answer it from the journal. */
    method Start(id: Id, fingerprint: string, tool: Option<string>, now: real) returns (answer: Answer)
      requires Valid()
      modifies `calls, `states, `steps
      ensures Valid() && State() == Do(old(State()), Step.Start(id, fingerprint, tool, now))
      ensures steps == old(steps) + [Step.Start(id, fingerprint, tool, now)]
      ensures answer == Answered(old(State()).log, id, fingerprint)
      ensures !answer.Proceed? ==> calls == old(calls)
    {
      hide Run;
      answer := Admit(id, fingerprint, tool, now);
      Record(old(State()), Step.Start(id, fingerprint, tool, now));
    }

    method Admit(id: Id, fingerprint: string, tool: Option<string>, now: real) returns (answer: Answer)
      modifies `calls
      ensures State().log == Started(old(State()).log, id, fingerprint, tool, now)
      ensures answer == Answered(old(State()).log, id, fingerprint)
    {
      if id in calls {
        var known := calls[id];
        if known.fingerprint != fingerprint {
          return Conflict;
        }
        if known.status.Running? || known.status.Accepted? {
          return Busy;
        }
        if known.status.Retryable? {
          calls := calls[id := known.(status := Accepted, result := None, acked := false)];
          return Proceed;
        }
        return Stored(if known.result.Some? then known.result.value else "");
      }
      calls := calls[id := Call(fingerprint, Accepted, None, false, tool, 0, false, now)];
      return Proceed;
    }

    method MarkRunning(id: Id)
      requires Valid()
      modifies `calls, `runs, `states, `steps
      ensures Valid() && steps == old(steps) + [Step.MarkRunning(id)] && State() == Do(old(State()), Step.MarkRunning(id))
    {
      hide Run;
      if id in calls && calls[id].status.Accepted? {
        calls := calls[id := calls[id].(status := Running)];
        runs := runs[id := (if id in runs then runs[id] else 0) + 1];
      }
      Record(old(State()), Step.MarkRunning(id));
    }

    method Finish(id: Id, result: string)
      requires Valid() && Legal(State(), Step.Finish(id, result))
      modifies `calls, `states, `steps
      ensures Valid() && steps == old(steps) + [Step.Finish(id, result)] && State() == Do(old(State()), Step.Finish(id, result))
    {
      hide Run;
      if id in calls {
        calls := calls[id := calls[id].(status := Done, result := Some(result), acked := false)];
      }
      Record(old(State()), Step.Finish(id, result));
    }

    method Ack(id: Id)
      requires Valid()
      modifies `calls, `states, `steps
      ensures Valid() && steps == old(steps) + [Step.Ack(id)] && State() == Do(old(State()), Step.Ack(id))
    {
      hide Run;
      if id in calls {
        calls := calls[id := calls[id].(acked := true)];
      }
      Record(old(State()), Step.Ack(id));
    }

    /** The longest front of the undelivered results that fits the budget, and at least one. */
    method Outbox(rows: seq<Delivery>) returns (items: seq<Delivery>)
      ensures items <= rows
      ensures Size(items) <= 4194304 || |items| == 1
      ensures rows != [] ==> items != []
      ensures |items| < |rows| ==> Size(rows[..|items| + 1]) > 4194304
    {
      hide Size;
      items := [];
      var size, k := 0, 0;
      SizeMore([], Delivery("", ""));
      while k < |rows|
        invariant k <= |rows| && items == rows[..k] && size == Size(items)
        invariant Size(items) <= OUTBOX_BYTES || |items| == 1
      {
        assert rows[..k+1] == rows[..k] + [rows[k]];
        SizeMore(items, rows[k]);
        if items != [] && size + |rows[k].result| > OUTBOX_BYTES {
          return;
        }
        items, size, k := items + [rows[k]], size + |rows[k].result|, k + 1;
      }
      assert rows[..k] == rows;
    }

    // ---- backups ------------------------------------------------------------------------

    /** The file is on disk before its row is committed; a failure leaves at most the file. */
    method AddBackup(ghost call: Id, id: Id, root: string, path: string, before: Option<string>, now: real) returns (ok: bool)
      requires Valid() && Works(State().log, call) && id !in used
      modifies `files, `backups, `used, `writing, `states, `steps
      ensures Valid() && old(steps) <= steps && |steps| == |old(steps)| + 2 && writing == old(writing)
      ensures steps[|old(steps)|].WriteFile? && if ok then steps[|old(steps)| + 1].InsertRow? else steps[|old(steps)| + 1].Abandon?
      ensures ok ==> backups == old(backups)[id := Backup(root, path, before.Some?, DigestOf(before), now)]
      ensures !ok ==> backups == old(backups)
      ensures files == if before.Some? then old(files)[id := before.value] else old(files)
    {
      hide Run;
      Facts();
      UnusedNotWriting(State(), id, Draft(call, before.Some?, DigestOf(before)));
      WriteFile(call, id, before);
      ok := *;
      if ok {
        InsertRow(id, before, root, path, now);
      } else {
        Abandon(id);
      }
    }

    /** `digest(before) if before is not None else "new"`. */
    function DigestOf(before: Option<string>): string
    {
      if before.Some? then hash(before.value) else "new"
    }

    method WriteFile(ghost call: Id, id: Id, before: Option<string>)
      requires Valid() && Works(State().log, call) && id !in used && id !in backups
      modifies `files, `used, `writing, `states, `steps
      ensures Valid() && steps == old(steps) + [Step.WriteFile(call, id, before.Some?, DigestOf(before))]
      ensures files == if before.Some? then old(files)[id := before.value] else old(files)
      ensures writing == old(writing)[id := Draft(call, before.Some?, DigestOf(before))]
    {
      hide Run;
      used, writing := used + {id}, writing[id := Draft(call, before.Some?, DigestOf(before))];
      if before.Some? {
        files := files[id := before.value];
      }
      Record(old(State()), Step.WriteFile(call, id, before.Some?, DigestOf(before)));
    }

    method InsertRow(id: Id, before: Option<string>, root: string, path: string, now: real)
      requires Valid() && id in writing && writing[id].existed == before.Some? && writing[id].sha == DigestOf(before)
      requires before.Some? ==> id in files && files[id] == before.value
      modifies `backups, `writing, `states, `steps
      ensures Valid() && steps == old(steps) + [Step.InsertRow(id, root, path, now)]
      ensures backups == old(backups)[id := Backup(root, path, before.Some?, DigestOf(before), now)] && writing == old(writing) - {id}
    {
      hide Run;
      backups := backups[id := Backup(root, path, before.Some?, DigestOf(before), now)];
      writing := writing - {id};
      Record(old(State()), Step.InsertRow(id, root, path, now));
    }

    ghost method Abandon(id: Id)
      requires Valid() && id in writing
      modifies `writing, `states, `steps
      ensures Valid() && steps == old(steps) + [Step.Abandon(id)] && writing == old(writing) - {id}
    {
      hide Run;
      writing := writing - {id};
      Record(old(State()), Step.Abandon(id));
    }

    /** The row of the project and its verified content; as long as nobody else touches the
        backup directory, a row never misses its file and never fails its digest. */
    method ReadBackup(root: string, id: Id) returns (r: Lookup)
      ensures r.NotFound? <==> id !in backups || backups[id].root != root
      ensures r.BackupExpired? <==> !r.NotFound? && backups[id].existed && id !in files
      ensures r.BackupCorrupt? <==> !r.NotFound? && backups[id].existed && id in files && hash(files[id]) != backups[id].sha
      ensures r.Found? ==> r.row == backups[id] && (r.data.Some? <==> backups[id].existed)
      ensures r.Found? && r.data.Some? ==> id in files && r.data.value == files[id] && hash(r.data.value) == backups[id].sha
      ensures Valid() ==> r.Found? || r.NotFound?
    {
      ghost var valid := Valid();
      if valid {
        Facts();
        RowsHaveFiles(State());
      }
      if id !in backups || backups[id].root != root {
        return NotFound;
      }
      if !backups[id].existed {
        return Found(backups[id], None);
      }
      if id !in files {
        return BackupExpired;
      }
      if hash(files[id]) != backups[id].sha {
        return BackupCorrupt;
      }
      return Found(backups[id], Some(files[id]));
    }

    // ---- retention ----------------------------------------------------------------------

    /** One pass without interference: a batch of old results is forgotten, and unless a call
        is active a batch of outdated backups loses its rows at once and its files soon. */
    method Prune(now: real, settings: Retention, aged: set<Id>) returns (ghost expired: set<Id>, ghost stale: set<Id>)
      requires Valid() && pruner.Resting?
      modifies `calls, `backups, `files, `queue, `pruner, `states, `steps
      ensures Valid() && pruner.Resting? && old(steps) <= steps
      // results
      ensures Chosen(old(calls), OldResults(old(calls), now, settings), expired)
      ensures calls == map id | id in old(calls) ::
                if id in expired then old(calls)[id].(result := Some("RESULT_EXPIRED"), expired := true) else old(calls)[id]
      ensures forall id :: id in expired ==>
                && id in old(calls) && old(calls)[id].acked && old(calls)[id].status in {Done, Interrupted} && !old(calls)[id].expired
                && (old(calls)[id].at < now - settings.callDays as real * 86400.0
                    || |set x | x in old(calls) && old(calls)[x].acked && old(calls)[x].status in {Done, Interrupted}
                                && !old(calls)[x].expired && old(calls)[x].at > old(calls)[id].at| >= settings.maxCalls)
      ensures |expired| < 1000 ==>
                forall id :: id in calls && calls[id].acked && calls[id].status in {Done, Interrupted} && !calls[id].expired ==>
                  calls[id].at >= now - settings.callDays as real * 86400.0
      // rows
      ensures if Active(old(calls)) then stale == {} && files == old(files) && queue == old(queue)
              else stale <= Outdated(old(backups), now, settings) && |stale| == Least(|Outdated(old(backups), now, settings)|, BATCH)
      ensures backups == old(backups) - stale
      ensures forall b :: b in old(backups) && old(backups)[b].at >= now - settings.backupDays as real * 86400.0
                && |set x | x in old(backups) && old(backups)[x].root == old(backups)[b].root
                            && old(backups)[x].path == old(backups)[b].path && old(backups)[x].at > old(backups)[b].at|
                   < settings.backupsPerPath
                && |set x | x in old(backups) && old(backups)[x].at > old(backups)[b].at| < settings.maxBackups
                ==> b in backups && (b in old(files) ==> b in files)
      ensures !Active(old(calls)) && |stale| < 1000 ==>
                forall b :: b in backups ==> backups[b].at >= now - settings.backupDays as real * 86400.0
      // files
      ensures forall f :: f in files ==> f in old(files) && files[f] == old(files)[f]
      ensures forall b :: b in stale ==> b !in files || Item(Stale, b) in queue
      ensures !Active(old(calls)) ==>
                forall f :: f in aged && f !in old(backups) && f in files ==> Item(Stale, f) in queue || Item(Orphan, f) in queue
      ensures forall f :: f in old(files) && f !in files ==> f !in backups
      ensures forall f :: f in old(files) && f !in files ==>
                f in stale || f in aged || Item(Stale, f) in old(queue) || Item(Orphan, f) in old(queue)
    {
      hide Run, OldResults, Outdated, Active, ForgottenCalls, Intact;
      OutdatedMeans(backups, now, settings);
      stale := {};
      ForgottenAre(calls);
      OldResultsMeans(calls, now, settings);
      expired := ExpireResults(now, settings);
      BatchIsAll(expired, OldResults(old(calls), now, settings));
      if Active(calls) {
        return;
      }
      stale := RemoveOutdated(now, settings, aged);
      BatchIsAll(stale, Outdated(old(backups), now, settings));
    }

    /** The enumeration, the second transaction and the removal. */
    method RemoveOutdated(now: real, settings: Retention, aged: set<Id>) returns (ghost stale: set<Id>)
      requires Valid() && pruner == Searching({}) && !Active(calls)
      modifies `backups, `files, `queue, `pruner, `states, `steps
      ensures Valid() && pruner.Resting? && old(steps) <= steps
      ensures stale <= Outdated(old(backups), now, settings) && |stale| == Least(|Outdated(old(backups), now, settings)|, BATCH)
      ensures backups == old(backups) - stale
      ensures forall f :: f in files ==> f in old(files) && files[f] == old(files)[f]
      ensures forall b :: b in stale ==> b !in files || Item(Stale, b) in queue
      ensures forall f :: f in aged && f !in old(backups) && f in files ==> Item(Stale, f) in queue || Item(Orphan, f) in queue
      ensures forall f :: f in old(files) && f !in files ==> f !in backups
      ensures forall f :: f in old(files) && f !in files ==>
                f in stale || f in aged || Item(Stale, f) in old(queue) || Item(Orphan, f) in old(queue)
    {
      hide Run, Outdated, Active, Intact, Emptied;
      ghost var before, listed := files, queue;
      var orphans := set b | b in aged && b in files && b !in backups;
      ghost var rows := backups.Keys;
      Search(orphans);
      stale := Retire(now, settings, orphans);
      ghost var queued := queue;
      var finished := DrainCleanup();
      EmptiedIs(before, files, listed, queued, queue, backups.Keys, rows, stale, orphans);
    }

    /** The first transaction. */
    method ExpireResults(now: real, settings: Retention) returns (ghost expired: set<Id>)
      requires Valid() && pruner.Resting?
      modifies `calls, `pruner, `states, `steps
      ensures Valid() && steps == old(steps) + [Step.Expire(expired)]
      ensures Chosen(old(calls), OldResults(old(calls), now, settings), expired) && calls == ForgottenCalls(old(calls), expired)
      ensures Active(calls) == Active(old(calls))
      ensures pruner == if Active(calls) then Resting else Searching({})
    {
      hide Run, Active, ForgottenCalls;
      var ids := OldestBatch(calls, OldResults(calls, now, settings));
      expired := ids;
      StillActive(calls, ids);
      calls := ForgottenCalls(calls, ids);
      pruner := if Active(calls) then Resting else Searching({});
      Record(old(State()), Step.Expire(ids));
    }

    /** The enumeration of the backup directory. */
    ghost method Search(orphans: set<Id>)
      requires Valid() && pruner == Searching({}) && orphans <= files.Keys - backups.Keys
      modifies `pruner, `states, `steps
      ensures Valid() && steps == old(steps) + [Step.Find(orphans)] && pruner == Searching(orphans)
    {
      hide Run;
      assert {} + orphans == orphans;
      pruner := Searching(orphans);
      Record(old(State()), Step.Find(orphans));
    }

    /** The second transaction: outdated rows go, and every file they or nobody refers to is queued. */
    method Retire(now: real, settings: Retention, orphans: set<Id>) returns (ghost stale: set<Id>)
      requires Valid() && pruner == Searching(orphans) && !Active(calls)
      modifies `backups, `queue, `pruner, `states, `steps
      ensures Valid() && steps == old(steps) + [Step.Retire(stale)] && pruner == Draining({})
      ensures stale <= Outdated(old(backups), now, settings) && |stale| == Least(|Outdated(old(backups), now, settings)|, BATCH)
      ensures backups == old(backups) - stale && stale <= old(backups).Keys
      ensures queue == old(queue) + (set b | b in stale :: Item(Stale, b))
                     + (set b | b in orphans && b !in old(backups) && Item(Stale, b) !in old(queue) :: Item(Orphan, b))
    {
      hide Run, Active, Outdated;
      OutdatedExist(backups, now, settings);
      var chosen := Batch(Outdated(backups, now, settings));
      stale := chosen;
      queue := queue + (set b | b in chosen :: Item(Stale, b)) + (set b | b in orphans && b !in backups && Item(Stale, b) !in queue :: Item(Orphan, b));
      backups, pruner := backups - chosen, Draining({});
      Record(old(State()), Step.Retire(stale));
    }

    /** Remove a batch of queued files one at a time; a failure leaves the rest for the next pass. */
    method DrainCleanup() returns (finished: bool)
      requires Valid() && pruner == Draining({}) && !Active(calls)
      modifies `files, `queue, `pruner, `states, `steps
      ensures Valid() && pruner.Resting? && old(steps) <= steps
      ensures finished ==> |queue| == |old(queue)| - Least(|old(queue)|, BATCH)
      ensures Emptied(old(files), files, old(queue), queue, backups.Keys)
    {
      hide Run, Active, Intact, Emptied;
      EmptiedNot(files, queue, backups.Keys);
      var todo := Batch(queue);
      Take(todo);
      while todo != {}
        invariant Valid() && !Active(calls) && todo <= queue <= old(queue) && old(steps) <= steps
        invariant |queue| - |todo| == |old(queue)| - Least(|old(queue)|, BATCH)
        invariant todo != {} ==> pruner == Draining(todo)
        invariant Emptied(old(files), files, old(queue), queue, backups.Keys)
      {
        var item :| item in todo;
        ghost var before, listed := files, queue;
        finished := DropItem(item, todo);
        EmptiedMore(old(files), before, files, old(queue), listed, queue, backups.Keys, item);
        if !finished {
          return;
        }
        todo := todo - {item};
      }
      Stop();
      return true;
    }

    ghost method Take(todo: set<Item>)
      requires Valid() && pruner == Draining({}) && todo <= queue
      modifies `pruner, `states, `steps
      ensures Valid() && steps == old(steps) + [Step.Take(todo)] && pruner == if todo == {} then Resting else Draining(todo)
    {
      hide Run;
      pruner := if todo == {} then Resting else Draining(todo);
      Record(old(State()), Step.Take(todo));
    }

    /** The pass is over, or an error ended it. */
    ghost method Stop()
      requires Valid()
      modifies `pruner, `states, `steps
      ensures Valid() && steps == old(steps) + [GiveUp] && pruner == Resting
    {
      hide Run;
      pruner := Resting;
      Record(old(State()), GiveUp);
    }

    /** Check that nobody is active, unlink the file, forget the item. */
    method DropItem(item: Item, ghost todo: set<Item>) returns (ok: bool)
      requires Valid() && pruner == Draining(todo) && item in todo && todo <= queue && !Active(calls)
      modifies `files, `queue, `pruner, `states, `steps
      ensures Valid() && old(steps) <= steps && item.id !in backups
      ensures ok ==> pruner == Draining(todo - {item}) && queue == old(queue) - {item} && files == old(files) - {item.id}
      ensures !ok ==> pruner.Resting? && queue == old(queue) && (files == old(files) || files == old(files) - {item.id})
    {
      hide Run, Active, Intact;
      Facts();
      ItemUnreachable(State(), item);
      Check(item);
      ok := *;
      if !ok {
        Stop();
        return;
      }
      UnlinkFile(item);
      ok := *;
      if !ok {
        Stop();
        return;
      }
      Forget(item);
    }

    ghost method Check(item: Item)
      requires Valid() && pruner.Draining? && item in pruner.todo && !Active(calls) && item.id !in backups
      modifies `pruner, `states, `steps
      ensures Valid() && steps == old(steps) + [Step.Check(item)] && pruner == Cleared(item, old(pruner).todo - {item})
    {
      hide Run, Active;
      pruner := Cleared(item, pruner.todo - {item});
      Record(old(State()), Step.Check(item));
    }

    method UnlinkFile(item: Item)
      requires Valid() && pruner.Cleared? && pruner.item == item
      modifies `files, `pruner, `states, `steps
      ensures Valid() && steps == old(steps) + [Unlink] && files == old(files) - {item.id}
      ensures pruner == Unlinked(item, old(pruner).todo)
    {
      hide Run;
      files := files - {item.id};
      pruner := Unlinked(item, pruner.todo);
      Record(old(State()), Unlink);
    }

    method Forget(item: Item)
      requires Valid() && pruner.Unlinked? && pruner.item == item
      modifies `queue, `pruner, `states, `steps
      ensures Valid() && steps == old(steps) + [Step.Forget] && queue == old(queue) - {item} && pruner == Draining(old(pruner).todo)
    {
      hide Run;
      queue := queue - {item};
      pruner := Draining(pruner.todo);
      Record(old(State()), Step.Forget);
    }
  }

  /** The oldest of the candidates, as many as a batch holds. */
  ghost predicate Chosen(calls: map<Id, Call>, candidates: set<Id>, chosen: set<Id>) {
    && chosen <= candidates <= calls.Keys && |chosen| == Least(|candidates|, BATCH)
    && forall x, y :: x in chosen && y in candidates - chosen ==> calls[x].at <= calls[y].at
  }

  /** Only queued files without a row are gone, and what left the queue is gone. */
  ghost predicate Emptied(before: map<Id, string>, files: map<Id, string>, listed: set<Item>, queue: set<Item>, rows: set<Id>) {
    && files.Keys <= before.Keys && (forall f :: f in files ==> files[f] == before[f])
    && (forall f :: f in before && f !in files ==> f !in rows && (Item(Stale, f) in listed || Item(Orphan, f) in listed))
    && (forall x :: x in listed && x !in queue ==> x.id !in files)
  }

  lemma EmptiedIs(before: map<Id, string>, files: map<Id, string>, listed: set<Item>, queued: set<Item>, queue: set<Item>,
                  rows: set<Id>, rows0: set<Id>, stale: set<Id>, orphans: set<Id>)
    requires Emptied(before, files, queued, queue, rows)
    requires queued == listed + (set b | b in stale :: Item(Stale, b))
                     + (set b | b in orphans && b !in rows0 && Item(Stale, b) !in listed :: Item(Orphan, b))
    ensures forall f :: f in files ==> f in before && files[f] == before[f]
    ensures forall b :: b in stale ==> b !in files || Item(Stale, b) in queue
    ensures forall f :: f in orphans && f !in rows0 && f in files ==> Item(Stale, f) in queue || Item(Orphan, f) in queue
    ensures forall f :: f in before && f !in files ==> f !in rows
    ensures forall f :: f in before && f !in files ==> f in stale || f in orphans || Item(Stale, f) in listed || Item(Orphan, f) in listed
  {
  }

  lemma EmptiedNot(files: map<Id, string>, queue: set<Item>, rows: set<Id>)
    ensures Emptied(files, files, queue, queue, rows)
  {
  }

  lemma EmptiedMore(before: map<Id, string>, files: map<Id, string>, files': map<Id, string>,
                    listed: set<Item>, queue: set<Item>, queue': set<Item>, rows: set<Id>, item: Item)
    requires Emptied(before, files, listed, queue, rows) && item in listed && item.id !in rows
    requires files' == files || files' == files - {item.id}
    requires queue' == queue || (queue' == queue - {item} && item.id !in files')
    ensures Emptied(before, files', listed, queue', rows)
  {
    assert item.kind.Stale? || item.kind.Orphan?;
  }

  lemma ItemUnreachable(w: World, item: Item)
    requires Sound(w) && item in w.queue
    ensures item.id !in w.backups
  {
    hide LogSound;
  }

  lemma StillActive(calls: map<Id, Call>, ids: set<Id>)
    ensures Active(ForgottenCalls(calls, ids)) == Active(calls)
  {
    var forgotten := ForgottenCalls(calls, ids);
    assert forall id :: id in calls ==> Settled(forgotten[id]) == Settled(calls[id]);
    if Active(calls) {
      var id :| id in calls && !Settled(calls[id]);
      assert id in forgotten;
    }
  }

  lemma OutdatedExist(backups: map<Id, Backup>, now: real, settings: Retention)
    ensures Outdated(backups, now, settings) <= backups.Keys
  {
  }

  /** Rows go when they are too old, or have enough newer ones of their path or altogether. */
  lemma OutdatedMeans(backups: map<Id, Backup>, now: real, settings: Retention)
    ensures Outdated(backups, now, settings) <= backups.Keys
    ensures forall b :: b in backups ==>
              (b in Outdated(backups, now, settings) <==>
                 || backups[b].at < now - settings.backupDays as real * 86400.0
                 || |set x | x in backups && backups[x].root == backups[b].root && backups[x].path == backups[b].path
                             && backups[x].at > backups[b].at| >= settings.backupsPerPath
                 || |set x | x in backups && backups[x].at > backups[b].at| >= settings.maxBackups)
  {
  }

  lemma ForgottenAre(calls: map<Id, Call>)
    ensures forall ids: set<Id> :: ForgottenCalls(calls, ids) == map id | id in calls ::
                if id in ids then calls[id].(result := Some("RESULT_EXPIRED"), expired := true) else calls[id]
  {
  }

  lemma BatchIsAll<T>(batch: set<T>, items: set<T>)
    requires batch <= items && |batch| == Least(|items|, BATCH)
    ensures |batch| < 1000 ==> batch == items
  {
    if |batch| < BATCH {
      assert |items - batch| == |items| - |batch|;
    }
  }

  lemma RowsHaveFiles(w: World)
    requires Sound(w)
    ensures forall b :: b in w.backups && w.backups[b].existed ==> b in w.files
  {
    hide LogSound;
  }

  lemma UnusedNotWriting(w: World, id: Id, draft: Draft)
    requires Sound(w) && id !in w.used
    ensures w.writing[id := draft] - {id} == w.writing && id !in w.writing && id !in w.files && id !in w.backups
  {
    hide LogSound, Unreachable;
  }
}
