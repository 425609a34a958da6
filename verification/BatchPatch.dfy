// Edits of several files with preflight, ordered application and rollback, while other
// programs change the same files at any time. Models agent/batch_patch.py and the
// compare-and-swap of `mutate` in agent/filesystem.py.

module PatchModel {
  import opened Settings

  type Path = string
  type Bytes = string

  /** The digest of a file, or the mark of a file that does not exist. */
  datatype Sha = New | Sum(digest: string)

  const MAX_BATCH_BYTES: nat := 2 * 1024 * 1024

  datatype File = File(content: Bytes, mode: int)

  type Files = map<Path, File>

  /** `expected` is the digest the caller named, `before` what the preflight read. */
  datatype Plan = Plan(path: Path, before: Option<Bytes>, beforeMode: Option<int>, after: Option<Bytes>, mode: Option<int>, expected: Sha)

  /** What this patch saw and did, each at one instant; other programs act in between. */
  datatype Event =
    | Saw(path: Path, state: Option<File>)
    | BackedUp(path: Path, content: Option<Bytes>)
    | Wrote(path: Path, was: Option<File>, state: Option<File>)

  function ContentOf(s: Option<File>): Option<Bytes> {
    if s.Some? then Some(s.value.content) else None
  }

  function ModeOf(s: Option<File>): Option<int> {
    if s.Some? then Some(s.value.mode) else None
  }

  /** `digest(data) if data is not None else 'new'`. */
  function Digest(hash: Bytes -> string, content: Option<Bytes>): Sha {
    if content.Some? then Sum(hash(content.value)) else New
  }

  function At(files: Files, path: Path): Option<File> {
    if path in files then Some(files[path]) else None
  }

  function Put(files: Files, path: Path, s: Option<File>): Files {
    if s.Some? then files[path := s.value] else files - {path}
  }

  // ---- what the log says ---------------------------------------------------------

  /** The state is the one the preflight found: same digest, same mode. */
  predicate Original(hash: Bytes -> string, plan: Plan, s: Option<File>) {
    Digest(hash, ContentOf(s)) == plan.expected && ModeOf(s) == plan.beforeMode
  }

  /** A write belongs to the plan: the look right before it showed the version before or the
      version after the change, and a file that was not there then is created, not replaced. */
  predicate Expected(hash: Bytes -> string, plan: Plan, look: Event, e: Event) {
    && look.Saw? && look.path == plan.path && e.Wrote? && e.path == plan.path
    && (Digest(hash, ContentOf(look.state)) == plan.expected || Digest(hash, ContentOf(look.state)) == Digest(hash, plan.after))
    && (look.state.None? ==> e.was.None?)
    && (ContentOf(e.state) == plan.after || ContentOf(e.state) == plan.before)
  }

  /** No write without such a look. */
  ghost predicate OnlyPlanned(hash: Bytes -> string, log: seq<Event>, plans: seq<Plan>) {
    forall k :: 0 <= k < |log| && log[k].Wrote? ==> 0 < k && exists plan :: plan in plans && Expected(hash, plan, log[k-1], log[k])
  }

  /** The same for what is done on behalf of one plan. */
  predicate Justified(hash: Bytes -> string, plan: Plan, log: seq<Event>) {
    forall k :: 0 <= k < |log| && log[k].Wrote? ==> 0 < k && Expected(hash, plan, log[k-1], log[k])
  }

  /** Unless another program acts between a look and its write, nothing but the version
      before or after the change is ever overwritten; a new file never replaces another. */
  lemma OnlyPlannedVersionsGo(hash: Bytes -> string, log: seq<Event>, plans: seq<Plan>, k: nat)
    requires OnlyPlanned(hash, log, plans) && k < |log| && log[k].Wrote?
    ensures 0 < k && log[k-1].Saw? && log[k-1].path == log[k].path
    ensures log[k].was == log[k-1].state ==>
              exists plan :: plan in plans && plan.path == log[k].path && !Foreign(hash, plan, log[k].was)
    ensures log[k-1].state.None? ==> log[k].was.None?
  {
    var plan :| plan in plans && Expected(hash, plan, log[k-1], log[k]);
    assert plan.path == log[k].path;
  }

  /** If one does act in between, its version goes: the look showed "old", "mine" was saved,
      and "new" replaced it. */
  lemma InterleavedSaveIsLost(hash: Bytes -> string)
    requires hash("mine") != hash("old") && hash("mine") != hash("new")
    ensures var plan := Plan("f", Some("old"), Some(420), Some("new"), None, Sum(hash("old")));
            var log := [Saw("f", Some(File("old", 420))), Wrote("f", Some(File("mine", 420)), Some(File("new", 420)))];
            OnlyPlanned(hash, log, [plan]) && Foreign(hash, plan, log[1].was)
  {
    var plan := Plan("f", Some("old"), Some(420), Some("new"), None, Sum(hash("old")));
    var look, e := Saw("f", Some(File("old", 420))), Wrote("f", Some(File("mine", 420)), Some(File("new", 420)));
    var log := [look, e];
    assert plan in [plan] && Expected(hash, plan, log[0], log[1]);
    forall k | 0 <= k < |log| && log[k].Wrote? ensures 0 < k && exists p :: p in [plan] && Expected(hash, p, log[k-1], log[k]) {
      assert k == 1;
    }
  }

  predicate Quiet(log: seq<Event>) {
    forall k :: 0 <= k < |log| ==> !log[k].Wrote?
  }

  predicate Touches(e: Event, path: Path) {
    (e.Saw? || e.Wrote?) && e.path == path
  }

  /** Event `k` is the last the patch saw or did of the file. */
  ghost predicate Final(log: seq<Event>, path: Path, k: int) {
    0 <= k < |log| && Touches(log[k], path) && forall m :: k < m < |log| ==> !Touches(log[m], path)
  }

  /** The last look at the file, event `k`, showed what event `w` says: it is that look, or
      the write right before it, whose content was read back. */
  ghost predicate Confirmed(log: seq<Event>, path: Path, w: int, k: int) {
    && Final(log, path, k) && log[k].Saw? && 0 <= w <= k && Touches(log[w], path)
    && ContentOf(log[w].state) == ContentOf(log[k].state)
    && (w < k ==> log[w].Wrote?) && forall m :: w < m < k ==> !Touches(log[m], path)
  }

  /** Since event `since`, the file was seen as the preflight had found it, or was written
      back and read back; nothing else was seen or done of it afterwards. */
  ghost predicate Restored(hash: Bytes -> string, log: seq<Event>, plan: Plan, since: nat) {
    exists w, k :: since <= w && Confirmed(log, plan.path, w, k) && Original(hash, plan, log[w].state)
  }

  /** The last look showed the new content, with the new mode when it was written. */
  ghost predicate Applied(log: seq<Event>, plan: Plan) {
    exists w, k :: Confirmed(log, plan.path, w, k) && AsPlanned(plan, log[w].state)
  }

  predicate AsPlanned(plan: Plan, s: Option<File>) {
    ContentOf(s) == plan.after && (plan.after.Some? && plan.mode.Some? ==> ModeOf(s) == plan.mode)
  }

  /** Neither the version before nor the version after the change: somebody else's. */
  predicate Foreign(hash: Bytes -> string, plan: Plan, s: Option<File>) {
    Digest(hash, ContentOf(s)) != plan.expected && Digest(hash, ContentOf(s)) != Digest(hash, plan.after)
  }

  /** From event `since` on somebody else's version of the file was seen. */
  ghost predicate SawForeign(hash: Bytes -> string, log: seq<Event>, plan: Plan, since: nat) {
    exists k :: since <= k < |log| && log[k].Saw? && log[k].path == plan.path && Foreign(hash, plan, log[k].state)
  }

  /** The plan was made from a state that was seen before anything was written. */
  ghost predicate Planned(hash: Bytes -> string, log: seq<Event>, plan: Plan) {
    exists k :: 0 <= k < |log| && log[k].Saw? && log[k].path == plan.path && PlanFrom(hash, plan, log[k].state) && Quiet(log[..k])
  }

  predicate PlanFrom(hash: Bytes -> string, plan: Plan, s: Option<File>) {
    plan.before == ContentOf(s) && plan.beforeMode == ModeOf(s) && plan.expected == Digest(hash, plan.before)
  }

  ghost predicate Distinct(plans: seq<Plan>) {
    forall i, j :: 0 <= i < j < |plans| ==> plans[i].path != plans[j].path
  }

  // ---- what happens when nobody interferes -----------------------------------------

  function Replayed(files: Files, log: seq<Event>): Files {
    if log == [] then files
    else
      var before := Replayed(files, log[..|log| - 1]);
      var e := log[|log| - 1];
      if e.Wrote? then Put(before, e.path, e.state) else before
  }

  /** Everything seen and replaced is what the patch's own writes left: no interference. */
  ghost predicate Undisturbed(files: Files, log: seq<Event>) {
    forall k :: 0 <= k < |log| ==>
      (log[k].Saw? ==> log[k].state == At(Replayed(files, log[..k]), log[k].path)) &&
      (log[k].Wrote? ==> log[k].was == At(Replayed(files, log[..k]), log[k].path))
  }

  lemma {:induction false} ReplayedSince(files: Files, log: seq<Event>, k: nat, path: Path)
    requires k < |log| && Touches(log[k], path) && Undisturbed(files, log)
    requires forall m :: k < m < |log| ==> !(log[m].Wrote? && log[m].path == path)
    ensures At(Replayed(files, log), path) == log[k].state
    decreases |log|
  {
    var front := log[..|log| - 1];
    if k == |log| - 1 {
      assert log[..k] == front;
    } else {
      assert Undisturbed(files, front) by {
        assert forall m :: 0 <= m < |front| ==> front[m] == log[m] && front[..m] == log[..m];
      }
      ReplayedSince(files, front, k, path);
    }
  }

  lemma {:induction false} QuietReplay(files: Files, log: seq<Event>)
    requires Quiet(log)
    ensures Replayed(files, log) == files
    decreases |log|
  {
    if log != [] { QuietReplay(files, log[..|log| - 1]); }
  }

  lemma {:induction false} UntouchedReplay(files: Files, log: seq<Event>, path: Path)
    requires forall k :: 0 <= k < |log| ==> !(log[k].Wrote? && log[k].path == path)
    ensures At(Replayed(files, log), path) == At(files, path)
    decreases |log|
  {
    if log != [] {
      var front := log[..|log| - 1];
      assert forall k :: 0 <= k < |front| ==> front[k] == log[k];
      UntouchedReplay(files, front, path);
    }
  }

  lemma FoundAtFirst(hash: Bytes -> string, files: Files, log: seq<Event>, plan: Plan)
    requires Undisturbed(files, log) && Planned(hash, log, plan)
    ensures PlanFrom(hash, plan, At(files, plan.path))
  {
    var p :| 0 <= p < |log| && log[p].Saw? && log[p].path == plan.path && PlanFrom(hash, plan, log[p].state) && Quiet(log[..p]);
    QuietReplay(files, log[..p]);
  }

  lemma LeftAtLast(hash: Bytes -> string, files: Files, log: seq<Event>, plan: Plan, since: nat)
    requires Undisturbed(files, log) && Restored(hash, log, plan, since)
    ensures Original(hash, plan, At(Replayed(files, log), plan.path))
  {
    hide Undisturbed;
    var w, k :| since <= w && Confirmed(log, plan.path, w, k) && Original(hash, plan, log[w].state);
    ReplayedSince(files, log, w, plan.path);
  }

  /** Without interference a rollback that is reported complete leaves every file of the
      project with the digest and mode it had. */
  lemma RollbackRestores(hash: Bytes -> string, files: Files, log: seq<Event>, attempted: seq<Plan>, since: nat, path: Path)
    requires Undisturbed(files, log) && OnlyPlanned(hash, log, attempted)
    requires forall plan :: plan in attempted ==> Planned(hash, log, plan) && Restored(hash, log, plan, since)
    ensures var s, t := At(files, path), At(Replayed(files, log), path);
            Digest(hash, ContentOf(s)) == Digest(hash, ContentOf(t)) && ModeOf(s) == ModeOf(t)
  {
    hide Undisturbed, Planned, Restored;
    if k :| 0 <= k < |log| && log[k].Wrote? && log[k].path == path {
      var plan :| plan in attempted && Expected(hash, plan, log[k-1], log[k]);
      FoundAtFirst(hash, files, log, plan);
      LeftAtLast(hash, files, log, plan, since);
    } else {
      UntouchedReplay(files, log, path);
    }
  }

  /** Without interference a completed patch leaves every file as planned. */
  lemma CompletionApplies(files: Files, log: seq<Event>, plan: Plan)
    requires Undisturbed(files, log) && Applied(log, plan)
    ensures AsPlanned(plan, At(Replayed(files, log), plan.path))
  {
    hide Undisturbed;
    var w, k :| Confirmed(log, plan.path, w, k) && AsPlanned(plan, log[w].state);
    ReplayedSince(files, log, w, plan.path);
  }

  // ---- extending the log --------------------------------------------------------------

  lemma OnlyPlannedMore(hash: Bytes -> string, log: seq<Event>, plans: seq<Plan>, more: seq<Event>, plan: Plan)
    requires OnlyPlanned(hash, log, plans) && plan in plans
    requires Justified(hash, plan, more)
    ensures OnlyPlanned(hash, log + more, plans)
  {
    hide Expected;
    var all := log + more;
    forall k | 0 <= k < |all| && all[k].Wrote? ensures 0 < k && exists p :: p in plans && Expected(hash, p, all[k-1], all[k]) {
      if k < |log| {
        assert all[k] == log[k] && all[k-1] == log[k-1];
      } else {
        assert all[k] == more[k - |log|] && all[k-1] == more[k - |log| - 1];
      }
    }
  }

  lemma OnlyPlannedWider(hash: Bytes -> string, log: seq<Event>, plans: seq<Plan>, plan: Plan)
    requires OnlyPlanned(hash, log, plans)
    ensures OnlyPlanned(hash, log, plans + [plan])
  {
    hide Expected;
    forall k | 0 <= k < |log| && log[k].Wrote? ensures exists p :: p in plans + [plan] && Expected(hash, p, log[k-1], log[k]) {
      var p :| p in plans && Expected(hash, p, log[k-1], log[k]);
      assert p in plans + [plan];
    }
  }

  lemma PlannedMore(hash: Bytes -> string, log: seq<Event>, plan: Plan, more: seq<Event>)
    requires Planned(hash, log, plan)
    ensures Planned(hash, log + more, plan)
  {
    var k :| 0 <= k < |log| && log[k].Saw? && log[k].path == plan.path && PlanFrom(hash, plan, log[k].state) && Quiet(log[..k]);
    assert (log + more)[..k] == log[..k];
    assert (log + more)[k] == log[k];
  }

  lemma ConfirmedMore(log: seq<Event>, path: Path, w: int, k: int, more: seq<Event>)
    requires Confirmed(log, path, w, k) && forall e :: e in more ==> !Touches(e, path)
    ensures Confirmed(log + more, path, w, k) && (log + more)[w] == log[w]
  {
    var all := log + more;
    assert forall m :: 0 <= m < |log| ==> all[m] == log[m];
    forall m | k < m < |all| ensures !Touches(all[m], path) {
      if m >= |log| { assert all[m] == more[m - |log|] && all[m] in more; }
    }
  }

  lemma RestoredMore(hash: Bytes -> string, log: seq<Event>, plan: Plan, since: nat, more: seq<Event>)
    requires Restored(hash, log, plan, since) && forall e :: e in more ==> !Touches(e, plan.path)
    ensures Restored(hash, log + more, plan, since)
  {
    var w, k :| since <= w && Confirmed(log, plan.path, w, k) && Original(hash, plan, log[w].state);
    ConfirmedMore(log, plan.path, w, k, more);
  }

  lemma AppliedMore(log: seq<Event>, plan: Plan, more: seq<Event>)
    requires Applied(log, plan) && forall e :: e in more ==> !Touches(e, plan.path)
    ensures Applied(log + more, plan)
  {
    var w, k :| Confirmed(log, plan.path, w, k) && AsPlanned(plan, log[w].state);
    ConfirmedMore(log, plan.path, w, k, more);
  }

  lemma SawForeignMore(hash: Bytes -> string, log: seq<Event>, plan: Plan, since: nat, more: seq<Event>)
    requires SawForeign(hash, log + more, plan, since)
    ensures SawForeign(hash, log, plan, since) || exists e :: e in more && e.Saw? && e.path == plan.path && Foreign(hash, plan, e.state)
  {
    hide Foreign;
    var all := log + more;
    var k :| since <= k < |all| && all[k].Saw? && all[k].path == plan.path && Foreign(hash, plan, all[k].state);
    if k >= |log| {
      assert all[k] == more[k - |log|];
    } else {
      assert all[k] == log[k];
    }
  }
}

// One file: compare and swap. `files` may be changed by other programs between any two steps.

module FileEngines {
  import opened Settings
  import opened PatchModel

  const DEFAULT_MODE: int := 0x1A4

  /** One `mutate`: reads, possibly one write, reads again. */
  datatype Trace = Trace(before: seq<Event>, wrote: seq<Event>, after: seq<Event>)

  function Flat(t: Trace): seq<Event> {
    t.before + t.wrote + t.after
  }

  /** Only the named version is replaced, by the new content with the right mode; success
      means the new content was read back, or was there already. */
  ghost predicate Mutated(hash: Bytes -> string, path: Path, expected: Sha, after: Option<Bytes>, restoreMode: Option<int>, t: Trace, ok: bool) {
    && Quiet(t.before) && Quiet(t.after) && |t.wrote| <= 1
    && (forall e :: e in Flat(t) ==> e.path == path)
    && (ok ==> forall e :: e in Flat(t) && e.Saw? ==> Digest(hash, ContentOf(e.state)) == expected || ContentOf(e.state) == after)
    && (t.wrote != [] ==> t.before != [] && Swap(hash, path, expected, after, restoreMode, t.before[|t.before| - 1], t.wrote[0]))
    && (ok && t.wrote == [] ==> t.after == [] && AlreadyThere(hash, path, expected, after, restoreMode, t.before))
    && (ok && t.wrote != [] ==> exists s :: t.after == [Saw(path, s)] && ContentOf(s) == after)
  }

  /** A write of the new content right after a look that showed the named version. */
  predicate Swap(hash: Bytes -> string, path: Path, expected: Sha, after: Option<Bytes>, restoreMode: Option<int>, look: Event, e: Event) {
    && look.Saw? && look.path == path && Digest(hash, ContentOf(look.state)) == expected
    && e.Wrote? && e.path == path && ContentOf(e.state) == after && (look.state.None? ==> e.was.None?)
    && (after.Some? && restoreMode.Some? ==> ModeOf(e.state) == restoreMode)
  }

  predicate AlreadyThere(hash: Bytes -> string, path: Path, expected: Sha, after: Option<Bytes>, restoreMode: Option<int>, log: seq<Event>) {
    |log| == 1 && log[0].Saw? && log[0].path == path && ContentOf(log[0].state) == after
    && Digest(hash, after) == expected && (after.Some? && restoreMode.Some? ==> ModeOf(log[0].state) == restoreMode)
  }

  /** There is nothing to write: the content is there, and so is the mode if one is asked for. */
  predicate Fulfilled(found: Option<File>, after: Option<Bytes>, restoreMode: Option<int>) {
    ContentOf(found) == after && (after.None? || restoreMode.None? || ModeOf(found) == restoreMode)
  }

  /** The content with the mode asked for, else that of the file found first, else the default. */
  function Published(found: Option<File>, after: Option<Bytes>, restoreMode: Option<int>): (s: Option<File>)
    ensures ContentOf(s) == after
    ensures after.Some? ==> ModeOf(s) == if restoreMode.Some? then restoreMode else if found.Some? then ModeOf(found) else Some(420)
  {
    if after.None? then None
    else Some(File(after.value, if restoreMode.Some? then restoreMode.value else if found.Some? then found.value.mode else DEFAULT_MODE))
  }

  class FileEngine {
    const hash: Bytes -> string
    var files: Files
    ghost var log: seq<Event>

    constructor (hash: Bytes -> string, files: Files)
      ensures this.hash == hash && log == []
    {
      this.hash, this.files, log := hash, files, [];
    }

    /** Other programs do as they like. */
    method Interfere()
      modifies `files
    {
      files := *;
    }

    method Read(path: Path) returns (ok: bool, s: Option<File>)
      modifies this
      ensures log == if ok then old(log) + [Saw(path, s)] else old(log)
    {
      Interfere();
      ok := *;
      s := At(files, path);
      if ok {
        log := log + [Saw(path, s)];
      }
    }

    method Backup(path: Path, content: Option<Bytes>) returns (ok: bool)
      modifies this
      ensures log == if ok then old(log) + [BackedUp(path, content)] else old(log)
    {
      Interfere();
      ok := *;
      if ok {
        log := log + [BackedUp(path, content)];
      }
    }

    /** Compare once more and swap: a new file is created exclusively, a deletion follows the
        previous look at once, and other programs may act between the look and the swap. */
    method Replace(path: Path, expected: Sha, found: Option<File>, again: Option<File>, after: Option<Bytes>, restoreMode: Option<int>)
      returns (ok: bool, ghost looked: seq<Event>, ghost wrote: seq<Event>)
      requires Digest(hash, ContentOf(found)) == expected && Digest(hash, ContentOf(again)) == expected
      requires after.None? ==> found.Some?
      modifies this
      ensures log == old(log) + looked + wrote && |wrote| <= 1 && (ok ==> wrote != [])
      ensures looked == [] || exists s :: looked == [Saw(path, s)] && (Digest(hash, ContentOf(s)) == expected || wrote == [])
      ensures wrote != [] ==>
                Swap(hash, path, expected, after, restoreMode, if looked == [] then Saw(path, again) else looked[0], wrote[0])
      ensures wrote != [] ==> wrote[0].Wrote? && wrote[0].state == Published(found, after, restoreMode)
    {
      looked, wrote := [], [];
      if after.Some? {
        var latest;
        ok, latest := Read(path);
        if !ok {
          return;
        }
        looked := [Saw(path, latest)];
        if Digest(hash, ContentOf(latest)) != expected {
          return false, looked, wrote;
        }
      }
      Interfere();
      ok := *;
      var was := At(files, path);
      if !ok || (after.None? && was.None?) || (found.None? && was.Some?) {
        return false, looked, wrote;
      }
      var mode := if restoreMode.Some? then restoreMode.value else if found.Some? then found.value.mode else DEFAULT_MODE;
      var s := if after.Some? then Some(File(after.value, mode)) else None;
      files := Put(files, path, s);
      wrote := [Wrote(path, was, s)];
      log := log + wrote;
      ok := *;
    }

    /** The checks of a mutation and its own backup. */
    method Prepare(path: Path, expected: Sha, after: Option<Bytes>, restoreMode: Option<int>)
      returns (go: bool, done: bool, found: Option<File>, again: Option<File>, ghost events: seq<Event>)
      modifies this
      ensures log == old(log) + events && Quiet(events) && !(go && done) && forall e :: e in events ==> e.path == path
      ensures go ==> forall e :: e in events && e.Saw? ==> Digest(hash, ContentOf(e.state)) == expected
      ensures go ==> events != [] && events[|events| - 1] == Saw(path, again) && Digest(hash, ContentOf(found)) == expected
      ensures go ==> events[0] == Saw(path, found) && !Fulfilled(found, after, restoreMode)
      ensures go && after.None? ==> found.Some?
      ensures done ==> AlreadyThere(hash, path, expected, after, restoreMode, events)
    {
      events, again := [], None;
      var ok;
      ok, found := Read(path);
      if !ok {
        return false, false, found, again, events;
      }
      events := [Saw(path, found)];
      var valid := *;
      if Digest(hash, ContentOf(found)) != expected || !valid {
        return false, false, found, again, events;
      }
      if Fulfilled(found, after, restoreMode) {
        return false, true, found, again, events;
      }
      ok := Backup(path, ContentOf(found));
      if !ok {
        return false, false, found, again, events;
      }
      events := [Saw(path, found), BackedUp(path, ContentOf(found))];
      ok, again := Read(path);
      if !ok {
        return false, false, found, again, events;
      }
      events := [Saw(path, found), BackedUp(path, ContentOf(found)), Saw(path, again)];
      return Digest(hash, ContentOf(again)) == expected, false, found, again, events;
    }

    /** Success means the intended content was read back, or was there already. */
    method Mutate(path: Path, expected: Sha, after: Option<Bytes>, restoreMode: Option<int>) returns (ok: bool, ghost t: Trace)
      modifies this
      ensures log == old(log) + Flat(t) && Mutated(hash, path, expected, after, restoreMode, t, ok)
      ensures t.wrote != [] ==> t.before != [] && t.before[0].Saw? && t.wrote[0].Wrote?
      ensures t.wrote != [] ==> ContentOf(t.wrote[0].state) == after
      ensures t.wrote != [] ==>
                ContentOf(t.before[0].state) != after || (after.Some? && restoreMode.Some? && ModeOf(t.before[0].state) != restoreMode)
      ensures t.wrote != [] && after.Some? ==>
                ModeOf(t.wrote[0].state) ==
                if restoreMode.Some? then restoreMode else if t.before[0].state.Some? then ModeOf(t.before[0].state) else Some(420)
    {
      hide Swap, Mutated, AlreadyThere, Quiet, Digest, Published;
      var go, done, found, again;
      ghost var events, looked, wrote;
      go, done, found, again, events := Prepare(path, expected, after, restoreMode);
      t := Trace(events, [], []);
      if !go {
        NotSwapped(hash, path, expected, after, restoreMode, events, done);
        return done, t;
      }
      ok, looked, wrote := Replace(path, expected, found, again, after, restoreMode);
      var seen: Option<File> := None;
      var read := false;
      if ok {
        read, seen := Read(path);
        ok := read && ContentOf(seen) == after;
      }
      t := Trace(events + looked, wrote, if read then [Saw(path, seen)] else []);
      Swapped(hash, path, expected, after, restoreMode, events, looked, t, ok);
    }
  }

  lemma NotSwapped(hash: Bytes -> string, path: Path, expected: Sha, after: Option<Bytes>, restoreMode: Option<int>, events: seq<Event>, done: bool)
    requires Quiet(events) && forall e :: e in events ==> e.path == path
    requires done ==> AlreadyThere(hash, path, expected, after, restoreMode, events)
    ensures Mutated(hash, path, expected, after, restoreMode, Trace(events, [], []), done)
  {
    assert Flat(Trace(events, [], [])) == events;
  }

  lemma Swapped(hash: Bytes -> string, path: Path, expected: Sha, after: Option<Bytes>, restoreMode: Option<int>,
                events: seq<Event>, looked: seq<Event>, t: Trace, ok: bool)
    requires Quiet(events) && forall e :: e in events ==> e.path == path && (e.Saw? ==> Digest(hash, ContentOf(e.state)) == expected)
    requires events != [] && events[|events| - 1].Saw? && t.before == events + looked && |t.wrote| <= 1
    requires looked == [] || exists s :: looked == [Saw(path, s)] && (Digest(hash, ContentOf(s)) == expected || t.wrote == [])
    requires t.wrote != [] ==> Swap(hash, path, expected, after, restoreMode, if looked == [] then events[|events| - 1] else looked[0], t.wrote[0])
    requires t.after == [] || exists s :: t.after == [Saw(path, s)] && (ok ==> ContentOf(s) == after)
    requires ok ==> t.wrote != [] && t.after != []
    ensures Mutated(hash, path, expected, after, restoreMode, t, ok)
  {
    assert forall e :: e in t.wrote ==> e == t.wrote[0];
  }
}

// The whole patch.

module Patches {
  import opened Settings
  import opened PatchModel
  import opened FileEngines

  datatype Change =
    | WriteFile(path: Path, content: Bytes, expected: Sha)
    | Delete(path: Path, expected: Sha)
    | Move(path: Path, destination: Path, expected: Sha)

  datatype Outcome = Refused | Preview | Completed | RolledBack | Partial(unrestored: set<Path>)

  function Size(content: Option<Bytes>): nat {
    if content.Some? then |content.value| else 0
  }

  /** What a batch holds in memory: every content before and after. */
  function Total(plans: seq<Plan>): nat {
    if plans == [] then 0
    else Total(plans[..|plans| - 1]) + Size(plans[|plans| - 1].before) + Size(plans[|plans| - 1].after)
  }

  lemma TotalMore(plans: seq<Plan>, plan: Plan)
    ensures Total(plans + [plan]) == Total(plans) + Size(plan.before) + Size(plan.after)
  {
    assert (plans + [plan])[..|plans|] == plans;
  }

  predicate For(plan: Plan, path: Path, expected: Sha, after: Option<Bytes>, mode: Option<int>) {
    plan.path == path && plan.expected == expected && plan.after == after && plan.mode == mode
  }

  /** A move creates the destination with the verified source and its mode, then deletes the source. */
  predicate Moves(hash: Bytes -> string, made: Plan, gone: Plan, path: Path, destination: Path, expected: Sha) {
    && made.after.Some? && made.mode.Some? && Sum(hash(made.after.value)) == expected
    && For(made, destination, New, made.after, made.mode) && For(gone, path, expected, None, None)
  }

  /** The plans are those of the changes, in order. */
  predicate PlansOf(hash: Bytes -> string, changes: seq<Change>, plans: seq<Plan>) {
    if changes == [] then plans == []
    else
      var n, front := |plans|, changes[..|changes| - 1];
      match changes[|changes| - 1]
      case WriteFile(path, content, expected) =>
        n >= 1 && PlansOf(hash, front, plans[..n-1]) && For(plans[n-1], path, expected, Some(content), None)
      case Delete(path, expected) =>
        n >= 1 && PlansOf(hash, front, plans[..n-1]) && For(plans[n-1], path, expected, None, None)
      case Move(path, destination, expected) =>
        n >= 2 && PlansOf(hash, front, plans[..n-2]) && Moves(hash, plans[n-2], plans[n-1], path, destination, expected)
  }

  /** Each requested change has its plans: a write its content, a deletion its absence, a move
      both, the content moved being the one named. */
  lemma {:induction false} PlansMean(hash: Bytes -> string, changes: seq<Change>, plans: seq<Plan>, i: nat)
    requires PlansOf(hash, changes, plans) && i < |changes|
    ensures match changes[i]
            case WriteFile(path, content, expected) =>
              exists p :: p in plans && p.path == path && p.expected == expected && p.after == Some(content) && p.mode == None
            case Delete(path, expected) =>
              exists p :: p in plans && p.path == path && p.expected == expected && p.after == None
            case Move(path, destination, expected) =>
              exists p, g :: p in plans && g in plans && p.path == destination && p.expected == New && p.after.Some?
                             && Sum(hash(p.after.value)) == expected && g.path == path && g.expected == expected && g.after == None
    decreases |changes|
  {
    var n, m := |plans|, |changes| - 1;
    if i < m {
      PlansMean(hash, changes[..m], plans[..if changes[m].Move? then n - 2 else n - 1], i);
    } else {
      match changes[m]
      case WriteFile(path, content, expected) => assert plans[n-1] in plans;
      case Delete(path, expected) => assert plans[n-1] in plans;
      case Move(path, destination, expected) => assert plans[n-2] in plans && plans[n-1] in plans;
    }
  }

  /** Every plan was made from a state seen before the first write, and no two share a path. */
  ghost predicate AllPlanned(hash: Bytes -> string, log: seq<Event>, plans: seq<Plan>) {
    Distinct(plans) && forall plan :: plan in plans ==> Planned(hash, log, plan)
  }

  /** The whole batch is backed up before the first write. */
  ghost predicate BackedFirst(log: seq<Event>, plans: seq<Plan>) {
    forall k, plan :: 0 <= k < |log| && log[k].Wrote? && plan in plans ==> BackedUp(plan.path, plan.before) in log[..k]
  }

  /** What may be said of the log whatever the outcome. */
  ghost predicate Kept(hash: Bytes -> string, log: seq<Event>, plans: seq<Plan>, attempted: seq<Plan>) {
    && AllPlanned(hash, log, plans) && attempted <= plans
    && OnlyPlanned(hash, log, attempted) && BackedFirst(log, plans)
  }

  lemma AllPlannedMore(hash: Bytes -> string, log: seq<Event>, plans: seq<Plan>, more: seq<Event>)
    requires AllPlanned(hash, log, plans)
    ensures AllPlanned(hash, log + more, plans)
  {
    forall plan | plan in plans ensures Planned(hash, log + more, plan) { PlannedMore(hash, log, plan, more); }
  }

  lemma QuietMore(log: seq<Event>, more: seq<Event>)
    requires Quiet(log) && Quiet(more)
    ensures Quiet(log + more)
  {
  }

  /** A plan made from what is seen before any write. */
  lemma PlannedNow(hash: Bytes -> string, log: seq<Event>, plan: Plan, s: Option<File>)
    requires Quiet(log) && PlanFrom(hash, plan, s)
    ensures Planned(hash, log + [Saw(plan.path, s)], plan)
  {
    var more := log + [Saw(plan.path, s)];
    assert more[|log|] == Saw(plan.path, s) && more[..|log|] == log;
  }

  // ---- one more mutation ---------------------------------------------------------------

  lemma BackedMore(log: seq<Event>, plans: seq<Plan>, more: seq<Event>)
    requires BackedFirst(log, plans) && forall plan :: plan in plans ==> BackedUp(plan.path, plan.before) in log
    ensures BackedFirst(log + more, plans)
    ensures forall plan :: plan in plans ==> BackedUp(plan.path, plan.before) in log + more
  {
    forall k, plan | 0 <= k < |log + more| && (log + more)[k].Wrote? && plan in plans
      ensures BackedUp(plan.path, plan.before) in (log + more)[..k]
    {
      if k < |log| {
        assert (log + more)[k] == log[k] && (log + more)[..k] == log[..k];
      } else {
        assert (log + more)[..k] == log + more[..k - |log|];
      }
    }
  }

  /** A mutation on behalf of a plan writes only what the plan allows. */
  lemma MutationIsPlanned(hash: Bytes -> string, plan: Plan, expected: Sha, after: Option<Bytes>, mode: Option<int>, t: Trace, ok: bool)
    requires Mutated(hash, plan.path, expected, after, mode, t, ok)
    requires expected == plan.expected || expected == Digest(hash, plan.after)
    requires after == plan.after || after == plan.before
    ensures Justified(hash, plan, Flat(t))
  {
    var all := Flat(t);
    assert forall k :: 0 <= k < |t.before| ==> all[k] == t.before[k];
    assert forall k :: |t.before| + |t.wrote| <= k < |all| ==> all[k] == t.after[k - |t.before| - |t.wrote|];
    assert t.wrote != [] ==> all[|t.before|] == t.wrote[0];
  }

  /** The last look of a successful mutation confirms the intended content. */
  lemma MutationShows(hash: Bytes -> string, path: Path, expected: Sha, after: Option<Bytes>, mode: Option<int>, log: seq<Event>, t: Trace)
    returns (w: int, k: int)
    requires Mutated(hash, path, expected, after, mode, t, true)
    ensures |log| <= w && Confirmed(log + Flat(t), path, w, k) && ContentOf((log + Flat(t))[w].state) == after
    ensures after.Some? && mode.Some? ==> ModeOf((log + Flat(t))[w].state) == mode
  {
    var all := log + Flat(t);
    if t.wrote == [] {
      w, k := |log|, |log|;
      assert all == log + [t.before[0]];
    } else {
      w, k := |log| + |t.before|, |log| + |t.before| + 1;
      assert all == log + t.before + [t.wrote[0], t.after[0]];
    }
  }

  lemma MutationRestores(hash: Bytes -> string, log: seq<Event>, plan: Plan, expected: Sha, t: Trace, since: nat)
    requires Mutated(hash, plan.path, expected, plan.before, plan.beforeMode, t, true) && Planned(hash, log, plan) && since <= |log|
    ensures Restored(hash, log + Flat(t), plan, since)
  {
    hide Mutated, Flat;
    var w, k := MutationShows(hash, plan.path, expected, plan.before, plan.beforeMode, log, t);
    assert Original(hash, plan, (log + Flat(t))[w].state);
  }

  lemma MutationApplies(hash: Bytes -> string, log: seq<Event>, plan: Plan, expected: Sha, t: Trace)
    requires Mutated(hash, plan.path, expected, plan.after, plan.mode, t, true)
    ensures Applied(log + Flat(t), plan)
  {
    hide Mutated, Flat;
    var w, k := MutationShows(hash, plan.path, expected, plan.after, plan.mode, log, t);
    assert AsPlanned(plan, (log + Flat(t))[w].state);
  }

  class BatchPatch {
    const engine: FileEngine
    const identity: Path -> Path

    constructor (engine: FileEngine, identity: Path -> Path)
      ensures this.engine == engine && this.identity == identity
    {
      this.engine, this.identity := engine, identity;
    }

    // ---- preflight ------------------------------------------------------------------

    /** Plan one path; a refusal has written nothing. */
    method Prepare(plans: seq<Plan>, touched: set<Path>, budget: nat, path: Path, expected: Sha, after: Option<Bytes>, mode: Option<int>)
      returns (ok: bool, plans': seq<Plan>, touched': set<Path>, budget': nat)
      requires AllPlanned(engine.hash, engine.log, plans) && Quiet(engine.log)
      requires forall plan :: plan in plans ==> identity(plan.path) in touched
      modifies engine
      ensures AllPlanned(engine.hash, engine.log, plans') && Quiet(engine.log)
      ensures forall plan :: plan in plans' ==> identity(plan.path) in touched'
      ensures ok ==> |plans'| == |plans| + 1 && plans'[..|plans|] == plans && For(plans'[|plans|], path, expected, after, mode)
      ensures if ok then budget' <= 2097152 else plans' == plans
      ensures ok && budget == Total(plans) ==> budget' == Total(plans')
    {
      ok, plans', touched', budget' := false, plans, touched, budget;
      if identity(path) in touched {
        return;
      }
      touched' := touched + {identity(path)};
      ghost var log, hash := engine.log, engine.hash;
      var s;
      ok, s := engine.Read(path);
      if !ok {
        return;
      }
      AllPlannedMore(hash, log, plans, [Saw(path, s)]);
      QuietMore(log, [Saw(path, s)]);
      var valid := *;
      if !valid || Digest(engine.hash, ContentOf(s)) != expected {
        ok := false;
        return;
      }
      budget' := budget + Size(ContentOf(s)) + Size(after);
      if budget' > MAX_BATCH_BYTES {
        ok := false;
        return;
      }
      var plan := Plan(path, ContentOf(s), ModeOf(s), after, mode, expected);
      PlannedNow(hash, log, plan, s);
      OneMorePlan(hash, engine.log, plans, plan);
      plans' := plans + [plan];
      TotalMore(plans, plan);
    }

    method Preflight(changes: seq<Change>) returns (ok: bool, plans: seq<Plan>)
      requires engine.log == []
      modifies engine
      ensures AllPlanned(engine.hash, engine.log, plans) && Quiet(engine.log)
      ensures ok ==> PlansOf(engine.hash, changes, plans) && Total(plans) <= 2097152
    {
      hide AllPlanned, Quiet, PlansOf, For, Moves;
      plans, ok := [], true;
      NothingPlanned(engine.hash, engine.log);
      var touched: set<Path>, budget: nat := {}, 0;
      var i := 0;
      while i < |changes|
        invariant i <= |changes| && AllPlanned(engine.hash, engine.log, plans) && Quiet(engine.log)
        invariant forall plan :: plan in plans ==> identity(plan.path) in touched
        invariant ok && PlansOf(engine.hash, changes[..i], plans) && budget == Total(plans) <= 2097152
      {
        ghost var before := plans;
        assert changes[..i+1] == changes[..i] + [changes[i]];
        match changes[i] {
          case WriteFile(path, content, expected) =>
            ok, plans, touched, budget := Prepare(plans, touched, budget, path, expected, Some(content), None);
          case Delete(path, expected) =>
            ok, plans, touched, budget := Prepare(plans, touched, budget, path, expected, None, None);
          case Move(path, destination, expected) =>
            ok, plans, touched, budget := PrepareMove(plans, touched, budget, path, destination, expected);
        }
        if !ok {
          return;
        }
        PlansOfNext(engine.hash, changes[..i], changes[i], before, plans);
        i := i + 1;
      }
      assert changes[..i] == changes;
    }

    method PrepareMove(plans: seq<Plan>, touched: set<Path>, budget: nat, path: Path, destination: Path, expected: Sha)
      returns (ok: bool, plans': seq<Plan>, touched': set<Path>, budget': nat)
      requires AllPlanned(engine.hash, engine.log, plans) && Quiet(engine.log)
      requires forall plan :: plan in plans ==> identity(plan.path) in touched
      modifies engine
      ensures AllPlanned(engine.hash, engine.log, plans') && Quiet(engine.log)
      ensures forall plan :: plan in plans' ==> identity(plan.path) in touched'
      ensures ok ==> |plans'| == |plans| + 2 && plans'[..|plans|] == plans
                     && Moves(engine.hash, plans'[|plans|], plans'[|plans| + 1], path, destination, expected)
      ensures ok ==> budget' <= 2097152 && (budget == Total(plans) ==> budget' == Total(plans'))
    {
      ok, plans', touched', budget' := false, plans, touched, budget;
      ghost var log := engine.log;
      var s;
      ok, s := engine.Read(path);
      AllPlannedMore(engine.hash, log, plans, [Saw(path, s)]);
      if !ok || s.None? || Sum(engine.hash(s.value.content)) != expected {
        ok := false;
        return;
      }
      ok, plans', touched', budget' := Prepare(plans, touched, budget, destination, New, Some(s.value.content), Some(s.value.mode));
      if ok {
        ok, plans', touched', budget' := Prepare(plans', touched', budget', path, expected, None, None);
      }
    }

    // ---- apply and roll back -----------------------------------------------------------

    method BackUpAll(plans: seq<Plan>) returns (ok: bool)
      requires AllPlanned(engine.hash, engine.log, plans) && Quiet(engine.log)
      modifies engine
      ensures AllPlanned(engine.hash, engine.log, plans) && Quiet(engine.log)
      ensures ok ==> forall plan :: plan in plans ==> BackedUp(plan.path, plan.before) in engine.log
    {
      ok := true;
      var i := 0;
      while i < |plans|
        invariant i <= |plans| && AllPlanned(engine.hash, engine.log, plans) && Quiet(engine.log)
        invariant forall k :: 0 <= k < i ==> BackedUp(plans[k].path, plans[k].before) in engine.log
      {
        ghost var log := engine.log;
        ok := engine.Backup(plans[i].path, plans[i].before);
        AllPlannedMore(engine.hash, log, plans, [BackedUp(plans[i].path, plans[i].before)]);
        if !ok {
          return;
        }
        i := i + 1;
      }
    }

    /** Apply the plans in order; `attempted` are those begun. */
    method ApplyAll(plans: seq<Plan>) returns (ok: bool, attempted: seq<Plan>)
      requires Kept(engine.hash, engine.log, plans, [])
      requires forall plan :: plan in plans ==> BackedUp(plan.path, plan.before) in engine.log
      modifies engine
      ensures Kept(engine.hash, engine.log, plans, attempted)
      ensures forall plan :: plan in plans ==> BackedUp(plan.path, plan.before) in engine.log
      ensures ok ==> attempted == plans && forall plan :: plan in plans ==> Applied(engine.log, plan)
    {
      hide AllPlanned, OnlyPlanned, BackedFirst, Mutated;
      attempted, ok := [], true;
      while |attempted| < |plans|
        invariant |attempted| <= |plans| && Kept(engine.hash, engine.log, plans, attempted)
        invariant forall plan :: plan in plans ==> BackedUp(plan.path, plan.before) in engine.log
        invariant forall k :: 0 <= k < |attempted| ==> Applied(engine.log, plans[k])
      {
        var plan := plans[|attempted|];
        ghost var log := engine.log;
        AttemptOne(engine.hash, log, plans, attempted);
        attempted := attempted + [plan];
        ghost var t;
        ok := *;
        if !ok {
          return;
        }
        ok, t := engine.Mutate(plan.path, plan.expected, plan.after, plan.mode);
        MutationKept(engine.hash, log, plans, attempted, plan, plan.expected, plan.after, plan.mode, t, ok);
        if !ok {
          return;
        }
        MutationApplies(engine.hash, log, plan, plan.expected, t);
        OthersApplied(engine.hash, log, plans, |attempted| - 1, t);
      }
      ok := *;
    }

    /** Undo the attempted plans, last first; what cannot be undone safely is reported, and
        so is every file of which somebody else's version was seen meanwhile. */
    method Rollback(plans: seq<Plan>, attempted: seq<Plan>) returns (unrestored: set<Path>)
      requires Kept(engine.hash, engine.log, plans, attempted)
      requires forall plan :: plan in plans ==> BackedUp(plan.path, plan.before) in engine.log
      modifies engine
      ensures old(engine.log) <= engine.log && Kept(engine.hash, engine.log, plans, attempted)
      ensures forall plan :: plan in attempted && plan.path !in unrestored ==> Undone(engine.hash, engine.log, plan, |old(engine.log)|)
    {
      hide AllPlanned, OnlyPlanned, BackedFirst, Mutated, Undone;
      unrestored := {};
      var k := |attempted|;
      ghost var since := |engine.log|;
      while k > 0
        invariant 0 <= k <= |attempted| && old(engine.log) <= engine.log && Kept(engine.hash, engine.log, plans, attempted)
        invariant forall plan :: plan in plans ==> BackedUp(plan.path, plan.before) in engine.log
        invariant Later(engine.log, since, attempted, k)
        invariant forall m :: k <= m < |attempted| ==> Undone(engine.hash, engine.log, attempted[m], since) || attempted[m].path in unrestored
      {
        k := k - 1;
        ghost var log := engine.log;
        ghost var more;
        var ok;
        PlannedOf(engine.hash, log, plans, attempted, attempted[k]);
        ok, more := Undo(attempted[k], since);
        MoreKept(engine.hash, log, plans, attempted, attempted[k], more);
        OthersUndone(engine.hash, log, plans, attempted, k, more, since);
        LaterMore(engine.hash, log, since, plans, attempted, k, more);
        if ok {
          UndoneNow(engine.hash, log, attempted[k], since, more);
        } else {
          unrestored := unrestored + {attempted[k].path};
        }
      }
    }

    /** A file already as before is left alone, the new version is put back, and any other
        version is neither touched nor called restored. */
    method Undo(plan: Plan, ghost since: nat) returns (ok: bool, ghost more: seq<Event>)
      requires Planned(engine.hash, engine.log, plan) && since <= |engine.log|
      modifies engine
      ensures engine.log == old(engine.log) + more && forall e :: e in more ==> e.path == plan.path
      ensures Justified(engine.hash, plan, more)
      ensures ok ==> Restored(engine.hash, engine.log, plan, since)
      ensures ok ==> forall e :: e in more && e.Saw? ==> !Foreign(engine.hash, plan, e.state)
      ensures more == [] ==> !ok
      ensures more != [] ==> more[0].Saw?
      ensures more != [] && Foreign(engine.hash, plan, more[0].state) ==> !ok && |more| == 1
      ensures more != [] && Original(engine.hash, plan, more[0].state) ==> ok && |more| == 1
    {
      hide Mutated;
      ghost var log := engine.log;
      more := [];
      var s;
      ok, s := engine.Read(plan.path);
      if !ok {
        return;
      }
      more := [Saw(plan.path, s)];
      var actual := Digest(engine.hash, ContentOf(s));
      if actual == plan.expected && ModeOf(s) == plan.beforeMode {
        SeenRestored(engine.hash, log, plan, s, since);
        return;
      }
      if actual != Digest(engine.hash, plan.after) {
        ok := false;
        return;
      }
      PlannedMore(engine.hash, log, plan, more);
      ghost var t, seen := Trace([], [], []), engine.log;
      ok, t := engine.Mutate(plan.path, actual, plan.before, plan.beforeMode);
      MutationIsPlanned(engine.hash, plan, actual, plan.before, plan.beforeMode, t, ok);
      if ok { MutationRestores(engine.hash, seen, plan, actual, t, since); }
      MutationSees(engine.hash, seen, plan, actual, t, ok);
      more := more + Flat(t);
    }

    /** The outcome tells the truth: completed, or every attempted file confirmed as before
        since the failure (event `failed`) and no version of somebody else seen, or which
        files were not; and never was anything but a planned version overwritten. */
    method ApplyPatch(changes: seq<Change>, dryRun: bool)
      returns (r: Outcome, plans: seq<Plan>, attempted: seq<Plan>, ghost failed: nat)
      requires engine.log == []
      modifies engine
      ensures Kept(engine.hash, engine.log, plans, attempted) && failed <= |engine.log|
      ensures !r.Refused? ==> PlansOf(engine.hash, changes, plans)
      ensures r.Refused? || r.Preview? ==> Quiet(engine.log) && attempted == []
      ensures r.Completed? ==> attempted == plans && forall plan :: plan in plans ==> Applied(engine.log, plan)
      ensures r.RolledBack? ==> forall plan :: plan in attempted ==> Restored(engine.hash, engine.log, plan, failed)
      ensures r.Partial? ==> r.unrestored != {}
      ensures r.Partial? ==> forall plan :: plan in attempted && plan.path !in r.unrestored ==> Restored(engine.hash, engine.log, plan, failed)
      ensures forall plan :: plan in attempted && SawForeign(engine.hash, engine.log, plan, failed) ==> r.Partial? && plan.path in r.unrestored
    {
      hide AllPlanned, Applied, Restored, SawForeign, Kept;
      attempted, failed := [], 0;
      var ok;
      ok, plans := Preflight(changes);
      NothingAttempted(engine.hash, engine.log, plans);
      if !ok {
        return Refused, plans, attempted, failed;
      }
      if dryRun {
        return Preview, plans, attempted, failed;
      }
      ok := BackUpAll(plans);
      NothingAttempted(engine.hash, engine.log, plans);
      if !ok {
        return Refused, plans, attempted, failed;
      }
      ok, attempted := ApplyAll(plans);
      failed := |engine.log|;
      NothingForeign(engine.hash, engine.log, plans);
      if ok {
        return Completed, plans, attempted, failed;
      }
      var unrestored := Rollback(plans, attempted);
      return if unrestored == {} then RolledBack else Partial(unrestored), plans, attempted, failed;
    }
  }

  // ---- what a rollback knows half way ---------------------------------------------------

  /** Confirmed as before since the rollback began, without a trace of somebody else's version. */
  ghost predicate Undone(hash: Bytes -> string, log: seq<Event>, plan: Plan, since: nat) {
    Restored(hash, log, plan, since) && !SawForeign(hash, log, plan, since)
  }

  /** Since the rollback began only files of plans from `k` on were touched. */
  ghost predicate Later(log: seq<Event>, since: nat, attempted: seq<Plan>, k: nat) {
    forall j :: since <= j < |log| ==> Among(log[j].path, attempted, k)
  }

  ghost predicate Among(path: Path, attempted: seq<Plan>, k: nat) {
    exists m :: k <= m < |attempted| && attempted[m].path == path
  }

  lemma LaterMore(hash: Bytes -> string, log: seq<Event>, since: nat, plans: seq<Plan>, attempted: seq<Plan>, k: nat, more: seq<Event>)
    requires k < |attempted| && attempted <= plans && AllPlanned(hash, log, plans)
    requires Later(log, since, attempted, k + 1) && forall e :: e in more ==> e.path == attempted[k].path
    ensures Later(log + more, since, attempted, k)
    ensures !SawForeign(hash, log, attempted[k], since)
  {
    hide Planned, Foreign;
    var all := log + more;
    forall j | since <= j < |all| ensures Among(all[j].path, attempted, k) {
      if j < |log| {
        assert all[j] == log[j] && Among(log[j].path, attempted, k + 1);
      } else {
        assert all[j] == more[j - |log|] && more[j - |log|] in more;
      }
    }
    forall j | since <= j < |log| ensures log[j].path != attempted[k].path {
      assert Among(log[j].path, attempted, k + 1);
      var m :| k + 1 <= m < |attempted| && attempted[m].path == log[j].path;
      assert plans[m].path != plans[k].path;
    }
  }

  lemma UndoneNow(hash: Bytes -> string, log: seq<Event>, plan: Plan, since: nat, more: seq<Event>)
    requires Restored(hash, log + more, plan, since) && !SawForeign(hash, log, plan, since)
    requires forall e :: e in more && e.Saw? ==> !Foreign(hash, plan, e.state)
    ensures Undone(hash, log + more, plan, since)
  {
    hide Restored, Foreign;
    if SawForeign(hash, log + more, plan, since) { SawForeignMore(hash, log, plan, since, more); }
  }

  lemma OthersUndone(hash: Bytes -> string, log: seq<Event>, plans: seq<Plan>, attempted: seq<Plan>, k: nat, more: seq<Event>, since: nat)
    requires attempted <= plans && k < |attempted| && AllPlanned(hash, log, plans)
    requires forall e :: e in more ==> e.path == attempted[k].path
    ensures forall m :: k < m < |attempted| && Undone(hash, log, attempted[m], since) ==> Undone(hash, log + more, attempted[m], since)
  {
    hide Restored, Planned, Foreign;
    forall m | k < m < |attempted| && Undone(hash, log, attempted[m], since) ensures Undone(hash, log + more, attempted[m], since) {
      assert plans[m].path != plans[k].path;
      RestoredMore(hash, log, attempted[m], since, more);
      if SawForeign(hash, log + more, attempted[m], since) { SawForeignMore(hash, log, attempted[m], since, more); }
    }
  }

  /** A successful mutation has not seen somebody else's version. */
  lemma MutationSees(hash: Bytes -> string, log: seq<Event>, plan: Plan, expected: Sha, t: Trace, ok: bool)
    requires Mutated(hash, plan.path, expected, plan.before, plan.beforeMode, t, ok) && Planned(hash, log, plan)
    requires expected == plan.expected || expected == Digest(hash, plan.after)
    ensures forall e :: e in Flat(t) ==> e.path == plan.path
    ensures ok ==> forall e :: e in Flat(t) && e.Saw? ==> !Foreign(hash, plan, e.state)
  {
    hide Flat;
  }

  lemma NothingPlanned(hash: Bytes -> string, log: seq<Event>)
    ensures AllPlanned(hash, log, []) && PlansOf(hash, [], []) && Quiet([])
  {
  }

  lemma PlansOfNext(hash: Bytes -> string, changes: seq<Change>, change: Change, plans: seq<Plan>, plans': seq<Plan>)
    requires PlansOf(hash, changes, plans) && |plans| <= |plans'| && plans'[..|plans|] == plans
    requires match change
             case WriteFile(path, content, expected) => |plans'| == |plans| + 1 && For(plans'[|plans|], path, expected, Some(content), None)
             case Delete(path, expected) => |plans'| == |plans| + 1 && For(plans'[|plans|], path, expected, None, None)
             case Move(path, destination, expected) =>
               |plans'| == |plans| + 2 && Moves(hash, plans'[|plans|], plans'[|plans| + 1], path, destination, expected)
    ensures PlansOf(hash, changes + [change], plans')
  {
    hide For, Moves;
    assert (changes + [change])[..|changes|] == changes;
  }

  lemma NothingAttempted(hash: Bytes -> string, log: seq<Event>, plans: seq<Plan>)
    requires AllPlanned(hash, log, plans) && Quiet(log)
    ensures Kept(hash, log, plans, [])
  {
    hide AllPlanned;
  }

  lemma NothingForeign(hash: Bytes -> string, log: seq<Event>, plans: seq<Plan>)
    ensures forall plan :: plan in plans ==> !SawForeign(hash, log, plan, |log|)
  {
  }

  lemma PlannedOf(hash: Bytes -> string, log: seq<Event>, plans: seq<Plan>, attempted: seq<Plan>, plan: Plan)
    requires AllPlanned(hash, log, plans) && attempted <= plans && plan in attempted
    ensures Planned(hash, log, plan)
  {
  }

  lemma SeenRestored(hash: Bytes -> string, log: seq<Event>, plan: Plan, s: Option<File>, since: nat)
    requires Original(hash, plan, s) && since <= |log|
    ensures Restored(hash, log + [Saw(plan.path, s)], plan, since)
  {
    assert Confirmed(log + [Saw(plan.path, s)], plan.path, |log|, |log|);
  }

  lemma AttemptOne(hash: Bytes -> string, log: seq<Event>, plans: seq<Plan>, attempted: seq<Plan>)
    requires Kept(hash, log, plans, attempted) && |attempted| < |plans|
    ensures Kept(hash, log, plans, attempted + [plans[|attempted|]])
  {
    hide AllPlanned, OnlyPlanned, BackedFirst;
    OnlyPlannedWider(hash, log, attempted, plans[|attempted|]);
    assert attempted == plans[..|attempted|];
    assert plans[..|attempted| + 1] == attempted + [plans[|attempted|]];
  }

  lemma MoreKept(hash: Bytes -> string, log: seq<Event>, plans: seq<Plan>, attempted: seq<Plan>, plan: Plan, more: seq<Event>)
    requires Kept(hash, log, plans, attempted) && plan in attempted
    requires forall p :: p in plans ==> BackedUp(p.path, p.before) in log
    requires Justified(hash, plan, more)
    ensures Kept(hash, log + more, plans, attempted)
    ensures forall p :: p in plans ==> BackedUp(p.path, p.before) in log + more
  {
    hide AllPlanned, OnlyPlanned, BackedFirst, Expected;
    AllPlannedMore(hash, log, plans, more);
    OnlyPlannedMore(hash, log, attempted, more, plan);
    BackedMore(log, plans, more);
  }

  lemma MutationKept(hash: Bytes -> string, log: seq<Event>, plans: seq<Plan>, attempted: seq<Plan>, plan: Plan,
                     expected: Sha, after: Option<Bytes>, mode: Option<int>, t: Trace, ok: bool)
    requires Kept(hash, log, plans, attempted) && plan in attempted
    requires forall p :: p in plans ==> BackedUp(p.path, p.before) in log
    requires Mutated(hash, plan.path, expected, after, mode, t, ok)
    requires expected == plan.expected && after == plan.after
    ensures Kept(hash, log + Flat(t), plans, attempted)
    ensures forall p :: p in plans ==> BackedUp(p.path, p.before) in log + Flat(t)
  {
    hide Kept, Mutated, Flat;
    MutationIsPlanned(hash, plan, expected, after, mode, t, ok);
    MoreKept(hash, log, plans, attempted, plan, Flat(t));
  }

  lemma OthersApplied(hash: Bytes -> string, log: seq<Event>, plans: seq<Plan>, k: nat, t: Trace)
    requires k < |plans| && AllPlanned(hash, log, plans)
    requires Mutated(hash, plans[k].path, plans[k].expected, plans[k].after, plans[k].mode, t, true)
    requires forall m :: 0 <= m < k ==> Applied(log, plans[m])
    ensures forall m :: 0 <= m < k ==> Applied(log + Flat(t), plans[m])
  {
    hide Applied, Planned, Flat;
    forall m | 0 <= m < k ensures Applied(log + Flat(t), plans[m]) {
      AppliedMore(log, plans[m], Flat(t));
    }
  }

  lemma OneMorePlan(hash: Bytes -> string, log: seq<Event>, plans: seq<Plan>, plan: Plan)
    requires AllPlanned(hash, log, plans) && Planned(hash, log, plan) && forall p :: p in plans ==> p.path != plan.path
    ensures AllPlanned(hash, log, plans + [plan])
  {
  }
}
