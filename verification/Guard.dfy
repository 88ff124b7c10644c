/** The crash-safe database guard of orchestrator/integrity.py.

    A snapshot backs up the protected databases and writes a journal; the check after the
    untrusted call restores them if a manifest changed; a later process recovers a journal
    whose owner is gone.  `life` is the number of durable actions a process still performs:
    one for each restore, each deleted backup and the deleted journal. */
module Guard {
  import opened Wrappers
  import opened Manifests

  const PROTECTED: seq<string> := ["ledger", "ledgerbook"]

  /** A database file: what reading it yields, if anything, and whether a backup can be restored
      over it.  SQLite restores into a database, damaged or not, and into an empty file, but not
      into a file that is something else, nor into one it cannot write. */
  datatype File = File(content: Option<Database>, restorable: bool)

  const DAMAGED := File(None, true)
  const NOT_A_DATABASE := File(None, false)

  function FileManifest(h: Hashing, f: File): Option<Manifest> {
    if f.content.Some? then Some(ManifestOf(h, f.content.value)) else None
  }

  /** What a restore makes of the file it writes over. */
  function RestoredFrom(backup: File): File { File(backup.content, true) }

  /** The journal: what each protected database was when the guard began. */
  datatype Snapshot = Snapshot(guard: nat, manifests: map<string, Manifest>)

  datatype World = World(dbs: map<string, File>, backups: map<string, File>, journal: Option<Snapshot>,
      ownerAlive: bool)

  /** I/O that fails in one call: forensic copies, restores (leaving `partial` behind), the report. */
  datatype Faults = Faults(preserve: set<string>, restore: set<string>, report: bool, partial: File)

  const NO_FAULTS := Faults({}, {}, false, DAMAGED)

  datatype Outcome = Clean | Restored | Refused | Died

  predicate Covers(s: Snapshot) { forall i | 0 <= i < |PROTECTED| :: PROTECTED[i] in s.manifests }

  /** The database `name` is what the snapshot recorded. */
  predicate Matches(h: Hashing, w: World, s: Snapshot, name: string)
    requires name in s.manifests
  {
    name in w.dbs && FileManifest(h, w.dbs[name]) == Some(s.manifests[name])
  }

  predicate AllMatch(h: Hashing, w: World, s: Snapshot)
    requires Covers(s)
  {
    forall i | 0 <= i < |PROTECTED| :: Matches(h, w, s, PROTECTED[i])
  }

  predicate BackupIntact(h: Hashing, w: World, s: Snapshot, name: string)
    requires name in s.manifests
  {
    name in w.backups && FileManifest(h, w.backups[name]) == Some(s.manifests[name])
  }

  /** The restore of one database gets as far as writing: intact backup, and a file that takes it. */
  predicate CanRestore(h: Hashing, w: World, s: Snapshot, name: string)
    requires name in s.manifests
  {
    BackupIntact(h, w, s, name) && name in w.dbs && w.dbs[name].restorable
  }

  // ---------------------------------------------------------------- step functions

  /** The restore loop from the `i`-th database on: the world, the life left, whether all went well, whether it
      lives. */
  function RestoreFrom(h: Hashing, w: World, s: Snapshot, f: Faults, i: nat, life: nat, ok: bool)
    : (World, nat, bool, bool)
    requires Covers(s)
    decreases |PROTECTED| - i
  {
    if i >= |PROTECTED| then (w, life, ok, true)
    else
      var name := PROTECTED[i];
      var preserved := name in w.backups && name in w.dbs && name !in f.preserve;
      if !CanRestore(h, w, s, name) then RestoreFrom(h, w, s, f, i + 1, life, false)
      else if life == 0 then (w.(dbs := w.dbs[name := f.partial]), 0, false, false)
      else if name in f.restore then RestoreFrom(h, w.(dbs := w.dbs[name := f.partial]), s, f, i + 1, life - 1, false)
      else RestoreFrom(h, w.(dbs := w.dbs[name := RestoredFrom(w.backups[name])]), s, f, i + 1, life - 1, ok
          && preserved)
  }

  function Without(m: map<string, File>, n: nat): map<string, File> {
    if n == 0 || n > |PROTECTED| then m else Without(m, n - 1) - {PROTECTED[n - 1]}
  }

  /** `_cleanup_snapshot`: the backups, then the journal. */
  function CleanupStep(w: World, life: nat): World {
    if life > |PROTECTED| then w.(backups := Without(w.backups, |PROTECTED|), journal := None)
    else w.(backups := Without(w.backups, life))
  }

  function RestoreStep(h: Hashing, w: World, s: Snapshot, f: Faults, life: nat): (World, Outcome)
    requires Covers(s)
  {
    var (w1, l, ok, alive) := RestoreFrom(h, w, s, f, 0, life, true);
    if !alive then (w1, Died)
    else if !ok || f.report then (w1, Refused)
    else (CleanupStep(w1, l), if l > |PROTECTED| then Restored else Died)
  }

  /** `recover_database_mutation_guards`. */
  function RecoverStep(h: Hashing, w: World, f: Faults, life: nat): (World, Outcome) {
    if w.journal.None? then (w, Clean)
    else if w.ownerAlive || !Covers(w.journal.value) then (w, Refused)
    else RestoreStep(h, w, w.journal.value, f, life)
  }

  /** `db_integrity_check` by the owner. */
  function CheckStep(h: Hashing, w: World, f: Faults, life: nat): (World, Outcome) {
    if w.journal.None? || !w.ownerAlive || !Covers(w.journal.value) then (w, Refused)
    else if AllMatch(h, w, w.journal.value) then (CleanupStep(w, life), if life > |PROTECTED| then Clean else Died)
    else RestoreStep(h, w, w.journal.value, f, life)
  }

  function BackupAll(dbs: map<string, File>): map<string, File> {
    map name | name in PROTECTED && name in dbs :: dbs[name]
  }

  /** `db_integrity_snapshot`: recovery, a backup and manifest of each database, the journal. */
  function SnapshotStep(h: Hashing, w: World, guard: nat, f: Faults, life: nat, written: bool): (World, Outcome) {
    var (w1, recovered) := RecoverStep(h, w, f, life);
    if recovered.Refused? || recovered.Died? then (w1, recovered)
    else if exists i | 0 <= i < |PROTECTED| :: PROTECTED[i] !in w1.dbs || w1.dbs[PROTECTED[i]].content.None?
    then (w1, Refused)
    else if !written then (w1.(backups := BackupAll(w1.dbs)), Died)
    else
      var s := Snapshot(guard, map name | name in PROTECTED && name in w1.dbs && w1.dbs[name].content.Some?
                                 :: ManifestOf(h, w1.dbs[name].content.value));
      (w1.(backups := BackupAll(w1.dbs), journal := Some(s), ownerAlive := true), Clean)
  }

  // ---------------------------------------------------------------- the journal outlives the damage

  lemma RestoreEffect(h: Hashing, w: World, s: Snapshot, f: Faults, life: nat)
    requires Covers(s)
    ensures var (w', outcome) := RestoreStep(h, w, s, f, life);
            && (w'.journal == w.journal || (w'.journal.None? && AllMatch(h, w', s)))
            && (outcome.Restored? ==> w'.journal.None? && AllMatch(h, w', s)) && !outcome.Clean?
  {
  }

  /** What can happen to the protected state, the untrusted worker included. */
  datatype Event =
    | TakeSnapshot(guard: nat, f: Faults, life: nat, written: bool)
    | Check(f: Faults, life: nat)
    | Recover(f: Faults, life: nat)
    | Worker(dbs: map<string, File>, backups: map<string, File>)   // any content, also of the backups
    | OwnerDies

  function Step(h: Hashing, w: World, e: Event): World {
    match e
    case TakeSnapshot(guard, f, life, written) => SnapshotStep(h, w, guard, f, life, written).0
    case Check(f, life) => CheckStep(h, w, f, life).0
    case Recover(f, life) => RecoverStep(h, w, f, life).0
    case Worker(dbs, backups) => w.(dbs := dbs, backups := backups)
    case OwnerDies => w.(ownerAlive := false)
  }

  ghost predicate JournalCovers(w: World) { w.journal.Some? ==> Covers(w.journal.value) }

  /** One event: a journal goes away only when every protected database matches it. */
  lemma JournalOutlivesDamage(h: Hashing, w: World, e: Event)
    requires JournalCovers(w)
    ensures JournalCovers(Step(h, w, e))
    ensures w.journal.Some? && Step(h, w, e).journal != w.journal ==> AllMatch(h, Step(h, w, e), w.journal.value)
  {
    match e
    case TakeSnapshot(guard, f, life, written) =>
      if w.journal.Some? { RestoreEffect(h, w, w.journal.value, f, life); }
    case Check(f, life) =>
      if w.journal.Some? { RestoreEffect(h, w, w.journal.value, f, life); }
    case Recover(f, life) =>
      if w.journal.Some? { RestoreEffect(h, w, w.journal.value, f, life); }
    case _ =>
  }

  /** The world after each event of a run. */
  function RunFrom(h: Hashing, w: World, es: seq<Event>, n: nat): World
    requires n <= |es|
  {
    if n == 0 then w else Step(h, RunFrom(h, w, es, n - 1), es[n - 1])
  }

  lemma {:induction false} RunCovers(h: Hashing, w: World, es: seq<Event>, n: nat)
    requires n <= |es| && JournalCovers(w)
    ensures JournalCovers(RunFrom(h, w, es, n))
  {
    if n > 0 {
      RunCovers(h, w, es, n - 1);
      JournalOutlivesDamage(h, RunFrom(h, w, es, n - 1), es[n - 1]);
    }
  }

  /** Guard crash safety over every run of snapshots, checks, recoveries, crashes anywhere in
      them and arbitrary mutation: between writing a journal and its disappearance there is a
      moment at which every protected database had exactly the recorded content. */
  lemma {:induction false} GuardCrashSafety(h: Hashing, w: World, es: seq<Event>, i: nat, j: nat) returns (k: nat)
    requires CollisionFree(h) && JournalCovers(w) && i < j <= |es|
    requires RunFrom(h, w, es, i).journal.Some? && RunFrom(h, w, es, j).journal != RunFrom(h, w, es, i).journal
    ensures i < k <= j && JournalCovers(RunFrom(h, w, es, i))
    ensures AllMatch(h, RunFrom(h, w, es, k), RunFrom(h, w, es, i).journal.value)
    ensures forall m | i <= m < k :: RunFrom(h, w, es, m).journal == RunFrom(h, w, es, i).journal
    decreases j
  {
    hide Step, AllMatch;
    RunCovers(h, w, es, i);
    if forall m | i <= m < j :: RunFrom(h, w, es, m).journal == RunFrom(h, w, es, i).journal {
      k := j;
      assert RunFrom(h, w, es, j - 1).journal == RunFrom(h, w, es, i).journal;
      JournalOutlivesDamage(h, RunFrom(h, w, es, j - 1), es[j - 1]);
    } else {
      var m :| i <= m < j && RunFrom(h, w, es, m).journal != RunFrom(h, w, es, i).journal;
      k := GuardCrashSafety(h, w, es, i, m);
    }
  }

  /** A matching database has the schema, pragmas and row multisets of the one backed up. */
  lemma MatchingMeansSameContent(h: Hashing, w: World, s: Snapshot, name: string, original: Database)
    requires CollisionFree(h) && name in s.manifests && s.manifests[name] == ManifestOf(h, original)
    ensures Matches(h, w, s, name) <==>
            name in w.dbs && w.dbs[name].content.Some? && SameContent(w.dbs[name].content.value, original)
  {
    if name in w.dbs && w.dbs[name].content.Some? { ManifestExact(h, w.dbs[name].content.value, original); }
  }

  // ---------------------------------------------------------------- when recovery succeeds

  ghost predicate Recoverable(h: Hashing, w: World, s: Snapshot)
    requires Covers(s)
  {
    forall i | 0 <= i < |PROTECTED| :: CanRestore(h, w, s, PROTECTED[i])
  }

  /** No forensic copy, no restore and no report fails. */
  ghost predicate Smooth(f: Faults) {
    !f.report && forall i | 0 <= i < |PROTECTED| :: PROTECTED[i] !in f.preserve && PROTECTED[i] !in f.restore
  }

  /** What a restore that is not cut short comes to.  It succeeds if and only if every backup still
      has its manifest, every database file exists and is one that a backup can be restored over,
      and no copy, restore or report fails; it then closes the journal with everything matching.
      Otherwise it refuses and keeps the journal.  A file that can be restored is restored even
      so, unless its own restore fails, and no other file is touched. */
  ghost predicate RestoreOutcome(h: Hashing, w: World, f: Faults, w': World, outcome: Outcome)
    requires w.journal.Some? && Covers(w.journal.value)
  {
    var s := w.journal.value;
    && (outcome.Restored? <==> Recoverable(h, w, s) && Smooth(f))
    && (outcome.Restored? ==> w'.journal.None? && AllMatch(h, w', s))
    && (!outcome.Restored? ==> outcome.Refused? && w'.journal == w.journal && w'.backups == w.backups)
    && w'.dbs.Keys == w.dbs.Keys
    && (forall i | 0 <= i < |PROTECTED| && CanRestore(h, w, s, PROTECTED[i]) ::
          w'.dbs[PROTECTED[i]] == if PROTECTED[i] in f.restore then f.partial
                                  else File(w.backups[PROTECTED[i]].content, true))
    && (forall name | name in w.dbs && !(name in PROTECTED && CanRestore(h, w, s, name)) ::
          w'.dbs[name] == w.dbs[name])
  }

  /** The file a restore leaves. */
  function Written(w: World, f: Faults, name: string): File
    requires name in w.backups
  {
    if name in f.restore then f.partial else File(w.backups[name].content, true)
  }

  /** What the loop makes of the files from the `i`-th on. */
  ghost predicate FilesFrom(h: Hashing, w: World, s: Snapshot, f: Faults, i: nat, w': World)
    requires Covers(s)
  {
    && w'.dbs.Keys == w.dbs.Keys && w'.backups == w.backups && w'.journal == w.journal
    && (forall k | 0 <= k < |PROTECTED| && CanRestore(h, w, s, PROTECTED[k]) ::
          w'.dbs[PROTECTED[k]] == if k >= i then Written(w, f, PROTECTED[k]) else w.dbs[PROTECTED[k]])
    && (forall name | name in w.dbs && !(name in PROTECTED && CanRestore(h, w, s, name)) ::
          w'.dbs[name] == w.dbs[name])
  }

  predicate GoesWell(h: Hashing, w: World, s: Snapshot, f: Faults, i: nat)
    requires Covers(s)
  {
    forall k | i <= k < |PROTECTED| ::
      CanRestore(h, w, s, PROTECTED[k]) && PROTECTED[k] !in f.preserve && PROTECTED[k] !in f.restore
  }

  /** Writing over one database does not matter to the others. */
  lemma OthersRestorable(h: Hashing, w: World, s: Snapshot, f: Faults, i: nat, w1: World)
    requires Covers(s) && i < |PROTECTED|
    requires w1 == if CanRestore(h, w, s, PROTECTED[i])
      then w.(dbs := w.dbs[PROTECTED[i] := Written(w, f, PROTECTED[i])])
                   else w
    ensures forall k | 0 <= k < |PROTECTED| && k != i ::
              CanRestore(h, w1, s, PROTECTED[k]) <==> CanRestore(h, w, s, PROTECTED[k])
    ensures GoesWell(h, w1, s, f, i + 1) <==> GoesWell(h, w, s, f, i + 1)
  {
  }

  lemma {:induction false} RestoreFromExact(h: Hashing, w: World, s: Snapshot, f: Faults, i: nat, life: nat, ok: bool)
    returns (w': World, l: nat)
    requires Covers(s) && i <= |PROTECTED| && life > 2 * |PROTECTED| - i
    ensures RestoreFrom(h, w, s, f, i, life, ok) == (w', l, ok && GoesWell(h, w, s, f, i), true) && l > |PROTECTED|
    ensures FilesFrom(h, w, s, f, i, w')
    decreases |PROTECTED| - i
  {
    w', l := w, life;
    if i < |PROTECTED| {
      var name := PROTECTED[i];
      var w1 := if CanRestore(h, w, s, name) then w.(dbs := w.dbs[name := Written(w, f, name)]) else w;
      var ok1 := ok && CanRestore(h, w, s, name) && name !in f.preserve && name !in f.restore;
      var life1 := if CanRestore(h, w, s, name) then life - 1 else life;
      OthersRestorable(h, w, s, f, i, w1);
      assert RestoreFrom(h, w, s, f, i, life, ok) == RestoreFrom(h, w1, s, f, i + 1, life1, ok1);
      hide RestoreFrom;
      w', l := RestoreFromExact(h, w1, s, f, i + 1, life1, ok1);
    }
  }

  lemma RestoreExact(h: Hashing, w: World, f: Faults, life: nat)
    requires w.journal.Some? && Covers(w.journal.value) && life > 2 * |PROTECTED|
    ensures var (w', outcome) := RestoreStep(h, w, w.journal.value, f, life); RestoreOutcome(h, w, f, w', outcome)
  {
    var s := w.journal.value;
    RestoreEffect(h, w, s, f, life);
    var w', l := RestoreFromExact(h, w, s, f, 0, life, true);
    hide RestoreFrom, AllMatch, CanRestore, FileManifest;
  }

  /** Success is reported exactly when the journal was closed, whatever fails and whenever the process
      dies; and recovery is clean exactly when there was nothing to recover. */
  lemma SuccessClosesTheJournal(h: Hashing, w: World, f: Faults, life: nat)
    ensures var (w', outcome) := CheckStep(h, w, f, life);
            && (outcome.Clean? || outcome.Restored? <==> w.journal.Some? && w'.journal.None?)
            && (outcome.Clean? ==> Covers(w.journal.value) && AllMatch(h, w, w.journal.value) && w'.dbs == w.dbs)
    ensures var (w', outcome) := RecoverStep(h, w, f, life);
            && (outcome.Restored? <==> w.journal.Some? && w'.journal.None?) && (outcome.Clean? <==> w.journal.None?)
  {
    if w.journal.Some? && Covers(w.journal.value) {
      RestoreEffect(h, w, w.journal.value, f, life);
      RestoreFromCloses(h, w, w.journal.value, f, 0, life, true);
    }
    hide RestoreFrom, AllMatch;
  }

  /** The world after one round of the restore loop that had the life it needed. */
  function RoundWorld(h: Hashing, w: World, s: Snapshot, f: Faults, name: string): World
    requires name in s.manifests
  {
    if !CanRestore(h, w, s, name) then w
    else w.(dbs := w.dbs[name := if name in f.restore then f.partial else RestoredFrom(w.backups[name])])
  }

  predicate RoundOk(h: Hashing, w: World, s: Snapshot, f: Faults, name: string)
    requires name in s.manifests
  {
    CanRestore(h, w, s, name) && name !in f.restore && name !in f.preserve
  }

  lemma RestoreNext(h: Hashing, w: World, s: Snapshot, f: Faults, i: nat, life: nat, ok: bool)
    requires Covers(s) && i < |PROTECTED|
    ensures var name := PROTECTED[i];
            var cost := if CanRestore(h, w, s, name) then 1 else 0;
            if life < cost then
              !RestoreFrom(h, w, s, f, i, life, ok).3 && RestoreFrom(h, w, s, f, i, life, ok).0.journal == w.journal
            else
              RestoreFrom(h, w, s, f, i, life, ok)
              == RestoreFrom(h, RoundWorld(h, w, s, f, name), s, f, i + 1, life - cost, ok && RoundOk(h, w, s, f, name))
  {
    hide FileManifest;
  }

  lemma RestoreEnd(h: Hashing, w: World, s: Snapshot, f: Faults, i: nat, life: nat, ok: bool)
    requires Covers(s) && i >= |PROTECTED|
    ensures RestoreFrom(h, w, s, f, i, life, ok) == (w, life, ok, true)
  {
  }

  lemma {:induction false} RestoreFromCloses(h: Hashing, w: World, s: Snapshot, f: Faults, i: nat, life: nat, ok: bool)
    requires Covers(s)
    ensures RestoreFrom(h, w, s, f, i, life, ok).0.journal == w.journal
    decreases |PROTECTED| - i
  {
    if i < |PROTECTED| {
      var name := PROTECTED[i];
      RestoreNext(h, w, s, f, i, life, ok);
      hide RestoreFrom, CanRestore, RoundOk;
      if life >= if CanRestore(h, w, s, name) then 1 else 0 {
        RestoreFromCloses(h, RoundWorld(h, w, s, f, name), s, f, i + 1,
            life - if CanRestore(h, w, s, name) then 1 else 0, ok && RoundOk(h, w, s, f, name));
      }
    }
  }

  /** The same end of a loop, with more life left. */
  ghost predicate Longer(a: (World, nat, bool, bool), b: (World, nat, bool, bool), more: nat) {
    a.0 == b.0 && a.1 + more == b.1 && a.2 == b.2 && a.3 == b.3
  }

  lemma {:induction false} MoreLife(h: Hashing, w: World, s: Snapshot, f: Faults, i: nat, life: nat, ok: bool,
      more: nat)
    requires Covers(s)
    ensures RestoreFrom(h, w, s, f, i, life, ok).3 ==>
            Longer(RestoreFrom(h, w, s, f, i, life, ok), RestoreFrom(h, w, s, f, i, life + more, ok), more)
    decreases |PROTECTED| - i
  {
    hide RestoreFrom, CanRestore, RoundOk, RoundWorld;
    if i >= |PROTECTED| {
      RestoreEnd(h, w, s, f, i, life, ok);
      RestoreEnd(h, w, s, f, i, life + more, ok);
    } else {
      var name := PROTECTED[i];
      RestoreNext(h, w, s, f, i, life, ok);
      RestoreNext(h, w, s, f, i, life + more, ok);
      var cost := if CanRestore(h, w, s, name) then 1 else 0;
      if life >= cost {
        assert life + more - cost == life - cost + more;
        MoreLife(h, RoundWorld(h, w, s, f, name), s, f, i + 1, life - cost, ok && RoundOk(h, w, s, f, name), more);
      }
    }
  }

  /** A refusal is no crash: whatever more of its life the process had had, it would have refused
      and left the same behind.  A process dies only for want of the actions a restore takes. */
  lemma RefusalIsFinal(h: Hashing, w: World, f: Faults, life: nat, more: nat)
    ensures CheckStep(h, w, f, life).1.Refused? ==> CheckStep(h, w, f, life + more) == CheckStep(h, w, f, life)
    ensures RecoverStep(h, w, f, life).1.Refused? ==> RecoverStep(h, w, f, life + more) == RecoverStep(h, w, f, life)
    ensures life > 2 * |PROTECTED| ==> !CheckStep(h, w, f, life).1.Died? && !RecoverStep(h, w, f, life).1.Died?
  {
    if w.journal.Some? && Covers(w.journal.value) {
      MoreLife(h, w, w.journal.value, f, 0, life, true, more);
      if life > 2 * |PROTECTED| { RestoreExact(h, w, f, life); }
    }
    hide RestoreFrom, AllMatch;
  }

  /** Recovery of an orphaned journal, exactly. */
  lemma RecoveryExact(h: Hashing, w: World, f: Faults, life: nat)
    requires w.journal.Some? && Covers(w.journal.value) && !w.ownerAlive && life > 2 * |PROTECTED|
    ensures var (w', outcome) := RecoverStep(h, w, f, life); RestoreOutcome(h, w, f, w', outcome)
  {
    RestoreExact(h, w, f, life);
  }

  /** The owner's check, exactly: clean when everything matches, no database being touched and the
      journal closed; otherwise the same restore as in recovery. */
  lemma CheckExact(h: Hashing, w: World, f: Faults, life: nat)
    requires w.journal.Some? && Covers(w.journal.value) && w.ownerAlive && life > 2 * |PROTECTED|
    ensures var (w', outcome) := CheckStep(h, w, f, life);
            if AllMatch(h, w, w.journal.value) then outcome.Clean? && w'.dbs == w.dbs && w'.journal.None?
            else RestoreOutcome(h, w, f, w', outcome)
  {
    RestoreExact(h, w, f, life);
  }

  /** A snapshot on top of no journal, exactly: it is taken if and only if every database can be
      read, and then records each one's manifest and backs up its file; otherwise nothing happens.
      While another guard's owner lives, or a journal is unreadable, it is refused.  A process that
      dies before the journal is written leaves the backups. */
  lemma SnapshotExact(h: Hashing, w: World, guard: nat, f: Faults, life: nat)
    ensures var (w', outcome) := SnapshotStep(h, w, guard, f, life, true);
            var readable := forall i | 0 <= i < |PROTECTED| ::
                              PROTECTED[i] in w.dbs && w.dbs[PROTECTED[i]].content.Some?;
            && (w.journal.None? ==> (outcome.Clean? <==> readable) && w'.dbs == w.dbs)
            && (w.journal.None? && readable ==>
                  && w'.journal.Some? && w'.journal.value.guard == guard && w'.ownerAlive
                  && w'.journal.value.manifests.Keys == (set name | name in PROTECTED)
                  && forall i | 0 <= i < |PROTECTED| ::
                       && w'.journal.value.manifests[PROTECTED[i]] == ManifestOf(h, w.dbs[PROTECTED[i]].content.value)
                       && PROTECTED[i] in w'.backups && w'.backups[PROTECTED[i]] == w.dbs[PROTECTED[i]])
            && (w.journal.None? && !readable ==> outcome.Refused? && w' == w)
            && (w.journal.Some? && (w.ownerAlive || !Covers(w.journal.value)) ==> outcome.Refused? && w' == w)
    ensures var (w', outcome) := SnapshotStep(h, w, guard, f, life, false);
            w.journal.None? && outcome.Died? ==>
              && w'.journal.None? && w'.dbs == w.dbs
              && forall i | 0 <= i < |PROTECTED| ::
                   PROTECTED[i] in w'.backups && w'.backups[PROTECTED[i]] == w.dbs[PROTECTED[i]]
  {
    var readable := forall i | 0 <= i < |PROTECTED| :: PROTECTED[i] in w.dbs && w.dbs[PROTECTED[i]].content.Some?;
    if w.journal.None? && readable {
      var w' := SnapshotStep(h, w, guard, f, life, true).0;
      forall name | name in PROTECTED ensures name in w'.journal.value.manifests {
        var i :| 0 <= i < |PROTECTED| && PROTECTED[i] == name;
      }
    }
  }

  /** What the restore loop leaves of each file: untouched, the partial file, or restored. */
  ghost predicate LeftAs(f: Faults, before: map<string, File>, after: map<string, File>) {
    && after.Keys == before.Keys
    && forall name | name in before :: after[name] == before[name] || after[name] == f.partial || after[name].restorable
  }

  lemma LeftAsIs(f: Faults, dbs: map<string, File>)
    ensures LeftAs(f, dbs, dbs)
  {
  }

  lemma LeftAsAfter(f: Faults, before: map<string, File>, name: string, x: File, after: map<string, File>)
    requires name in before && (x == f.partial || x.restorable) && LeftAs(f, before[name := x], after)
    ensures LeftAs(f, before, after)
  {
  }

  lemma {:induction false} RestoreLeaves(h: Hashing, w: World, s: Snapshot, f: Faults, i: nat, life: nat, ok: bool)
    requires Covers(s) && i <= |PROTECTED|
    ensures LeftAs(f, w.dbs, RestoreFrom(h, w, s, f, i, life, ok).0.dbs)
    decreases |PROTECTED| - i
  {
    if i < |PROTECTED| {
      hide FileManifest, LeftAs;
      var name, after := PROTECTED[i], RestoreFrom(h, w, s, f, i, life, ok).0.dbs;
      if !CanRestore(h, w, s, name) {
        RestoreLeaves(h, w, s, f, i + 1, life, false);
      } else if life == 0 {
        LeftAsIs(f, w.dbs[name := f.partial]);
        LeftAsAfter(f, w.dbs, name, f.partial, after);
      } else if name in f.restore {
        RestoreLeaves(h, w.(dbs := w.dbs[name := f.partial]), s, f, i + 1, life - 1, false);
        LeftAsAfter(f, w.dbs, name, f.partial, after);
      } else {
        var preserved := name in w.backups && name in w.dbs && name !in f.preserve;
        RestoreLeaves(h, w.(dbs := w.dbs[name := RestoredFrom(w.backups[name])]), s, f, i + 1, life - 1, ok
            && preserved);
        LeftAsAfter(f, w.dbs, name, RestoredFrom(w.backups[name]), after);
      }
    } else {
      LeftAsIs(f, w.dbs);
    }
  }

  /** A recovery interrupted anywhere, mid-restore included, leaves matching databases, or its
      journal, which the next recovery can use exactly if every file can still be restored over.
      SQLite restores in one transaction; a partial file that it can reopen never spoils that. */
  lemma InterruptedRecoveryIsHarmless(h: Hashing, w: World, f: Faults, life: nat)
    requires w.journal.Some? && Covers(w.journal.value) && !w.ownerAlive && Recoverable(h, w, w.journal.value)
    ensures var w' := RecoverStep(h, w, f, life).0;
            AllMatch(h, w', w.journal.value)
            || (w'.journal == w.journal && !w'.ownerAlive && w'.dbs.Keys == w.dbs.Keys
                && (Recoverable(h, w', w.journal.value) <==>
                    forall i | 0 <= i < |PROTECTED| && PROTECTED[i] in w'.dbs :: w'.dbs[PROTECTED[i]].restorable)
                && (f.partial.restorable ==> Recoverable(h, w', w.journal.value)))
  {
    var s := w.journal.value;
    RestoreLeaves(h, w, s, f, 0, life, true);
    var (w1, l, ok, alive) := RestoreFrom(h, w, s, f, 0, life, true);
    if !(alive && ok && !f.report) {
      forall i | 0 <= i < |PROTECTED|
        ensures PROTECTED[i] in w1.dbs && BackupIntact(h, w1, s, PROTECTED[i])
          && (f.partial.restorable ==> w1.dbs[PROTECTED[i]].restorable)
      {
        assert CanRestore(h, w, s, PROTECTED[i]);
      }
    }
  }

  ghost predicate HasContentOf(w: World, original: World, name: string) {
    && name in original.dbs && original.dbs[name].content.Some?
    && name in w.dbs && w.dbs[name].content.Some?
    && SameContent(w.dbs[name].content.value, original.dbs[name].content.value)
  }

  /** The world in which a worker ran between a snapshot and whoever looks at its journal next. */
  function Worked(h: Hashing, w: World, guard: nat, f: Faults, dbs: map<string, File>, life: nat): World {
    var w1 := Step(h, w, TakeSnapshot(guard, f, life, true));
    Step(h, w1, Worker(dbs, w1.backups))
  }

  lemma WorkedIsCovered(h: Hashing, w: World, guard: nat, f: Faults, dbs: map<string, File>, life: nat)
    requires w.journal.None? && SnapshotStep(h, w, guard, f, life, true).1.Clean?
    ensures var w2 := Worked(h, w, guard, f, dbs, life);
            && w2.journal.Some? && Covers(w2.journal.value) && w2.ownerAlive && w2.dbs == dbs
            && (forall name | name in PROTECTED ::
                  && name in w.dbs && w.dbs[name].content.Some?
                  && w2.journal.value.manifests[name] == ManifestOf(h, w.dbs[name].content.value))
            && (Recoverable(h, w2, w2.journal.value) <==>
                  forall name | name in PROTECTED :: name in dbs && dbs[name].restorable)
  {
    var w2 := Worked(h, w, guard, f, dbs, life);
    var s := w2.journal.value;
    forall name | name in PROTECTED
      ensures name in w.dbs && w.dbs[name].content.Some? && name in s.manifests && BackupIntact(h, w2, s, name)
    {
      var i :| 0 <= i < |PROTECTED| && PROTECTED[i] == name;
      assert PROTECTED[i] in w.dbs && w.dbs[PROTECTED[i]].content.Some?;
    }
    assert forall i | 0 <= i < |PROTECTED| :: PROTECTED[i] in PROTECTED;
  }

  lemma MatchingGivesContentBack(h: Hashing, w: World, w': World, s: Snapshot)
    requires CollisionFree(h) && Covers(s) && AllMatch(h, w', s)
    requires forall name | name in PROTECTED ::
               && name in w.dbs && w.dbs[name].content.Some?
               && s.manifests[name] == ManifestOf(h, w.dbs[name].content.value)
    ensures forall name | name in PROTECTED :: HasContentOf(w', w, name)
  {
    forall name | name in PROTECTED ensures HasContentOf(w', w, name) {
      var i :| 0 <= i < |PROTECTED| && PROTECTED[i] == name;
      assert Matches(h, w', s, PROTECTED[i]);
      MatchingMeansSameContent(h, w', s, name, w.dbs[name].content.value);
    }
  }

  /** Mutation is undone, exactly: whatever a worker left in the protected files, after its owner
      dies one undisturbed recovery gives every database back the content of the snapshot and
      closes the journal if and only if every file still exists and can be restored over. */
  lemma MutationIsUndone(h: Hashing, w: World, guard: nat, f: Faults, dbs: map<string, File>, life: nat)
    requires CollisionFree(h) && w.journal.None? && life > 2 * |PROTECTED|
    requires SnapshotStep(h, w, guard, f, life, true).1.Clean?
    ensures var w2 := Step(h, Worked(h, w, guard, f, dbs, life), OwnerDies);
            var w3 := Step(h, w2, Recover(NO_FAULTS, life));
            && (w3.journal.None? <==> forall name | name in PROTECTED :: name in dbs && dbs[name].restorable)
            && (w3.journal.None? ==> forall name | name in PROTECTED :: HasContentOf(w3, w, name))
            && (w3.journal.Some? ==> w3.journal == w2.journal)
  {
    var w2 := Step(h, Worked(h, w, guard, f, dbs, life), OwnerDies);
    WorkedIsCovered(h, w, guard, f, dbs, life);
    RecoveryExact(h, w2, NO_FAULTS, life);
    var w3 := Step(h, w2, Recover(NO_FAULTS, life));
    hide SnapshotStep, RecoverStep, HasContentOf;
    if w3.journal.None? { MatchingGivesContentBack(h, w, w3, w2.journal.value); }
  }

  /** The same through the owner's own check, which lets databases stay that were not changed: it
      closes the journal, every database having the content of the snapshot, if and only if nothing
      differs or every file can be restored over. */
  lemma OwnerUndoesMutation(h: Hashing, w: World, guard: nat, f: Faults, dbs: map<string, File>, life: nat)
    requires CollisionFree(h) && w.journal.None? && life > 2 * |PROTECTED|
    requires SnapshotStep(h, w, guard, f, life, true).1.Clean?
    ensures var w2 := Worked(h, w, guard, f, dbs, life);
            var w3 := Step(h, w2, Check(NO_FAULTS, life));
            && (w3.journal.None? <==>
                  (forall name | name in PROTECTED :: HasContentOf(w2, w, name))
                  || forall name | name in PROTECTED :: name in dbs && dbs[name].restorable)
            && (w3.journal.None? ==> forall name | name in PROTECTED :: HasContentOf(w3, w, name))
            && (w3.journal.Some? ==> w3.journal == w2.journal)
  {
    var w2 := Worked(h, w, guard, f, dbs, life);
    WorkedIsCovered(h, w, guard, f, dbs, life);
    CheckExact(h, w2, NO_FAULTS, life);
    var w3, s := Step(h, w2, Check(NO_FAULTS, life)), w2.journal.value;
    hide SnapshotStep, CheckStep, Worked;
    if w3.journal.None? { MatchingGivesContentBack(h, w, w3, s); }
    if AllMatch(h, w2, s) { MatchingGivesContentBack(h, w, w2, s); }
    if forall name | name in PROTECTED :: HasContentOf(w2, w, name) {
      forall i | 0 <= i < |PROTECTED| ensures Matches(h, w2, s, PROTECTED[i]) {
        assert HasContentOf(w2, w, PROTECTED[i]);
        MatchingMeansSameContent(h, w2, s, PROTECTED[i], w.dbs[PROTECTED[i]].content.value);
      }
    }
  }

  /** A worker that overwrites a protected database with something that is no database defeats
      the guard: neither its owner's check nor any number of recoveries, however they are
      disturbed, restores that file or closes the journal. */
  lemma {:induction false} GarbageNeedsTheOperator(h: Hashing, w: World, es: seq<Event>, n: nat, m: nat)
    requires w.journal.Some? && Covers(w.journal.value) && n <= |es| && m < |PROTECTED|
    requires PROTECTED[m] in w.dbs && w.dbs[PROTECTED[m]] == NOT_A_DATABASE
    requires forall e | e in es :: !e.Worker?
    ensures var w' := RunFrom(h, w, es, n);
            w'.journal == w.journal && PROTECTED[m] in w'.dbs && w'.dbs[PROTECTED[m]] == NOT_A_DATABASE
  {
    hide Step;
    if n > 0 {
      GarbageNeedsTheOperator(h, w, es, n - 1, m);
      assert !es[n - 1].Worker?;
      GarbageStays(h, RunFrom(h, w, es, n - 1), es[n - 1], m);
    }
  }

  lemma GarbageStays(h: Hashing, w: World, e: Event, m: nat)
    requires w.journal.Some? && Covers(w.journal.value) && m < |PROTECTED| && !e.Worker?
    requires PROTECTED[m] in w.dbs && w.dbs[PROTECTED[m]] == NOT_A_DATABASE
    ensures var w' := Step(h, w, e);
            w'.journal == w.journal && PROTECTED[m] in w'.dbs && w'.dbs[PROTECTED[m]] == NOT_A_DATABASE
  {
    var s := w.journal.value;
    assert !Matches(h, w, s, PROTECTED[m]);
  }

  /** A crash inside the cleanup, after the first backup is gone, leaves a journal that no
      later recovery can close, although the databases were intact: the guard fails closed. */
  lemma CleanupCrashNeedsTheOperator(h: Hashing, w: World, f: Faults, life: nat, f': Faults, life': nat)
    requires w.journal.Some? && Covers(w.journal.value) && w.ownerAlive && AllMatch(h, w, w.journal.value)
    requires 0 < life <= |PROTECTED|
    ensures var w1 := Step(h, Step(h, w, Check(f, life)), OwnerDies);
            w1.dbs == w.dbs && w1.journal == w.journal && Step(h, w1, Recover(f', life')).journal == w.journal
  {
    var w1 := Step(h, Step(h, w, Check(f, life)), OwnerDies);
  }
}
