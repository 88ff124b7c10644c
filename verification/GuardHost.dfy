/** The guard's own code: the files it works on are the fields its methods update. */
module GuardHost {
  import opened Wrappers
  import opened Manifests
  import opened Guard

  class DatabaseGuard {
    const hashing: Hashing
    var dbs: map<string, File>
    var backups: map<string, File>
    var journal: Option<Snapshot>
    var ownerAlive: bool

    ghost function Model(): World
      reads this
    {
      World(dbs, backups, journal, ownerAlive)
    }

    constructor (hashing: Hashing, dbs: map<string, File>)
      ensures this.hashing == hashing && Model() == World(dbs, map[], None, false)
    {
      this.hashing, this.dbs, this.backups, this.journal, this.ownerAlive := hashing, dbs, map[], None, false;
    }

    /** The backups one by one, the journal last. */
    method CleanupSnapshot(life: nat)
      modifies this`backups, this`journal
      ensures Model() == CleanupStep(old(Model()), life)
      ensures journal.None? || journal == old(journal)
    {
      for i := 0 to |PROTECTED|
        invariant backups == Without(old(backups), i) && journal == old(journal) && i <= life
      {
        if life == i { return; }
        backups := backups - {PROTECTED[i]};
      }
      if life > |PROTECTED| { journal := None; }
    }

    /** Forensic copies, verified restore of each database, report, cleanup. */
    method PreserveAndRestore(s: Snapshot, f: Faults, life: nat) returns (outcome: Outcome)
      requires Covers(s)
      modifies this
      ensures (Model(), outcome) == RestoreStep(hashing, old(Model()), s, f, life)
    {
      var left: nat, ok := life, true;
      for i := 0 to |PROTECTED|
        invariant RestoreFrom(hashing, old(Model()), s, f, 0, life, true)
          == RestoreFrom(hashing, Model(), s, f, i, left, ok)
      {
        var name := PROTECTED[i];
        if name !in backups || name in f.preserve { ok := false; }
        if name !in dbs || name in f.preserve { ok := false; }
        if name !in backups || FileManifest(hashing, backups[name]) != Some(s.manifests[name]) {
          ok := false;
          continue;
        }
        if name !in dbs || !dbs[name].restorable {
          ok := false;
          continue;
        }
        if left == 0 {
          dbs := dbs[name := f.partial];
          return Died;
        }
        left := left - 1;
        if name in f.restore {
          dbs := dbs[name := f.partial];
          ok := false;
        } else {
          dbs := dbs[name := RestoredFrom(backups[name])];
        }
      }
      if !ok || f.report { return Refused; }
      CleanupSnapshot(left);
      outcome := if left > |PROTECTED| then Restored else Died;
    }

    method RecoverGuards(f: Faults, life: nat) returns (outcome: Outcome)
      modifies this
      ensures (Model(), outcome) == RecoverStep(hashing, old(Model()), f, life)
    {
      if journal.None? { return Clean; }
      if ownerAlive || !Covers(journal.value) { return Refused; }
      outcome := PreserveAndRestore(journal.value, f, life);
    }

    method IntegrityCheck(f: Faults, life: nat) returns (outcome: Outcome)
      modifies this
      ensures (Model(), outcome) == CheckStep(hashing, old(Model()), f, life)
    {
      if journal.None? || !ownerAlive || !Covers(journal.value) { return Refused; }
      var changed := false;
      for i := 0 to |PROTECTED|
        invariant Model() == old(Model())
        invariant changed <==> exists k | 0 <= k < i :: !Matches(hashing, Model(), journal.value, PROTECTED[k])
      {
        var name := PROTECTED[i];
        if name !in dbs || FileManifest(hashing, dbs[name]) != Some(journal.value.manifests[name]) { changed := true; }
      }
      if !changed {
        CleanupSnapshot(life);
        return if life > |PROTECTED| then Clean else Died;
      }
      outcome := PreserveAndRestore(journal.value, f, life);
    }

    method TakeSnapshot(guard: nat, f: Faults, life: nat, written: bool) returns (outcome: Outcome)
      modifies this
      ensures (Model(), outcome) == SnapshotStep(hashing, old(Model()), guard, f, life, written)
    {
      outcome := RecoverGuards(f, life);
      if outcome.Refused? || outcome.Died? { return; }
      for i := 0 to |PROTECTED|
        invariant (Model(), outcome) == RecoverStep(hashing, old(Model()), f, life)
        invariant forall k | 0 <= k < i :: PROTECTED[k] in dbs && dbs[PROTECTED[k]].content.Some?
      {
        if PROTECTED[i] !in dbs || dbs[PROTECTED[i]].content.None? { return Refused; }
      }
      backups := BackupAll(dbs);
      if !written { return Died; }
      var manifests := map name | name in PROTECTED && name in dbs
          && dbs[name].content.Some? :: ManifestOf(hashing, dbs[name].content.value);
      journal := Some(Snapshot(guard, manifests));
      ownerAlive := true;
      return Clean;
    }
  }
}
