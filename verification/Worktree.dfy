/** Ownership of implementation tasks in orchestrator/task_worktree.py: claims and releases of
    several processes, interleaved step by step, over one registry file and one Git repository. */
module Worktree {
  import opened Wrappers

  type Hash = string
  type Pid = nat

  /** A registry may name a task as text or as a number; anything else names no task here. */
  datatype TaskRef = Text(n: int) | Number(m: int) | OtherRef

  datatype Status = InProgress | ActiveStatus | OtherStatus

  datatype Entry = Entry(agent: string, task: TaskRef, paths: set<string>, status: Status)

  datatype Registry = Registry(entries: seq<Entry>, stamp: nat)

  datatype Claim = Claim(task: int, agent: string, paths: set<string>)

  function TaskOf(e: Entry): Option<int> {
    match e.task case Text(n) => Some(n) case Number(n) => Some(n) case OtherRef => None
  }

  predicate Active(e: Entry) { e.status.InProgress? || e.status.ActiveStatus? }

  predicate Clashes(e: Entry, c: Claim) {
    Active(e) && (TaskOf(e) == Some(c.task) || e.paths * c.paths != {})
  }

  function EntryOf(c: Claim): Entry { Entry(c.agent, Text(c.task), c.paths, InProgress) }

  predicate Matches(e: Entry, task: int, agent: string) { TaskOf(e) == Some(task) && e.agent == agent }

  predicate HasConflict(entries: seq<Entry>, c: Claim) { exists e :: e in entries && Clashes(e, c) }

  function CountMatches(entries: seq<Entry>, task: int, agent: string): nat {
    if entries == [] then 0
    else
      var e := entries[|entries| - 1];
      CountMatches(entries[..|entries| - 1], task, agent) + if Matches(e, task, agent) && e.status.InProgress? then 1
          else 0
  }

  function Without(entries: seq<Entry>, task: int, agent: string): seq<Entry> {
    if entries == [] then []
    else
      var rest, e := Without(entries[..|entries| - 1], task, agent), entries[|entries| - 1];
      if Matches(e, task, agent) then rest else rest + [e]
  }

  // ---------------------------------------------------------------- what ownership means

  /** Two entries that are both active neither share a task nor a path. */
  ghost predicate Apart(a: Entry, b: Entry) {
    Active(a) && Active(b) ==> (TaskOf(a).None? || TaskOf(a) != TaskOf(b)) && a.paths * b.paths == {}
  }

  ghost predicate ApartFrom(front: seq<Entry>, last: Entry) { forall e | e in front :: Apart(e, last) }

  ghost predicate Exclusive(entries: seq<Entry>) {
    entries == [] ||
    (Exclusive(entries[..|entries| - 1]) && ApartFrom(entries[..|entries| - 1], entries[|entries| - 1]))
  }

  lemma {:induction false} ExclusiveAt(entries: seq<Entry>, i: nat, j: nat)
    requires Exclusive(entries) && i < j < |entries|
    ensures Apart(entries[i], entries[j])
  {
    if j < |entries| - 1 {
      ExclusiveAt(entries[..|entries| - 1], i, j);
    } else {
      assert entries[i] in entries[..|entries| - 1];
    }
  }

  lemma {:induction false} WithoutHolds(entries: seq<Entry>, task: int, agent: string)
    ensures forall e :: e in Without(entries, task, agent) <==> e in entries && !Matches(e, task, agent)
  {
    if entries != [] {
      WithoutHolds(entries[..|entries| - 1], task, agent);
      assert entries == entries[..|entries| - 1] + [entries[|entries| - 1]];
    }
  }

  lemma {:induction false} WithoutIsExclusive(entries: seq<Entry>, task: int, agent: string)
    requires Exclusive(entries)
    ensures Exclusive(Without(entries, task, agent))
  {
    if entries != [] {
      var front, e := entries[..|entries| - 1], entries[|entries| - 1];
      WithoutIsExclusive(front, task, agent);
      WithoutHolds(front, task, agent);
      var rest := Without(front, task, agent);
      assert (rest + [e])[..|rest + [e]| - 1] == rest;
    }
  }

  lemma {:induction false} MatchExists(entries: seq<Entry>, task: int, agent: string)
    requires CountMatches(entries, task, agent) > 0
    ensures exists e :: e in entries && Matches(e, task, agent) && e.status.InProgress?
  {
    var front, e := entries[..|entries| - 1], entries[|entries| - 1];
    if Matches(e, task, agent) && e.status.InProgress? {
      assert e in entries;
    } else {
      MatchExists(front, task, agent);
      var x :| x in front && Matches(x, task, agent) && x.status.InProgress?;
      assert x in entries;
    }
  }

  /** In an exclusive registry an active task has one entry. */
  lemma {:induction false} OneActiveEntry(entries: seq<Entry>, a: Entry, b: Entry)
    requires Exclusive(entries) && a in entries && b in entries && Active(a) && Active(b)
    requires TaskOf(a).Some? && TaskOf(a) == TaskOf(b)
    ensures a == b
  {
    var front, e := entries[..|entries| - 1], entries[|entries| - 1];
    assert entries == front + [e];
    if a in front && b in front { OneActiveEntry(front, a, b); }
  }

  // ---------------------------------------------------------------- one process

  /** Where a process stands: what it has read, and what it has done so far. */
  datatype Pc =
    | Idle
    | Checked(c: Claim, before: Registry)        // no conflict in what was read
    | Added(c: Claim, before: Registry)          // branch and worktree exist
    | Locked(c: Claim, before: Registry)         // holds the registry lock
    | Compared(c: Claim, raw: Registry)          // holds the lock; the preimage is unchanged
    | Written(task: int)                         // holds the lock; the claim is recorded
    | RollingBack(task: int, stuck: bool)        // about to remove its worktree
    | ReleaseChecked(task: int, agent: string, before: Registry)
    | ReleaseLocked(task: int, agent: string, before: Registry)
    | ReleaseMerged(task: int, agent: string, raw: Registry)
    | ReleaseWritten(task: int)
    | Removing(task: int)

  /** What all processes share: the registry, its lock file, the worktrees and the branches. */
  datatype Shared = Shared(
    registry: Registry,
    lock: Option<Pid>,
    worktrees: set<int>,
    branches: set<int>,
    claimed: map<int, Claim>,     // history: claims recorded in this run and not released
    unlockFailed: set<int>,       // history: claims whose lock file could not be removed
    orphaned: set<int>)           // history: recorded claims whose own rollback took the worktree

  datatype State = State(w: Shared, pcs: map<Pid, Pc>)

  datatype Event =
    | StartClaim(p: Pid, c: Claim)
    | StartRelease(p: Pid, task: int, agent: string)
    | Advance(p: Pid, ok: bool, stamp: nat)     // the next step of `p`; `ok` is what Git and the file system answer

  type Digest = Registry -> Hash

  ghost predicate CollisionFree(h: Digest) { forall a, b :: h(a) == h(b) ==> a == b }

  function At(s: State, p: Pid): Pc { if p in s.pcs then s.pcs[p] else Idle }

  function AdvanceClaim(h: Digest, w: Shared, p: Pid, pc: Pc, ok: bool, stamp: nat): (Shared, Pc) {
    match pc
    case Checked(c, before) =>
      if !ok || c.task in w.worktrees || c.task in w.branches then (w, Idle)
      else (w.(worktrees := w.worktrees + {c.task}, branches := w.branches + {c.task}), Added(c, before))
    case Added(c, before) =>
      if !ok || w.lock.Some? then (w, RollingBack(c.task, false)) else (w.(lock := Some(p)), Locked(c, before))
    case Locked(c, before) =>
      if !ok || h(w.registry) != h(before) || HasConflict(w.registry.entries, c)
      then (w.(lock := None), RollingBack(c.task, false))
      else (w, Compared(c, w.registry))
    case Compared(c, raw) =>
      if !ok then (w.(lock := None), RollingBack(c.task, false))
      else (w.(registry := Registry(raw.entries + [EntryOf(c)], stamp), claimed := w.claimed[c.task := c]),
          Written(c.task))
    case Written(task) =>
      if ok then (w.(lock := None), Idle)
      else (w.(unlockFailed := w.unlockFailed + {task}), RollingBack(task, true))
    case RollingBack(task, stuck) =>
      (if ok then w.(worktrees := w.worktrees - {task}, orphaned := if stuck then w.orphaned + {task} else w.orphaned)
          else w, Idle)
    case _ => (w, pc)
  }

  function AdvanceRelease(h: Digest, w: Shared, p: Pid, pc: Pc, ok: bool, stamp: nat): (Shared, Pc) {
    match pc
    case ReleaseChecked(task, agent, before) =>      // the gate, the commit and the clean check, then the lock
      if !ok || w.lock.Some? then (w, Idle) else (w.(lock := Some(p)), ReleaseLocked(task, agent, before))
    case ReleaseLocked(task, agent, before) =>       // compare, then merge the branch
      if !ok || h(w.registry) != h(before) || task !in w.branches then (w.(lock := None), Idle)
      else (w, ReleaseMerged(task, agent, w.registry))
    case ReleaseMerged(task, agent, raw) =>
      if !ok then (w.(lock := None), Idle)
      else (w.(registry := Registry(Without(raw.entries, task, agent), stamp), claimed := w.claimed - {task}),
          ReleaseWritten(task))
    case ReleaseWritten(task) =>
      if ok then (w.(lock := None), Removing(task)) else (w, Idle)
    case Removing(task) =>
      (if ok then w.(worktrees := w.worktrees - {task}) else w, Idle)
    case _ => (w, pc)
  }

  predicate IsRelease(pc: Pc) {
    pc.ReleaseChecked? || pc.ReleaseLocked? || pc.ReleaseMerged? || pc.ReleaseWritten? || pc.Removing?
  }

  function AdvanceOne(h: Digest, w: Shared, p: Pid, pc: Pc, ok: bool, stamp: nat): (Shared, Pc) {
    if IsRelease(pc) then AdvanceRelease(h, w, p, pc, ok, stamp) else AdvanceClaim(h, w, p, pc, ok, stamp)
  }

  function Step(h: Digest, s: State, e: Event): State {
    match e
    case StartClaim(p, c) =>
      if At(s, p).Idle? && !HasConflict(s.w.registry.entries, c)
      then s.(pcs := s.pcs[p := Checked(c, s.w.registry)]) else s
    case StartRelease(p, task, agent) =>
      if At(s, p).Idle? && task in s.w.worktrees && CountMatches(s.w.registry.entries, task, agent) == 1
      then s.(pcs := s.pcs[p := ReleaseChecked(task, agent, s.w.registry)]) else s
    case Advance(p, ok, stamp) =>
      var (w, pc) := AdvanceOne(h, s.w, p, At(s, p), ok, stamp);
      State(w, s.pcs[p := pc])
  }

  function Run(h: Digest, s: State, es: seq<Event>): State
    decreases |es|
  {
    if es == [] then s else Step(h, Run(h, s, es[..|es| - 1]), es[|es| - 1])
  }

  // ---------------------------------------------------------------- the invariant

  predicate HoldsLock(pc: Pc) {
    pc.Locked? || pc.Compared? || pc.Written? || (pc.RollingBack? && pc.stuck)
    || pc.ReleaseLocked? || pc.ReleaseMerged? || pc.ReleaseWritten?
  }

  /** The task whose branch and worktree this process has added. */
  function Builds(pc: Pc): Option<int> {
    match pc
    case Added(c, _) => Some(c.task)
    case Locked(c, _) => Some(c.task)
    case Compared(c, _) => Some(c.task)
    case Written(task) => Some(task)
    case RollingBack(task, _) => Some(task)
    case _ => None
  }

  predicate Unwritten(pc: Pc) { pc.Added? || pc.Locked? || pc.Compared? || (pc.RollingBack? && !pc.stuck) }

  function Releases(pc: Pc): Option<int> {
    match pc case ReleaseWritten(task) => Some(task) case Removing(task) => Some(task) case _ => None
  }

  ghost predicate NoActive(entries: seq<Entry>, task: int) {
    forall e | e in entries :: Active(e) ==> TaskOf(e) != Some(task)
  }

  /** The task has its branch and worktree, but nothing in the registry or the history claims it. */
  ghost predicate Unclaimed(w: Shared, task: int) {
    task in w.branches && task in w.worktrees && task !in w.claimed && task !in w.orphaned
        && NoActive(w.registry.entries, task)
  }

  /** What a process standing at `pc` can rely on. */
  ghost predicate PcOk(w: Shared, p: Pid, pc: Pc) {
    && (HoldsLock(pc) ==> w.lock == Some(p))
    && match pc
       case Idle => true
       case Checked(c, before) =>
         !HasConflict(before.entries, c) && (c.task in w.branches || NoActive(w.registry.entries, c.task))
       case Added(c, before) => !HasConflict(before.entries, c) && Unclaimed(w, c.task)
       case Locked(c, before) => !HasConflict(before.entries, c) && Unclaimed(w, c.task)
       case Compared(c, raw) => w.registry == raw && !HasConflict(raw.entries, c) && Unclaimed(w, c.task)
       case Written(task) => task in w.branches
       case RollingBack(task, stuck) => if stuck then task in w.branches && task in w.unlockFailed
           else Unclaimed(w, task)
       case ReleaseChecked(task, agent, before) => CountMatches(before.entries, task, agent) == 1
       case ReleaseLocked(task, agent, before) => CountMatches(before.entries, task, agent) == 1
       case ReleaseMerged(task, agent, raw) =>
         w.registry == raw && CountMatches(raw.entries, task, agent) == 1 && task in w.branches
       case ReleaseWritten(task) => task in w.branches && task !in w.claimed
       case Removing(task) => task in w.branches && task !in w.claimed
  }

  /** What two processes guarantee each other. */
  ghost predicate PairOk(a: Pc, b: Pc) {
    && (Builds(a).Some? ==> Builds(a) != Builds(b))
    && (Releases(a).Some? && Unwritten(b) ==> Releases(a) != Builds(b))
  }

  /** A recorded, unreleased claim has its entry, its branch, and its worktree unless it was orphaned. */
  ghost predicate ClaimOk(w: Shared, task: int)
    requires task in w.claimed
  {
    && w.claimed[task].task == task && EntryOf(w.claimed[task]) in w.registry.entries
    && task in w.branches && (task in w.worktrees <==> task !in w.orphaned)
  }

  ghost predicate SharedOk(w: Shared) {
    Exclusive(w.registry.entries) && w.orphaned <= w.unlockFailed * w.branches
        && forall task | task in w.claimed :: ClaimOk(w, task)
  }

  ghost predicate Inv(s: State) {
    && SharedOk(s.w)
    && (forall p | p in s.pcs :: PcOk(s.w, p, s.pcs[p]))
    && (forall p, q | p in s.pcs && q in s.pcs && p != q :: PairOk(s.pcs[p], s.pcs[q]))
  }

  // ---------------------------------------------------------------- what a step keeps for the process that takes it

  lemma ReleaseWriteKeepsShared(w: Shared, task: int, agent: string, stamp: nat, w': Shared)
    requires SharedOk(w) && CountMatches(w.registry.entries, task, agent) == 1
    requires w' == w.(registry := Registry(Without(w.registry.entries, task, agent), stamp), claimed :=
      w.claimed - {task})
    ensures SharedOk(w')
  {
    WithoutHolds(w.registry.entries, task, agent);
    WithoutIsExclusive(w.registry.entries, task, agent);
    forall t | t in w'.claimed ensures ClaimOk(w', t) { assert ClaimOk(w, t); }
  }

  lemma ReleaseStepKeepsShared(h: Digest, w: Shared, p: Pid, pc: Pc, ok: bool, stamp: nat)
    requires SharedOk(w) && PcOk(w, p, pc)
    ensures SharedOk(AdvanceRelease(h, w, p, pc, ok, stamp).0)
  {
    var w' := AdvanceRelease(h, w, p, pc, ok, stamp).0;
    match pc
    case ReleaseMerged(task, agent, raw) =>
      if ok { ReleaseWriteKeepsShared(w, task, agent, stamp, w'); } else { }
    case Removing(task) => if ok { }
    case _ =>
  }

  lemma ClaimStepKeepsOwn(h: Digest, w: Shared, p: Pid, pc: Pc, ok: bool, stamp: nat)
    requires SharedOk(w) && PcOk(w, p, pc) && CollisionFree(h)
    ensures PcOk(AdvanceClaim(h, w, p, pc, ok, stamp).0, p, AdvanceClaim(h, w, p, pc, ok, stamp).1)
  {
    match pc
    case Checked(c, _) => assert c.task !in w.branches ==> (c.task in w.claimed ==> ClaimOk(w, c.task));
    case Compared(_, _) =>
    case _ =>
  }

  lemma ReleaseStepKeepsOwn(h: Digest, w: Shared, p: Pid, pc: Pc, ok: bool, stamp: nat)
    requires SharedOk(w) && PcOk(w, p, pc) && CollisionFree(h)
    ensures PcOk(AdvanceRelease(h, w, p, pc, ok, stamp).0, p, AdvanceRelease(h, w, p, pc, ok, stamp).1)
  {
  }

  // ---------------------------------------------------------------- what a step keeps for the others

  lemma ClaimStepKeepsOther(h: Digest, w: Shared, p: Pid, pc: Pc, ok: bool, stamp: nat, q: Pid, qc: Pc)
    requires SharedOk(w) && PcOk(w, p, pc) && PcOk(w, q, qc) && p != q && PairOk(pc, qc) && PairOk(qc, pc)
    ensures PcOk(AdvanceClaim(h, w, p, pc, ok, stamp).0, q, qc)
  {
  }

  lemma ClaimStepKeepsPairs(h: Digest, w: Shared, p: Pid, pc: Pc, ok: bool, stamp: nat, q: Pid, qc: Pc)
    requires SharedOk(w) && PcOk(w, p, pc) && PcOk(w, q, qc) && p != q && PairOk(pc, qc) && PairOk(qc, pc)
    ensures PairOk(AdvanceClaim(h, w, p, pc, ok, stamp).1, qc) && PairOk(qc, AdvanceClaim(h, w, p, pc, ok, stamp).1)
  {
  }

  lemma ReleaseStepKeepsOther(h: Digest, w: Shared, p: Pid, pc: Pc, ok: bool, stamp: nat, q: Pid, qc: Pc)
    requires SharedOk(w) && PcOk(w, p, pc) && PcOk(w, q, qc) && p != q && PairOk(pc, qc) && PairOk(qc, pc)
    ensures PcOk(AdvanceRelease(h, w, p, pc, ok, stamp).0, q, qc)
  {
    if pc.ReleaseMerged? { WithoutHolds(w.registry.entries, pc.task, pc.agent); }
  }

  lemma ReleaseStepKeepsPairs(h: Digest, w: Shared, p: Pid, pc: Pc, ok: bool, stamp: nat, q: Pid, qc: Pc)
    requires SharedOk(w) && PcOk(w, p, pc) && PcOk(w, q, qc) && p != q && PairOk(pc, qc) && PairOk(qc, pc)
    ensures PairOk(AdvanceRelease(h, w, p, pc, ok, stamp).1, qc) && PairOk(qc, AdvanceRelease(h, w, p, pc, ok, stamp).1)
  {
    if pc.ReleaseMerged? { MatchExists(w.registry.entries, pc.task, pc.agent); }
  }

  // ---------------------------------------------------------------- every interleaving

  lemma AdvanceKeepsInv(h: Digest, s: State, p: Pid, ok: bool, stamp: nat)
    requires Inv(s) && CollisionFree(h)
    ensures Inv(Step(h, s, Advance(p, ok, stamp)))
  {
    var pc, s' := At(s, p), Step(h, s, Advance(p, ok, stamp));
    assert PcOk(s.w, p, pc);
    assert forall q | q in s.pcs && q != p :: PairOk(pc, s.pcs[q]) && PairOk(s.pcs[q], pc);
    hide AdvanceClaim, AdvanceRelease, PcOk, PairOk, SharedOk, CollisionFree;
    if IsRelease(pc) {
      ReleaseStepKeepsShared(h, s.w, p, pc, ok, stamp);
      ReleaseStepKeepsOwn(h, s.w, p, pc, ok, stamp);
    } else {
      ClaimStepKeepsOwn(h, s.w, p, pc, ok, stamp);
    }
    forall q | q in s'.pcs && q != p
      ensures PcOk(s'.w, q, s'.pcs[q]) && PairOk(s'.pcs[p], s'.pcs[q]) && PairOk(s'.pcs[q], s'.pcs[p])
    {
      if IsRelease(pc) {
        ReleaseStepKeepsOther(h, s.w, p, pc, ok, stamp, q, s.pcs[q]);
        ReleaseStepKeepsPairs(h, s.w, p, pc, ok, stamp, q, s.pcs[q]);
      } else {
        ClaimStepKeepsOther(h, s.w, p, pc, ok, stamp, q, s.pcs[q]);
        ClaimStepKeepsPairs(h, s.w, p, pc, ok, stamp, q, s.pcs[q]);
      }
    }
  }

  lemma StartKeepsInv(h: Digest, s: State, e: Event)
    requires Inv(s) && !e.Advance?
    ensures Inv(Step(h, s, e))
  {
    if e.StartClaim? && !HasConflict(s.w.registry.entries, e.c) {
      forall x | x in s.w.registry.entries ensures Active(x) ==> TaskOf(x) != Some(e.c.task) {
        assert !Clashes(x, e.c);
      }
    }
    assert forall b: Pc, c, r :: PairOk(Checked(c, r), b) && PairOk(b, Checked(c, r));
    assert forall b: Pc, t, a, r :: PairOk(ReleaseChecked(t, a, r), b) && PairOk(b, ReleaseChecked(t, a, r));
  }

  lemma {:induction false} RunKeepsInv(h: Digest, s: State, es: seq<Event>)
    requires Inv(s) && CollisionFree(h)
    ensures Inv(Run(h, s, es))
    decreases |es|
  {
    if es != [] {
      var prior, e := Run(h, s, es[..|es| - 1]), es[|es| - 1];
      RunKeepsInv(h, s, es[..|es| - 1]);
      if e.Advance? { AdvanceKeepsInv(h, prior, e.p, e.ok, e.stamp); } else { StartKeepsInv(h, prior, e); }
    }
  }

  /** Any registry whose active entries are apart, any repository, and nobody running. */
  ghost predicate Initial(s: State) {
    s.pcs == map[] && s.w.lock.None? && s.w.claimed == map[] && s.w.unlockFailed == {} && s.w.orphaned == {}
        && Exclusive(s.w.registry.entries)
  }

  /** In every interleaving of claims and releases, with failed comparisons, failed Git commands,
      rollbacks and processes that stop anywhere: two active entries of the registry name
      different tasks and disjoint paths. */
  lemma OwnershipExclusion(h: Digest, s: State, es: seq<Event>, i: nat, j: nat)
    requires Initial(s) && CollisionFree(h)
    requires i < j < |Run(h, s, es).w.registry.entries|
    requires Active(Run(h, s, es).w.registry.entries[i]) && Active(Run(h, s, es).w.registry.entries[j])
    ensures var a, b := Run(h, s, es).w.registry.entries[i], Run(h, s, es).w.registry.entries[j];
            (TaskOf(a).None? || TaskOf(a) != TaskOf(b)) && a.paths * b.paths == {}
  {
    RunKeepsInv(h, s, es);
    ExclusiveAt(Run(h, s, es).w.registry.entries, i, j);
  }

  /** A claim made in the run keeps its registry entry and branch until its release, and it keeps
      its worktree if and only if it is not orphaned: the process that recorded it could not
      remove its lock file, and its rollback then removed the worktree. */
  lemma ClaimsKeepTheirWorktrees(h: Digest, s: State, es: seq<Event>, task: int)
    requires Initial(s) && CollisionFree(h) && task in Run(h, s, es).w.claimed
    ensures var w := Run(h, s, es).w;
            && EntryOf(w.claimed[task]) in w.registry.entries && w.claimed[task].task == task
            && task in w.branches && (task in w.worktrees <==> task !in w.orphaned)
            && (task in w.orphaned ==> task in w.unlockFailed)
  {
    RunKeepsInv(h, s, es);
    assert ClaimOk(Run(h, s, es).w, task);
  }

  const VACANT := State(Shared(Registry([], 0), None, {}, {}, map[], {}, {}), map[])

  function OrphaningRun(c: Claim): seq<Event> {
    [StartClaim(0, c), Advance(0, true, 1), Advance(0, true, 1), Advance(0, true, 1), Advance(0, true, 1),
     Advance(0, false, 1), Advance(0, true, 1)]
  }

  lemma LockedAlone(h: Digest, c: Claim)
    ensures Run(h, VACANT, OrphaningRun(c)[..3])
            == State(Shared(Registry([], 0), Some(0), {c.task}, {c.task}, map[], {}, {}),
                map[0 := Locked(c, Registry([], 0))])
  {
    RunNext(h, VACANT, OrphaningRun(c), 0);
    RunNext(h, VACANT, OrphaningRun(c), 1);
    RunNext(h, VACANT, OrphaningRun(c), 2);
  }

  lemma ComparedAlone(h: Digest, c: Claim)
    ensures Run(h, VACANT, OrphaningRun(c)[..4])
            == State(Shared(Registry([], 0), Some(0), {c.task}, {c.task}, map[], {}, {}),
                map[0 := Compared(c, Registry([], 0))])
  {
    LockedAlone(h, c);
    RunNext(h, VACANT, OrphaningRun(c), 3);
  }

  lemma WrittenAlone(h: Digest, c: Claim)
    ensures Run(h, VACANT, OrphaningRun(c)[..5])
            == State(Shared(Registry([EntryOf(c)], 1), Some(0), {c.task}, {c.task}, map[c.task := c], {}, {}),
                map[0 := Written(c.task)])
  {
    ComparedAlone(h, c);
    RunNext(h, VACANT, OrphaningRun(c), 4);
    assert [] + [EntryOf(c)] == [EntryOf(c)];
  }

  /** The exception is real: the claim is recorded, the lock file cannot be removed, and the
      rollback takes the worktree of a claim that stays active. */
  lemma StuckLockOrphansAClaim(h: Digest, c: Claim)
    ensures var w := Run(h, VACANT, OrphaningRun(c)).w;
            c.task in w.claimed && EntryOf(c) in w.registry.entries && c.task in w.orphaned && c.task !in w.worktrees
  {
    StuckAlone(h, c);
    RunNext(h, VACANT, OrphaningRun(c), 6);
    assert OrphaningRun(c)[..7] == OrphaningRun(c);
    hide Run, AdvanceRelease;
  }

  lemma StuckAlone(h: Digest, c: Claim)
    ensures Run(h, VACANT, OrphaningRun(c)[..6])
            == State(Shared(Registry([EntryOf(c)], 1), Some(0), {c.task}, {c.task}, map[c.task := c], {c.task}, {}),
                map[0 := RollingBack(c.task, true)])
  {
    WrittenAlone(h, c);
    RunNext(h, VACANT, OrphaningRun(c), 5);
    assert {} + {c.task} == {c.task};
    hide Run, AdvanceRelease;
  }

  lemma RunNext(h: Digest, s: State, es: seq<Event>, n: nat)
    requires n < |es|
    ensures n == 0 ==> Run(h, s, es[..n]) == s
    ensures Run(h, s, es[..n + 1]) == Step(h, Run(h, s, es[..n]), es[n])
  {
    assert es[..n + 1][..n] == es[..n];
  }

  // ---------------------------------------------------------------- what a branch forbids

  /** The task has a branch, no recorded claim, and no process that could still record one. */
  ghost predicate Spent(s: State, task: int) {
    && task in s.w.branches && task !in s.w.claimed
    && forall p | p in s.pcs :: Builds(s.pcs[p]) == Some(task) ==> s.pcs[p].RollingBack?
  }

  lemma {:induction false} SpentStays(h: Digest, s: State, es: seq<Event>, task: int)
    requires Spent(s, task)
    ensures Spent(Run(h, s, es), task)
    decreases |es|
  {
    if es != [] {
      var front, last := es[..|es| - 1], es[|es| - 1];
      SpentStays(h, s, front, task);
      hide Spent, Step;
      SpentStep(h, Run(h, s, front), last, task);
    }
  }

  lemma SpentStep(h: Digest, s: State, e: Event, task: int)
    requires Spent(s, task)
    ensures Spent(Step(h, s, e), task)
  {
  }

  /** Neither a rollback nor a release deletes the branch, so a claim that was rolled back can
      never be repeated: whatever happens afterwards, the task is not claimed again. */
  lemma RolledBackTaskStaysUnclaimed(h: Digest, s: State, p: Pid, es: seq<Event>)
    requires Inv(s) && CollisionFree(h) && p in s.pcs && s.pcs[p].RollingBack? && !s.pcs[p].stuck
    ensures s.pcs[p].task !in Run(h, s, es).w.claimed
  {
    var task := s.pcs[p].task;
    assert PcOk(s.w, p, s.pcs[p]);
    forall q | q in s.pcs ensures Builds(s.pcs[q]) == Some(task) ==> s.pcs[q].RollingBack? {
      if q != p { assert PairOk(s.pcs[p], s.pcs[q]); }
    }
    SpentStays(h, s, es, task);
  }

  /** A lock file left behind stops every later change of the registry. */
  lemma {:induction false} LeftLockFreezesRegistry(h: Digest, s: State, es: seq<Event>)
    requires s.w.lock.Some? && (forall p | p in s.pcs :: !HoldsLock(s.pcs[p]) && !s.pcs[p].RollingBack?)
    ensures Run(h, s, es).w.registry == s.w.registry && Run(h, s, es).w.lock == s.w.lock
    ensures forall p | p in Run(h, s, es).pcs :: !HoldsLock(Run(h, s, es).pcs[p])
    decreases |es|
  {
    if es != [] { LeftLockFreezesRegistry(h, s, es[..|es| - 1]); }
  }

  // ---------------------------------------------------------------- who gets a task, and who gives it back

  predicate Names(e: Entry, task: int) { e.task == Text(task) || e.task == Number(task) }

  ghost predicate Overlap(a: set<string>, b: set<string>) { exists path :: path in a && path in b }

  /** An active entry that names the task or holds one of the paths. */
  ghost predicate Taken(entries: seq<Entry>, task: int, paths: set<string>) {
    exists e | e in entries ::
      (e.status.InProgress? || e.status.ActiveStatus?) && (Names(e, task) || Overlap(e.paths, paths))
  }

  /** The agent has the task in progress. */
  ghost predicate Holds(entries: seq<Entry>, task: int, agent: string) {
    exists e | e in entries :: e.status.InProgress? && e.agent == agent && Names(e, task)
  }

  lemma ConflictMeansTaken(entries: seq<Entry>, c: Claim)
    ensures HasConflict(entries, c) <==> Taken(entries, c.task, c.paths)
  {
    forall e: Entry
      ensures Clashes(e, c) <==>
              (e.status.InProgress? || e.status.ActiveStatus?) && (Names(e, c.task) || Overlap(e.paths, c.paths))
    {
      if e.paths * c.paths != {} {
        var path :| path in e.paths * c.paths;
        assert Overlap(e.paths, c.paths);
      }
      if Overlap(e.paths, c.paths) {
        var path :| path in e.paths && path in c.paths;
        assert path in e.paths * c.paths;
      }
    }
  }

  /** Where active entries are apart, an agent has a task in progress at most once. */
  lemma {:induction false} CountMeansHolds(entries: seq<Entry>, task: int, agent: string)
    requires Exclusive(entries)
    ensures CountMatches(entries, task, agent) == if Holds(entries, task, agent) then 1 else 0
  {
    if entries != [] {
      var front, last := entries[..|entries| - 1], entries[|entries| - 1];
      assert entries == front + [last];
      CountMeansHolds(front, task, agent);
      if last.status.InProgress? && last.agent == agent && Names(last, task) {
        assert !Holds(front, task, agent);
      }
    }
  }

  /** What a process does next, undisturbed and without a failure. */
  function Work(h: Digest, s: State, p: Pid, stamp: nat, n: nat): State {
    if n == 0 then s else Step(h, Work(h, s, p, stamp, n - 1), Advance(p, true, stamp))
  }

  /** The same, seen from the process. */
  function Alone(h: Digest, w: Shared, p: Pid, pc: Pc, stamp: nat, n: nat): (Shared, Pc)
    decreases n
  {
    if n == 0 then (w, pc)
    else var (w', pc') := AdvanceOne(h, w, p, pc, true, stamp); Alone(h, w', p, pc', stamp, n - 1)
  }

  lemma {:induction false} WorkAlone(h: Digest, s: State, p: Pid, stamp: nat, n: nat)
    ensures var (w, pc) := Alone(h, s.w, p, At(s, p), stamp, n);
            Work(h, s, p, stamp, n).w == w && At(Work(h, s, p, stamp, n), p) == pc
  {
    hide AdvanceOne;
    if n > 0 {
      WorkAlone(h, s, p, stamp, n - 1);
      AloneNext(h, s.w, p, At(s, p), stamp, n - 1);
    }
  }

  lemma {:induction false} AloneNext(h: Digest, w: Shared, p: Pid, pc: Pc, stamp: nat, n: nat)
    ensures var (w', pc') := Alone(h, w, p, pc, stamp, n);
            Alone(h, w, p, pc, stamp, n + 1) == AdvanceOne(h, w', p, pc', true, stamp)
    decreases n
  {
    hide AdvanceOne;
    if n > 0 {
      var (w', pc') := AdvanceOne(h, w, p, pc, true, stamp);
      AloneNext(h, w', p, pc', stamp, n - 1);
    }
  }

  lemma IdleAlone(h: Digest, w: Shared, p: Pid, stamp: nat)
    ensures forall n: nat | n <= 5 :: Alone(h, w, p, Idle, stamp, n) == (w, Idle)
  {
    assert AdvanceOne(h, w, p, Idle, true, stamp) == (w, Idle);
    hide AdvanceOne;
    assert Alone(h, w, p, Idle, stamp, 1) == (w, Idle);
    assert Alone(h, w, p, Idle, stamp, 2) == (w, Idle);
    assert Alone(h, w, p, Idle, stamp, 3) == (w, Idle);
    assert Alone(h, w, p, Idle, stamp, 4) == (w, Idle);
    assert Alone(h, w, p, Idle, stamp, 5) == (w, Idle);
  }

  lemma GrantedAlone(h: Digest, w: Shared, p: Pid, c: Claim, stamp: nat)
    requires !HasConflict(w.registry.entries, c) && c.task !in w.worktrees && c.task !in w.branches && w.lock.None?
    ensures Alone(h, w, p, Checked(c, w.registry), stamp, 5) == (w.(
      registry := Registry(w.registry.entries + [EntryOf(c)], stamp), worktrees := w.worktrees + {c.task},
      branches := w.branches + {c.task}, claimed := w.claimed[c.task := c]), Idle)
  {
    hide AdvanceRelease, HasConflict;
    var w1 := w.(worktrees := w.worktrees + {c.task}, branches := w.branches + {c.task});
    var w2 := w1.(lock := Some(p));
    var w4 := w2.(registry := Registry(w.registry.entries + [EntryOf(c)], stamp), claimed := w.claimed[c.task := c]);
    assert Alone(h, w4, p, Written(c.task), stamp, 1) == (w4.(lock := None), Idle);
    assert Alone(h, w2, p, Compared(c, w.registry), stamp, 2) == (w4.(lock := None), Idle);
    assert Alone(h, w2, p, Locked(c, w.registry), stamp, 3) == (w4.(lock := None), Idle);
    assert Alone(h, w1, p, Added(c, w.registry), stamp, 4) == (w4.(lock := None), Idle);
  }

  lemma RefusedAlone(h: Digest, w: Shared, p: Pid, c: Claim, stamp: nat)
    requires c.task in w.worktrees || c.task in w.branches || w.lock.Some?
    ensures var (w', pc) := Alone(h, w, p, Checked(c, w.registry), stamp, 5);
            pc == Idle && w' == w.(branches := w'.branches)
  {
    hide AdvanceRelease, HasConflict;
    if c.task in w.worktrees || c.task in w.branches {
      IdleAlone(h, w, p, stamp);
    } else {
      var w1 := w.(worktrees := w.worktrees + {c.task}, branches := w.branches + {c.task});
      var w3 := w.(branches := w1.branches);
      assert w1.worktrees - {c.task} == w.worktrees;
      IdleAlone(h, w3, p, stamp);
      assert Alone(h, w1, p, RollingBack(c.task, false), stamp, 3) == (w3, Idle);
      assert Alone(h, w1, p, Added(c, w.registry), stamp, 4) == (w3, Idle);
    }
  }

  lemma ReleasedAlone(h: Digest, w: Shared, p: Pid, task: int, agent: string, stamp: nat)
    ensures var (w', pc) := Alone(h, w, p, ReleaseChecked(task, agent, w.registry), stamp, 5);
            pc == Idle && w' == if w.lock.None? && task in w.branches
              then w.(registry := Registry(Without(w.registry.entries, task, agent), stamp),
                      worktrees := w.worktrees - {task}, claimed := w.claimed - {task})
              else w
  {
    hide AdvanceClaim, Without;
    var w1 := w.(lock := Some(p));
    if w.lock.Some? {
      IdleAlone(h, w, p, stamp);
    } else if task !in w.branches {
      IdleAlone(h, w, p, stamp);
      assert Alone(h, w1, p, ReleaseLocked(task, agent, w.registry), stamp, 4) == (w, Idle);
    } else {
      var w3 := w1.(registry := Registry(Without(w.registry.entries, task, agent), stamp),
                    claimed := w.claimed - {task});
      var w4 := w3.(lock := None, worktrees := w.worktrees - {task});
      assert Alone(h, w3.(lock := None), p, Removing(task), stamp, 1) == (w4, Idle);
      assert Alone(h, w3, p, ReleaseWritten(task), stamp, 2) == (w4, Idle);
      assert Alone(h, w1, p, ReleaseMerged(task, agent, w.registry), stamp, 3) == (w4, Idle);
      assert Alone(h, w1, p, ReleaseLocked(task, agent, w.registry), stamp, 4) == (w4, Idle);
    }
  }

  /** An undisturbed claim is granted exactly when no active entry names its task or holds one of
      its paths, the task has neither worktree nor branch, and nobody has the lock.  It then stands
      in the registry under its agent; a refused one leaves registry and worktrees as they were. */
  lemma ClaimAloneExactly(h: Digest, s: State, p: Pid, c: Claim, stamp: nat)
    requires At(s, p).Idle?
    ensures var s' := Work(h, Step(h, s, StartClaim(p, c)), p, stamp, 5);
            && At(s', p).Idle?
            && if !Taken(s.w.registry.entries, c.task, c.paths) && c.task !in s.w.worktrees + s.w.branches
                  && s.w.lock.None?
               then s'.w == s.w.(
                 registry := Registry(s.w.registry.entries + [Entry(c.agent, Text(c.task), c.paths, InProgress)],
                     stamp),
                 worktrees := s.w.worktrees + {c.task}, branches := s.w.branches + {c.task},
                 claimed := s.w.claimed[c.task := c])
               else s'.w == s.w.(branches := s'.w.branches)
  {
    ConflictMeansTaken(s.w.registry.entries, c);
    var s0 := Step(h, s, StartClaim(p, c));
    hide Taken, Work, HasConflict, AdvanceOne, Alone;
    WorkAlone(h, s0, p, stamp, 5);
    if HasConflict(s.w.registry.entries, c) {
      IdleAlone(h, s.w, p, stamp);
    } else if c.task in s.w.worktrees || c.task in s.w.branches || s.w.lock.Some? {
      RefusedAlone(h, s.w, p, c, stamp);
    } else {
      GrantedAlone(h, s.w, p, c, stamp);
    }
  }

  /** An undisturbed release succeeds exactly when its agent has the task in progress, the task has
      worktree and branch, and nobody has the lock; so another agent's release is refused.  It then
      takes out that agent's entries for the task, and no others, and the worktree. */
  lemma ReleaseAloneExactly(h: Digest, s: State, p: Pid, task: int, agent: string, stamp: nat)
    requires At(s, p).Idle? && Exclusive(s.w.registry.entries)
    ensures var s' := Work(h, Step(h, s, StartRelease(p, task, agent)), p, stamp, 5);
            && At(s', p).Idle?
            && if Holds(s.w.registry.entries, task, agent) && task in s.w.worktrees * s.w.branches && s.w.lock.None?
               then
                 && (forall e ::
                       e in s'.w.registry.entries <==>
                       e in s.w.registry.entries && !(Names(e, task) && e.agent == agent))
                 && s'.w == s.w.(registry := s'.w.registry, worktrees := s.w.worktrees - {task},
                     claimed := s.w.claimed - {task})
               else s'.w == s.w
  {
    CountMeansHolds(s.w.registry.entries, task, agent);
    WithoutHolds(s.w.registry.entries, task, agent);
    var s0 := Step(h, s, StartRelease(p, task, agent));
    hide Holds, Exclusive, Work, CountMatches, Without, AdvanceOne, Alone;
    WorkAlone(h, s0, p, stamp, 5);
    IdleAlone(h, s.w, p, stamp);
    ReleasedAlone(h, s.w, p, task, agent, stamp);
  }

  /** Under the lock a process goes on only from the very registry it read: any change since then
      refuses the claim or the release, and the lock is given back. */
  lemma OnlyTheReadRegistryIsChanged(h: Digest, s: State, p: Pid, ok: bool, stamp: nat)
    requires CollisionFree(h)
    ensures var s', pc := Step(h, s, Advance(p, ok, stamp)), At(s, p);
            && (pc.Locked? ==>
                  if ok && s.w.registry == pc.before && !Taken(s.w.registry.entries, pc.c.task, pc.c.paths)
                  then s'.w == s.w && At(s', p) == Compared(pc.c, pc.before)
                  else s'.w == s.w.(lock := None) && At(s', p) == RollingBack(pc.c.task, false))
            && (pc.ReleaseLocked? ==>
                  if ok && s.w.registry == pc.before && pc.task in s.w.branches
                  then s'.w == s.w && At(s', p) == ReleaseMerged(pc.task, pc.agent, pc.before)
                  else s'.w == s.w.(lock := None) && At(s', p) == Idle)
  {
    var pc := At(s, p);
    if pc.Locked? { ConflictMeansTaken(s.w.registry.entries, pc.c); }
    hide Taken, HasConflict;
  }

  /** A step that fails gives the lock back, and a claim that fails takes its worktree with it: only
      a lock file that cannot be removed stays. */
  lemma FailuresAreUndone(h: Digest, s: State, p: Pid, stamp: nat)
    ensures var s', pc := Step(h, s, Advance(p, false, stamp)), At(s, p);
            && (pc.Locked? || pc.Compared? ==> s'.w == s.w.(lock := None) && At(s', p) == RollingBack(pc.c.task, false))
            && (pc.Added? ==> s'.w == s.w && At(s', p) == RollingBack(pc.c.task, false))
            && (pc.ReleaseLocked? || pc.ReleaseMerged? ==> s'.w == s.w.(lock := None) && At(s', p) == Idle)
            && (pc.Written? ==> s'.w.lock == s.w.lock && At(s', p) == RollingBack(pc.task, true))
            && (pc.ReleaseWritten? ==> s'.w == s.w && At(s', p) == Idle)
    ensures var s', pc := Step(h, s, Advance(p, true, stamp)), At(s, p);
            pc.RollingBack? ==> s'.w.worktrees == s.w.worktrees - {pc.task} && At(s', p) == Idle
  {
  }

  lemma AskedNext(h: Digest, s: State, e: Event, p: Pid)
    ensures var pc, before := At(Step(h, s, e), p), At(s, p);
            pc.ReleaseChecked? || pc.ReleaseLocked? || pc.ReleaseMerged? ==>
              e == StartRelease(p, pc.task, pc.agent)
              || ((before.ReleaseChecked? || before.ReleaseLocked? || before.ReleaseMerged?)
                  && before.task == pc.task && before.agent == pc.agent)
  {
  }

  lemma {:induction false} ReleaseWasAsked(h: Digest, s: State, es: seq<Event>, p: Pid)
    requires Initial(s)
    ensures var pc := At(Run(h, s, es), p);
            pc.ReleaseChecked? || pc.ReleaseLocked? || pc.ReleaseMerged? ==> StartRelease(p, pc.task, pc.agent) in es
    decreases |es|
  {
    if es != [] {
      var front, last := es[..|es| - 1], es[|es| - 1];
      ReleaseWasAsked(h, s, front, p);
      assert es == front + [last];
      AskedNext(h, Run(h, s, front), last, p);
    }
  }

  /** Only its own agent's release ends a claim: in every interleaving, a step after which a claim is
      no longer recorded follows a release of that task asked for by the agent that claimed it. */
  lemma ClaimEndsByItsAgent(h: Digest, s: State, es: seq<Event>, e: Event, task: int)
    requires Initial(s) && CollisionFree(h)
    requires task in Run(h, s, es).w.claimed && task !in Step(h, Run(h, s, es), e).w.claimed
    ensures exists p :: StartRelease(p, task, Run(h, s, es).w.claimed[task].agent) in es
  {
    RunKeepsInv(h, s, es);
    ReleasedByItsAgent(h, Run(h, s, es), e, task);
    ReleaseWasAsked(h, s, es, e.p);
  }

  lemma ReleasedByItsAgent(h: Digest, s: State, e: Event, task: int)
    requires Inv(s) && CollisionFree(h) && task in s.w.claimed && task !in Step(h, s, e).w.claimed
    ensures e.Advance? && exists raw :: At(s, e.p) == ReleaseMerged(task, s.w.claimed[task].agent, raw)
  {
    var claim, entries, pc := s.w.claimed[task], s.w.registry.entries, At(s, e.p);
    assert ClaimOk(s.w, task) && PcOk(s.w, e.p, pc);
    assert pc.ReleaseMerged? && pc.task == task;
    MatchExists(entries, task, pc.agent);
    var mine :| mine in entries && Matches(mine, task, pc.agent) && mine.status.InProgress?;
    OneActiveEntry(entries, mine, EntryOf(claim));
  }

  // ---------------------------------------------------------------- one call, undisturbed

  class TaskWorktreeManager {
    const hash: Digest
    var registry: Registry
    var lockFile: bool
    var worktrees: set<int>
    var branches: set<int>

    constructor (hash: Digest, registry: Registry, lockFile: bool, worktrees: set<int>, branches: set<int>)
      ensures this.hash == hash && this.registry == registry && this.lockFile == lockFile
      ensures this.worktrees == worktrees && this.branches == branches
    {
      this.hash, this.registry, this.lockFile := hash, registry, lockFile;
      this.worktrees, this.branches := worktrees, branches;
    }

    static method ClaimConflicts(entries: seq<Entry>, c: Claim) returns (found: bool)
      ensures found == HasConflict(entries, c)
    {
      for i := 0 to |entries|
        invariant forall k | 0 <= k < i :: !Clashes(entries[k], c)
      {
        if Clashes(entries[i], c) { return true; }
      }
      return false;
    }

    static method KeepOthers(entries: seq<Entry>, task: int, agent: string) returns (kept: seq<Entry>)
      ensures kept == Without(entries, task, agent)
    {
      kept := [];
      for i := 0 to |entries|
        invariant kept == Without(entries[..i], task, agent)
      {
        assert entries[..i + 1][..i] == entries[..i];
        if !Matches(entries[i], task, agent) { kept := kept + [entries[i]]; }
      }
      assert entries[..|entries|] == entries;
    }

    static method CountClaims(entries: seq<Entry>, task: int, agent: string) returns (n: nat)
      ensures n == CountMatches(entries, task, agent)
    {
      n := 0;
      for i := 0 to |entries|
        invariant n == CountMatches(entries[..i], task, agent)
      {
        assert entries[..i + 1][..i] == entries[..i];
        if Matches(entries[i], task, agent) && entries[i].status.InProgress? { n := n + 1; }
      }
      assert entries[..|entries|] == entries;
    }

    /** The compare-and-swap of a claim: the registry changes only from the expected preimage. */
    method CasRegistry(expected: Hash, c: Claim, stamp: nat) returns (ok: bool)
      modifies this`registry
      ensures ok == (!lockFile && hash(old(registry)) == expected && !HasConflict(old(registry).entries, c))
      ensures registry == if ok then Registry(old(registry).entries + [EntryOf(c)], stamp) else old(registry)
    {
      ok := false;
      if !lockFile && hash(registry) == expected {
        var found := ClaimConflicts(registry.entries, c);
        if !found {
          registry := Registry(registry.entries + [EntryOf(c)], stamp);
          ok := true;
        }
      }
    }

    /** A claim on its own: it succeeds exactly when nothing owns the task or its paths, and a
        failed one leaves registry and worktrees as they were, but may leave its branch behind. */
    method Claim(c: Claim, gitAdds: bool, stamp: nat) returns (ok: bool)
      modifies this`registry, this`worktrees, this`branches
      ensures ok == (!HasConflict(old(registry).entries, c) && c.task !in old(worktrees) && c.task !in old(branches)
        && gitAdds && !lockFile)
      ensures ok ==> registry == Registry(old(registry).entries + [EntryOf(c)], stamp)
      ensures ok ==> worktrees == old(worktrees) + {c.task}
      ensures !ok ==> registry == old(registry) && worktrees == old(worktrees)
      ensures branches == if ok
        || (!HasConflict(old(registry).entries, c) && c.task !in old(worktrees) && c.task !in old(branches) && gitAdds)
                          then old(branches) + {c.task} else old(branches)
    {
      var found := ClaimConflicts(registry.entries, c);
      if found || c.task in worktrees || c.task in branches || !gitAdds { return false; }
      var expected := hash(registry);
      worktrees, branches := worktrees + {c.task}, branches + {c.task};
      ok := CasRegistry(expected, c, stamp);
      if !ok { worktrees := worktrees - {c.task}; }
    }

    /** A release on its own: exactly one matching entry, a passing gate and a merged branch. */
    method Release(task: int, agent: string, gatePasses: bool, merges: bool, stamp: nat) returns (ok: bool)
      modifies this`registry, this`worktrees
      ensures ok == (task in old(worktrees) && CountMatches(old(registry).entries, task, agent) == 1 && gatePasses
                     && !lockFile && task in branches && merges)
      ensures registry == if ok then Registry(Without(old(registry).entries, task, agent), stamp) else old(registry)
      ensures worktrees == if ok then old(worktrees) - {task} else old(worktrees)
    {
      if task !in worktrees { return false; }
      var n := CountClaims(registry.entries, task, agent);
      if n != 1 || !gatePasses || lockFile || task !in branches || !merges { return false; }
      var kept := KeepOthers(registry.entries, task, agent);
      registry := Registry(kept, stamp);
      worktrees := worktrees - {task};
      return true;
    }
  }
}
