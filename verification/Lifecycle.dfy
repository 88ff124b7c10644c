/** Task lifecycle in the ledger (orchestrator/scheduler.py, orchestrator/ledger.py): queueing,
    starting, finishing, expiry and crash recovery of task rows, and what runs of them keep. */
module Lifecycle {
  import opened Wrappers

  type Pid = nat
  type Identity = string
  type TaskId = nat

  datatype Status = Queued | Running | QuotaWait | Interrupted | Blocked | Done | Failed | InfraFailed | Stale

  /** `[week][seed n] text`: what makes a task the same task. */
  datatype Spec = Spec(mission: string, week: string, seed: nat, text: string)

  datatype Owner = Owner(pid: Pid, identity: Identity)

  /** The columns the scheduler reads or writes; NULL counts and tokens read as 0. */
  datatype Row = Row(
    spec: Spec,
    status: Status,
    started: bool,
    attempts: nat,
    tokensIn: nat,
    tokensOut: nat,
    lease: Option<int>,
    owner: Option<Owner>)

  const MAX_TASK_ATTEMPTS := 3
  const LEASE_SECONDS := 4200

  predicate Resumable(s: Status) { s.QuotaWait? || s.Queued? || s.Interrupted? || s.InfraFailed? }

  type Rows = map<TaskId, Row>

  // ---------------------------------------------------------------- one row

  function NewRow(spec: Spec): Row { Row(spec, Queued, false, 0, 0, 0, None, None) }

  function Started(r: Row, now: int, owner: Option<Owner>): Row {
    r.(status := Running, started := true, lease := Some(now + LEASE_SECONDS), owner := owner)
  }

  /** `finish_task` on these columns: an omitted value keeps what the row has. */
  function Finished(r: Row, status: Status, tokens: Option<(nat, nat)>, attempts: Option<nat>): Row {
    r.(status := status,
       tokensIn := if tokens.Some? then tokens.value.0 else r.tokensIn,
       tokensOut := if tokens.Some? then tokens.value.1 else r.tokensOut,
       attempts := if attempts.Some? then attempts.value else r.attempts)
  }

  /** What looking up a process yields: gone, this identity, or no answer. */
  datatype Lookup = Gone | Is(identity: Identity) | Unknown

  predicate Orphaned(r: Row, now: int, lookup: Pid -> Lookup) {
    || (r.owner.Some? && r.owner.value.identity != ""
        && (lookup(r.owner.value.pid).Gone?
            || (lookup(r.owner.value.pid).Is? && lookup(r.owner.value.pid).identity != r.owner.value.identity)))
    || r.lease.None? || r.lease.value < now
  }

  function Reconciled(r: Row, now: int, lookup: Pid -> Lookup): Row {
    if !r.status.Running? || !Orphaned(r, now, lookup) then r
    else r.(status := if r.attempts + 1 >= MAX_TASK_ATTEMPTS then Failed else Interrupted, attempts := r.attempts + 1)
  }

  function Expired(r: Row, week: string): Row {
    if (r.status.QuotaWait? || r.status.Queued?) && r.spec.week != week then r.(status := Stale) else r
  }

  /** This attempt's consumption on top of what the row carried when the attempt began. */
  function AccumulatedTokens(used: (nat, nat), prior: (nat, nat)): (nat, nat) { (used.0 + prior.0, used.1 + prior.1) }

  // ---------------------------------------------------------------- queueing

  ghost predicate HasSpec(rows: Rows, spec: Spec) { exists id :: id in rows && rows[id].spec == spec }

  /** No two rows share a spec, and ids are below the next one. */
  ghost predicate TableOk(rows: Rows, next: TaskId) {
    && (forall id | id in rows :: id < next)
    && (forall a, b | a in rows && b in rows && rows[a].spec == rows[b].spec :: a == b)
  }

  /** Never-attempted rows come before attempted ones; then by id. */
  predicate Before(rows: Rows, a: TaskId, b: TaskId)
    requires a in rows && b in rows
  {
    if rows[a].started != rows[b].started then rows[b].started else a < b
  }

  ghost predicate Sorted(rows: Rows, ids: seq<TaskId>) {
    && (forall i | 0 <= i < |ids| :: ids[i] in rows)
    && (forall i, k | 0 <= i < k < |ids| ::
          if rows[ids[i]].started == rows[ids[k]].started then ids[i] < ids[k] else !rows[ids[i]].started)
  }

  function Insert(rows: Rows, ids: seq<TaskId>, id: TaskId): seq<TaskId>
    requires id in rows && forall x | x in ids :: x in rows
  {
    if ids == [] then [id]
    else if Before(rows, id, ids[0]) then [id] + ids
    else [ids[0]] + Insert(rows, ids[1..], id)
  }

  lemma {:induction false} InsertHolds(rows: Rows, ids: seq<TaskId>, id: TaskId)
    requires id in rows && forall x | x in ids :: x in rows
    ensures forall x :: x in Insert(rows, ids, id) <==> x in ids || x == id
  {
    if ids != [] && !Before(rows, id, ids[0]) { InsertHolds(rows, ids[1..], id); }
  }

  lemma {:induction false} InsertSorted(rows: Rows, ids: seq<TaskId>, id: TaskId)
    requires id in rows && Sorted(rows, ids) && id !in ids
    ensures Sorted(rows, Insert(rows, ids, id))
  {
    if ids != [] && !Before(rows, id, ids[0]) {
      InsertSorted(rows, ids[1..], id);
      InsertHolds(rows, ids[1..], id);
      PutFirst(rows, ids[0], Insert(rows, ids[1..], id));
    } else if ids != [] {
      PutFirst(rows, id, ids);
    }
  }

  lemma PutFirst(rows: Rows, first: TaskId, rest: seq<TaskId>)
    requires first in rows && Sorted(rows, rest) && rest != []
    requires forall x | x in rest :: Before(rows, first, x) || x == first
    requires first !in rest
    ensures Sorted(rows, [first] + rest)
  {
    var all := [first] + rest;
    forall i, k | 0 <= i < k < |all|
      ensures if rows[all[i]].started == rows[all[k]].started then all[i] < all[k] else !rows[all[i]].started
    {
      assert all[k] == rest[k - 1] && rest[k - 1] in rest;
      if i == 0 { assert Before(rows, first, all[k]); } else { assert all[i] == rest[i - 1]; }
    }
  }

  function Find(rows: Rows, next: TaskId, spec: Spec): Option<TaskId> {
    if next == 0 then None
    else if next - 1 in rows && rows[next - 1].spec == spec then Some(next - 1)
    else Find(rows, next - 1, spec)
  }

  lemma {:induction false} FindExact(rows: Rows, next: TaskId, spec: Spec)
    ensures match Find(rows, next, spec)
            case Some(id) => id < next && id in rows && rows[id].spec == spec
            case None => forall id | id in rows && id < next :: rows[id].spec != spec
  {
    if next > 0 { FindExact(rows, next - 1, spec); }
  }

  /** The table, the next id, and the ids to run, in order. */
  datatype Queue = Queue(rows: Rows, next: TaskId, ids: seq<TaskId>)

  ghost predicate IdsKnown(q: Queue) { forall x | x in q.ids :: x in q.rows }

  /** One seed: resume its row, skip it, or queue it. */
  function QueueSeed(q: Queue, spec: Spec, dry: bool): Queue
    requires IdsKnown(q)
  {
    match Find(q.rows, q.next, spec)
    case Some(id) => if id in q.rows && Resumable(q.rows[id].status) then q.(ids := Insert(q.rows, q.ids, id)) else q
    case None =>
      if dry then q
      else var rows := q.rows[q.next := NewRow(spec)]; Queue(rows, q.next + 1, Insert(rows, q.ids, q.next))
  }

  /** What the queue has done after the seeds in `done`. */
  ghost predicate TableSoFar(before: Rows, done: seq<Spec>, dry: bool, q: Queue) {
    && TableOk(q.rows, q.next)
    && (forall id | id in before :: id in q.rows && q.rows[id] == before[id])
    && (forall id | id in q.rows && id !in before :: q.rows[id] == NewRow(q.rows[id].spec) && q.rows[id].spec in done)
    && (dry ==> q.rows == before)
    && (!dry ==> forall spec | spec in done :: HasSpec(q.rows, spec))
  }

  /** Exactly the unfinished rows of these seeds that nobody runs are to run, never-attempted ones first. */
  ghost predicate OrderSoFar(done: seq<Spec>, q: Queue) {
    && Sorted(q.rows, q.ids)
    && (forall id :: id in q.ids <==> id in q.rows && Waiting(q.rows[id].status) && q.rows[id].spec in done)
  }

  ghost predicate Waiting(s: Status) { s !in {Running, Blocked, Done, Failed, Stale} }

  ghost predicate QueuedSo(before: Rows, done: seq<Spec>, dry: bool, q: Queue) {
    TableSoFar(before, done, dry, q) && OrderSoFar(done, q)
  }

  lemma QueueResumes(before: Rows, done: seq<Spec>, dry: bool, q: Queue, spec: Spec, id: TaskId)
    requires QueuedSo(before, done, dry, q) && spec !in done && id in q.rows && q.rows[id].spec == spec
    ensures IdsKnown(q)
    ensures QueuedSo(before, done + [spec], dry, if Resumable(q.rows[id].status)
      then q.(ids := Insert(q.rows, q.ids, id)) else q)
  {
    var q' := if Resumable(q.rows[id].status) then q.(ids := Insert(q.rows, q.ids, id)) else q;
    ResumeKeepsTableSoFar(before, done, dry, q, spec, q');
    ResumeKeepsOrder(done, q, spec, id);
    hide TableSoFar, OrderSoFar, HasSpec, TableOk;
  }

  lemma ResumeKeepsOrder(done: seq<Spec>, q: Queue, spec: Spec, id: TaskId)
    requires TableOk(q.rows, q.next) && OrderSoFar(done, q) && spec !in done && id in q.rows && q.rows[id].spec == spec
    ensures IdsKnown(q)
    ensures OrderSoFar(done + [spec], if Resumable(q.rows[id].status) then q.(ids := Insert(q.rows, q.ids, id)) else q)
  {
    assert forall x :: x in done + [spec] <==> x in done || x == spec;
    InsertHolds(q.rows, q.ids, id);
    if Resumable(q.rows[id].status) { InsertSorted(q.rows, q.ids, id); }
    hide Sorted;
  }

  lemma ResumeKeepsTableSoFar(before: Rows, done: seq<Spec>, dry: bool, q: Queue, spec: Spec, q': Queue)
    requires TableSoFar(before, done, dry, q) && HasSpec(q.rows, spec) && q'.rows == q.rows && q'.next == q.next
    ensures TableSoFar(before, done + [spec], dry, q') && TableOk(q.rows, q.next)
  {
    assert forall x :: x in done + [spec] <==> x in done || x == spec;
    hide HasSpec, TableOk;
  }

  lemma AddKeepsTableSoFar(before: Rows, done: seq<Spec>, q: Queue, spec: Spec, q': Queue)
    requires TableSoFar(before, done, false, q) && !HasSpec(q.rows, spec)
    requires q'.rows == q.rows[q.next := NewRow(spec)] && q'.next == q.next + 1
    ensures TableSoFar(before, done + [spec], false, q')
  {
    forall x | x in done + [spec] ensures HasSpec(q'.rows, x) {
      if x == spec { assert q'.rows[q.next].spec == x; } else {
        var id :| id in q.rows && q.rows[id].spec == x;
        assert q'.rows[id].spec == x;
      }
    }
  }

  lemma QueueAdds(before: Rows, done: seq<Spec>, q: Queue, spec: Spec)
    requires QueuedSo(before, done, false, q) && spec !in done && !HasSpec(q.rows, spec)
    ensures IdsKnown(q)
    ensures var rows := q.rows[q.next := NewRow(spec)];
            QueuedSo(before, done + [spec], false, Queue(rows, q.next + 1, Insert(rows, q.ids, q.next)))
  {
    var rows := q.rows[q.next := NewRow(spec)];
    var q' := Queue(rows, q.next + 1, Insert(rows, q.ids, q.next));
    AddKeepsTableSoFar(before, done, q, spec, q');
    hide TableSoFar;
    InsertHolds(rows, q.ids, q.next);
    InsertSorted(rows, q.ids, q.next);
  }

  lemma QueueSeedKeeps(before: Rows, done: seq<Spec>, dry: bool, q: Queue, spec: Spec)
    requires QueuedSo(before, done, dry, q) && spec !in done
    ensures IdsKnown(q) && QueuedSo(before, done + [spec], dry, QueueSeed(q, spec, dry))
  {
    FindExact(q.rows, q.next, spec);
    var found := Find(q.rows, q.next, spec);
    if found.Some? {
      QueueResumes(before, done, dry, q, spec, found.value);
    } else if !dry {
      QueueAdds(before, done, q, spec);
    }
  }

  // ---------------------------------------------------------------- runs

  /** One attempt in progress: its task and the tokens its row carried when it began. */
  datatype Attempt = Attempt(id: TaskId, prior: (nat, nat))

  /** What happened to one task so far: interruptions found, recoveries for a retry, tokens reported. */
  datatype Past = Past(interruptions: nat, recoveries: nat, tokensIn: nat, tokensOut: nat)

  datatype World = World(rows: Rows, next: TaskId, live: map<Pid, Attempt>, past: map<TaskId, Past>)

  datatype Event =
    | Enqueue(spec: Spec)
    | Start(p: Pid, id: TaskId, now: int, owner: Option<Owner>)
    | Finish(p: Pid, status: Status, used: Option<(nat, nat)>, attempts: Option<nat>)
    | Die(p: Pid)
    | Reconcile(now: int, lookup: Pid -> Lookup)
    | Expire(week: string)

  /** Callers finish with an outcome, never lower the attempt count, and run one attempt of a task at a time. */
  ghost predicate Enabled(w: World, e: Event) {
    match e
    case Start(p, id, _, _) => p !in w.live && id in w.rows && forall q | q in w.live :: w.live[q].id != id
    case Finish(p, status, _, attempts) =>
      p in w.live && w.live[p].id in w.rows
          && (status.Done? || status.Failed? || status.InfraFailed? || status.QuotaWait?)
      && (attempts.Some? ==> attempts.value >= w.rows[w.live[p].id].attempts)
    case _ => true
  }

  ghost predicate Interrupts(r: Row, now: int, lookup: Pid -> Lookup) { r.status.Running? && Orphaned(r, now, lookup) }

  ghost function PastAfter(r: Row, past: Past, now: int, lookup: Pid -> Lookup): Past {
    if !Interrupts(r, now, lookup) then past
    else past.(interruptions := past.interruptions + 1,
               recoveries := if Reconciled(r, now, lookup).status.Interrupted? then past.recoveries + 1
                   else past.recoveries)
  }

  ghost function Step(w: World, e: Event): World
    requires Enabled(w, e) && w.past.Keys == w.rows.Keys
  {
    match e
    case Enqueue(spec) =>
      if HasSpec(w.rows, spec) then w
      else World(w.rows[w.next := NewRow(spec)], w.next + 1, w.live, w.past[w.next := Past(0, 0, 0, 0)])
    case Start(p, id, now, owner) =>
      w.(rows := w.rows[id := Started(w.rows[id], now, owner)],
         live := w.live[p := Attempt(id, (w.rows[id].tokensIn, w.rows[id].tokensOut))])
    case Finish(p, status, used, attempts) =>
      var a := w.live[p];
      var tokens := if used.Some? then Some(AccumulatedTokens(used.value, a.prior)) else None;
      var before := w.past[a.id];
      w.(rows := w.rows[a.id := Finished(w.rows[a.id], status, tokens, attempts)],
         live := w.live - {p},
         past := if used.None? then w.past
                 else w.past[a.id := before.(tokensIn := before.tokensIn + used.value.0, tokensOut :=
                     before.tokensOut + used.value.1)])
    case Die(p) => w.(live := w.live - {p})
    case Reconcile(now, lookup) =>
      w.(rows := map id | id in w.rows :: Reconciled(w.rows[id], now, lookup),
         past := map id | id in w.rows :: PastAfter(w.rows[id], w.past[id], now, lookup))
    case Expire(week) => w.(rows := map id | id in w.rows :: Expired(w.rows[id], week))
  }

  /** The books of one task. */
  ghost predicate RowOk(r: Row, past: Past) {
    && past.recoveries <= past.interruptions <= r.attempts
    && past.recoveries < MAX_TASK_ATTEMPTS
    && (r.status.Interrupted? ==> r.attempts < MAX_TASK_ATTEMPTS)
    && r.tokensIn == past.tokensIn && r.tokensOut == past.tokensOut
  }

  ghost predicate LiveOk(w: World, p: Pid)
    requires p in w.live
  {
    var a := w.live[p];
    && a.id in w.rows && a.prior == (w.rows[a.id].tokensIn, w.rows[a.id].tokensOut)
    && forall q | q in w.live && q != p :: w.live[q].id != a.id
  }

  ghost predicate Inv(w: World) {
    && w.past.Keys == w.rows.Keys
    && TableOk(w.rows, w.next)
    && (forall id | id in w.rows :: RowOk(w.rows[id], w.past[id]))
    && (forall p | p in w.live :: LiveOk(w, p))
  }

  /** The exact give-up rule: an interruption fails the task when the count, this one included,
      reaches the cap, and at the latest at its MAX_TASK_ATTEMPTS-th interruption. */
  lemma GivesUpAtTheCap(r: Row, past: Past, now: int, lookup: Pid -> Lookup)
    requires RowOk(r, past) && Interrupts(r, now, lookup)
    ensures Reconciled(r, now, lookup).status.Failed? <==> r.attempts + 1 >= 3
    ensures past.interruptions + 1 >= MAX_TASK_ATTEMPTS ==> Reconciled(r, now, lookup).status.Failed?
    ensures !Reconciled(r, now, lookup).status.Failed? ==> Resumable(Reconciled(r, now, lookup).status)
  {
  }

  /** A started task against crash recovery, exactly: it is left running if and only if its lease of
      4200 seconds has not run out and its recorded owner has not disappeared; no answer about the
      owner is no disappearance, and neither is a missing identity.  Otherwise it fails at its third
      attempt and can be resumed before that. */
  lemma StartedTaskIsSettledExactly(r: Row, now: int, owner: Option<Owner>, later: int, lookup: Pid -> Lookup)
    ensures var s := Reconciled(Started(r, now, owner), later, lookup);
            var there := owner.None? || owner.value.identity == "" || lookup(owner.value.pid) == Unknown
              || lookup(owner.value.pid) == Is(owner.value.identity);
            && (s.status.Running? <==> later <= now + 4200 && there)
            && (!s.status.Running? ==> s.status == if r.attempts >= 2 then Failed else Interrupted)
            && s.attempts == (if s.status.Running? then r.attempts else r.attempts + 1)
            && s == r.(status := s.status, attempts := s.attempts, started := true, lease := Some(now + 4200),
                       owner := owner)
    ensures !r.status.Running? ==> Reconciled(r, later, lookup) == r
    ensures r.status.Running? && r.lease.None? ==> !Reconciled(r, later, lookup).status.Running?
  {
  }

  /** Only attempted work outlives its week: the expiry takes queued and parked rows of other weeks
      out of the waiting ones, and leaves every other row as it is. */
  lemma OnlyAttemptedWorkOutlivesItsWeek(r: Row, week: string)
    ensures var e := Expired(r, week);
            && (e != r <==> r.spec.week != week && (r.status == Queued || r.status == QuotaWait))
            && e == r.(status := if e == r then r.status else Stale)
            && (r.spec.week != week && Waiting(e.status) ==> r.status == Interrupted || r.status == InfraFailed)
  {
  }

  lemma SameSpecsKeepTable(rows: Rows, next: TaskId, rows': Rows)
    requires TableOk(rows, next) && rows'.Keys == rows.Keys && forall id | id in rows :: rows'[id].spec == rows[id].spec
    ensures TableOk(rows', next)
  {
  }

  lemma ReconcileKeepsInv(w: World, now: int, lookup: Pid -> Lookup)
    requires Inv(w)
    ensures Inv(Step(w, Reconcile(now, lookup)))
  {
    var w' := Step(w, Reconcile(now, lookup));
    SameSpecsKeepTable(w.rows, w.next, w'.rows);
    forall id | id in w'.rows ensures RowOk(w'.rows[id], w'.past[id]) {}
    hide RowOk, TableOk, Orphaned;
    forall p | p in w'.live ensures LiveOk(w', p) { assert LiveOk(w, p); }
  }

  lemma ExpireKeepsInv(w: World, week: string)
    requires Inv(w)
    ensures Inv(Step(w, Expire(week)))
  {
    var w' := Step(w, Expire(week));
    SameSpecsKeepTable(w.rows, w.next, w'.rows);
    forall id | id in w'.rows ensures RowOk(w'.rows[id], w'.past[id]) { assert RowOk(w.rows[id], w.past[id]); }
    hide RowOk, TableOk;
    forall p | p in w'.live ensures LiveOk(w', p) { assert LiveOk(w, p); }
  }

  lemma StartKeepsInv(w: World, e: Event)
    requires Inv(w) && e.Start? && Enabled(w, e)
    ensures Inv(Step(w, e))
  {
    var w' := Step(w, e);
    SameSpecsKeepTable(w.rows, w.next, w'.rows);
    forall id | id in w'.rows ensures RowOk(w'.rows[id], w'.past[id]) { assert RowOk(w.rows[id], w.past[id]); }
    hide RowOk, TableOk;
    forall p | p in w'.live ensures LiveOk(w', p) { if p != e.p { assert LiveOk(w, p); } }
  }

  lemma FinishKeepsInv(w: World, e: Event)
    requires Inv(w) && e.Finish? && Enabled(w, e)
    ensures Inv(Step(w, e))
  {
    var w' := Step(w, e);
    assert LiveOk(w, e.p);
    SameSpecsKeepTable(w.rows, w.next, w'.rows);
    forall id | id in w'.rows ensures RowOk(w'.rows[id], w'.past[id]) { assert RowOk(w.rows[id], w.past[id]); }
    hide RowOk, TableOk;
    forall p | p in w'.live ensures LiveOk(w', p) { assert LiveOk(w, p); }
  }

  lemma StepKeepsInv(w: World, e: Event)
    requires Inv(w) && Enabled(w, e)
    ensures Inv(Step(w, e))
  {
    match e
    case Enqueue(spec) =>
    case Start(_, _, _, _) => StartKeepsInv(w, e);
    case Finish(_, _, _, _) => FinishKeepsInv(w, e);
    case Die(p) =>
      forall q | q in Step(w, e).live ensures LiveOk(Step(w, e), q) { assert LiveOk(w, q); }
    case Reconcile(now, lookup) => ReconcileKeepsInv(w, now, lookup);
    case Expire(week) => ExpireKeepsInv(w, week);
  }

  ghost predicate Run(w: World, es: seq<Event>, w': World)
    decreases |es|
  {
    if es == [] then w' == w
    else w.past.Keys == w.rows.Keys && Enabled(w, es[0]) && Run(Step(w, es[0]), es[1..], w')
  }

  lemma {:induction false} RunKeepsInv(w: World, es: seq<Event>, w': World)
    requires Inv(w) && Run(w, es, w')
    ensures Inv(w')
    decreases |es|
  {
    if es != [] {
      StepKeepsInv(w, es[0]);
      RunKeepsInv(Step(w, es[0]), es[1..], w');
    }
  }

  const EMPTY := World(map[], 0, map[], map[])

  /** Over every run of queueing, starting, finishing, crashing, expiry and recovery: no two rows
      are the same task; a task is recovered for a retry fewer than MAX_TASK_ATTEMPTS times; and
      its tokens are the sum of what its attempts reported. */
  lemma LifecycleBooks(es: seq<Event>, w: World, id: TaskId)
    requires Run(EMPTY, es, w) && id in w.rows
    ensures TableOk(w.rows, w.next)
    ensures id in w.past && w.past[id].recoveries < MAX_TASK_ATTEMPTS && w.past[id].interruptions <= w.rows[id].attempts
    ensures w.rows[id].tokensIn == w.past[id].tokensIn && w.rows[id].tokensOut == w.past[id].tokensOut
  {
    RunKeepsInv(EMPTY, es, w);
    assert RowOk(w.rows[id], w.past[id]);
  }

  /** Why callers must not lower the count: one that resets it gets a retry after any number of
      interruptions. */
  lemma LoweredCountDefeatsTheCap(r: Row, now: int, later: int, lookup: Pid -> Lookup)
    requires later > now + LEASE_SECONDS
    ensures var again := Started(Finished(r, QuotaWait, None, Some(0)), now, None);
            Interrupts(again, later, lookup) && Reconciled(again, later, lookup).status.Interrupted?
  {
  }

  /** Why attempts of one task must not overlap: the second report replaces the first, and the
      total is right only if the first reported nothing. */
  lemma OverlappingAttemptsLoseTokens(r: Row, first: (nat, nat), second: (nat, nat), s: Status)
    ensures var prior := (r.tokensIn, r.tokensOut);
            var after := Finished(Finished(r, s, Some(AccumulatedTokens(first, prior)), None), s,
                Some(AccumulatedTokens(second, prior)), None);
            (after.tokensIn == prior.0 + first.0 + second.0 && after.tokensOut == prior.1 + first.1 + second.1) <==>
                first == (0, 0)
  {
  }

  // ---------------------------------------------------------------- the tables, updated in place

  function SpecsOf(mission: string, week: string, seeds: seq<string>): seq<Spec> {
    seq(|seeds|, i requires 0 <= i < |seeds| => Spec(mission, week, i + 1, seeds[i]))
  }

  ghost function Changed(before: Rows, after: Rows): set<TaskId> {
    set id | id in after && (id !in before || after[id] != before[id])
  }

  class Ledger {
    var rows: Rows
    var next: TaskId

    constructor ()
      ensures rows == map[] && next == 0
    {
      rows, next := map[], 0;
    }

    /** Queue this week's seeds: afterwards every seed has its one row, nothing else changed, and
        the result names exactly the seeds' resumable rows, never-attempted ones first. */
    method QueueMissionTasks(mission: string, week: string, seeds: seq<string>, dry: bool) returns (ids: seq<TaskId>)
      requires TableOk(rows, next)
      modifies this
      ensures QueuedSo(old(rows), SpecsOf(mission, week, seeds), dry, Queue(rows, next, ids))
    {
      ghost var before := rows;
      var specs := SpecsOf(mission, week, seeds);
      ids := [];
      for i := 0 to |specs|
        invariant QueuedSo(before, specs[..i], dry, Queue(rows, next, ids))
      {
        assert specs[..i + 1] == specs[..i] + [specs[i]];
        assert forall k | 0 <= k < i :: specs[..i][k].seed == k + 1;
        QueueSeedKeeps(before, specs[..i], dry, Queue(rows, next, ids), specs[i]);
        var q := QueueSeed(Queue(rows, next, ids), specs[i], dry);
        rows, next, ids := q.rows, q.next, q.ids;
      }
      assert specs[..|specs|] == specs;
    }

    method StartTask(id: TaskId, now: int, owner: Option<Owner>)
      modifies this`rows
      ensures rows == if id in old(rows) then old(rows)[id := Started(old(rows)[id], now, owner)] else old(rows)
    {
      if id in rows { rows := rows[id := Started(rows[id], now, owner)]; }
    }

    method FinishTask(id: TaskId, status: Status, tokens: Option<(nat, nat)>, attempts: Option<nat>)
      modifies this`rows
      ensures rows == if id in old(rows) then old(rows)[id := Finished(old(rows)[id], status, tokens, attempts)]
        else old(rows)
    {
      if id in rows { rows := rows[id := Finished(rows[id], status, tokens, attempts)]; }
    }

    /** After an expiry no parked or queued row of another week is left waiting. */
    method ExpireStaleParked(week: string) returns (expired: nat)
      modifies this`rows
      ensures rows.Keys == old(rows).Keys && forall id | id in rows :: rows[id] == Expired(old(rows)[id], week)
      ensures forall id | id in rows
        && (rows[id].status.Queued? || rows[id].status.QuotaWait?) :: rows[id].spec.week == week
      ensures expired == |Changed(old(rows), rows)|
    {
      expired := 0;
      var rest := rows.Keys;
      while rest != {}
        invariant rest <= rows.Keys == old(rows).Keys
        invariant forall id | id in rest :: rows[id] == old(rows)[id]
        invariant forall id | id in rows && id !in rest :: rows[id] == Expired(old(rows)[id], week)
        invariant expired == |Changed(old(rows), rows)|
        decreases |rest|
      {
        var id :| id in rest;
        if Expired(rows[id], week) != rows[id] {
          ghost var before := rows;
          rows := rows[id := Expired(rows[id], week)];
          expired := expired + 1;
          assert Changed(old(rows), rows) == Changed(old(rows), before) + {id};
        }
        rest := rest - {id};
      }
    }

    /** Crash recovery at process start: every orphaned running row is settled, no other changes. */
    method ReconcileInterruptedTasks(now: int, lookup: Pid -> Lookup) returns (settled: nat)
      modifies this`rows
      ensures rows.Keys == old(rows).Keys
        && forall id | id in rows :: rows[id] == Reconciled(old(rows)[id], now, lookup)
      ensures forall id | id in rows && rows[id].status.Running? :: !Orphaned(rows[id], now, lookup)
      ensures settled == |Changed(old(rows), rows)|
    {
      settled := 0;
      var rest := rows.Keys;
      while rest != {}
        invariant rest <= rows.Keys == old(rows).Keys
        invariant forall id | id in rest :: rows[id] == old(rows)[id]
        invariant forall id | id in rows && id !in rest :: rows[id] == Reconciled(old(rows)[id], now, lookup)
        invariant settled == |Changed(old(rows), rows)|
        decreases |rest|
      {
        var id :| id in rest;
        if rows[id].status.Running? && Orphaned(rows[id], now, lookup) {
          ghost var before := rows;
          rows := rows[id := Reconciled(rows[id], now, lookup)];
          settled := settled + 1;
          assert Changed(old(rows), rows) == Changed(old(rows), before) + {id};
        }
        rest := rest - {id};
      }
    }
  }
}
