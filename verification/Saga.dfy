/** The journalled onboarding saga of orchestrator/onboarding_autonomy.py.

    Every durable effect is one action.  A process performs a script of actions and may die,
    or raise, after any of them; the next process rolls the journal forward. */
module Saga {
  import opened Wrappers
  import P = Payload

  type RunId = string
  type Hash = string
  type Bytes = seq<char>

  datatype Phase = Admitted | Collecting | Prepared | Reviewed | DomainCommitted | ArtifactsPublished | TaskFinalized

  function Index(p: Phase): nat {
    match p
    case Admitted => 0 case Collecting => 1 case Prepared => 2 case Reviewed => 3
    case DomainCommitted => 4 case ArtifactsPublished => 5 case TaskFinalized => 6
  }

  datatype Status = Done | Failed | InfraFailed | QuotaWait

  function StatusForVerdict(verdict: string): Status {
    if verdict == "pass" then Done else if verdict == "infra_failed" then InfraFailed else Failed
  }

  /** One manifest entry: an artifact name and the digest recorded for it. */
  datatype Item = Item(name: string, digest: Hash)

  /** A journal file.  `payload` is the entry as the file holds it, null until it is prepared. */
  datatype Journal = Journal(phase: Phase, items: seq<Item>, payload: P.Json, verdict: Option<string>,
      terminal: Option<Status>)

  /** Durable state.  `decisions` holds, by run, the winner that each decision row of the run names:
      the statement of the row is made of both.  `witnessed` holds the runs whose artifacts were all
      in place, with their recorded digests, when the run was finalized. */
  datatype World = World(
    journals: map<RunId, Journal>,
    staged: map<RunId, map<string, Bytes>>,
    dest: map<string, Bytes>,
    decisions: map<RunId, seq<string>>,
    ledger: map<RunId, Status>,
    witnessed: set<RunId>)

  const EMPTY_WORLD := World(map[], map[], map[], map[], map[], {})

  datatype Action =
    | Create
    | Stage(files: map<string, Bytes>, collected: P.Payload)
    | Advance(phase: Phase, items: seq<Item>, payload: P.Json, verdict: Option<string>)
    | Revalidate
    | Commit(reviewed: P.Payload)
    | PublishOne(item: Item)
    | FinishTask(status: Status)
    | Finalize(status: Status)

  /** The digest of artifacts and the payload validator. */
  datatype Env = Env(digest: Bytes -> Hash, validate: P.Json -> P.Result<P.Payload>)

  /** The validator the harness uses, with the Unicode tables and the float range around it. */
  function HarnessEnv(digest: Bytes -> Hash, u: P.Unicode, floatRange: int): Env {
    Env(digest, j => P.Validate(u, floatRange, j))
  }

  // ---------------------------------------------------------------- the payload of a run

  /** The guard of `_stage_artifacts`. */
  predicate Stageable(p: P.Payload) { p.winner.Some? && p.critiques != [] && p.estimates != [] }

  /** The guard of `_commit_domain_memory`. */
  predicate Committable(p: P.Payload) { p.winner.Some? && |p.estimates| == 3 }

  /** `to_json` through the journal file. */
  function WrittenPayload(p: P.Payload): P.Json { P.Reread(P.ToJson(p)) }

  /** What the validator makes of the payload entry of a journal file. */
  function Reaccepted(d: Env, payload: P.Json): P.Result<P.Payload> { d.validate(payload) }

  /** The payload the validator reads out of a journal file is one that can be committed. */
  predicate Recommits(d: Env, payload: P.Json) {
    Reaccepted(d, payload).Ok? && Committable(Reaccepted(d, payload).value)
  }

  /** What recovery needs of the validator: a payload it accepted and staging let through comes
      back from the journal file unchanged, and can be committed. */
  ghost predicate KeepsStaged(d: Env) {
    forall raw, p :: Reaccepted(d, raw) == P.Ok(p) && Stageable(p) ==>
      Reaccepted(d, WrittenPayload(p)) == P.Ok(p) && Committable(p)
  }

  function WinnerOf(d: Env, payload: P.Json): string
    requires Recommits(d, payload)
  {
    Reaccepted(d, payload).value.winner.value
  }

  function Decided(w: World, r: RunId): seq<string> { if r in w.decisions then w.decisions[r] else [] }

  // ---------------------------------------------------------------- one durable action

  function StagedFile(w: World, r: RunId, name: string): Option<Bytes> {
    if r in w.staged && name in w.staged[r] then Some(w.staged[r][name]) else None
  }

  predicate InPlace(d: Env, w: World, item: Item) {
    item.name in w.dest && d.digest(w.dest[item.name]) == item.digest
  }

  predicate AllInPlace(d: Env, w: World, items: seq<Item>) {
    forall i | 0 <= i < |items| :: InPlace(d, w, items[i])
  }

  /** `_publish_artifacts` for one entry: move a staged file whose digest matches, then check the destination. */
  function PublishStep(d: Env, w: World, r: RunId, item: Item): Option<World> {
    var file := StagedFile(w, r, item.name);
    if file.Some? && d.digest(file.value) != item.digest then None
    else
      var w1 := if file.None? then w
                else w.(dest := w.dest[item.name := file.value], staged := w.staged[r := w.staged[r] - {item.name}]);
      if InPlace(d, w1, item) then Some(w1) else None
  }

  /** `OnboardingRunJournal.advance` to a phase other than the last. */
  function AdvanceStep(j: Journal, phase: Phase, items: seq<Item>, payload: P.Json,
      verdict: Option<string>): Option<Journal> {
    if phase.TaskFinalized? || Index(phase) != Index(j.phase) + 1 then None
    else Some(Journal(phase, if phase.Prepared? then items else j.items, if phase.Prepared? then payload else j.payload,
                      if phase.Reviewed? then verdict else j.verdict, j.terminal))
  }

  /** The effect of one action for run `r`, or None when the action raises. */
  function Do(d: Env, w: World, r: RunId, a: Action): Option<World> {
    if a.Create? then
      Some(w.(journals := w.journals[r := Journal(Admitted, [], P.Null, None, None)]))
    else if r !in w.journals then None
    else
      var j := w.journals[r];
      match a
      case Create => Some(w)
      case Stage(files, payload) =>
        if r in w.staged || !Stageable(payload) then None else Some(w.(staged := w.staged[r := files]))
      case Advance(phase, items, payload, verdict) =>
        var j1 := AdvanceStep(j, phase, items, payload, verdict);
        if j1.None? then None else Some(w.(journals := w.journals[r := j1.value]))
      case Revalidate => if Reaccepted(d, j.payload).Ok? then Some(w) else None
      case Commit(payload) =>
        if !Committable(payload) then None
        else if payload.winner.value in Decided(w, r) then Some(w)
        else Some(w.(decisions := w.decisions[r := Decided(w, r) + [payload.winner.value]]))
      case PublishOne(item) => PublishStep(d, w, r, item)
      case FinishTask(status) => Some(w.(ledger := w.ledger[r := status]))
      case Finalize(status) =>
        if j.phase.TaskFinalized? then None
        else Some(w.(journals := w.journals[r := j.(phase := TaskFinalized, terminal := Some(status))],
                     witnessed := if AllInPlace(d, w, j.items) then w.witnessed + {r} else w.witnessed))
  }

  /** When an action of an existing run raises: staging a second time or an incomplete payload, a
      phase that is not the next one, a payload the validator rejects, a decision without a winner
      or its three estimates, an artifact that is staged with another digest, or neither staged nor
      in place, and a second finalization. */
  lemma RaisesExactly(d: Env, w: World, r: RunId, a: Action)
    requires r in w.journals
    ensures var j := w.journals[r];
            Do(d, w, r, a).None? <==>
            match a
            case Stage(_, p) => r in w.staged || p.winner == None || p.critiques == [] || p.estimates == []
            case Advance(phase, _, _, _) => phase == TaskFinalized || Index(phase) != Index(j.phase) + 1
            case Revalidate => d.validate(j.payload).Err?
            case Commit(p) => p.winner == None || |p.estimates| != 3
            case PublishOne(item) =>
              if r in w.staged && item.name in w.staged[r] then d.digest(w.staged[r][item.name]) != item.digest
              else item.name !in w.dest || d.digest(w.dest[item.name]) != item.digest
            case Finalize(_) => j.phase == TaskFinalized
            case _ => false
  {
  }

  /** A run is witnessed by its finalization alone, and only with every artifact in place. */
  lemma WitnessIsTrue(d: Env, w: World, r: RunId, a: Action, seen: RunId)
    requires Do(d, w, r, a).Some? && seen in Do(d, w, r, a).value.witnessed && seen !in w.witnessed
    ensures seen == r && a.Finalize? && r in w.journals
    ensures forall item | item in w.journals[r].items ::
              item.name in w.dest && d.digest(w.dest[item.name]) == item.digest
  {
  }

  /** Committing adds the decision row of the winner unless the run has it, and nothing else; so a
      second commit of the same payload changes nothing, and one for another winner adds a row. */
  lemma CommitAddsOnce(d: Env, w: World, r: RunId, p: P.Payload, q: P.Payload)
    requires r in w.journals && p.winner.Some? && |p.estimates| == 3 && q.winner.Some? && |q.estimates| == 3
    ensures var once := Do(d, w, r, Commit(p));
            && once.Some? && once.value == w.(decisions := once.value.decisions)
            && (forall r' | r' != r :: Decided(once.value, r') == Decided(w, r'))
            && Decided(once.value, r)
               == Decided(w, r) + (if p.winner.value in Decided(w, r) then [] else [p.winner.value])
            && var twice := Do(d, once.value, r, Commit(q));
               && twice.Some?
               && (twice == once <==> q.winner == p.winner || q.winner.value in Decided(w, r))
  {
    var once := Do(d, w, r, Commit(p)).value;
    var twice := Do(d, once, r, Commit(q)).value;
    if q.winner.value !in Decided(once, r) { assert Decided(twice, r) == Decided(once, r) + [q.winner.value]; }
  }

  // ---------------------------------------------------------------- scripts

  function PublishScript(items: seq<Item>): seq<Action> {
    seq(|items|, i requires 0 <= i < |items| => PublishOne(items[i]))
  }

  const CLOSE_DONE: seq<Action> := [FinishTask(Done), Finalize(Done)]

  function CloseScript(status: Status): seq<Action> { [FinishTask(status), Finalize(status)] }

  function PublishPart(items: seq<Item>): seq<Action> {
    PublishScript(items) + ([Advance(ArtifactsPublished, [], P.Null, None)] + CLOSE_DONE)
  }

  function CommitPart(payload: P.Payload, items: seq<Item>): seq<Action> {
    [Commit(payload), Advance(DomainCommitted, [], P.Null, None)] + PublishPart(items)
  }

  /** What recovery does with a reviewed journal whose payload entry was accepted again as `payload`. */
  function ResumeScript(j: Journal, payload: P.Payload): seq<Action> {
    if j.verdict != Some("pass") then
      CloseScript(StatusForVerdict(if j.verdict.Some? then j.verdict.value else "infra_failed"))
    else match j.phase
         case Reviewed => CommitPart(payload, j.items)
         case DomainCommitted => PublishPart(j.items)
         case _ => CLOSE_DONE
  }

  /** What recovery does with one journal. */
  function RecoverScript(d: Env, j: Journal): seq<Action> {
    if j.phase.TaskFinalized? then []
    else if Index(j.phase) < Index(Reviewed) then CloseScript(InfraFailed)
    else match Reaccepted(d, j.payload)
         case Err(_) => [Revalidate]
         case Ok(payload) => [Revalidate] + ResumeScript(j, payload)
  }

  /** What the model calls of a run yield: the JSON it collects and the payload accepted from it,
      the two artifacts and the manifest recorded for them, and the verdict. */
  datatype Plan = Plan(
    raw: P.Json, payload: P.Payload, files: map<string, Bytes>, items: seq<Item>, verdict: string)

  /** A payload the validator accepted and staging let through, with the artifacts staged for it. */
  ghost predicate ManifestOf(d: Env, p: Plan) {
    && Reaccepted(d, p.raw) == P.Ok(p.payload) && Stageable(p.payload)
    && (forall i, k | 0 <= i < k < |p.items| :: p.items[i].name != p.items[k].name)
    && (forall i | 0 <= i < |p.items| ::
          p.items[i].name in p.files && p.items[i].digest == d.digest(p.files[p.items[i].name]))
  }

  function PrepareScript(p: Plan): seq<Action> {
    [Create, Advance(Collecting, [], P.Null, None), Stage(p.files, p.payload),
        Advance(Prepared, p.items, WrittenPayload(p.payload), None),
     Advance(Reviewed, [], P.Null, Some(p.verdict))]
  }

  function VerdictPart(p: Plan): seq<Action> {
    if p.verdict == "pass" then CommitPart(p.payload, p.items) else CloseScript(StatusForVerdict(p.verdict))
  }

  /** The whole workflow of one run. */
  function WorkflowScript(p: Plan): seq<Action> { PrepareScript(p) + VerdictPart(p) }

  /** The first `k` actions of a script; an action that raises ends it. */
  function Exec(d: Env, w: World, r: RunId, script: seq<Action>, k: nat): World
    decreases k
  {
    if k == 0 || script == [] then w
    else match Do(d, w, r, script[0])
         case None => w
         case Some(w1) => Exec(d, w1, r, script[1..], k - 1)
  }

  lemma ExecCons(d: Env, w: World, r: RunId, a: Action, rest: seq<Action>, k: nat)
    ensures Exec(d, w, r, [a] + rest, k) ==
            if k == 0 || Do(d, w, r, a).None? then w else Exec(d, Do(d, w, r, a).value, r, rest, k - 1)
  {
    assert ([a] + rest)[1..] == rest;
  }

  lemma ExecOnce(d: Env, w: World, r: RunId, a: Action, rest: seq<Action>, k: nat, w1: World)
    requires k > 0 && Do(d, w, r, a) == Some(w1)
    ensures Exec(d, w, r, [a] + rest, k) == Exec(d, w1, r, rest, k - 1)
  {
    ExecCons(d, w, r, a, rest, k);
  }

  // ---------------------------------------------------------------- the invariant

  ghost predicate Passed(j: Journal) { j.verdict == Some("pass") && Index(j.phase) >= Index(Reviewed) }

  ghost predicate Distinct(items: seq<Item>) {
    forall i, k | 0 <= i < k < |items| :: items[i].name != items[k].name
  }

  /** An artifact is still staged with its digest, or, once the domain is committed, in place. */
  ghost predicate Kept(d: Env, w: World, r: RunId, item: Item, movable: bool) {
    var file := StagedFile(w, r, item.name);
    if file.Some? then d.digest(file.value) == item.digest else movable && InPlace(d, w, item)
  }

  ghost predicate OpenOk(d: Env, w: World, r: RunId, j: Journal) {
    && j.terminal.None?
    && (Index(j.phase) < Index(Reviewed) ==> j.verdict.None?)
    && (j.verdict != Some("pass") ==> Index(j.phase) <= Index(Reviewed))
    && (Index(j.phase) >= Index(Prepared) ==> Recommits(d, j.payload))
    && (Index(j.phase) < Index(Reviewed) || j.verdict != Some("pass") ==> Decided(w, r) == [])
    && (Index(j.phase) == Index(Reviewed) ==> Decided(w, r) == [] || Decided(w, r) == [WinnerOf(d, j.payload)])
    && (Index(j.phase) >= Index(DomainCommitted) ==> Decided(w, r) == [WinnerOf(d, j.payload)])
    && (Index(j.phase) < Index(Prepared) ==> j.items == [])
    && (Index(j.phase) >= Index(Prepared) ==>
          && Distinct(j.items)
          && forall i | 0 <= i < |j.items| :: Kept(d, w, r, j.items[i], Index(j.phase) >= Index(DomainCommitted)))
    && (j.phase.ArtifactsPublished? ==> AllInPlace(d, w, j.items))
  }

  ghost predicate ClosedOk(d: Env, w: World, r: RunId, j: Journal) {
    && j.terminal.Some?
    && (r in w.ledger && Some(w.ledger[r]) == j.terminal)
    && (j.terminal == Some(Done) ==> j.verdict == Some("pass") && r in w.witnessed)
    && (j.terminal == Some(Done) ==> Recommits(d, j.payload) && Decided(w, r) == [WinnerOf(d, j.payload)])
    && (j.terminal != Some(Done) ==> j.verdict != Some("pass") && Decided(w, r) == [])
    && (j.terminal != Some(Done) ==> forall i | 0 <= i < |j.items| :: StagedFile(w, r, j.items[i].name).Some?)
  }

  ghost predicate RunOk(d: Env, w: World, r: RunId) {
    && (r !in w.journals ==> Decided(w, r) == [] && r !in w.staged)
    && (r in w.journals ==>
          if w.journals[r].phase.TaskFinalized? then ClosedOk(d, w, r, w.journals[r])
              else OpenOk(d, w, r, w.journals[r]))
  }

  ghost predicate Open(w: World, r: RunId) { r in w.journals && !w.journals[r].phase.TaskFinalized? }

  ghost predicate Inv(d: Env, w: World) {
    && (forall r :: RunOk(d, w, r))
    && (forall r, r' | Open(w, r) && Open(w, r') :: r == r')
  }

  // ---------------------------------------------------------------- legal actions

  /** The situation in which a script performs an action. */
  ghost predicate Legal(d: Env, w: World, r: RunId, a: Action) {
    match a
    case Create => r !in w.journals && forall r' :: !Open(w, r')
    case Stage(_, _) => Open(w, r) && w.journals[r].phase.Collecting?
    case Advance(phase, items, payload, verdict) =>
      && Open(w, r)
      && (phase.Prepared? ==>
            Recommits(d, payload) && Distinct(items) && forall i | 0 <= i < |items| :: Kept(d, w, r, items[i], false))
      && (phase.Reviewed? ==> verdict.Some?)
      && (phase.DomainCommitted? ==> w.journals[r].verdict == Some("pass") && Decided(w, r) != [])
      && (phase.ArtifactsPublished? ==> AllInPlace(d, w, w.journals[r].items))
    case Revalidate => Open(w, r) && Index(w.journals[r].phase) >= Index(Reviewed)
    case Commit(payload) =>
      && Open(w, r) && w.journals[r].phase.Reviewed? && w.journals[r].verdict == Some("pass")
      && Reaccepted(d, w.journals[r].payload) == P.Ok(payload)
    case PublishOne(item) => Open(w, r) && w.journals[r].phase.DomainCommitted? && item in w.journals[r].items
    case FinishTask(_) => Open(w, r)
    case Finalize(status) =>
      && Open(w, r) && r in w.ledger && w.ledger[r] == status
      && (if status.Done? then w.journals[r].phase.ArtifactsPublished? else !Passed(w.journals[r]))
  }

  /** What an action may touch of the other runs: only the shared destination and the witness set grow. */
  ghost predicate OthersSame(w: World, r: RunId, w': World) {
    && w.witnessed <= w'.witnessed
    && forall r' | r' != r ::
         && (r' in w.journals <==> r' in w'.journals) && (r' in w.journals ==> w'.journals[r'] == w.journals[r'])
         && (r' in w.staged <==> r' in w'.staged) && (r' in w.staged ==> w'.staged[r'] == w.staged[r'])
         && (r' in w.ledger <==> r' in w'.ledger) && (r' in w.ledger ==> w'.ledger[r'] == w.ledger[r'])
         && Decided(w', r') == Decided(w, r')
  }

  lemma PublishIsLocal(d: Env, w: World, r: RunId, item: Item)
    requires PublishStep(d, w, r, item).Some?
    ensures OthersSame(w, r, PublishStep(d, w, r, item).value)
  {}

  lemma ActionIsLocal(d: Env, w: World, r: RunId, a: Action)
    requires Do(d, w, r, a).Some?
    ensures OthersSame(w, r, Do(d, w, r, a).value)
  {
    hide AllInPlace, AdvanceStep, Reaccepted, Stageable, Committable;
    if a.PublishOne? { PublishIsLocal(d, w, r, a.item); }
    hide PublishStep;
  }

  lemma OthersKept(d: Env, w: World, r: RunId, w': World)
    requires Inv(d, w) && OthersSame(w, r, w') && RunOk(d, w', r)
    requires Open(w, r) || forall r' :: !Open(w, r')
    ensures Inv(d, w')
  {
    forall r' ensures RunOk(d, w', r') {
      if r' != r { assert RunOk(d, w, r') && !Open(w, r'); }
    }
    forall r' | r' != r ensures !Open(w', r') { assert !Open(w, r'); }
  }

  lemma PublishKeepsRun(d: Env, w: World, r: RunId, item: Item)
    requires RunOk(d, w, r) && Legal(d, w, r, PublishOne(item)) && PublishStep(d, w, r, item).Some?
    ensures RunOk(d, PublishStep(d, w, r, item).value, r)
  {
    var w', j := PublishStep(d, w, r, item).value, w.journals[r];
    forall i | 0 <= i < |j.items| ensures Kept(d, w', r, j.items[i], true) {
      assert Kept(d, w, r, j.items[i], true);
    }
  }

  lemma AdvanceKeepsRun(d: Env, w: World, r: RunId, a: Action)
    requires RunOk(d, w, r) && a.Advance? && Legal(d, w, r, a) && Do(d, w, r, a).Some?
    ensures RunOk(d, Do(d, w, r, a).value, r)
  {
    var w', j := Do(d, w, r, a).value, w.journals[r];
    var j' := w'.journals[r];
    forall i | 0 <= i < |j'.items| && Index(j'.phase) >= Index(Prepared)
      ensures Kept(d, w', r, j'.items[i], Index(j'.phase) >= Index(DomainCommitted))
    {
      if a.phase.Prepared? { assert Kept(d, w, r, a.items[i], false); }
      else { assert Kept(d, w, r, j.items[i], Index(j.phase) >= Index(DomainCommitted)); }
    }
  }

  lemma FinalizeKeepsRun(d: Env, w: World, r: RunId, a: Action)
    requires RunOk(d, w, r) && a.Finalize? && Legal(d, w, r, a) && Do(d, w, r, a).Some?
    ensures RunOk(d, Do(d, w, r, a).value, r)
  {
    hide Reaccepted, Distinct;
    var w', j := Do(d, w, r, a).value, w.journals[r];
    if !a.status.Done? && Index(j.phase) >= Index(Prepared) {
      forall i | 0 <= i < |j.items| ensures StagedFile(w', r, j.items[i].name).Some? {
        assert Kept(d, w, r, j.items[i], false);
      }
    }
  }

  /** Each legal action keeps the invariant of all runs. */
  lemma ActionKeepsInv(d: Env, w: World, r: RunId, a: Action)
    requires Inv(d, w) && Legal(d, w, r, a) && Do(d, w, r, a).Some?
    ensures Inv(d, Do(d, w, r, a).value)
  {
    var w' := Do(d, w, r, a).value;
    assert RunOk(d, w, r);
    match a {
      case PublishOne(item) => PublishKeepsRun(d, w, r, item);
      case Advance(_, _, _, _) => AdvanceKeepsRun(d, w, r, a);
      case Finalize(_) => FinalizeKeepsRun(d, w, r, a);
      case _ =>
    }
    ActionIsLocal(d, w, r, a);
    OthersKept(d, w, r, w');
  }

  // ---------------------------------------------------------------- legal scripts

  /** Every action of the script, in turn, is legal and does not raise. */
  ghost predicate LegalScript(d: Env, w: World, r: RunId, script: seq<Action>)
    decreases |script|
  {
    script == [] ||
    (Legal(d, w, r, script[0]) && Do(d, w, r, script[0]).Some?
     && LegalScript(d, Do(d, w, r, script[0]).value, r, script[1..]))
  }

  lemma {:induction false} ExecKeepsInv(d: Env, w: World, r: RunId, script: seq<Action>, k: nat)
    requires Inv(d, w) && LegalScript(d, w, r, script)
    ensures Inv(d, Exec(d, w, r, script, k))
    decreases k
  {
    if k > 0 && script != [] {
      ActionKeepsInv(d, w, r, script[0]);
      ExecKeepsInv(d, Do(d, w, r, script[0]).value, r, script[1..], k - 1);
    }
  }

  /** A legal first action followed by a legal rest. */
  lemma Prepend(d: Env, w: World, r: RunId, a: Action, rest: seq<Action>)
    requires Legal(d, w, r, a) && Do(d, w, r, a).Some? && LegalScript(d, Do(d, w, r, a).value, r, rest)
    ensures LegalScript(d, w, r, [a] + rest)
  {
    assert ([a] + rest)[1..] == rest;
  }

  lemma CloseIsLegal(d: Env, w: World, r: RunId, status: Status)
    requires Open(w, r)
    requires if status.Done? then w.journals[r].phase.ArtifactsPublished? else !Passed(w.journals[r])
    ensures LegalScript(d, w, r, CloseScript(status))
  {
    var w1 := Do(d, w, r, FinishTask(status)).value;
    var w2 := Do(d, w1, r, Finalize(status)).value;
    assert LegalScript(d, w2, r, []);
    Prepend(d, w1, r, Finalize(status), []);
    assert [Finalize(status)] + [] == [Finalize(status)];
    Prepend(d, w, r, FinishTask(status), [Finalize(status)]);
    assert [FinishTask(status)] + [Finalize(status)] == CloseScript(status);
  }

  lemma PublishedIsLegal(d: Env, w: World, r: RunId)
    requires Open(w, r) && w.journals[r].phase.DomainCommitted? && AllInPlace(d, w, w.journals[r].items)
    ensures LegalScript(d, w, r, [Advance(ArtifactsPublished, [], P.Null, None)] + CLOSE_DONE)
  {
    var w1 := Do(d, w, r, Advance(ArtifactsPublished, [], P.Null, None)).value;
    CloseIsLegal(d, w1, r, Done);
    assert CloseScript(Done) == CLOSE_DONE;
    Prepend(d, w, r, Advance(ArtifactsPublished, [], P.Null, None), CLOSE_DONE);
  }

  /** Publishing the artifacts from the `n`-th on, those before it being in place. */
  ghost predicate Publishing(d: Env, w: World, r: RunId, n: nat) {
    && Open(w, r) && w.journals[r].phase.DomainCommitted? && n <= |w.journals[r].items|
    && Distinct(w.journals[r].items)
    && (forall i | 0 <= i < |w.journals[r].items| :: Kept(d, w, r, w.journals[r].items[i], true))
    && (forall i | 0 <= i < n :: InPlace(d, w, w.journals[r].items[i]))
  }

  lemma PublishOneSucceeds(d: Env, w: World, r: RunId, n: nat)
    requires Publishing(d, w, r, n) && n < |w.journals[r].items|
    ensures var a := PublishOne(w.journals[r].items[n]);
            Legal(d, w, r, a) && Do(d, w, r, a).Some? && Publishing(d, Do(d, w, r, a).value, r, n + 1)
            && Do(d, w, r, a).value.journals == w.journals
  {
    var items := w.journals[r].items;
    var w' := Do(d, w, r, PublishOne(items[n])).value;
    forall i | 0 <= i < |items|
      ensures Kept(d, w', r, items[i], true) && (i <= n ==> InPlace(d, w', items[i]))
    {
      assert Kept(d, w, r, items[i], true) && Kept(d, w, r, items[n], true);
      if i < n { assert InPlace(d, w, items[i]); }
    }
  }

  lemma {:induction false} PublishIsLegal(d: Env, w: World, r: RunId, n: nat)
    requires Publishing(d, w, r, n)
    ensures LegalScript(d, w, r, PublishPart(w.journals[r].items)[n..])
    decreases |w.journals[r].items| - n
  {
    var items := w.journals[r].items;
    var tail := [Advance(ArtifactsPublished, [], P.Null, None)] + CLOSE_DONE;
    if n == |items| {
      assert PublishPart(items)[n..] == tail;
      PublishedIsLegal(d, w, r);
    } else {
      PublishOneSucceeds(d, w, r, n);
      PublishIsLegal(d, Do(d, w, r, PublishOne(items[n])).value, r, n + 1);
      assert PublishPart(items)[n..] == [PublishOne(items[n])] + PublishPart(items)[n + 1..];
      Prepend(d, w, r, PublishOne(items[n]), PublishPart(items)[n + 1..]);
    }
  }

  lemma CommitLeads(d: Env, w: World, r: RunId, payload: P.Payload)
    requires Inv(d, w) && Open(w, r) && w.journals[r].phase.Reviewed? && w.journals[r].verdict == Some("pass")
    requires Reaccepted(d, w.journals[r].payload) == P.Ok(payload)
    ensures var w1 := Do(d, w, r, Commit(payload));
            && Legal(d, w, r, Commit(payload)) && w1.Some?
            && var advance := Advance(DomainCommitted, [], P.Null, None);
            && Legal(d, w1.value, r, advance) && Do(d, w1.value, r, advance).Some?
            && var w2 := Do(d, w1.value, r, advance).value;
               Publishing(d, w2, r, 0) && w2.journals[r].items == w.journals[r].items
  {
    assert RunOk(d, w, r);
    hide Inv;
    var items := w.journals[r].items;
    var w1 := Do(d, w, r, Commit(payload)).value;
    var w2 := Do(d, w1, r, Advance(DomainCommitted, [], P.Null, None)).value;
    forall i | 0 <= i < |items| ensures Kept(d, w2, r, items[i], true) {
      assert Kept(d, w, r, items[i], false);
    }
  }

  lemma CommitIsLegal(d: Env, w: World, r: RunId, payload: P.Payload)
    requires Inv(d, w) && Open(w, r) && w.journals[r].phase.Reviewed? && w.journals[r].verdict == Some("pass")
    requires Reaccepted(d, w.journals[r].payload) == P.Ok(payload)
    ensures LegalScript(d, w, r, CommitPart(payload, w.journals[r].items))
  {
    assert r in w.journals;
    var items := w.journals[r].items;
    CommitLeads(d, w, r, payload);
    hide Inv, Do, Legal, LegalScript, Publishing, PublishPart, Open;
    var w1 := Do(d, w, r, Commit(payload)).value;
    var advance := Advance(DomainCommitted, [], P.Null, None);
    var w2 := Do(d, w1, r, advance).value;
    PublishIsLegal(d, w2, r, 0);
    assert PublishPart(items)[0..] == PublishPart(items);
    Prepend(d, w1, r, advance, PublishPart(items));
    Prepend(d, w, r, Commit(payload), [advance] + PublishPart(items));
    assert [Commit(payload)] + ([advance] + PublishPart(items)) == CommitPart(payload, items);
  }

  lemma ResumeIsLegal(d: Env, w: World, r: RunId, payload: P.Payload)
    requires Inv(d, w) && Open(w, r) && Index(w.journals[r].phase) >= Index(Reviewed)
    requires Reaccepted(d, w.journals[r].payload) == P.Ok(payload)
    ensures LegalScript(d, w, r, ResumeScript(w.journals[r], payload))
  {
    assert RunOk(d, w, r);
    var j := w.journals[r];
    if j.verdict != Some("pass") {
      CloseIsLegal(d, w, r, StatusForVerdict(if j.verdict.Some? then j.verdict.value else "infra_failed"));
    } else if j.phase.Reviewed? {
      CommitIsLegal(d, w, r, payload);
    } else if j.phase.DomainCommitted? {
      PublishIsLegal(d, w, r, 0);
      assert PublishPart(j.items)[0..] == PublishPart(j.items);
    } else {
      CloseIsLegal(d, w, r, Done);
      assert CloseScript(Done) == CLOSE_DONE;
    }
  }

  /** Recovery of any journal, from any state the invariant allows, never raises: a reviewed
      journal's payload is accepted again, as one that can be committed. */
  lemma RecoveryIsLegal(d: Env, w: World, r: RunId)
    requires Inv(d, w) && r in w.journals
    ensures LegalScript(d, w, r, RecoverScript(d, w.journals[r]))
  {
    assert RunOk(d, w, r);
    var j := w.journals[r];
    if j.phase.TaskFinalized? {
    } else if Index(j.phase) < Index(Reviewed) {
      CloseIsLegal(d, w, r, InfraFailed);
    } else {
      var payload := Reaccepted(d, j.payload).value;
      ResumeIsLegal(d, w, r, payload);
      Prepend(d, w, r, Revalidate, ResumeScript(j, payload));
    }
  }

  /** Were an accepted payload written without its critiques or estimates, recovery of the reviewed
      journal would raise at once and for ever; the guard of staging is what rules that out. */
  lemma RevalidationExact(digest: Bytes -> Hash, u: P.Unicode, floatRange: int, w: World, r: RunId, raw: P.Json,
      payload: P.Payload, k: nat)
    requires Open(w, r) && Index(w.journals[r].phase) >= Index(Reviewed)
    requires P.Validate(u, floatRange, raw) == P.Ok(payload) && w.journals[r].payload == WrittenPayload(payload)
    ensures var d := HarnessEnv(digest, u, floatRange);
            && (Do(d, w, r, Revalidate).Some? <==> P.Complete(payload))
            && (!P.Complete(payload) ==> Exec(d, w, r, RecoverScript(d, w.journals[r]), k) == w)
    ensures Stageable(payload) ==> P.Complete(payload)
  {
    hide P.Validate;
    P.AcceptedIsCanonical(u, floatRange, raw);
    P.PayloadBack(u, payload);
    P.CanonicalBack(u, floatRange, payload);
  }

  function ReviewPart(p: Plan): seq<Action> { [Advance(Reviewed, [], P.Null, Some(p.verdict))] + VerdictPart(p) }

  function StagedPart(p: Plan): seq<Action> {
    [Advance(Prepared, p.items, WrittenPayload(p.payload), None)] + ReviewPart(p)
  }

  /** The guard of staging and the round trip of complete payloads together give what recovery needs. */
  lemma StagedPayloadComesBack(digest: Bytes -> Hash, u: P.Unicode, floatRange: int)
    ensures KeepsStaged(HarnessEnv(digest, u, floatRange))
  {
    hide P.Validate;
    var d := HarnessEnv(digest, u, floatRange);
    forall raw, p | Reaccepted(d, raw) == P.Ok(p) && Stageable(p)
      ensures Reaccepted(d, WrittenPayload(p)) == P.Ok(p) && Committable(p)
    {
      P.RoundTrip(u, floatRange, raw);
      P.AcceptedIsCanonical(u, floatRange, raw);
    }
  }

  lemma ReviewIsLegal(d: Env, w: World, r: RunId, p: Plan)
    requires Inv(d, w) && Open(w, r) && w.journals[r].phase.Prepared? && w.journals[r].items == p.items
    requires Reaccepted(d, w.journals[r].payload) == P.Ok(p.payload)
    ensures LegalScript(d, w, r, ReviewPart(p))
  {
    var review := Advance(Reviewed, [], P.Null, Some(p.verdict));
    assert RunOk(d, w, r);
    var w1 := Do(d, w, r, review).value;
    ActionKeepsInv(d, w, r, review);
    if p.verdict == "pass" {
      CommitIsLegal(d, w1, r, p.payload);
    } else {
      CloseIsLegal(d, w1, r, StatusForVerdict(p.verdict));
    }
    Prepend(d, w, r, review, VerdictPart(p));
  }

  lemma StagedIsLegal(d: Env, w: World, r: RunId, p: Plan)
    requires KeepsStaged(d) && Inv(d, w) && Open(w, r) && w.journals[r].phase.Collecting?
    requires r in w.staged && w.staged[r] == p.files && ManifestOf(d, p)
    ensures LegalScript(d, w, r, StagedPart(p))
  {
    var prepare := Advance(Prepared, p.items, WrittenPayload(p.payload), None);
    assert RunOk(d, w, r);
    assert Reaccepted(d, p.raw) == P.Ok(p.payload);
    forall i | 0 <= i < |p.items| ensures Kept(d, w, r, p.items[i], false) {}
    var w1 := Do(d, w, r, prepare).value;
    ActionKeepsInv(d, w, r, prepare);
    ReviewIsLegal(d, w1, r, p);
    Prepend(d, w, r, prepare, ReviewPart(p));
  }

  lemma CollectIsLegal(d: Env, w: World, r: RunId, p: Plan)
    requires KeepsStaged(d) && Inv(d, w) && Open(w, r) && w.journals[r].phase.Admitted? && r !in w.staged
      && ManifestOf(d, p)
    ensures LegalScript(d, w, r, [Advance(Collecting, [], P.Null, None)]
      + ([Stage(p.files, p.payload)] + StagedPart(p)))
  {
    var collect := Advance(Collecting, [], P.Null, None);
    var w1 := Do(d, w, r, collect).value;
    ActionKeepsInv(d, w, r, collect);
    var w2 := Do(d, w1, r, Stage(p.files, p.payload)).value;
    ActionKeepsInv(d, w1, r, Stage(p.files, p.payload));
    StagedIsLegal(d, w2, r, p);
    Prepend(d, w1, r, Stage(p.files, p.payload), StagedPart(p));
    Prepend(d, w, r, collect, [Stage(p.files, p.payload)] + StagedPart(p));
  }

  /** The start of a new run, up to the reviewed journal. */
  lemma PreparationIsLegal(d: Env, w: World, r: RunId, p: Plan)
    requires KeepsStaged(d) && Inv(d, w) && r !in w.journals && (forall r' :: !Open(w, r')) && ManifestOf(d, p)
    ensures LegalScript(d, w, r, WorkflowScript(p))
  {
    assert RunOk(d, w, r);
    var collect := Advance(Collecting, [], P.Null, None);
    var w1 := Do(d, w, r, Create).value;
    ActionKeepsInv(d, w, r, Create);
    assert Open(w1, r) && w1.journals[r].phase.Admitted? && r !in w1.staged;
    assert [Create] + ([collect] + ([Stage(p.files, p.payload)] + StagedPart(p))) == WorkflowScript(p);
    hide Inv, RunOk, LegalScript, ManifestOf, KeepsStaged, StagedPart, WorkflowScript;
    CollectIsLegal(d, w1, r, p);
    Prepend(d, w, r, Create, [collect] + ([Stage(p.files, p.payload)] + StagedPart(p)));
  }

  // ---------------------------------------------------------------- what a whole run leaves behind

  /** The run is closed with this status, in its journal and in the ledger. */
  ghost predicate ClosedAs(w: World, r: RunId, status: Status) {
    && r in w.journals && w.journals[r].phase.TaskFinalized? && w.journals[r].terminal == Some(status)
    && r in w.ledger && w.ledger[r] == status
  }

  /** The artifact is in a directory with the content the run gave it. */
  ghost predicate Arrived(p: Plan, name: string, directory: map<string, Bytes>) {
    name in p.files && name in directory && directory[name] == p.files[name]
  }

  /** Every artifact is at its destination with the content that was staged, its digest being the
      one recorded; the destination holds nothing else that was not there before. */
  ghost predicate Published(d: Env, w: World, p: Plan, w': World) {
    && (forall i | 0 <= i < |p.items| ::
          && Arrived(p, p.items[i].name, w'.dest)
          && d.digest(w'.dest[p.items[i].name]) == p.items[i].digest)
    && forall name | name in w'.dest && (forall i | 0 <= i < |p.items| :: p.items[i].name != name) ::
         name in w.dest && w'.dest[name] == w.dest[name]
  }

  /** What the outcome of a run is, by the verdict of its review. */
  ghost predicate RunOutcome(d: Env, w: World, r: RunId, p: Plan, w': World) {
    if p.verdict == "pass" then
      && ClosedAs(w', r, Done) && Published(d, w, p, w')
      && p.payload.winner.Some? && Decided(w', r) == [p.payload.winner.value]
    else
      && ClosedAs(w', r, if p.verdict == "infra_failed" then InfraFailed else Failed)
      && Decided(w', r) == [] && w'.dest == w.dest && r in w'.staged && w'.staged[r] == p.files
  }

  lemma CloseRuns(d: Env, w: World, r: RunId, status: Status, k: nat)
    requires Open(w, r) && k >= 2
    ensures var w' := Exec(d, w, r, CloseScript(status), k);
            ClosedAs(w', r, status) && w'.dest == w.dest && w'.staged == w.staged && w'.decisions == w.decisions
  {
    assert CloseScript(status) == [FinishTask(status)] + ([Finalize(status)] + []);
    ExecCons(d, w, r, FinishTask(status), [Finalize(status)] + [], k);
    ExecCons(d, Do(d, w, r, FinishTask(status)).value, r, Finalize(status), [], k - 1);
  }

  /** Publication in progress: the first `n` artifacts are out, the others still staged. */
  ghost predicate HalfPublished(w: World, r: RunId, p: Plan, n: nat, w': World) {
    && Open(w', r) && w'.journals[r].phase.DomainCommitted? && n <= |p.items| && r in w'.staged
    && (forall i | 0 <= i < n :: Arrived(p, p.items[i].name, w'.dest))
    && (forall i | n <= i < |p.items| :: Arrived(p, p.items[i].name, w'.staged[r]))
    && (forall name | name in w'.dest && (forall i | 0 <= i < |p.items| :: p.items[i].name != name) ::
          name in w.dest && w'.dest[name] == w.dest[name])
  }

  lemma PublishNext(d: Env, w: World, r: RunId, p: Plan, n: nat, w1: World)
    requires ManifestOf(d, p) && HalfPublished(w, r, p, n, w1) && n < |p.items|
    ensures var w2 := Do(d, w1, r, PublishOne(p.items[n]));
            w2.Some? && HalfPublished(w, r, p, n + 1, w2.value) && w2.value.decisions == w1.decisions
  {
    var item := p.items[n];
    assert Arrived(p, item.name, w1.staged[r]);
    var w2 := Do(d, w1, r, PublishOne(item)).value;
    forall i | 0 <= i < |p.items| && i != n ensures p.items[i].name != item.name {}
  }

  /** The actions of publication from the `n`-th artifact on. */
  function PublishFrom(items: seq<Item>, n: nat): seq<Action>
    requires n <= |items|
  {
    PublishPart(items)[n..]
  }

  lemma PublishFromAt(items: seq<Item>, n: nat)
    requires n <= |items|
    ensures PublishFrom(items, 0) == PublishPart(items)
    ensures PublishFrom(items, n) ==
            if n < |items| then [PublishOne(items[n])] + PublishFrom(items, n + 1)
            else [Advance(ArtifactsPublished, [], P.Null, None)] + CloseScript(Done)
  {
  }

  lemma AllPublishedRuns(d: Env, w: World, r: RunId, p: Plan, w1: World, k: nat)
    requires ManifestOf(d, p) && HalfPublished(w, r, p, |p.items|, w1) && k >= 3
    ensures var w' := Exec(d, w1, r, [Advance(ArtifactsPublished, [], P.Null, None)] + CloseScript(Done), k);
            ClosedAs(w', r, Done) && Published(d, w, p, w') && w'.decisions == w1.decisions
  {
    var advance := Advance(ArtifactsPublished, [], P.Null, None);
    var w2 := w1.(journals := w1.journals[r := w1.journals[r].(phase := ArtifactsPublished)]);
    assert Do(d, w1, r, advance) == Some(w2);
    assert Published(d, w, p, w2);
    hide Do, Exec, HalfPublished, ManifestOf;
    ExecOnce(d, w1, r, advance, CloseScript(Done), k, w2);
    CloseRuns(d, w2, r, Done, k - 1);
  }

  lemma {:induction false} PublishRuns(d: Env, w: World, r: RunId, p: Plan, n: nat, w1: World, k: nat)
    requires ManifestOf(d, p) && n <= |p.items| && HalfPublished(w, r, p, n, w1) && k >= |p.items| - n + 3
    ensures var w' := Exec(d, w1, r, PublishFrom(p.items, n), k);
            ClosedAs(w', r, Done) && Published(d, w, p, w') && w'.decisions == w1.decisions
    decreases |p.items| - n
  {
    hide *;
    PublishFromAt(p.items, n);
    if n < |p.items| {
      PublishNext(d, w, r, p, n, w1);
      var w2 := Do(d, w1, r, PublishOne(p.items[n])).value;
      ExecOnce(d, w1, r, PublishOne(p.items[n]), PublishFrom(p.items, n + 1), k, w2);
      PublishRuns(d, w, r, p, n + 1, w2, k - 1);
    } else {
      AllPublishedRuns(d, w, r, p, w1, k);
    }
  }

  /** The state once the run has its decision and its journal says so. */
  function Committed(w: World, r: RunId, winner: string): World
    requires r in w.journals
  {
    w.(decisions := w.decisions[r := [winner]], journals := w.journals[r := w.journals[r].(phase := DomainCommitted)])
  }

  lemma CommitRuns(d: Env, w: World, r: RunId, payload: P.Payload, items: seq<Item>, k: nat)
    requires Committable(payload) && Open(w, r) && w.journals[r].phase.Reviewed? && Decided(w, r) == [] && k >= 2
    ensures Exec(d, w, r, CommitPart(payload, items), k)
            == Exec(d, Committed(w, r, payload.winner.value), r, PublishPart(items), k - 2)
  {
    var commit, advance := Commit(payload), Advance(DomainCommitted, [], P.Null, None);
    var w1 := w.(decisions := w.decisions[r := [payload.winner.value]]);
    var w2 := Committed(w, r, payload.winner.value);
    assert Decided(w, r) + [payload.winner.value] == [payload.winner.value];
    assert Do(d, w, r, commit) == Some(w1);
    assert Do(d, w1, r, advance) == Some(w2);
    assert CommitPart(payload, items) == [commit] + ([advance] + PublishPart(items));
    hide *;
    ExecTwice(d, w, r, commit, advance, PublishPart(items), k, w1, w2);
  }

  lemma PassRuns(d: Env, w: World, r: RunId, p: Plan, w1: World, k: nat)
    requires ManifestOf(d, p) && Committable(p.payload) && k >= |p.items| + 5
    requires Open(w1, r) && w1.journals[r].phase.Reviewed? && r in w1.staged && w1.staged[r] == p.files
    requires w1.dest == w.dest && Decided(w1, r) == []
    ensures var w' := Exec(d, w1, r, CommitPart(p.payload, p.items), k);
            ClosedAs(w', r, Done) && Published(d, w, p, w') && Decided(w', r) == [p.payload.winner.value]
  {
    assert p.payload.winner.Some? && r in w1.journals;
    hide *;
    var w2 := Committed(w1, r, p.payload.winner.value);
    NothingPublishedYet(d, w, r, p, w1, p.payload.winner.value);
    CommitRuns(d, w1, r, p.payload, p.items, k);
    PublishFromAt(p.items, 0);
    PublishRuns(d, w, r, p, 0, w2, k - 2);
    DecidedOnce(w1, r, p.payload.winner.value, Exec(d, w2, r, PublishPart(p.items), k - 2));
  }

  lemma DecidedOnce(w: World, r: RunId, winner: string, w': World)
    requires r in w.journals && w'.decisions == Committed(w, r, winner).decisions
    ensures Decided(w', r) == [winner]
  {
  }

  lemma NothingPublishedYet(d: Env, w: World, r: RunId, p: Plan, w1: World, winner: string)
    requires ManifestOf(d, p) && Open(w1, r) && r in w1.staged && w1.staged[r] == p.files && w1.dest == w.dest
    ensures HalfPublished(w, r, p, 0, Committed(w1, r, winner))
  {
  }

  lemma ReviewRuns(d: Env, w: World, r: RunId, p: Plan, w1: World, k: nat)
    requires ManifestOf(d, p) && Committable(p.payload) && k >= |p.items| + 6
    requires Open(w1, r) && w1.journals[r].phase.Prepared? && r in w1.staged && w1.staged[r] == p.files
    requires w1.dest == w.dest && Decided(w1, r) == []
    ensures RunOutcome(d, w, r, p, Exec(d, w1, r, ReviewPart(p), k))
  {
    var review := Advance(Reviewed, [], P.Null, Some(p.verdict));
    var w2 := w1.(journals := w1.journals[r := w1.journals[r].(phase := Reviewed, verdict := Some(p.verdict))]);
    assert Do(d, w1, r, review) == Some(w2);
    hide Do, ManifestOf, Published;
    ExecCons(d, w1, r, review, VerdictPart(p), k);
    if p.verdict == "pass" {
      PassRuns(d, w, r, p, w2, k - 1);
    } else {
      CloseRuns(d, w2, r, StatusForVerdict(p.verdict), k - 1);
    }
  }

  /** The durable state of a run whose journal stands as given. */
  function Standing(w: World, r: RunId, j: Journal): World { w.(journals := w.journals[r := j]) }

  lemma AdvanceDoes(d: Env, w: World, r: RunId, j: Journal, a: Action, j': Journal)
    requires a.Advance? && AdvanceStep(j, a.phase, a.items, a.payload, a.verdict) == Some(j')
    ensures Do(d, Standing(w, r, j), r, a) == Some(Standing(w, r, j'))
  {
    assert w.journals[r := j][r := j'] == w.journals[r := j'];
  }

  /** The run up to its prepared journal. */
  lemma PreparationRuns(d: Env, w: World, r: RunId, p: Plan, k: nat)
    requires r !in w.staged && Stageable(p.payload) && k >= 4
    ensures var j := Journal(Prepared, p.items, WrittenPayload(p.payload), None, None);
            Exec(d, w, r, WorkflowScript(p), k)
            == Exec(d, Standing(w.(staged := w.staged[r := p.files]), r, j), r, ReviewPart(p), k - 4)
  {
    var collect, stage := Advance(Collecting, [], P.Null, None), Stage(p.files, p.payload);
    var prepare := Advance(Prepared, p.items, WrittenPayload(p.payload), None);
    var j0 := Journal(Admitted, [], P.Null, None, None);
    var j1, j2 := j0.(phase := Collecting), Journal(Prepared, p.items, WrittenPayload(p.payload), None, None);
    var staged := w.(staged := w.staged[r := p.files]);
    AdvanceDoes(d, w, r, j0, collect, j1);
    AdvanceDoes(d, staged, r, j1, prepare, j2);
    assert Do(d, w, r, Create) == Some(Standing(w, r, j0));
    assert Do(d, Standing(w, r, j1), r, stage) == Some(Standing(staged, r, j1));
    hide Do, Exec, Standing, ReviewPart, VerdictPart, WrittenPayload;
    ExecTwice(d, w, r, Create, collect, [stage] + ([prepare] + ReviewPart(p)), k, Standing(w, r, j0),
        Standing(w, r, j1));
    ExecTwice(d, Standing(w, r, j1), r, stage, prepare, ReviewPart(p), k - 2, Standing(staged, r, j1),
        Standing(staged, r, j2));
    WorkflowParts(p);
  }

  lemma WorkflowParts(p: Plan)
    ensures WorkflowScript(p) == [Create] + ([Advance(Collecting, [], P.Null, None)] + ([Stage(p.files, p.payload)]
      + ([Advance(Prepared, p.items, WrittenPayload(p.payload), None)] + ReviewPart(p))))
  {
  }

  lemma ExecTwice(d: Env, w: World, r: RunId, a: Action, b: Action, rest: seq<Action>, k: nat, w1: World, w2: World)
    requires k >= 2 && Do(d, w, r, a) == Some(w1) && Do(d, w1, r, b) == Some(w2)
    ensures Exec(d, w, r, [a] + ([b] + rest), k) == Exec(d, w2, r, rest, k - 2)
  {
    hide *;
    ExecOnce(d, w, r, a, [b] + rest, k, w1);
    ExecOnce(d, w1, r, b, rest, k - 1, w2);
  }

  /** A new run on a state in which no run is open. */
  ghost predicate FreshRun(d: Env, w: World, r: RunId, p: Plan) {
    Inv(d, w) && r !in w.journals && (forall r' :: !Open(w, r')) && ManifestOf(d, p)
  }

  /** A run that nothing interrupts ends, from any state without an open run: a passed review with
      the one decision for its winner and the artifacts published, any other with nothing decided
      and nothing moved, and in each case closed with its status. */
  lemma WorkflowEnds(d: Env, w: World, r: RunId, p: Plan, k: nat)
    requires KeepsStaged(d) && FreshRun(d, w, r, p) && k >= |p.items| + 10
    ensures RunOutcome(d, w, r, p, SessionStep(d, w, NewRun([], r, p, Crash(k))))
  {
    assert RunOk(d, w, r);
    assert Reaccepted(d, p.raw) == P.Ok(p.payload);
    assert r !in w.staged && Stageable(p.payload) && Committable(p.payload) && Decided(w, r) == [];
    assert RecoverFully(d, w, []) == w;
    hide Inv, RunOk, KeepsStaged, ManifestOf, RunOutcome, WorkflowScript, Exec, Stageable, Committable, Reaccepted,
      RecoverFully;
    WorkflowRuns(d, w, r, p, k);
  }

  lemma WorkflowRuns(d: Env, w: World, r: RunId, p: Plan, k: nat)
    requires ManifestOf(d, p) && Committable(p.payload) && r !in w.staged && Decided(w, r) == [] && k >= |p.items| + 10
    ensures RunOutcome(d, w, r, p, Exec(d, w, r, WorkflowScript(p), k))
  {
    assert Stageable(p.payload);
    PreparationRuns(d, w, r, p, k);
    var j := Journal(Prepared, p.items, WrittenPayload(p.payload), None, None);
    var w1 := Standing(w.(staged := w.staged[r := p.files]), r, j);
    hide ManifestOf, RunOutcome, WorkflowScript, ReviewPart, Exec, WrittenPayload, Stageable, Committable;
    ReviewRuns(d, w, r, p, w1, k - 4);
  }

  // ---------------------------------------------------------------- processes

  /** How a workflow process ends: it dies, or an action raises and the handler runs (and may die itself). */
  datatype Stop = Crash(k: nat) | Raise(k: nat, held: Phase, h: nat) | Quota(k: nat, h: nat)

  /** One process: recovery of the journals in `order`, cut after `k` actions, or completed and then a new run. */
  datatype Session = RecoverOnly(order: seq<RunId>, k: nat)
      | NewRun(order: seq<RunId>, run: RunId, plan: Plan, stop: Stop)

  function ScriptFor(d: Env, w: World, r: RunId): seq<Action> {
    if r in w.journals then RecoverScript(d, w.journals[r]) else []
  }

  function RecoverAll(d: Env, w: World, order: seq<RunId>, k: nat): World
    decreases |order|
  {
    if order == [] then w
    else
      var script := ScriptFor(d, w, order[0]);
      var w1 := Exec(d, w, order[0], script, k);
      if k < |script| then w1 else RecoverAll(d, w1, order[1..], k - |script|)
  }

  function RecoverFully(d: Env, w: World, order: seq<RunId>): World
    decreases |order|
  {
    if order == [] then w
    else RecoverFully(d, Exec(d, w, order[0], ScriptFor(d, w, order[0]), |ScriptFor(d, w, order[0])|), order[1..])
  }

  /** The exception handler of `main`: a journal whose phase in memory is reviewed or later is retained. */
  function HandlerScript(held: Phase): seq<Action> {
    if Index(held) < Index(Reviewed) then CloseScript(InfraFailed) else [FinishTask(InfraFailed)]
  }

  function SessionStep(d: Env, w: World, s: Session): World {
    match s
    case RecoverOnly(order, k) => RecoverAll(d, w, order, k)
    case NewRun(order, r, p, stop) =>
      var w1 := RecoverFully(d, w, order);
      var w2 := Exec(d, w1, r, WorkflowScript(p), stop.k);
      match stop
      case Crash(_) => w2
      case Raise(_, held, h) => Exec(d, w2, r, HandlerScript(held), h)
      case Quota(_, h) => Exec(d, w2, r, CloseScript(QuotaWait), h)
  }

  /** A run id is new, recovery visits every journal, and an exception comes from an action that
      was not performed; a save that fails has already moved the phase in memory. */
  ghost predicate LegalSession(d: Env, w: World, s: Session) {
    s.NewRun? ==>
      && (forall r | r in w.journals :: r in s.order)
      && s.run !in w.journals && s.run !in s.order
      && ManifestOf(d, s.plan)
      && var script := WorkflowScript(s.plan);
      && var w2 := Exec(d, RecoverFully(d, w, s.order), s.run, script, s.stop.k);
      && (!s.stop.Crash? ==> 0 < s.stop.k < |script|)
      && (s.stop.Raise? ==> s.run in w2.journals && Index(s.stop.held) >= Index(w2.journals[s.run].phase))
      && (s.stop.Quota? ==> s.run in w2.journals && Index(w2.journals[s.run].phase) < Index(Reviewed))
  }

  ghost predicate Reaches(d: Env, w: World, ss: seq<Session>, w': World)
    decreases |ss|
  {
    if ss == [] then w' == w
    else LegalSession(d, w, ss[0]) && Reaches(d, SessionStep(d, w, ss[0]), ss[1..], w')
  }

  // ---------------------------------------------------------------- exactly once

  lemma {:induction false} LegalAt(d: Env, w: World, r: RunId, script: seq<Action>, k: nat)
    requires LegalScript(d, w, r, script) && k < |script|
    ensures Legal(d, Exec(d, w, r, script, k), r, script[k]) && Do(d, Exec(d, w, r, script, k), r, script[k]).Some?
    ensures Exec(d, w, r, script, k + 1) == Do(d, Exec(d, w, r, script, k), r, script[k]).value
    decreases k
  {
    if k > 0 {
      LegalAt(d, Do(d, w, r, script[0]).value, r, script[1..], k - 1);
    } else {
      var w1 := Do(d, w, r, script[0]).value;
      assert Exec(d, w, r, script, 1) == Exec(d, w1, r, script[1..], 0);
    }
  }

  lemma {:induction false} ExecIsLocal(d: Env, w: World, r: RunId, script: seq<Action>, k: nat)
    ensures OthersSame(w, r, Exec(d, w, r, script, k))
    decreases k
  {
    if k > 0 && script != [] && Do(d, w, r, script[0]).Some? {
      ActionIsLocal(d, w, r, script[0]);
      ExecIsLocal(d, Do(d, w, r, script[0]).value, r, script[1..], k - 1);
    }
  }

  /** What a run was prepared with is never written again. */
  lemma {:induction false} ExecKeepsPlan(d: Env, w: World, r: RunId, script: seq<Action>, k: nat)
    requires r in w.journals && forall a | a in script :: !a.Create? && !(a.Advance? && a.phase.Prepared?)
    ensures var w' := Exec(d, w, r, script, k);
            r in w'.journals && w'.journals[r].items == w.journals[r].items
            && w'.journals[r].payload == w.journals[r].payload
    decreases k
  {
    if k > 0 && script != [] && Do(d, w, r, script[0]).Some? {
      ExecKeepsPlan(d, Do(d, w, r, script[0]).value, r, script[1..], k - 1);
    }
  }

  lemma RecoverScriptEnds(d: Env, w: World, r: RunId)
    requires Inv(d, w) && Open(w, r)
    ensures var script, j := RecoverScript(d, w.journals[r]), w.journals[r];
            && script != [] && script[|script| - 1] == Finalize(RecoveredStatus(j))
            && forall a | a in script :: !a.Create? && !(a.Advance? && a.phase.Prepared?)
  {
    assert RunOk(d, w, r);
  }

  /** How recovery closes a journal, by its phase and verdict alone. */
  function RecoveredStatus(j: Journal): Status {
    if j.phase.Admitted? || j.phase.Collecting? || j.phase.Prepared? then InfraFailed
    else match j.verdict
         case None => InfraFailed
         case Some(verdict) =>
           if verdict == "pass" then Done else if verdict == "infra_failed" then InfraFailed else Failed
  }

  /** An uninterrupted recovery of one journal closes it with the status its phase and verdict
      determine; after a passed review the artifacts are then in place and the winner decided. */
  lemma RecoveryCompletes(d: Env, w: World, r: RunId)
    requires Inv(d, w) && Open(w, r)
    ensures var j, script := w.journals[r], RecoverScript(d, w.journals[r]);
            var w' := Exec(d, w, r, script, |script|);
            && Inv(d, w') && ClosedAs(w', r, RecoveredStatus(j))
            && (RecoveredStatus(j).Done? <==> Passed(j))
            && (Passed(j) ==> AllInPlace(d, w', j.items) && Recommits(d, j.payload)
                              && Decided(w', r) == [WinnerOf(d, j.payload)])
  {
    assert RunOk(d, w, r) && r in w.journals;
    assert RecoveredStatus(w.journals[r]).Done? <==> Passed(w.journals[r]);
    var script := RecoverScript(d, w.journals[r]);
    RecoveryIsLegal(d, w, r);
    RecoverScriptEnds(d, w, r);
    hide Exec, LegalScript, RecoverScript, RunOk, Legal, Do, RecoveredStatus, Passed, Recommits, AllInPlace, Open;
    var before, w' := Exec(d, w, r, script, |script| - 1), Exec(d, w, r, script, |script|);
    ExecKeepsInv(d, w, r, script, |script| - 1);
    ExecKeepsInv(d, w, r, script, |script|);
    LegalAt(d, w, r, script, |script| - 1);
    ExecKeepsPlan(d, w, r, script, |script| - 1);
    assert RunOk(d, before, r) && RunOk(d, w', r);
    hide Inv;
    FinalizeCloses(d, before, r, RecoveredStatus(w.journals[r]), w');
  }

  lemma FinalizeCloses(d: Env, w: World, r: RunId, status: Status, w': World)
    requires RunOk(d, w, r) && RunOk(d, w', r)
    requires Legal(d, w, r, Finalize(status)) && Do(d, w, r, Finalize(status)) == Some(w')
    ensures ClosedAs(w', r, status) && r in w.journals
    ensures var j := w.journals[r];
            status.Done? ==>
              AllInPlace(d, w', j.items) && Recommits(d, j.payload) && Decided(w', r) == [WinnerOf(d, j.payload)]
  {
  }

  lemma RecoverOneKeepsInv(d: Env, w: World, r: RunId, k: nat)
    requires Inv(d, w)
    ensures Inv(d, Exec(d, w, r, ScriptFor(d, w, r), k))
  {
    if r in w.journals { RecoveryIsLegal(d, w, r); }
    ExecKeepsInv(d, w, r, ScriptFor(d, w, r), k);
  }

  lemma {:induction false} RecoverAllKeepsInv(d: Env, w: World, order: seq<RunId>, k: nat)
    requires Inv(d, w)
    ensures Inv(d, RecoverAll(d, w, order, k))
    decreases |order|
  {
    hide Inv, Exec, ScriptFor, RecoverScript, Do, Open;
    if order != [] {
      var r, script := order[0], ScriptFor(d, w, order[0]);
      RecoverOneKeepsInv(d, w, r, k);
      if k >= |script| { RecoverAllKeepsInv(d, Exec(d, w, r, script, k), order[1..], k - |script|); }
    }
  }

  /** After a complete recovery no listed journal is open, and nothing was opened. */
  lemma {:induction false} RecoverFullyCloses(d: Env, w: World, order: seq<RunId>)
    requires Inv(d, w)
    ensures Inv(d, RecoverFully(d, w, order))
    ensures forall r :: Open(RecoverFully(d, w, order), r) ==> Open(w, r) && r !in order
    ensures forall r :: r in RecoverFully(d, w, order).journals <==> r in w.journals
    decreases |order|
  {
    if order != [] {
      var r, script := order[0], ScriptFor(d, w, order[0]);
      var w1 := Exec(d, w, r, script, |script|);
      if r in w.journals { RecoveryIsLegal(d, w, r); }
      ExecKeepsInv(d, w, r, script, |script|);
      ExecIsLocal(d, w, r, script, |script|);
      if Open(w, r) { RecoveryCompletes(d, w, r); }
      assert forall r' | r' != r :: Open(w1, r') <==> Open(w, r');
      assert r in w1.journals <==> r in w.journals;
      RecoverFullyCloses(d, w1, order[1..]);
    }
  }

  lemma SessionKeepsInv(d: Env, w: World, s: Session)
    requires KeepsStaged(d) && Inv(d, w) && LegalSession(d, w, s)
    ensures Inv(d, SessionStep(d, w, s))
  {
    match s
    case RecoverOnly(order, k) => RecoverAllKeepsInv(d, w, order, k);
    case NewRun(order, r, p, stop) =>
      RecoverFullyCloses(d, w, order);
      var w1 := RecoverFully(d, w, order);
      var script := WorkflowScript(p);
      PreparationIsLegal(d, w1, r, p);
      ExecKeepsInv(d, w1, r, script, stop.k);
      if !stop.Crash? {
        LegalAt(d, w1, r, script, stop.k);
        HandlerKeepsInv(d, Exec(d, w1, r, script, stop.k), r, stop);
      }
  }

  lemma HandlerKeepsInv(d: Env, w: World, r: RunId, stop: Stop)
    requires Inv(d, w) && Open(w, r) && !stop.Crash?
    requires stop.Raise? ==> Index(stop.held) >= Index(w.journals[r].phase)
    requires stop.Quota? ==> Index(w.journals[r].phase) < Index(Reviewed)
    ensures stop.Raise? ==> Inv(d, Exec(d, w, r, HandlerScript(stop.held), stop.h))
    ensures stop.Quota? ==> Inv(d, Exec(d, w, r, CloseScript(QuotaWait), stop.h))
  {
    if stop.Quota? {
      CloseIsLegal(d, w, r, QuotaWait);
      ExecKeepsInv(d, w, r, CloseScript(QuotaWait), stop.h);
    } else {
      if Index(stop.held) < Index(Reviewed) {
        CloseIsLegal(d, w, r, InfraFailed);
      } else {
        assert LegalScript(d, Do(d, w, r, FinishTask(InfraFailed)).value, r, []);
        Prepend(d, w, r, FinishTask(InfraFailed), []);
        assert [FinishTask(InfraFailed)] + [] == [FinishTask(InfraFailed)];
      }
      ExecKeepsInv(d, w, r, HandlerScript(stop.held), stop.h);
    }
  }

  /** A run that stops early, its handler not interrupted: a quota error parks the task, any other
      error before review fails it, both closing the journal; after review the journal is retained
      as it stands.  Nothing is decided or moved by the handler. */
  lemma HandlerEnds(d: Env, w: World, order: seq<RunId>, r: RunId, p: Plan, stop: Stop)
    requires !stop.Crash? && stop.h >= 2 && Open(SessionStep(d, w, NewRun(order, r, p, Crash(stop.k))), r)
    ensures var w1, w2 :=
      SessionStep(d, w, NewRun(order, r, p, Crash(stop.k))), SessionStep(d, w, NewRun(order, r, p, stop));
            && w2.dest == w1.dest && w2.staged == w1.staged && w2.decisions == w1.decisions
            && (stop.Quota? ==> ClosedAs(w2, r, QuotaWait))
            && (stop.Raise? && stop.held in {Admitted, Collecting, Prepared} ==> ClosedAs(w2, r, InfraFailed))
            && (stop.Raise? && stop.held !in {Admitted, Collecting, Prepared} ==>
                  w2.journals == w1.journals && r in w2.ledger && w2.ledger[r] == InfraFailed)
  {
    var w1 := Exec(d, RecoverFully(d, w, order), r, WorkflowScript(p), stop.k);
    CloseRuns(d, w1, r, QuotaWait, stop.h);
    CloseRuns(d, w1, r, InfraFailed, stop.h);
    NoteRuns(d, w1, r, InfraFailed, stop.h);
    hide ClosedAs, WorkflowScript, RecoverFully, Exec, CloseScript;
  }

  lemma NoteRuns(d: Env, w: World, r: RunId, status: Status, k: nat)
    requires r in w.journals && k >= 1
    ensures Exec(d, w, r, [FinishTask(status)], k) == w.(ledger := w.ledger[r := status])
  {
    ExecCons(d, w, r, FinishTask(status), [], k);
    assert [FinishTask(status)] + [] == [FinishTask(status)];
  }

  lemma {:induction false} HistoryKeepsInv(d: Env, w: World, ss: seq<Session>, w': World)
    requires KeepsStaged(d) && Inv(d, w) && Reaches(d, w, ss, w')
    ensures Inv(d, w')
    decreases |ss|
  {
    if ss != [] {
      SessionKeepsInv(d, w, ss[0]);
      HistoryKeepsInv(d, SessionStep(d, w, ss[0]), ss[1..], w');
    }
  }

  /** What is promised of one run, whatever became of it. */
  ghost predicate OncePromise(d: Env, w: World, r: RunId) {
    && |Decided(w, r)| <= 1
    && (r !in w.journals ==> Decided(w, r) == [])
    && (r in w.journals ==>
          var j := w.journals[r];
          && (Decided(w, r) != [] ==> Recommits(d, j.payload) && Decided(w, r) == [WinnerOf(d, j.payload)])
          && (j.verdict != Some("pass") ==>
                && Decided(w, r) == []
                && forall i | 0 <= i < |j.items| :: StagedFile(w, r, j.items[i].name).Some?)
          && (j.phase.TaskFinalized? ==>
                && j.terminal.Some? && r in w.ledger && w.ledger[r] == j.terminal.value
                && (j.terminal == Some(Done) <==> Decided(w, r) != [])
                && (j.terminal == Some(Done) <==> j.verdict == Some("pass"))
                && (j.terminal == Some(Done) ==> r in w.witnessed)))
  }

  /** Exactly once, over every history of processes that die or raise anywhere and recover any
      number of times: a closed run is done if and only if its one domain commit exists; it then had
      verdict pass, its ledger row says done, and at closing its artifacts were in place with the
      recorded digests.  A commit names the winner of the payload the run's journal holds.  No run
      commits twice, and a run without a pass verdict never commits, nor moves an artifact out of
      staging. */
  lemma SagaExactlyOnce(digest: Bytes -> Hash, u: P.Unicode, floatRange: int, ss: seq<Session>, w: World, r: RunId)
    requires Reaches(HarnessEnv(digest, u, floatRange), EMPTY_WORLD, ss, w)
    ensures OncePromise(HarnessEnv(digest, u, floatRange), w, r)
  {
    var d := HarnessEnv(digest, u, floatRange);
    StagedPayloadComesBack(digest, u, floatRange);
    hide HarnessEnv, KeepsStaged;
    assert Inv(d, EMPTY_WORLD);
    HistoryKeepsInv(d, EMPTY_WORLD, ss, w);
    assert RunOk(d, w, r);
  }
}
