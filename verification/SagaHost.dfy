/** The onboarding process itself: the durable effects as methods on the stores they change,
    and the recovery and workflow code that performs them in order.  `left` is the number of
    durable actions the process still lives for. */
module SagaHost {
  import opened Wrappers
  import opened Saga
  import P = Payload

  class OnboardingHost {
    const digest: Bytes -> Hash
    const unicode: P.Unicode
    const floatRange: int
    var journals: map<RunId, Journal>
    var staged: map<RunId, map<string, Bytes>>
    var dest: map<string, Bytes>
    var decisions: map<RunId, seq<string>>
    var ledger: map<RunId, Status>
    ghost var witnessed: set<RunId>

    ghost function Model(): World
      reads this
    {
      World(journals, staged, dest, decisions, ledger, witnessed)
    }

    function Surroundings(): Env { HarnessEnv(digest, unicode, floatRange) }

    constructor (digest: Bytes -> Hash, unicode: P.Unicode, floatRange: int)
      ensures this.digest == digest && this.unicode == unicode && this.floatRange == floatRange
      ensures Model() == EMPTY_WORLD
    {
      this.digest, this.unicode, this.floatRange := digest, unicode, floatRange;
      journals, staged, dest, decisions, ledger, witnessed := map[], map[], map[], map[], map[], {};
    }

    /** `OnboardingRunJournal.advance`: only the next phase, and finalization once. */
    method AdvanceJournal(r: RunId, phase: Phase, items: seq<Item>, payload: P.Json, verdict: Option<string>)
      returns (ok: bool)
      requires r in journals && !phase.TaskFinalized?
      modifies this`journals
      ensures ok <==> Do(Surroundings(), old(Model()), r, Advance(phase, items, payload, verdict)).Some?
      ensures if ok then Model() == Do(Surroundings(), old(Model()), r, Advance(phase, items, payload, verdict)).value
        else journals == old(journals)
    {
      var j := journals[r];
      if Index(phase) != Index(j.phase) + 1 { return false; }
      if phase.Prepared? { j := j.(items := items, payload := payload); }
      if phase.Reviewed? { j := j.(verdict := verdict); }
      journals := journals[r := j.(phase := phase)];
      return true;
    }

    method FinalizeJournal(r: RunId, status: Status) returns (ok: bool)
      requires r in journals
      modifies this`journals, this`witnessed
      ensures ok <==> Do(Surroundings(), old(Model()), r, Action.Finalize(status)).Some?
      ensures if ok then Model() == Do(Surroundings(), old(Model()), r, Action.Finalize(status)).value
        else Model() == old(Model())
    {
      var j := journals[r];
      if j.phase.TaskFinalized? { return false; }
      witnessed := if AllInPlace(Surroundings(), Model(), j.items) then witnessed + {r} else witnessed;
      journals := journals[r := j.(phase := TaskFinalized, terminal := Some(status))];
      return true;
    }

    /** The domain transaction: one decision for a run and its winner, however often it is attempted. */
    method CommitDomainMemory(r: RunId, payload: P.Payload) returns (ok: bool)
      requires r in journals
      modifies this`decisions
      ensures ok <==> Do(Surroundings(), old(Model()), r, Action.Commit(payload)) == Some(Model())
      ensures !ok ==> Do(Surroundings(), old(Model()), r, Action.Commit(payload)).None? && Model() == old(Model())
      ensures ok ==> payload.winner.Some? && payload.winner.value in Decided(Model(), r)
    {
      if payload.winner.None? || |payload.estimates| != 3 { return false; }
      var rows := if r in decisions then decisions[r] else [];
      var existing := payload.winner.value in rows;
      if !existing { decisions := decisions[r := rows + [payload.winner.value]]; }
      return true;
    }

    method PublishArtifact(r: RunId, item: Item) returns (ok: bool)
      requires r in journals
      modifies this`dest, this`staged
      ensures ok ==> Do(Surroundings(), old(Model()), r, PublishOne(item)) == Some(Model())
      ensures ok ==> item.name in dest && digest(dest[item.name]) == item.digest
      ensures !ok ==> Do(Surroundings(), old(Model()), r, PublishOne(item)).None?
      ensures !ok ==> Model() == old(Model())
    {
      if r in staged && item.name in staged[r] {
        if digest(staged[r][item.name]) != item.digest { return false; }
        dest := dest[item.name := staged[r][item.name]];
        staged := staged[r := staged[r] - {item.name}];
      }
      return item.name in dest && digest(dest[item.name]) == item.digest;
    }

    /** One durable action of a process that may already be out of life. */
    method Act(r: RunId, a: Action, left: nat) returns (rest: nat, go: bool)
      modifies this
      ensures go <==> left > 0 && Do(Surroundings(), old(Model()), r, a).Some?
      ensures if go then Model() == Do(Surroundings(), old(Model()), r, a).value && rest == left - 1
        else Model() == old(Model())
    {
      if left == 0 { return 0, false; }
      rest := left - 1;
      if a.Create? {
        journals := journals[r := Journal(Admitted, [], P.Null, None, None)];
        return rest, true;
      }
      if r !in journals { return rest, false; }
      match a {
        case Create => go := true;
        case Stage(files, payload) =>
          go := Stageable(payload) && r !in staged;
          if go { staged := staged[r := files]; }
        case Advance(phase, items, payload, verdict) =>
          if phase.TaskFinalized? { go := false; } else { go := AdvanceJournal(r, phase, items, payload, verdict); }
        case Revalidate =>
          var read := P.ValidateOnboardingPayload(unicode, floatRange, journals[r].payload);
          go := read.Ok?;
        case Commit(payload) => go := CommitDomainMemory(r, payload);
        case PublishOne(item) => go := PublishArtifact(r, item);
        case FinishTask(status) =>
          ledger := ledger[r := status];
          go := true;
        case Finalize(status) => go := FinalizeJournal(r, status);
      }
    }

    /** The first action of a script: the rest is still to be performed, unless the process stopped. */
    method Perform(r: RunId, a: Action, ghost rest: seq<Action>, left: nat) returns (l: nat, go: bool)
      modifies this
      ensures var end := Exec(Surroundings(), old(Model()), r, [a] + rest, left);
              end == if go then Exec(Surroundings(), Model(), r, rest, l) else Model()
    {
      ExecCons(Surroundings(), Model(), r, a, rest, left);
      l, go := Act(r, a, left);
    }

    /** The ledger row, then the journal. */
    method Close(r: RunId, status: Status, left: nat)
      modifies this
      ensures Model() == Exec(Surroundings(), old(Model()), r, CloseScript(status), left)
    {
      ghost var last: seq<Action> := [Action.Finalize(status)];
      assert CloseScript(status) == [FinishTask(status)] + last && last == [Action.Finalize(status)] + [];
      var l, go := Perform(r, FinishTask(status), last, left);
      if !go { return; }
      l, go := Perform(r, Action.Finalize(status), [], l);
    }

    /** Publication of every artifact, the phase change, and the close as done. */
    method PublishAndClose(r: RunId, items: seq<Item>, left: nat)
      modifies this
      ensures Model() == Exec(Surroundings(), old(Model()), r, PublishPart(items), left)
    {
      var l, go := left, true;
      ghost var script := PublishPart(items);
      for i := 0 to |items|
        invariant Exec(Surroundings(), old(Model()), r, script, left)
          == Exec(Surroundings(), Model(), r, script[i..], l)
      {
        assert script[i..] == [PublishOne(items[i])] + script[i + 1..];
        l, go := Perform(r, PublishOne(items[i]), script[i + 1..], l);
        if !go { return; }
      }
      assert script[|items|..] == [Action.Advance(ArtifactsPublished, [], P.Null, None)] + CLOSE_DONE;
      l, go := Perform(r, Action.Advance(ArtifactsPublished, [], P.Null, None), CLOSE_DONE, l);
      if !go { return; }
      assert CloseScript(Done) == CLOSE_DONE;
      Close(r, Done, l);
    }

    method CommitPublishAndClose(r: RunId, payload: P.Payload, items: seq<Item>, left: nat)
      modifies this
      ensures Model() == Exec(Surroundings(), old(Model()), r, CommitPart(payload, items), left)
    {
      ghost var rest: seq<Action> := [Action.Advance(DomainCommitted, [], P.Null, None)] + PublishPart(items);
      assert CommitPart(payload, items) == [Action.Commit(payload)] + rest;
      var l, go := Perform(r, Action.Commit(payload), rest, left);
      if !go { return; }
      l, go := Perform(r, Action.Advance(DomainCommitted, [], P.Null, None), PublishPart(items), l);
      if !go { return; }
      PublishAndClose(r, items, l);
    }

    /** One journal of `_recover_onboarding_sagas`. */
    method RecoverJournal(r: RunId, left: nat)
      requires r in journals
      modifies this
      ensures Model() == Exec(Surroundings(), old(Model()), r, RecoverScript(Surroundings(), old(journals)[r]), left)
    {
      hide P.Validate, ResumeScript;
      var j := journals[r];
      if j.phase.TaskFinalized? { return; }
      if j.phase in {Admitted, Collecting, Prepared} {
        Close(r, InfraFailed, left);
        return;
      }
      var l, go := Act(r, Revalidate, left);
      var read := P.ValidateOnboardingPayload(unicode, floatRange, j.payload);
      if !go { return; }
      ExecCons(Surroundings(), Model(), r, Revalidate, ResumeScript(j, read.value), left);
      Resume(r, read.value, l);
    }

    /** The rest of the recovery of a reviewed journal. */
    method Resume(r: RunId, payload: P.Payload, left: nat)
      requires r in journals && Index(Reviewed) <= Index(journals[r].phase) < Index(TaskFinalized)
      modifies this
      ensures Model() == Exec(Surroundings(), old(Model()), r, ResumeScript(old(journals)[r], payload), left)
    {
      var j := journals[r];
      if j.verdict != Some("pass") {
        Close(r, StatusForVerdict(if j.verdict.Some? then j.verdict.value else "infra_failed"), left);
        return;
      }
      if j.phase.Reviewed? {
        CommitPublishAndClose(r, payload, j.items, left);
      } else if j.phase.DomainCommitted? {
        PublishAndClose(r, j.items, left);
      } else {
        assert CloseScript(Done) == CLOSE_DONE;
        Close(r, Done, left);
      }
    }

    /** The critic's verdict, and what follows from it. */
    method ReviewAndFinish(r: RunId, p: Plan, left: nat)
      modifies this
      ensures Model() == Exec(Surroundings(), old(Model()), r, [Action.Advance(Reviewed, [], P.Null, Some(p.verdict))]
        + VerdictPart(p), left)
    {
      var l, go := Perform(r, Action.Advance(Reviewed, [], P.Null, Some(p.verdict)), VerdictPart(p), left);
      if !go { return; }
      if p.verdict == "pass" {
        CommitPublishAndClose(r, p.payload, p.items, l);
      } else {
        Close(r, StatusForVerdict(p.verdict), l);
      }
    }

    method StageAndReview(r: RunId, p: Plan, left: nat)
      modifies this
      ensures Model() == Exec(Surroundings(), old(Model()), r, [Action.Stage(p.files, p.payload)] + StagedPart(p), left)
    {
      var l, go := Perform(r, Action.Stage(p.files, p.payload), StagedPart(p), left);
      if !go { return; }
      l, go := Perform(r, Action.Advance(Prepared, p.items, WrittenPayload(p.payload), None), ReviewPart(p), l);
      if !go { return; }
      ReviewAndFinish(r, p, l);
    }

    /** The journal is created, then collection, staging, review and what follows from it. */
    method CreateAndCollect(r: RunId, p: Plan, left: nat)
      modifies this
      ensures Model() == Exec(Surroundings(), old(Model()), r, WorkflowScript(p), left)
    {
      ghost var stage: seq<Action> := [Action.Stage(p.files, p.payload)] + StagedPart(p);
      assert WorkflowScript(p) == [Create] + ([Action.Advance(Collecting, [], P.Null, None)] + stage);
      var l, go := Perform(r, Create, [Action.Advance(Collecting, [], P.Null, None)] + stage, left);
      if !go { return; }
      l, go := Perform(r, Action.Advance(Collecting, [], P.Null, None), stage, l);
      if !go { return; }
      StageAndReview(r, p, l);
    }

    /** `_run_workflow` of a new run, model calls abstracted to the plan they yield: performed in
        full it has the outcome that the verdict of its review calls for. */
    method RunWorkflow(r: RunId, p: Plan, left: nat)
      modifies this
      ensures Model() == Exec(Surroundings(), old(Model()), r, WorkflowScript(p), left)
      ensures FreshRun(Surroundings(), old(Model()), r, p) && left >= |p.items| + 10 ==>
                RunOutcome(Surroundings(), old(Model()), r, p, Model())
    {
      ghost var d, w := Surroundings(), Model();
      CreateAndCollect(r, p, left);
      StagedPayloadComesBack(digest, unicode, floatRange);
      if FreshRun(d, w, r, p) && left >= |p.items| + 10 { WorkflowEnds(d, w, r, p, left); }
    }
  }
}
