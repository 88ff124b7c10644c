/** The retrieval-progress controller of orchestrator/retrieval_progress.py.

    A worker emits batches of tool calls.  `Before` admits or refuses one call, `After`
    accounts for its result, and a three-rung ladder (search, direct fetch, browser) only
    ever moves up.  The controller is a class whose methods update its fields; each method
    is tied to a step function on the `State` value, and the run-level results are lemmas
    about those steps. */
module Retrieval {
  import opened Wrappers

  const RUNGS: nat := 3

  type Stage = r: nat | r <= 3

  /** One counter for each rung, indexed by the rung. */
  datatype Triple = Triple(search: nat, fetch: nat, browser: nat) {
    function At(r: nat): nat {
      if r == 0 then search else if r == 1 then fetch else browser
    }

    function With(r: nat, v: nat): Triple {
      if r == 0 then this.(search := v) else if r == 1 then this.(fetch := v) else this.(browser := v)
    }

    function Sum(): nat { search + fetch + browser }
  }

  const ZERO := Triple(0, 0, 0)

  datatype Policy = Policy(
    initialStage: nat,
    lowNoveltyLimit: nat,
    maxCalls: Triple,
    minSearchChars: nat,
    minContentChars: nat,
    maxRedirectViolations: nat,
    maxRejectedCalls: nat,
    maxSetupCalls: nat,
    maxEvidencePerCall: nat,
    maxEvidenceTotal: nat)

  const DEFAULT_POLICY := Policy(0, 2, Triple(3, 3, 2), 80, 240, 2, 3, 2, 5000, 30000)
  const DYNAMIC_BROWSER_POLICY := Policy(2, 2, Triple(0, 0, 8), 80, 240, 2, 3, 2, 10000, 30000)

  datatype Evidence = Evidence(sequence: nat, stage: nat, tool: string, failed: bool, urls: set<string>,
      content: string)

  /** A tool result as the controller sees it: the text with the values the regular
      expressions and the digest extract from it. */
  datatype Observation = Observation(
    text: string, strippedLength: nat, urls: set<string>, words: set<string>, fingerprint: string, failed: bool)

  datatype State = State(
    stage: Stage,
    calls: Triple,
    reserved: Triple,
    lowNoveltyStreak: nat,
    urls: set<string>,
    fingerprints: set<string>,
    vocabulary: set<string>,
    redirectViolations: nat,
    evidenceChars: nat,
    rejectedCalls: nat,
    setupCalls: nat,
    batchActive: bool,
    batchCounted: bool,
    evidence: seq<Evidence>)

  datatype Decision = Admit | Redirect(terminal: bool, counted: bool, count: nat)

  datatype Transition = Transition(target: Stage, count: nat)

  // ---------------------------------------------------------------- tool families

  function LowerChar(c: char): char {
    if 'A' <= c <= 'Z' then (c as int - 'A' as int + 'a' as int) as char else c
  }

  function Lower(s: string): string {
    seq(|s|, i requires 0 <= i < |s| => LowerChar(s[i]))
  }

  predicate OccursAt(s: string, part: string, i: nat) {
    i + |part| <= |s| && s[i..i + |part|] == part
  }

  predicate Contains(s: string, part: string) {
    exists i | 0 <= i <= |s| :: OccursAt(s, part, i)
  }

  predicate IsSetup(tool: string) { Lower(tool) == "skill_view" }

  predicate IsProxy(tool: string) { Lower(tool) == "delegate_task" }

  /** The capability family a tool is charged to; unknown tools fall to the last rung. */
  function ToolStage(tool: string): (rung: nat)
    ensures rung < RUNGS
  {
    var name := Lower(tool);
    if name == "web_search" || Contains(name, "search") then 0
    else if name in {"web_extract", "web_fetch", "fetch_url"} || Contains(name, "fetch")
        || Contains(name, "extract_url") then 1
    else if "browser" <= name || "cua_browser" <= name || name == "computer_use" then 2
    else if name in {"execute_code", "python", "terminal"} then 1
    else 2
  }

  /** What the admission rules see of a tool: the setup tool, the opaque proxy, or a rung. */
  datatype Kind = Setup | Proxy | Rung(rung: nat)

  function KindOf(tool: string): (k: Kind)
    ensures k.Rung? ==> k.rung < RUNGS
  {
    if IsSetup(tool) then Setup else if IsProxy(tool) then Proxy else Kind.Rung(ToolStage(tool))
  }

  // ---------------------------------------------------------------- step functions

  function Min(a: nat, b: nat): nat { if a < b then a else b }

  function Init(p: Policy): State
    requires p.initialStage < RUNGS
  {
    State(p.initialStage, ZERO, ZERO, 0, {}, {}, {}, 0, 0, 0, 0, false, false, [])
  }

  function BeginStep(s: State): State { s.(batchActive := true, batchCounted := false) }

  function EndStep(s: State): State { s.(batchActive := false, batchCounted := false) }

  /** The first rung from `r` on whose call budget is not zero, or the end of the ladder. */
  function NextRung(maxCalls: Triple, r: Stage): (n: Stage)
    ensures r <= n
    ensures forall k | r <= k < n :: maxCalls.At(k) == 0
    ensures n < RUNGS ==> maxCalls.At(n) != 0
    decreases RUNGS - r
  {
    if r < RUNGS && maxCalls.At(r) == 0 then NextRung(maxCalls, r + 1) else r
  }

  function AdvanceStep(p: Policy, s: State, r: nat): State
    requires r < RUNGS
  {
    if s.stage != r then s else s.(stage := NextRung(p.maxCalls, r + 1), lowNoveltyStreak := 0)
  }

  function CountStep(s: State): (State, bool) {
    if !s.batchActive then (s, true)
    else if s.batchCounted then (s, false)
    else (s.(batchCounted := true), true)
  }

  /** A refusal.  `mayCount` is false only for a wrong-rung call whose rung still holds reservations. */
  function RedirectStep(p: Policy, s: State, mayCount: bool): (State, Decision) {
    var (s1, counted) := if mayCount then CountStep(s) else (s, false);
    var s2 := s1.(rejectedCalls := s1.rejectedCalls + 1,
                  redirectViolations := if counted then s1.redirectViolations + 1 else s1.redirectViolations);
    var terminal := counted
                    && (s2.redirectViolations >= p.maxRedirectViolations || s2.rejectedCalls >= p.maxRejectedCalls);
    (s2, Redirect(terminal, counted, s2.rejectedCalls))
  }

  function BeforeStep(p: Policy, s: State, k: Kind): (State, Decision)
    requires k.Rung? ==> k.rung < RUNGS
  {
    match k
    case Setup =>
      if s.stage >= RUNGS || s.setupCalls >= p.maxSetupCalls then RedirectStep(p, s, true)
      else (s.(setupCalls := s.setupCalls + 1), Admit)
    case Proxy => RedirectStep(p, s, true)
    case Rung(attempted) =>
      if s.stage >= RUNGS then RedirectStep(p, s, true)
      else if attempted != s.stage then RedirectStep(p, s, s.reserved.At(attempted) == 0)
      else if s.calls.At(attempted) + s.reserved.At(attempted) >= p.maxCalls.At(attempted) then
        RedirectStep(p, AdvanceStep(p, s, attempted), true)
      else (s.(reserved := s.reserved.With(attempted, s.reserved.At(attempted) + 1)), Admit)
  }

  /** A result is novel when it is substantive and adds a URL, or an unseen text with enough new words. */
  predicate Novel(p: Policy, stage: nat, urls: set<string>, fingerprints: set<string>, vocabulary: set<string>,
                  o: Observation)
  {
    && !o.failed
    && o.strippedLength >= (if stage == 0 then p.minSearchChars else p.minContentChars)
    && (o.urls - urls != {} || (o.fingerprint !in fingerprints && |o.words - vocabulary| >= 12))
  }

  function Excerpt(p: Policy, evidenceChars: nat, text: string): string {
    var remaining := if p.maxEvidenceTotal > evidenceChars then p.maxEvidenceTotal - evidenceChars else 0;
    text[..Min(|text|, Min(p.maxEvidencePerCall, remaining))]
  }

  /** A completion releases a reservation if one is left and is charged to its rung. */
  function ChargeStep(s: State, rung: nat): State
    requires rung < RUNGS
  {
    s.(reserved := if s.reserved.At(rung) > 0 then s.reserved.With(rung, s.reserved.At(rung) - 1) else s.reserved,
       redirectViolations := 0,
       calls := s.calls.With(rung, s.calls.At(rung) + 1))
  }

  function LearnStep(p: Policy, s: State, rung: nat, o: Observation): State {
    s.(lowNoveltyStreak := if Novel(p, rung, s.urls, s.fingerprints, s.vocabulary, o) then 0
        else s.lowNoveltyStreak + 1,
       urls := s.urls + o.urls,
       vocabulary := s.vocabulary + o.words,
       fingerprints := s.fingerprints + {o.fingerprint})
  }

  function StoreStep(p: Policy, s: State, tool: string, rung: nat, o: Observation): State
    requires rung < RUNGS
  {
    var excerpt := Excerpt(p, s.evidenceChars, o.text);
    if excerpt == "" then s
    else s.(evidence := s.evidence + [Evidence(s.calls.At(rung), rung, tool, o.failed, o.urls, excerpt)],
            evidenceChars := s.evidenceChars + |excerpt|)
  }

  /** Accounting of one completion, before the ladder is considered. */
  function RecordStep(p: Policy, s: State, tool: string, rung: nat, o: Observation): State
    requires rung < RUNGS
  {
    StoreStep(p, LearnStep(p, ChargeStep(s, rung), rung, o), tool, rung, o)
  }

  function AfterStep(p: Policy, s: State, tool: string, rung: nat, o: Observation): (State, Option<Transition>)
    requires rung < RUNGS
  {
    var s1 := RecordStep(p, s, tool, rung, o);
    if rung == s.stage && (s1.calls.At(rung) >= p.maxCalls.At(rung) || s1.lowNoveltyStreak >= p.lowNoveltyLimit) then
      var s2 := AdvanceStep(p, s1, rung);
      (s2, Some(Transition(s2.stage, s2.calls.At(rung))))
    else (s1, None)
  }

  // ---------------------------------------------------------------- the controller

  class RetrievalProgressController {
    const policy: Policy
    var stage: Stage
    var calls: Triple
    var reserved: Triple
    var lowNoveltyStreak: nat
    var urls: set<string>
    var fingerprints: set<string>
    var vocabulary: set<string>
    var redirectViolations: nat
    var evidenceChars: nat
    var rejectedCalls: nat
    var setupCalls: nat
    var batchActive: bool
    var batchCounted: bool
    var evidence: seq<Evidence>

    ghost function Model(): State
      reads this
    {
      State(stage, calls, reserved, lowNoveltyStreak, urls, fingerprints, vocabulary, redirectViolations,
            evidenceChars, rejectedCalls, setupCalls, batchActive, batchCounted, evidence)
    }

    constructor (policy: Policy)
      requires policy.initialStage < RUNGS
      ensures this.policy == policy && Model() == Init(policy)
    {
      this.policy := policy;
      stage := policy.initialStage;
      calls, reserved := ZERO, ZERO;
      lowNoveltyStreak, urls, fingerprints, vocabulary := 0, {}, {}, {};
      redirectViolations, evidenceChars, rejectedCalls, setupCalls := 0, 0, 0, 0;
      batchActive, batchCounted, evidence := false, false, [];
    }

    method BeginToolBatch()
      modifies this
      ensures Model() == BeginStep(old(Model()))
    {
      batchActive := true;
      batchCounted := false;
    }

    method EndToolBatch()
      modifies this
      ensures Model() == EndStep(old(Model()))
    {
      batchActive := false;
      batchCounted := false;
    }

    method CountBatchViolation() returns (counted: bool)
      modifies this
      ensures (Model(), counted) == CountStep(old(Model()))
    {
      if !batchActive { return true; }
      if batchCounted { return false; }
      batchCounted := true;
      return true;
    }

    method Advance(r: nat)
      requires r < RUNGS
      modifies this
      ensures Model() == AdvanceStep(policy, old(Model()), r)
    {
      if stage != r { return; }
      stage := stage + 1;
      while stage < RUNGS && policy.maxCalls.At(stage) == 0
        invariant Model() == old(Model()).(stage := stage)
        invariant NextRung(policy.maxCalls, stage) == NextRung(policy.maxCalls, r + 1)
        decreases RUNGS - stage
      {
        stage := stage + 1;
      }
      lowNoveltyStreak := 0;
    }

    method RedirectCall(mayCount: bool) returns (d: Decision)
      modifies this
      ensures (Model(), d) == RedirectStep(policy, old(Model()), mayCount)
    {
      var counted := false;
      if mayCount { counted := CountBatchViolation(); }
      rejectedCalls := rejectedCalls + 1;
      if counted { redirectViolations := redirectViolations + 1; }
      var terminal := redirectViolations >= policy.maxRedirectViolations;
      if !terminal && rejectedCalls >= policy.maxRejectedCalls { terminal := true; }
      if !counted { terminal := false; }
      d := Redirect(terminal, counted, rejectedCalls);
    }

    method Before(tool: string) returns (d: Decision)
      modifies this
      ensures (Model(), d) == BeforeStep(policy, old(Model()), KindOf(tool))
    {
      if IsSetup(tool) {
        if stage >= RUNGS { d := RedirectCall(true); return; }
        if setupCalls >= policy.maxSetupCalls { d := RedirectCall(true); return; }
        setupCalls := setupCalls + 1;
        return Admit;
      }
      if IsProxy(tool) { d := RedirectCall(true); return; }
      var attempted := ToolStage(tool);
      if stage >= RUNGS { d := RedirectCall(true); return; }
      if attempted != stage { d := RedirectCall(reserved.At(attempted) == 0); return; }
      var occupied := calls.At(attempted) + reserved.At(attempted);
      if occupied >= policy.maxCalls.At(attempted) {
        Advance(attempted);
        d := RedirectCall(true);
        return;
      }
      reserved := reserved.With(attempted, reserved.At(attempted) + 1);
      return Admit;
    }

    method Charge(rung: nat)
      requires rung < RUNGS
      modifies this
      ensures Model() == ChargeStep(old(Model()), rung)
    {
      if reserved.At(rung) > 0 { reserved := reserved.With(rung, reserved.At(rung) - 1); }
      redirectViolations := 0;
      calls := calls.With(rung, calls.At(rung) + 1);
    }

    method Learn(rung: nat, o: Observation)
      modifies this
      ensures Model() == LearnStep(policy, old(Model()), rung, o)
    {
      var novel := Novel(policy, rung, urls, fingerprints, vocabulary, o);
      urls := urls + o.urls;
      vocabulary := vocabulary + o.words;
      fingerprints := fingerprints + {o.fingerprint};
      lowNoveltyStreak := if novel then 0 else lowNoveltyStreak + 1;
    }

    method Store(tool: string, rung: nat, o: Observation)
      requires rung < RUNGS
      modifies this
      ensures Model() == StoreStep(policy, old(Model()), tool, rung, o)
    {
      var excerpt := Excerpt(policy, evidenceChars, o.text);
      if excerpt != "" {
        evidence := evidence + [Evidence(calls.At(rung), rung, tool, o.failed, o.urls, excerpt)];
        evidenceChars := evidenceChars + |excerpt|;
      }
    }

    method After(tool: string, o: Observation) returns (t: Option<Transition>)
      modifies this
      ensures (Model(), t) == AfterStep(policy, old(Model()), tool, ToolStage(tool), o)
    {
      var rung := ToolStage(tool);
      Charge(rung);
      Learn(rung, o);
      Store(tool, rung, o);
      var stale := rung != stage;
      var move := calls.At(rung) >= policy.maxCalls.At(rung) || lowNoveltyStreak >= policy.lowNoveltyLimit;
      if !move || stale { return None; }
      Advance(rung);
      return Some(Transition(stage, calls.At(rung)));
    }
  }
}
