/** Runs of the retrieval controller: every interleaving of parallel calls, including
    dropped and stale completions.  `World` adds to the controller's state what only an
    observer can count: the calls in flight and done, and the batches. */
module RetrievalRuns {
  import opened Wrappers
  import opened Retrieval

  datatype World = World(
    s: State,
    flight: Triple,      // real calls admitted and not yet completed or dropped
    done: Triple,        // real calls completed
    setupFlight: nat,
    setupDone: nat,
    counted: nat,        // refusals that counted as a violation
    batches: nat,        // batches with at least one call
    opening: bool,         // the open batch has no call yet
    halted: bool)        // a terminal refusal was returned

  datatype Event =
    | Begin
    | End
    | Call(kind: Kind)
    | Complete(kind: Kind, tool: string, o: Observation)
    | Drop(kind: Kind)

  /** The rung whose counter a completion is charged to; the setup tool falls to the last one. */
  function ChargedRung(k: Kind): nat {
    match k case Setup => 2 case Proxy => 2 case Rung(r) => r
  }

  ghost function Start(p: Policy): World
    requires p.initialStage < RUNGS
  {
    World(Init(p), ZERO, ZERO, 0, 0, 0, 0, false, false)
  }

  ghost predicate InFlight(w: World, k: Kind) {
    match k
    case Setup => w.setupFlight > 0
    case Proxy => false
    case Rung(r) => r < RUNGS && w.flight.At(r) > 0
  }

  /** Only a call in flight can complete or be dropped. */
  ghost predicate Enabled(w: World, e: Event) {
    match e
    case Call(k) => k.Rung? ==> k.rung < RUNGS
    case Complete(k, _, _) => InFlight(w, k)
    case Drop(k) => InFlight(w, k)
    case _ => true
  }

  ghost function Land(w: World, k: Kind): World
    requires InFlight(w, k)
  {
    if k.Setup? then w.(setupFlight := w.setupFlight - 1)
    else w.(flight := w.flight.With(k.rung, w.flight.At(k.rung) - 1))
  }

  /** The world after a decision `d` that left the controller in state `s`. */
  ghost function Decided(w: World, k: Kind, s: State, d: Decision): World {
    var w1 := w.(s := s, opening := false, batches := if w.opening then w.batches + 1 else w.batches);
    match d
    case Admit =>
      if k.Rung? then w1.(flight := w.flight.With(k.rung, w.flight.At(k.rung) + 1))
      else w1.(setupFlight := w.setupFlight + 1)
    case Redirect(terminal, counted, _) =>
      w1.(counted := if counted then w.counted + 1 else w.counted, halted := w.halted || terminal)
  }

  ghost function CallWorld(p: Policy, w: World, k: Kind): World
    requires k.Rung? ==> k.rung < RUNGS
  {
    var (s, d) := BeforeStep(p, w.s, k);
    Decided(w, k, s, d)
  }

  /** The world after a completion that left the controller in state `s`. */
  ghost function Completed(w: World, k: Kind, s: State): World
    requires InFlight(w, k)
  {
    var w1 := Land(w, k).(s := s);
    if k.Setup? then w1.(setupDone := w.setupDone + 1)
    else w1.(done := w.done.With(k.rung, w.done.At(k.rung) + 1))
  }

  ghost function CompleteWorld(p: Policy, w: World, k: Kind, tool: string, o: Observation): World
    requires InFlight(w, k)
  {
    Completed(w, k, AfterStep(p, w.s, tool, ChargedRung(k), o).0)
  }

  ghost function Step(p: Policy, w: World, e: Event): World
    requires Enabled(w, e)
  {
    match e
    case Begin => w.(s := BeginStep(w.s), opening := true)
    case End => w.(s := EndStep(w.s), opening := false)
    case Call(k) => CallWorld(p, w, k)
    case Complete(k, tool, o) => CompleteWorld(p, w, k, tool, o)
    case Drop(k) => Land(w, k)
  }

  /** `es` leads from `w` to `w'`. */
  ghost predicate Run(p: Policy, w: World, es: seq<Event>, w': World)
    decreases es
  {
    if es == [] then w' == w
    else Enabled(w, es[0]) && Run(p, Step(p, w, es[0]), es[1..], w')
  }

  function StoredChars(es: seq<Evidence>): nat {
    if es == [] then 0 else StoredChars(es[..|es| - 1]) + |es[|es| - 1].content|
  }

  // ---------------------------------------------------------------- budget safety

  ghost predicate WithinBudget(p: Policy, w: World) {
    && (forall r | 0 <= r < RUNGS :: w.done.At(r) + w.flight.At(r) <= p.maxCalls.At(r))
    && w.s.calls.Sum() <= p.maxCalls.Sum() + p.maxSetupCalls
    && w.s.calls.browser <= p.maxCalls.browser + p.maxSetupCalls
    && StoredChars(w.s.evidence) == w.s.evidenceChars <= p.maxEvidenceTotal
  }

  predicate Covered(used: nat, occupied: nat, limit: nat) { used <= occupied && used <= limit }

  ghost predicate EvidenceKept(p: Policy, s: State) {
    StoredChars(s.evidence) == s.evidenceChars <= p.maxEvidenceTotal
  }

  /** What every step keeps.  A leaked or stolen reservation only makes the books stricter. */
  ghost predicate Numbers(p: Policy, w: World) {
    && Covered(w.done.search + w.flight.search, w.s.calls.search + w.s.reserved.search, p.maxCalls.search)
    && Covered(w.done.fetch + w.flight.fetch, w.s.calls.fetch + w.s.reserved.fetch, p.maxCalls.fetch)
    && Covered(w.done.browser + w.flight.browser, w.s.calls.browser + w.s.reserved.browser, p.maxCalls.browser)
    && w.s.calls.search == w.done.search
    && w.s.calls.fetch == w.done.fetch
    && w.s.calls.browser == w.done.browser + w.setupDone
    && w.setupDone + w.setupFlight <= w.s.setupCalls <= p.maxSetupCalls
  }

  ghost predicate Books(p: Policy, w: World) { Numbers(p, w) && EvidenceKept(p, w.s) }

  lemma OccurrenceStart(n: string, part: string, i: nat)
    requires |part| > 1 && OccursAt(n, part, i)
    ensures n[i] == part[0] && n[i + 1] == part[1]
  {
    assert n[i] == n[i..i + |part|][0];
    assert n[i + 1] == n[i..i + |part|][1];
  }

  lemma NoOccurrence(n: string, part: string)
    requires |part| > 1
    requires forall i: nat | i + 1 < |n| :: n[i] != part[0] || n[i + 1] != part[1]
    ensures !Contains(n, part)
  {
    if Contains(n, part) {
      var i :| 0 <= i <= |n| && OccursAt(n, part, i);
      OccurrenceStart(n, part, i);
    }
  }

  /** The controller's own charging rule, on tool names: `after` charges what `before` classified. */
  lemma ChargedRungOfTool(tool: string)
    ensures ToolStage(tool) == ChargedRung(KindOf(tool))
  {
    if IsSetup(tool) || IsProxy(tool) {
      NoOccurrence(Lower(tool), "search");
      NoOccurrence(Lower(tool), "fetch");
      NoOccurrence(Lower(tool), "extract_url");
      assert Lower(tool)[0] != 'b' && Lower(tool)[0] != 'c';
    }
  }

  /** `t` reads `s` when case does not count; `s` is in lower case. */
  ghost predicate Reads(t: string, s: string) {
    && |t| == |s|
    && forall i | 0 <= i < |s| ::
         !('A' <= s[i] <= 'Z') && (t[i] == s[i] || ('A' <= t[i] <= 'Z' && t[i] as int + 32 == s[i] as int))
  }

  lemma LowerReads(t: string, s: string)
    requires Reads(t, s)
    ensures Lower(t) == s
  {
  }

  lemma MarkInName(a: string, mark: string, b: string)
    ensures Contains(a + mark + b, mark)
  {
    assert OccursAt(a + mark + b, mark, |a|);
  }

  /** The names with a rule of their own carry none of the two marks. */
  lemma OwnNamesAreUnmarked(n: string)
    requires n == "skill_view" || n == "delegate_task"
    ensures !Contains(n, "search") && !Contains(n, "fetch")
  {
    NoOccurrence(n, "search");
    NoOccurrence(n, "fetch");
  }

  /** Any tool with "search" in its name, in any case, belongs to the first rung; any other with
      "fetch" in it to the second. */
  lemma ToolsByMark(t: string, a: string, b: string)
    ensures Reads(t, a + "search" + b) ==> KindOf(t) == Kind.Rung(0)
    ensures Reads(t, a + "fetch" + b) && !Contains(a + "fetch" + b, "search") ==> KindOf(t) == Kind.Rung(1)
  {
    var n := Lower(t);
    if Reads(t, a + "search" + b) {
      LowerReads(t, a + "search" + b);
      MarkInName(a, "search", b);
    }
    if Reads(t, a + "fetch" + b) {
      LowerReads(t, a + "fetch" + b);
      MarkInName(a, "fetch", b);
    }
    if IsSetup(t) || IsProxy(t) { OwnNamesAreUnmarked(n); }
    if n == "web_search" {
      MarkInName("web_", "search", "");
      assert "web_" + "search" + "" == n;
    }
    hide Lower, Contains, Reads;
  }

  lemma UnmarkedName(n: string)
    requires n == "python" || n == "terminal" || n == "bash"
    ensures !Contains(n, "search") && !Contains(n, "fetch") && !Contains(n, "extract_url")
    ensures n == "python" || n == "terminal" ==> !("browser" <= n) && !("cua_browser" <= n)
  {
    NoOccurrence(n, "search");
    NoOccurrence(n, "fetch");
    NoOccurrence(n, "extract_url");
    if n == "python" || n == "terminal" { assert n[0] != 'b' && n[0] != 'c'; }
  }

  lemma NameOf(t: string, n: string)
    requires Lower(t) == n && (n == "python" || n == "terminal" || n == "bash")
    ensures KindOf(t) == Kind.Rung(if n == "python" || n == "terminal" then 1 else 2)
  {
    UnmarkedName(n);
    hide Lower, Contains;
  }

  /** The tools without such a mark: opaque code belongs to the second rung, skills are setup,
      delegation is a proxy, and a shell of another name falls to the last rung. */
  lemma ToolsByName(t: string)
    ensures Reads(t, "python") || Reads(t, "terminal") ==> KindOf(t) == Kind.Rung(1)
    ensures Reads(t, "bash") ==> KindOf(t) == Kind.Rung(2)
    ensures Reads(t, "skill_view") ==> KindOf(t) == Setup
    ensures Reads(t, "delegate_task") ==> KindOf(t) == Proxy
  {
    hide ToolStage, Lower, Contains;
    if Reads(t, "python") { LowerReads(t, "python"); NameOf(t, "python"); }
    if Reads(t, "terminal") { LowerReads(t, "terminal"); NameOf(t, "terminal"); }
    if Reads(t, "bash") { LowerReads(t, "bash"); NameOf(t, "bash"); }
    if Reads(t, "skill_view") { LowerReads(t, "skill_view"); }
    if Reads(t, "delegate_task") { LowerReads(t, "delegate_task"); }
  }

  /** What an admission decision does to the counters, and what it leaves alone. */
  ghost predicate DecisionEffect(p: Policy, s: State, k: Kind, s': State, d: Decision) {
    && s'.calls == s.calls && s'.evidence == s.evidence && s'.evidenceChars == s.evidenceChars
    && s.stage <= s'.stage && s'.batchActive == s.batchActive
    && match d {
         case Redirect(terminal, counted, _) =>
           && s'.reserved == s.reserved && s'.setupCalls == s.setupCalls
           && s'.rejectedCalls == s.rejectedCalls + 1
           && (counted && s'.rejectedCalls >= p.maxRejectedCalls ==> terminal)
           && (s.batchActive && !s.batchCounted && s.reserved == ZERO ==> counted)
         case Admit =>
           && s'.stage == s.stage < RUNGS && s'.rejectedCalls == s.rejectedCalls
           && match k {
                case Setup => s'.setupCalls == s.setupCalls + 1 <= p.maxSetupCalls && s'.reserved == s.reserved
                case Proxy => false
                case Rung(r) => && r == s.stage && s'.setupCalls == s.setupCalls
                                && s'.reserved == s.reserved.With(r, s.reserved.At(r) + 1)
                                && s.calls.At(r) + s.reserved.At(r) < p.maxCalls.At(r)
              }
       }
  }

  lemma BeforeEffect(p: Policy, s: State, k: Kind)
    requires k.Rung? ==> k.rung < RUNGS
    ensures DecisionEffect(p, s, k, BeforeStep(p, s, k).0, BeforeStep(p, s, k).1)
  {}

  lemma DecisionKeepsBooks(p: Policy, w: World, k: Kind, s: State, d: Decision)
    requires Books(p, w) && DecisionEffect(p, w.s, k, s, d)
    ensures Books(p, Decided(w, k, s, d))
  {}

  lemma CallKeepsBooks(p: Policy, w: World, k: Kind)
    requires Books(p, w) && (k.Rung? ==> k.rung < RUNGS)
    ensures Books(p, CallWorld(p, w, k))
    ensures w.s.stage <= CallWorld(p, w, k).s.stage
    ensures BeforeStep(p, w.s, k).1.Admit? ==> w.s.stage < RUNGS && (k.Setup? || k == Kind.Rung(w.s.stage))
  {
    var (s, d) := BeforeStep(p, w.s, k);
    BeforeEffect(p, w.s, k);
    DecisionKeepsBooks(p, w, k, s, d);
  }

  /** What a completion does to the counters. */
  ghost predicate CompletionEffect(p: Policy, s: State, rung: nat, s': State) {
    && s'.calls == s.calls.With(rung, s.calls.At(rung) + 1)
    && s'.reserved == (if s.reserved.At(rung) > 0 then s.reserved.With(rung, s.reserved.At(rung) - 1) else s.reserved)
    && s'.setupCalls == s.setupCalls && s'.rejectedCalls == s.rejectedCalls && s.stage <= s'.stage
    && s'.batchActive == s.batchActive && s'.batchCounted == s.batchCounted
  }

  lemma AfterEffect(p: Policy, s: State, tool: string, rung: nat, o: Observation)
    requires rung < RUNGS
    ensures CompletionEffect(p, s, rung, AfterStep(p, s, tool, rung, o).0)
    ensures EvidenceKept(p, s) ==> EvidenceKept(p, AfterStep(p, s, tool, rung, o).0)
  {
  }

  lemma CompletionKeepsBooks(p: Policy, w: World, k: Kind, tool: string, o: Observation)
    requires Books(p, w) && InFlight(w, k)
    ensures Books(p, CompleteWorld(p, w, k, tool, o))
    ensures w.s.stage <= CompleteWorld(p, w, k, tool, o).s.stage
  {
    AfterEffect(p, w.s, tool, ChargedRung(k), o);
  }

  /** One step of any kind keeps the books and never moves the rung back. */
  lemma StepKeepsBooks(p: Policy, w: World, e: Event)
    requires Books(p, w) && Enabled(w, e)
    ensures Books(p, Step(p, w, e))
    ensures w.s.stage <= Step(p, w, e).s.stage
  {
    match e
    case Call(k) => CallKeepsBooks(p, w, k);
    case Complete(k, tool, o) => CompletionKeepsBooks(p, w, k, tool, o);
    case _ =>
  }

  lemma {:induction false} RunKeepsBooks(p: Policy, w: World, es: seq<Event>, w': World)
    requires Books(p, w) && Run(p, w, es, w')
    ensures Books(p, w') && w.s.stage <= w'.s.stage
    decreases es
  {
    if es != [] {
      StepKeepsBooks(p, w, es[0]);
      RunKeepsBooks(p, Step(p, w, es[0]), es[1..], w');
    }
  }

  /** Budget safety in every interleaving: on each rung the real calls done and in flight
      stay within the limit, the executed calls within the total, and the evidence within
      its cap; the rung never goes back, and at the end of the ladder nothing is admitted. */
  lemma BudgetSafety(p: Policy, es: seq<Event>, w: World, more: seq<Event>, w': World, k: Kind)
    requires p.initialStage < RUNGS && Run(p, Start(p), es, w) && Run(p, w, more, w')
    requires k.Rung? ==> k.rung < RUNGS
    ensures WithinBudget(p, w) && WithinBudget(p, w')
    ensures w.s.stage <= w'.s.stage
    ensures w.s.stage == RUNGS ==> BeforeStep(p, w'.s, k).1.Redirect?
  {
    RunKeepsBooks(p, Start(p), es, w);
    RunKeepsBooks(p, w, more, w');
    CallKeepsBooks(p, w', k);
  }

  /** The policies as shipped: three searches, three fetches and two browser calls, or the same eight
      calls for the browser alone; with setup at most ten calls, and at most 30000 characters of
      evidence. */
  lemma ShippedBudgets(dynamicBrowser: bool, es: seq<Event>, w: World)
    requires var p := if dynamicBrowser then DYNAMIC_BROWSER_POLICY else DEFAULT_POLICY; Run(p, Start(p), es, w)
    ensures w.done.search + w.flight.search <= if dynamicBrowser then 0 else 3
    ensures w.done.fetch + w.flight.fetch <= if dynamicBrowser then 0 else 3
    ensures w.done.browser + w.flight.browser <= if dynamicBrowser then 8 else 2
    ensures w.s.calls.Sum() <= 10 && StoredChars(w.s.evidence) <= 30000
    ensures DEFAULT_POLICY.maxCalls.Sum() == DYNAMIC_BROWSER_POLICY.maxCalls.Sum() == 8
  {
    var p := if dynamicBrowser then DYNAMIC_BROWSER_POLICY else DEFAULT_POLICY;
    BudgetSafety(p, es, w, [], w, Setup);
    assert WithinBudget(p, w);
    assert w.done.At(0) + w.flight.At(0) <= p.maxCalls.At(0) && w.done.At(1) + w.flight.At(1) <= p.maxCalls.At(1);
    assert w.done.At(2) + w.flight.At(2) <= p.maxCalls.At(2);
  }

  // ---------------------------------------------------------------- repetition cannot buy time

  /** The state after the results `os` of one rung, in order. */
  function Absorb(p: Policy, s: State, tool: string, rung: nat, os: seq<Observation>): State
    requires rung < RUNGS
  {
    if os == [] then s else AfterStep(p, Absorb(p, s, tool, rung, os[..|os| - 1]), tool, rung, os[|os| - 1]).0
  }

  /** Nothing of the result is unseen: every URL and the text itself were there before. */
  ghost predicate Seen(s: State, o: Observation) { o.urls <= s.urls && o.fingerprint in s.fingerprints }

  lemma SeenResultIsStale(p: Policy, s: State, tool: string, rung: nat, o: Observation)
    requires rung < RUNGS && Seen(s, o)
    ensures var s' := AfterStep(p, s, tool, rung, o).0;
            && s'.urls == s.urls && s'.fingerprints == s.fingerprints && s.stage <= s'.stage
            && (s'.stage == s.stage ==> s'.lowNoveltyStreak == s.lowNoveltyStreak + 1)
            && (s.stage == rung && s.lowNoveltyStreak + 1 >= p.lowNoveltyLimit ==> s'.stage > rung)
  {
    assert o.urls - s.urls == {};
  }

  /** However the queries are worded and whatever the results contain, results of which nothing is
      unseen leave the rung after at most `lowNoveltyLimit` of them. */
  lemma {:induction false} StaleResultsMoveTheLadder(p: Policy, s: State, tool: string, rung: nat, os: seq<Observation>)
    requires rung < RUNGS && s.stage == rung
    requires forall o | o in os :: Seen(s, o)
    ensures |os| >= p.lowNoveltyLimit && os != [] ==> Absorb(p, s, tool, rung, os).stage > rung
    ensures var r := Absorb(p, s, tool, rung, os);
            && r.urls == s.urls && r.fingerprints == s.fingerprints
            && (r.stage > rung || (r.stage == rung && r.lowNoveltyStreak >= |os|))
  {
    if os != [] {
      hide AfterStep;
      StaleResultsMoveTheLadder(p, s, tool, rung, os[..|os| - 1]);
      var r := Absorb(p, s, tool, rung, os[..|os| - 1]);
      assert Seen(s, os[|os| - 1]);
      SeenResultIsStale(p, r, tool, rung, os[|os| - 1]);
    }
  }

  // ---------------------------------------------------------------- what a result is worth

  /** A result worth having: not failed, as long as its rung asks for, with a URL nobody saw or
      with a text nobody saw that brings a dozen words nobody saw. */
  ghost predicate Fresh(p: Policy, s: State, rung: nat, o: Observation) {
    && !o.failed
    && (if rung == 0 then o.strippedLength >= p.minSearchChars else o.strippedLength >= p.minContentChars)
    && ((exists u :: u in o.urls && u !in s.urls)
        || (o.fingerprint !in s.fingerprints && |o.words - s.vocabulary| >= 12))
  }

  /** The rung that follows `rung` on the ladder: the next one with a budget, or the end. */
  ghost predicate Follows(p: Policy, rung: nat, next: nat) {
    && rung < next <= RUNGS && (next < RUNGS ==> p.maxCalls.At(next) > 0)
    && forall k | rung < k < next :: p.maxCalls.At(k) == 0
  }

  lemma NovelIsFresh(p: Policy, s: State, rung: nat, o: Observation)
    ensures Novel(p, rung, s.urls, s.fingerprints, s.vocabulary, o) <==> Fresh(p, s, rung, o)
  {
    if o.urls - s.urls != {} { var u :| u in o.urls - s.urls; }
    if u :| u in o.urls && u !in s.urls { assert u in o.urls - s.urls; }
  }

  /** What one result does to streak and rung, exactly: a fresh one ends the streak and any other
      lengthens it; a full rung or a streak at the limit is left, and only then.  A result of a
      rung that is no longer the current one moves nothing but the streak. */
  lemma ResultEffect(p: Policy, s: State, tool: string, rung: nat, o: Observation)
    requires rung < RUNGS
    ensures var (s', t) := AfterStep(p, s, tool, rung, o);
            var streak := if Fresh(p, s, rung, o) then 0 else s.lowNoveltyStreak + 1;
            var left := s.stage == rung && (s.calls.At(rung) + 1 >= p.maxCalls.At(rung) || streak >= p.lowNoveltyLimit);
            && s'.urls == s.urls + o.urls && s'.vocabulary == s.vocabulary + o.words
            && s'.fingerprints == s.fingerprints + {o.fingerprint}
            && s'.redirectViolations == 0
            && (if left then Follows(p, rung, s'.stage) && s'.lowNoveltyStreak == 0
                        else s'.stage == s.stage && s'.lowNoveltyStreak == streak)
            && t == if left then Some(Transition(s'.stage, s.calls.At(rung) + 1)) else None
  {
    var s1 := ChargeStep(s, rung);
    NovelIsFresh(p, s, rung, o);
    assert Novel(p, rung, s1.urls, s1.fingerprints, s1.vocabulary, o) <==> Fresh(p, s, rung, o);
    hide Novel, Fresh, Excerpt;
  }

  /** Each result was fresh when it came. */
  ghost predicate AllFresh(p: Policy, s: State, tool: string, rung: nat, os: seq<Observation>)
    requires rung < RUNGS
  {
    forall i | 0 <= i < |os| :: Fresh(p, Absorb(p, s, tool, rung, os[..i]), rung, os[i])
  }

  /** Below the call limit any number of fresh results leaves the rung standing. */
  lemma {:induction false} FreshResultsKeepTheRung(p: Policy, s: State, tool: string, rung: nat, os: seq<Observation>)
    requires rung < RUNGS && s.stage == rung && p.lowNoveltyLimit > 0 && AllFresh(p, s, tool, rung, os)
    requires s.calls.At(rung) + |os| < p.maxCalls.At(rung)
    ensures var s' := Absorb(p, s, tool, rung, os);
            && s'.stage == rung && s'.calls.At(rung) == s.calls.At(rung) + |os|
            && (os != [] ==> s'.lowNoveltyStreak == 0)
  {
    if os != [] {
      var front, o := os[..|os| - 1], os[|os| - 1];
      forall i | 0 <= i < |front| ensures Fresh(p, Absorb(p, s, tool, rung, front[..i]), rung, front[i]) {
        assert front[..i] == os[..i];
      }
      FreshResultsKeepTheRung(p, s, tool, rung, front);
      var before := Absorb(p, s, tool, rung, front);
      assert Fresh(p, Absorb(p, s, tool, rung, os[..|os| - 1]), rung, os[|os| - 1]);
      ResultEffect(p, before, tool, rung, o);
      AfterEffect(p, before, tool, rung, o);
      hide AfterStep, Fresh;
    }
  }

  /** What is kept of a result: as much of its text as both caps allow, under its own call number,
      rung, tool and URLs; nothing when that is empty. */
  lemma ResultIsStored(p: Policy, s: State, tool: string, rung: nat, o: Observation)
    requires rung < RUNGS
    ensures var s' := AfterStep(p, s, tool, rung, o).0;
            if o.text == "" || p.maxEvidencePerCall == 0 || s.evidenceChars >= p.maxEvidenceTotal
            then s'.evidence == s.evidence && s'.evidenceChars == s.evidenceChars
            else
              && |s'.evidence| == |s.evidence| + 1 && s.evidence <= s'.evidence
              && var e := s'.evidence[|s.evidence|];
              && e.content <= o.text && s'.evidenceChars == s.evidenceChars + |e.content| <= p.maxEvidenceTotal
              && |e.content| <= p.maxEvidencePerCall
              && (e.content == o.text || |e.content| == p.maxEvidencePerCall || s'.evidenceChars == p.maxEvidenceTotal)
              && e == Evidence(s.calls.At(rung) + 1, rung, tool, o.failed, o.urls, e.content)
  {
    hide Novel, NextRung;
    var excerpt := Excerpt(p, s.evidenceChars, o.text);
    assert excerpt <= o.text;
  }

  // ---------------------------------------------------------------- leaked reservations

  /** What every run keeps of the two lower rungs: calls in flight hold reservations, and
      reservations fit the budget.  No rung above the current one holds any. */
  ghost predicate Solid(p: Policy, w: World, r: nat) {
    w.flight.At(r) <= w.s.reserved.At(r) && w.s.calls.At(r) + w.s.reserved.At(r) <= p.maxCalls.At(r)
  }

  ghost predicate Held(p: Policy, w: World) {
    && Solid(p, w, 0) && Solid(p, w, 1)
    && (w.s.stage < 1 ==> w.s.reserved.fetch == 0 && w.flight.fetch == 0)
    && (w.s.stage < 2 ==> w.s.reserved.browser == 0 && w.flight.browser == 0)
    && (w.opening ==> w.s.batchActive && !w.s.batchCounted)
  }

  /** What a decision does to the counters that decide about halting. */
  ghost predicate HaltEffect(p: Policy, s: State, k: Kind, s': State, d: Decision) {
    match d
    case Admit =>
      s'.batchCounted == s.batchCounted && s'.redirectViolations == s.redirectViolations
          && s'.lowNoveltyStreak == s.lowNoveltyStreak
    case Redirect(terminal, counted, _) =>
      && s'.reserved == s.reserved && s'.calls == s.calls && s'.setupCalls == s.setupCalls
      && (s'.stage == s.stage
          || (s.stage < RUNGS && k == Kind.Rung(s.stage) && s'.stage == NextRung(p.maxCalls, s.stage + 1)))
      && (s'.stage == s.stage ==> s'.lowNoveltyStreak == s.lowNoveltyStreak)
      && s'.redirectViolations == (if counted then s.redirectViolations + 1 else s.redirectViolations)
      && (terminal <==>
          counted && (s'.redirectViolations >= p.maxRedirectViolations || s'.rejectedCalls >= p.maxRejectedCalls))
      && s'.batchCounted == (s.batchCounted || (counted && s.batchActive))
      && (counted <==> (!s.batchActive || !s.batchCounted)
                       && !(k.Rung? && s.stage < RUNGS && k.rung != s.stage && s.reserved.At(k.rung) > 0))
  }

  lemma BeforeHaltEffect(p: Policy, s: State, k: Kind)
    requires k.Rung? ==> k.rung < RUNGS
    ensures HaltEffect(p, s, k, BeforeStep(p, s, k).0, BeforeStep(p, s, k).1)
  {}

  lemma DecisionKeepsHeld(p: Policy, w: World, k: Kind, s: State, d: Decision)
    requires Held(p, w) && (k.Rung? ==> k.rung < RUNGS)
    requires DecisionEffect(p, w.s, k, s, d) && HaltEffect(p, w.s, k, s, d)
    ensures Held(p, Decided(w, k, s, d))
  {}

  lemma CompletionKeepsHeld(p: Policy, w: World, k: Kind, s: State)
    requires Books(p, w) && Held(p, w) && InFlight(w, k) && CompletionEffect(p, w.s, ChargedRung(k), s)
    ensures Held(p, Completed(w, k, s))
  {}

  lemma StepKeepsHeld(p: Policy, w: World, e: Event)
    requires Books(p, w) && Held(p, w) && Enabled(w, e)
    ensures Held(p, Step(p, w, e))
  {
    match e
    case Call(k) =>
      BeforeEffect(p, w.s, k);
      BeforeHaltEffect(p, w.s, k);
      DecisionKeepsHeld(p, w, k, BeforeStep(p, w.s, k).0, BeforeStep(p, w.s, k).1);
    case Complete(k, tool, o) =>
      AfterEffect(p, w.s, tool, ChargedRung(k), o);
      CompletionKeepsHeld(p, w, k, AfterStep(p, w.s, tool, ChargedRung(k), o).0);
    case _ =>
  }

  lemma {:induction false} RunKeepsHeld(p: Policy, w: World, es: seq<Event>, w': World)
    requires Books(p, w) && Held(p, w) && Run(p, w, es, w')
    ensures Books(p, w') && Held(p, w')
    decreases es
  {
    if es != [] {
      StepKeepsBooks(p, w, es[0]);
      StepKeepsHeld(p, w, es[0]);
      RunKeepsHeld(p, Step(p, w, es[0]), es[1..], w');
    }
  }

  // ---------------------------------------------------------------- the turn bound

  /** Calls come inside batches, none is dropped, and a batch opens only once every earlier call has completed. */
  ghost predicate Orderly(w: World, e: Event) {
    match e
    case Begin => !w.s.batchActive && w.flight == ZERO
    case Call(_) => w.s.batchActive
    case Drop(_) => false
    case _ => true
  }

  ghost predicate OrderlyRun(p: Policy, w: World, es: seq<Event>, w': World)
    decreases es
  {
    if es == [] then w' == w
    else Enabled(w, es[0]) && Orderly(w, es[0]) && OrderlyRun(p, Step(p, w, es[0]), es[1..], w')
  }

  /** Between two batches, everything completed or given up, and not halted. */
  ghost predicate AtRest(w: World) { !w.s.batchActive && w.flight == ZERO && !w.halted }

  ghost predicate NoLeak(w: World, r: nat) { w.s.reserved.At(r) <= w.flight.At(r) }

  /** Completions the current rung can still have while its leaked reservations stay. */
  ghost function Left(p: Policy, w: World): int {
    p.maxCalls.At(w.s.stage) - w.s.calls.At(w.s.stage) - (w.s.reserved.At(w.s.stage) - w.flight.At(w.s.stage))
  }

  /** Setup completions still to come. */
  ghost function SetupLeft(p: Policy, w: World): int { p.maxSetupCalls - w.s.setupCalls + w.setupFlight }

  /** Enough results can still come to leave the rung for lack of novelty. */
  ghost predicate LeavesByNovelty(p: Policy, w: World) {
    Left(p, w) >= 1 && w.s.lowNoveltyStreak + Left(p, w) + SetupLeft(p, w) >= p.lowNoveltyLimit
  }

  /** A refusal on the full rung can still leave it without being terminal. */
  ghost predicate LeavesByRefusal(p: Policy, w: World) {
    && w.s.rejectedCalls + 1 < p.maxRejectedCalls
    && (w.s.redirectViolations + 1 < p.maxRedirectViolations
        || (Left(p, w) + SetupLeft(p, w) >= 1 && 1 < p.maxRedirectViolations))
  }

  /** Nothing leaves the current rung except a terminal refusal. */
  ghost predicate Stuck(p: Policy, w: World) {
    && w.s.stage < 2 && !LeavesByNovelty(p, w) && !LeavesByRefusal(p, w)
    && (w.s.stage == 1 ==> w.flight.search == 0)
    && (w.s.batchActive ==> !w.s.batchCounted)
  }

  /** No refusal on another rung goes uncounted, now or later: no reservation is leaked elsewhere,
      and one leaked on the current rung is never left behind below the end of the ladder. */
  ghost predicate Tight(p: Policy, w: World) {
    w.s.stage < RUNGS && !w.halted ==>
      && (w.s.stage == 0 || NoLeak(w, 0)) && (w.s.stage == 1 || NoLeak(w, 1)) && (w.s.stage == 2 || NoLeak(w, 2))
      && (NoLeak(w, w.s.stage) || NextRung(p.maxCalls, w.s.stage + 1) == RUNGS || Stuck(p, w))
  }

  /** Every non-empty batch since `v` admitted a call or counted a refusal. */
  ghost predicate Turns(p: Policy, v: World, w: World) {
    w.halted ||
    (&& w.batches - v.batches <= w.done.Sum() + w.flight.Sum() - v.done.Sum() - v.flight.Sum()
                                + w.s.setupCalls - v.s.setupCalls + w.counted - v.counted
     && 0 <= w.counted - v.counted <= w.s.rejectedCalls
     && (w.counted == v.counted || w.counted - v.counted < p.maxRejectedCalls)
     && (w.opening ==> w.s.batchActive && !w.s.batchCounted && w.flight == ZERO))
  }

  lemma DecisionKeepsTurns(p: Policy, v: World, w: World, k: Kind, s: State, d: Decision)
    requires Turns(p, v, w) && Tight(p, w) && w.s.batchActive && (k.Rung? ==> k.rung < RUNGS)
    requires DecisionEffect(p, w.s, k, s, d) && HaltEffect(p, w.s, k, s, d)
    ensures Turns(p, v, Decided(w, k, s, d))
  {
    if d.Admit? {
      AdmitKeepsTurns(p, v, w, k, s);
    } else {
      if w.opening && !w.halted { }
      hide Tight;
    }
  }

  lemma AdmitKeepsTurns(p: Policy, v: World, w: World, k: Kind, s: State)
    requires Turns(p, v, w) && DecisionEffect(p, w.s, k, s, Admit) && (k.Rung? ==> k.rung < RUNGS)
    ensures Turns(p, v, Decided(w, k, s, Admit))
  {
    AdmitCounts(p, w, k, s);
    hide DecisionEffect, Decided;
  }

  lemma AdmitCounts(p: Policy, w: World, k: Kind, s: State)
    requires DecisionEffect(p, w.s, k, s, Admit) && (k.Rung? ==> k.rung < RUNGS)
    ensures var w' := Decided(w, k, s, Admit);
            && w'.flight.Sum() + w'.s.setupCalls == w.flight.Sum() + w.s.setupCalls + 1 && w'.done == w.done
            && w'.counted == w.counted && w'.halted == w.halted && w'.batches <= w.batches + 1 && !w'.opening
            && w'.s.rejectedCalls == w.s.rejectedCalls
  {
  }

  lemma CompletionKeepsTurns(p: Policy, v: World, w: World, k: Kind, s: State)
    requires Turns(p, v, w) && InFlight(w, k) && CompletionEffect(p, w.s, ChargedRung(k), s)
    ensures Turns(p, v, Completed(w, k, s))
  {
    if k.Rung? {
      assert w.flight != ZERO;
    }
  }

  lemma DecisionKeepsTight(p: Policy, w: World, k: Kind, s: State, d: Decision)
    requires Books(p, w) && Held(p, w) && Tight(p, w) && w.s.batchActive && (k.Rung? ==> k.rung < RUNGS)
    requires DecisionEffect(p, w.s, k, s, d) && HaltEffect(p, w.s, k, s, d)
    ensures Tight(p, Decided(w, k, s, d))
  {
    var w' := Decided(w, k, s, d);
    if w.s.stage < RUNGS {
      if NoLeak(w, w.s.stage) {
        if s.stage == w.s.stage { assert NoLeak(w', w.s.stage); }
        else if s.stage < RUNGS { assert NoLeak(w', s.stage); }
      } else if NextRung(p.maxCalls, w.s.stage + 1) == RUNGS {
      } else if !w.halted {
        assert Stuck(p, w);
        if !w'.halted { assert Stuck(p, w'); }
      }
    }
  }

  /** What a completion does to the counters that decide about leaving a rung. */
  ghost predicate LeaveEffect(p: Policy, s: State, rung: nat, s': State) {
    && s'.redirectViolations == 0
    && (s'.stage == s.stage ==> s'.lowNoveltyStreak <= s.lowNoveltyStreak + 1)
    && (s'.stage != s.stage ==> rung == s.stage < RUNGS && s'.stage == NextRung(p.maxCalls, s.stage + 1)
                                && (s.calls.At(rung) + 1 >= p.maxCalls.At(rung)
                                    || s.lowNoveltyStreak + 1 >= p.lowNoveltyLimit))
  }

  lemma AfterLeaveEffect(p: Policy, s: State, tool: string, rung: nat, o: Observation)
    requires rung < RUNGS
    ensures LeaveEffect(p, s, rung, AfterStep(p, s, tool, rung, o).0)
  {}

  lemma CompletionKeepsTight(p: Policy, w: World, k: Kind, s: State)
    requires Books(p, w) && Held(p, w) && Tight(p, w) && InFlight(w, k)
    requires CompletionEffect(p, w.s, ChargedRung(k), s) && LeaveEffect(p, w.s, ChargedRung(k), s)
    ensures Tight(p, Completed(w, k, s))
  {
  }

  ghost predicate Turning(p: Policy, v: World, w: World) { Books(p, w) && Held(p, w) && Tight(p, w) && Turns(p, v, w) }

  lemma CallKeepsTurning(p: Policy, v: World, w: World, k: Kind)
    requires Turning(p, v, w) && w.s.batchActive && (k.Rung? ==> k.rung < RUNGS)
    ensures Turning(p, v, CallWorld(p, w, k))
  {
    var (s, d) := BeforeStep(p, w.s, k);
    BeforeEffect(p, w.s, k);
    BeforeHaltEffect(p, w.s, k);
    hide BeforeStep, Books, Held, Tight, Turns, DecisionEffect, HaltEffect, Decided;
    DecisionKeepsBooks(p, w, k, s, d);
    DecisionKeepsHeld(p, w, k, s, d);
    DecisionKeepsTight(p, w, k, s, d);
    DecisionKeepsTurns(p, v, w, k, s, d);
  }

  lemma CompleteKeepsTurning(p: Policy, v: World, w: World, k: Kind, tool: string, o: Observation)
    requires Turning(p, v, w) && InFlight(w, k)
    ensures Turning(p, v, CompleteWorld(p, w, k, tool, o))
  {
    var s := AfterStep(p, w.s, tool, ChargedRung(k), o).0;
    CompletionKeepsBooks(p, w, k, tool, o);
    AfterEffect(p, w.s, tool, ChargedRung(k), o);
    AfterLeaveEffect(p, w.s, tool, ChargedRung(k), o);
    hide AfterStep, Books, Held, Tight, Turns, CompletionEffect, LeaveEffect, Completed;
    CompletionKeepsHeld(p, w, k, s);
    CompletionKeepsTight(p, w, k, s);
    CompletionKeepsTurns(p, v, w, k, s);
  }

  lemma BatchKeepsTurning(p: Policy, v: World, w: World, e: Event)
    requires Turning(p, v, w) && (e.Begin? || e.End?) && Orderly(w, e)
    ensures Turning(p, v, Step(p, w, e))
  {
    hide Books, Held, Tight, Turns, Step;
    StepKeepsBooks(p, w, e);
    StepKeepsHeld(p, w, e);
    BatchKeepsTight(p, w, e);
    BatchKeepsTurns(p, v, w, e);
  }

  lemma BatchKeepsTurns(p: Policy, v: World, w: World, e: Event)
    requires Turns(p, v, w) && (e.Begin? || e.End?) && Orderly(w, e)
    ensures Turns(p, v, Step(p, w, e))
  {
  }

  lemma BatchKeepsTight(p: Policy, w: World, e: Event)
    requires Tight(p, w) && (e.Begin? || e.End?) && Orderly(w, e)
    ensures Tight(p, Step(p, w, e))
  {
  }

  lemma {:induction false} RunKeepsTurning(p: Policy, v: World, w: World, es: seq<Event>, w': World)
    requires Turning(p, v, w) && OrderlyRun(p, w, es, w')
    ensures Turning(p, v, w')
    decreases es
  {
    if es != [] {
      hide Turning;
      match es[0] {
        case Call(k) => CallKeepsTurning(p, v, w, k);
        case Complete(k, tool, o) => CompleteKeepsTurning(p, v, w, k, tool, o);
        case Begin => BatchKeepsTurning(p, v, w, Begin);
        case End => BatchKeepsTurning(p, v, w, End);
        case Drop(_) => assert false;
      }
      RunKeepsTurning(p, v, Step(p, w, es[0]), es[1..], w');
    }
  }

  /** The turns a run can still take: calls and setup calls not yet made, and refusals. */
  function TurnsLeft(p: Policy, w: World): int {
    p.maxCalls.Sum() - w.done.Sum() + p.maxSetupCalls - w.s.setupCalls + p.maxRejectedCalls
  }

  lemma TightIsBounded(p: Policy, w: World, es: seq<Event>, w': World)
    requires Books(p, w) && Held(p, w) && Tight(p, w) && AtRest(w) && OrderlyRun(p, w, es, w')
    ensures w'.halted || w'.batches <= w.batches + TurnsLeft(p, w)
  {
    assert !w.opening;
    RunKeepsTurning(p, w, w, es, w');
  }

  /** The turn bound: an orderly run without a terminal refusal has fewer non-empty batches
      than the call ceiling without its finalizer. */
  lemma TurnBound(p: Policy, es: seq<Event>, w: World)
    requires p.initialStage < RUNGS && OrderlyRun(p, Start(p), es, w)
    ensures !w.halted && p.maxRejectedCalls > 0 ==> w.batches < p.maxCalls.Sum() + p.maxSetupCalls + p.maxRejectedCalls
    ensures !w.halted ==> w.batches <= p.maxCalls.Sum() + p.maxSetupCalls + p.maxRejectedCalls
  {
    RunKeepsTurning(p, Start(p), Start(p), es, w);
  }

  /** Either shipped policy ends an orderly worker within thirteen turns. */
  lemma ShippedTurnBound(dynamicBrowser: bool, es: seq<Event>, w: World)
    requires var p := if dynamicBrowser then DYNAMIC_BROWSER_POLICY else DEFAULT_POLICY; OrderlyRun(p, Start(p), es, w)
    ensures !w.halted ==> w.batches < 13
  {
    TurnBound(if dynamicBrowser then DYNAMIC_BROWSER_POLICY else DEFAULT_POLICY, es, w);
  }

  // ---------------------------------------------------------------- when turns are not bounded

  ghost predicate Reaches(p: Policy, v: World, w: World) { exists es :: OrderlyRun(p, v, es, w) }

  /** Reached with the books kept. */
  ghost predicate KeptReaches(p: Policy, v: World, w: World) {
    exists es :: OrderlyRun(p, v, es, w) && Books(p, w) && Held(p, w)
  }

  lemma {:induction false} OrderlySnoc(p: Policy, v: World, es: seq<Event>, w: World, e: Event)
    requires OrderlyRun(p, v, es, w) && Enabled(w, e) && Orderly(w, e)
    ensures OrderlyRun(p, v, es + [e], Step(p, w, e))
    decreases es
  {
    if es == [] {
      assert [e][1..] == [];
      assert OrderlyRun(p, Step(p, w, e), [e][1..], Step(p, w, e));
      assert es + [e] == [e];
    } else {
      assert (es + [e])[1..] == es[1..] + [e];
      OrderlySnoc(p, Step(p, v, es[0]), es[1..], w, e);
    }
  }

  lemma ReachesItself(p: Policy, w: World)
    ensures Reaches(p, w, w)
  {
    assert OrderlyRun(p, w, [], w);
  }

  lemma ReachesStep(p: Policy, v: World, w: World, e: Event)
    requires Reaches(p, v, w) && Enabled(w, e) && Orderly(w, e)
    ensures Reaches(p, v, Step(p, w, e))
  {
    var es :| OrderlyRun(p, v, es, w);
    OrderlySnoc(p, v, es, w, e);
  }

  /** At rest below the end of the ladder, with a reservation on another rung nobody will release. */
  ghost predicate Leaked(w: World, r: nat) {
    AtRest(w) && r < RUNGS && r != w.s.stage < RUNGS && w.s.reserved.At(r) > 0
  }

  /** A batch whose one call goes to such a rung changes nothing that could end the run. */
  lemma LeakedTurn(p: Policy, v: World, w: World, r: nat) returns (w': World)
    requires Reaches(p, v, w) && Leaked(w, r)
    ensures Reaches(p, v, w') && Leaked(w', r) && w'.batches == w.batches + 1
  {
    ReachesStep(p, v, w, Begin);
    var w1 := Step(p, w, Begin);
    ReachesStep(p, v, w1, Call(Kind.Rung(r)));
    var w2 := Step(p, w1, Call(Kind.Rung(r)));
    ReachesStep(p, v, w2, End);
    w' := Step(p, w2, End);
  }

  lemma {:induction false} LeakedTurns(p: Policy, v: World, w: World, r: nat, n: nat) returns (w': World)
    requires Reaches(p, v, w) && Leaked(w, r)
    ensures Reaches(p, v, w') && Leaked(w', r) && w'.batches == w.batches + n
  {
    w' := w;
    if n > 0 {
      w' := LeakedTurns(p, v, w, r, n - 1);
      w' := LeakedTurn(p, v, w', r);
    }
  }

  /** A rung below the last that leaks and can be left for another one with a budget. */
  ghost predicate LeavesLeak(p: Policy, w: World) {
    && w.s.stage < 2 && !NoLeak(w, w.s.stage) && NextRung(p.maxCalls, w.s.stage + 1) < RUNGS
    && (LeavesByNovelty(p, w) || LeavesByRefusal(p, w))
  }

  /** Exactly when turns are not bounded, said of the counters alone. */
  ghost predicate Loose(p: Policy, w: World) {
    LeavesLeak(p, w)
    || (w.s.stage < RUNGS
        && ((w.s.stage != 0 && w.s.reserved.search > 0) || (w.s.stage != 1 && w.s.reserved.fetch > 0)
            || (w.s.stage != 2 && w.s.reserved.browser > 0)))
  }

  const EMPTY_RESULT := Observation("", 0, {}, {}, "", true)

  /** What a failed result does to stage and streak. */
  lemma FailedAfter(p: Policy, s: State, tool: string, rung: nat)
    requires rung < RUNGS
    ensures var s' := AfterStep(p, s, tool, rung, EMPTY_RESULT).0;
            if rung == s.stage && (s.calls.At(rung) + 1 >= p.maxCalls.At(rung)
                || s.lowNoveltyStreak + 1 >= p.lowNoveltyLimit)
            then s'.stage == NextRung(p.maxCalls, s.stage + 1)
            else s'.stage == s.stage && s'.lowNoveltyStreak == s.lowNoveltyStreak + 1
  {
  }

  lemma AdmittedBefore(p: Policy, s: State, k: Kind)
    requires s.stage < RUNGS
    requires if k.Setup? then s.setupCalls < p.maxSetupCalls
             else k == Kind.Rung(s.stage) && s.calls.At(s.stage) + s.reserved.At(s.stage) < p.maxCalls.At(s.stage)
    ensures BeforeStep(p, s, k).1 == Admit
    ensures BeforeStep(p, s, k).0 == if k.Setup? then s.(setupCalls := s.setupCalls + 1)
                                     else s.(reserved := s.reserved.With(s.stage, s.reserved.At(s.stage) + 1))
  {
  }

  /** A state from which the ladder may be left behind its leaked reservation. */
  ghost predicate Leaking(p: Policy, w: World) {
    && AtRest(w) && Books(p, w) && Held(p, w)
    && w.s.stage < 2 && w.s.reserved.At(w.s.stage) > 0 && NextRung(p.maxCalls, w.s.stage + 1) < RUNGS
  }

  /** Nothing but what one failed result changes. */
  ghost predicate OneLess(p: Policy, w: World, w': World) {
    && w'.s.stage == w.s.stage && w'.s.lowNoveltyStreak == w.s.lowNoveltyStreak + 1
    && w'.s.redirectViolations == 0 && w'.s.rejectedCalls == w.s.rejectedCalls
  }

  lemma FailedCompletion(p: Policy, v: World, w: World, k: Kind, tool: string) returns (w': World)
    requires KeptReaches(p, v, w) && InFlight(w, k)
    ensures KeptReaches(p, v, w')
    ensures w' == Completed(w, k, AfterStep(p, w.s, tool, ChargedRung(k), EMPTY_RESULT).0)
  {
    var e := Complete(k, tool, EMPTY_RESULT);
    ReachesStep(p, v, w, e);
    StepKeepsBooks(p, w, e);
    StepKeepsHeld(p, w, e);
    w' := Step(p, w, e);
  }

  /** A batch with one admitted call, still open. */
  lemma AdmittedCall(p: Policy, v: World, w: World, k: Kind) returns (w': World)
    requires Reaches(p, v, w) && Leaking(p, w)
    requires if k.Setup? then w.s.setupCalls < p.maxSetupCalls else k == Kind.Rung(w.s.stage) && Left(p, w) >= 1
    ensures KeptReaches(p, v, w')
    ensures w' == Decided(w.(s := BeginStep(w.s), opening := true), k, BeforeStep(p, BeginStep(w.s), k).0, Admit)
    ensures BeforeStep(p, BeginStep(w.s), k).1 == Admit
  {
    ReachesStep(p, v, w, Begin);
    var w1 := Step(p, w, Begin);
    AdmittedBefore(p, w1.s, k);
    ReachesStep(p, v, w1, Call(k));
    w' := Step(p, w1, Call(k));
    hide Books, Held;
    StepKeepsBooks(p, w, Begin);
    StepKeepsHeld(p, w, Begin);
    StepKeepsBooks(p, w1, Call(k));
    StepKeepsHeld(p, w1, Call(k));
  }

  lemma EndBatch(p: Policy, v: World, w: World) returns (w': World)
    requires KeptReaches(p, v, w)
    ensures KeptReaches(p, v, w') && w' == w.(s := EndStep(w.s), opening := false)
  {
    ReachesStep(p, v, w, End);
    StepKeepsBooks(p, w, End);
    StepKeepsHeld(p, w, End);
    w' := Step(p, w, End);
  }

  /** One failed call of the current rung: the rung is left behind, or one call less remains. */
  lemma FailedRound(p: Policy, v: World, w: World) returns (w': World)
    requires Reaches(p, v, w) && Leaking(p, w) && Left(p, w) >= 1
    ensures Reaches(p, v, w')
    ensures if w.s.lowNoveltyStreak + 1 >= p.lowNoveltyLimit then Leaked(w', w.s.stage)
            else
              Leaking(p, w') && OneLess(p, w, w') && Left(p, w') == Left(p, w) - 1
              && SetupLeft(p, w') == SetupLeft(p, w)
  {
    var k := Kind.Rung(w.s.stage);
    AdmittedBefore(p, BeginStep(w.s), k);
    var w1 := AdmittedCall(p, v, w, k);
    FailedAfter(p, w1.s, "", w.s.stage);
    AfterEffect(p, w1.s, "", w.s.stage, EMPTY_RESULT);
    AfterLeaveEffect(p, w1.s, "", w.s.stage, EMPTY_RESULT);
    var w2 := FailedCompletion(p, v, w1, k, "");
    w' := EndBatch(p, v, w2);
    hide AfterStep, BeforeStep, Reaches, Books, Held;
  }

  /** One failed result of the setup tool, in flight already or called for it. */
  lemma SetupRound(p: Policy, v: World, w: World) returns (w': World)
    requires Reaches(p, v, w) && Leaking(p, w) && SetupLeft(p, w) >= 1
    ensures Reaches(p, v, w') && Leaking(p, w') && OneLess(p, w, w')
    ensures Left(p, w') == Left(p, w) && SetupLeft(p, w') == SetupLeft(p, w) - 1
  {
    var w1 := w;
    if w.setupFlight == 0 {
      AdmittedBefore(p, BeginStep(w.s), Setup);
      w1 := AdmittedCall(p, v, w, Setup);
    }
    FailedAfter(p, w1.s, "", 2);
    AfterEffect(p, w1.s, "", 2, EMPTY_RESULT);
    AfterLeaveEffect(p, w1.s, "", 2, EMPTY_RESULT);
    var w2 := FailedCompletion(p, v, w1, Setup, "");
    w' := EndBatch(p, v, w2);
    hide AfterStep, BeforeStep, Reaches, Books;
  }

  /** A refusal on the full rung that is not terminal leaves the rung. */
  lemma RefusedRound(p: Policy, v: World, w: World) returns (w': World)
    requires Reaches(p, v, w) && Leaking(p, w) && Left(p, w) == 0
    requires w.s.rejectedCalls + 1 < p.maxRejectedCalls && w.s.redirectViolations + 1 < p.maxRedirectViolations
    ensures Reaches(p, v, w') && Leaked(w', w.s.stage)
  {
    ReachesStep(p, v, w, Begin);
    var w1 := Step(p, w, Begin);
    var k := Kind.Rung(w.s.stage);
    ReachesStep(p, v, w1, Call(k));
    var w2 := Step(p, w1, Call(k));
    ReachesStep(p, v, w2, End);
    w' := Step(p, w2, End);
  }

  lemma {:induction false} EscapeByNovelty(p: Policy, v: World, w: World) returns (w': World)
    requires Reaches(p, v, w) && Leaking(p, w) && LeavesByNovelty(p, w)
    ensures Reaches(p, v, w') && Leaked(w', w.s.stage)
    decreases Left(p, w) + SetupLeft(p, w)
  {
    if Left(p, w) == 1 && w.s.lowNoveltyStreak + 1 < p.lowNoveltyLimit {
      w' := SetupRound(p, v, w);
      w' := EscapeByNovelty(p, v, w');
    } else {
      w' := FailedRound(p, v, w);
      if w.s.lowNoveltyStreak + 1 < p.lowNoveltyLimit { w' := EscapeByNovelty(p, v, w'); }
    }
  }

  lemma {:induction false} EscapeByRefusal(p: Policy, v: World, w: World) returns (w': World)
    requires Reaches(p, v, w) && Leaking(p, w) && LeavesByRefusal(p, w)
    ensures Reaches(p, v, w') && Leaked(w', w.s.stage)
    decreases Left(p, w) + SetupLeft(p, w)
  {
    if Left(p, w) >= 1 {
      w' := FailedRound(p, v, w);
      if w.s.lowNoveltyStreak + 1 < p.lowNoveltyLimit { w' := EscapeByRefusal(p, v, w'); }
    } else if w.s.redirectViolations + 1 < p.maxRedirectViolations {
      w' := RefusedRound(p, v, w);
    } else {
      w' := SetupRound(p, v, w);
      w' := RefusedRound(p, v, w');
    }
  }

  lemma LooseReachesLeak(p: Policy, w: World) returns (w': World, r: nat)
    requires Books(p, w) && Held(p, w) && AtRest(w) && Loose(p, w)
    ensures Reaches(p, w, w') && Leaked(w', r)
  {
    ReachesItself(p, w);
    if LeavesLeak(p, w) {
      r := w.s.stage;
      if LeavesByNovelty(p, w) { w' := EscapeByNovelty(p, w, w); } else { w' := EscapeByRefusal(p, w, w); }
    } else {
      w' := w;
      r := if w.s.stage != 0 && w.s.reserved.search > 0 then 0 else 1;
    }
  }

  /** Some number bounds the non-empty batches of every orderly continuation without a terminal refusal. */
  ghost predicate Bounded(p: Policy, w: World) {
    exists bound: int :: BoundedBy(p, w, bound)
  }

  ghost predicate BoundedBy(p: Policy, w: World, bound: int) {
    forall es, w' | OrderlyRun(p, w, es, w') :: w'.halted || w'.batches <= bound
  }

  lemma LeakIsUnbounded(p: Policy, w: World, w': World, r: nat, bound: int)
    requires Reaches(p, w, w') && Leaked(w', r)
    ensures !BoundedBy(p, w, bound)
  {
    var n: nat := if bound + 1 > w'.batches then bound + 1 - w'.batches else 0;
    var x := LeakedTurns(p, w, w', r, n);
    var es :| OrderlyRun(p, w, es, x);
    assert BoundedBy(p, w, bound) ==> x.halted || x.batches <= bound;
  }

  /** The turn bound, exactly: from any state that some run reaches, drops and all, and that is at
      rest, the turns of every orderly continuation are bounded if and only if the counters are
      not loose, that is, unless a reservation is leaked on another rung, or is leaked on the
      current one and the rung can still be left for a later one without a terminal refusal. */
  lemma TurnBoundExact(p: Policy, es: seq<Event>, w: World)
    requires p.initialStage < RUNGS && Run(p, Start(p), es, w) && AtRest(w)
    ensures Bounded(p, w) <==> !Loose(p, w)
    ensures !Loose(p, w) ==> BoundedBy(p, w, w.batches + TurnsLeft(p, w))
  {
    RunKeepsHeld(p, Start(p), es, w);
    if Loose(p, w) {
      var w', r := LooseReachesLeak(p, w);
      forall bound: int ensures !BoundedBy(p, w, bound) { LeakIsUnbounded(p, w, w', r, bound); }
    } else {
      hide Loose, Tight, Books, Held;
      forall es', w' | OrderlyRun(p, w, es', w') ensures w'.halted || w'.batches <= w.batches + TurnsLeft(p, w) {
        TightIsBounded(p, w, es', w');
      }
      assert BoundedBy(p, w, w.batches + TurnsLeft(p, w));
    }
  }

  // ------------------------------------------- one dropped completion defeats the bound

  /** Every step is orderly, except for `drops` dropped calls. */
  ghost predicate OrderlyButDrops(p: Policy, w: World, es: seq<Event>, w': World, drops: nat)
    decreases es
  {
    if es == [] then w' == w && drops == 0
    else Enabled(w, es[0])
         && if es[0].Drop? then drops > 0 && OrderlyButDrops(p, Step(p, w, es[0]), es[1..], w', drops - 1)
            else Orderly(w, es[0]) && OrderlyButDrops(p, Step(p, w, es[0]), es[1..], w', drops)
  }

  lemma {:induction false} OrderlyAfterDrops(p: Policy, v: World, es: seq<Event>, w: World, drops: nat,
      more: seq<Event>, w': World)
    requires OrderlyButDrops(p, v, es, w, drops) && OrderlyRun(p, w, more, w')
    ensures OrderlyButDrops(p, v, es + more, w', drops)
    decreases es
  {
    if es == [] {
      assert es + more == more;
      OrderlyHasNoDrops(p, w, more, w');
    } else {
      assert (es + more)[1..] == es[1..] + more;
      OrderlyAfterDrops(p, Step(p, v, es[0]), es[1..], w, if es[0].Drop? then drops - 1 else drops, more, w');
    }
  }

  lemma {:induction false} OrderlyHasNoDrops(p: Policy, w: World, es: seq<Event>, w': World)
    requires OrderlyRun(p, w, es, w')
    ensures OrderlyButDrops(p, w, es, w', 0)
    decreases es
  {
    if es != [] { OrderlyHasNoDrops(p, Step(p, w, es[0]), es[1..], w'); }
  }

  /** A batch with one search that is admitted and dropped. */
  ghost predicate Dropping(es: seq<Event>) {
    |es| == 4 && es[0].Begin? && es[1] == Call(Kind.Rung(0)) && es[2] == Drop(Kind.Rung(0)) && es[3].End?
  }

  /** It leaves its reservation on the first rung. */
  ghost function Dropped(p: Policy): World
    requires p.initialStage < RUNGS
  {
    Start(p).(s := Init(p).(reserved := Triple(1, 0, 0)), batches := 1)
  }

  lemma DroppingRun(p: Policy, es: seq<Event>)
    requires p.initialStage == 0 && p.maxCalls.search > 0 && Dropping(es)
    ensures OrderlyButDrops(p, Start(p), es, Dropped(p), 1)
  {
    hide OrderlyButDrops, BeforeStep;
    var w1 := Start(p).(s := BeginStep(Init(p)), opening := true);
    var w2 := Start(p).(s := BeginStep(Init(p)).(reserved := Triple(1, 0, 0)), flight := Triple(1, 0, 0), batches := 1);
    var w3 := w2.(flight := ZERO);
    assert es == [Begin, Call(Kind.Rung(0)), Drop(Kind.Rung(0)), End];
    FirstSearch(p, w1, w2);
    SearchDropped(p, w2, w3);
    assert w1 == Step(p, Start(p), Begin);
    hide Step, Decided, Land;
    DroppingSteps(p, Start(p), w1, w2, w3, Dropped(p), es);
  }

  lemma FirstSearch(p: Policy, w1: World, w2: World)
    requires p.initialStage == 0 && p.maxCalls.search > 0 && w1 == Start(p).(s := BeginStep(Init(p)), opening := true)
    requires w2 == Start(p).(s := BeginStep(Init(p)).(reserved := Triple(1, 0, 0)), flight :=
      Triple(1, 0, 0), batches := 1)
    ensures Step(p, w1, Call(Kind.Rung(0))) == w2
  {
    AdmittedBefore(p, w1.s, Kind.Rung(0));
    hide BeforeStep;
  }

  lemma SearchDropped(p: Policy, w2: World, w3: World)
    requires p.initialStage == 0 && w3 == w2.(flight := ZERO)
    requires w2 == Start(p).(s := BeginStep(Init(p)).(reserved := Triple(1, 0, 0)), flight :=
      Triple(1, 0, 0), batches := 1)
    ensures Step(p, w2, Drop(Kind.Rung(0))) == w3 && Step(p, w3, End) == Dropped(p)
  {
  }

  lemma DroppingSteps(p: Policy, w0: World, w1: World, w2: World, w3: World, w4: World, es: seq<Event>)
    requires Dropping(es)
    requires Orderly(w0, es[0]) && w1 == Step(p, w0, es[0]) && Orderly(w1, es[1]) && w2 == Step(p, w1, es[1])
    requires Enabled(w2, es[2]) && w3 == Step(p, w2, es[2]) && w4 == Step(p, w3, es[3])
    ensures OrderlyButDrops(p, w0, es, w4, 1)
  {
    hide Step;
    assert es[1..][1..] == es[2..] && es[2..][1..] == es[3..] && es[3..][1..] == [];
    assert OrderlyButDrops(p, w4, [], w4, 0);
    assert OrderlyButDrops(p, w3, es[3..], w4, 0);
    assert OrderlyButDrops(p, w2, es[2..], w4, 1);
    assert OrderlyButDrops(p, w1, es[1..], w4, 1);
  }

  lemma DroppedIsLoose(p: Policy)
    requires p.initialStage == 0 && p.maxCalls.search > 1 && p.maxCalls.fetch > 0
      && p.lowNoveltyLimit < p.maxCalls.search + p.maxSetupCalls
    ensures Books(p, Dropped(p)) && Held(p, Dropped(p)) && AtRest(Dropped(p)) && Loose(p, Dropped(p))
  {
    assert NextRung(p.maxCalls, 1) == 1;
    assert LeavesByNovelty(p, Dropped(p));
  }

  /** One drop is enough, and under every policy like the default one: runs with any number of
      turns and no terminal refusal, orderly but for the one dropped search. */
  lemma OneDropDefeatsTurnBound(p: Policy, n: nat) returns (es: seq<Event>, w: World)
    requires p.initialStage == 0 && p.maxCalls.search > 1 && p.maxCalls.fetch > 0
      && p.lowNoveltyLimit < p.maxCalls.search + p.maxSetupCalls
    ensures OrderlyButDrops(p, Start(p), es, w, 1)
    ensures !w.halted && w.batches >= n
  {
    var first := [Begin, Call(Kind.Rung(0)), Drop(Kind.Rung(0)), End];
    DroppingRun(p, first);
    DroppedIsLoose(p);
    var w1, r := LooseReachesLeak(p, Dropped(p));
    var m: nat := if n > w1.batches then n - w1.batches else 0;
    w := LeakedTurns(p, Dropped(p), w1, r, m);
    var more :| OrderlyRun(p, Dropped(p), more, w);
    OrderlyAfterDrops(p, Start(p), first, Dropped(p), 1, more, w);
    es := first + more;
  }

  /** The default policy is such a policy. */
  lemma OneDropDefeatsTheDefault(n: nat) returns (es: seq<Event>, w: World)
    ensures OrderlyButDrops(DEFAULT_POLICY, Start(DEFAULT_POLICY), es, w, 1)
    ensures !w.halted && w.batches >= n
  {
    es, w := OneDropDefeatsTurnBound(DEFAULT_POLICY, n);
  }
}
