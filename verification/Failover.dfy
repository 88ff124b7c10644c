/** Provider failover of orchestrator/execution.py: the candidate list, the worker's walk that
    skips exhausted quota groups, and the synthesis walk with its exhaustion reason. */
module Failover {
  import opened Wrappers

  /** One model of the configuration; undeclared keys are None. */
  datatype Rung = Rung(provider: string, model: string, group: Option<string>, contextTokens: Option<int>)

  /** What calling a worker on one rung comes to. */
  datatype Answer = Usable | Quota | Unreachable | Unusable | TimesOut

  const LOCAL_PROVIDER := "ollama"
  const CLOUD_MARK := ":cloud"
  const CHARS_PER_TOKEN := 4
  const RESPONSE_RESERVE_TOKENS := 1500

  function Lower(s: string): string {
    if s == "" then ""
    else [if 'A' <= s[0] <= 'Z' then s[0] - 'A' + 'a' else s[0]] + Lower(s[1..])
  }

  predicate Contains(s: string, part: string)
    decreases |s|
  {
    part <= s || (s != "" && Contains(s[1..], part))
  }

  predicate IsLocal(provider: string, model: string) {
    Lower(provider) == LOCAL_PROVIDER && !Contains(model, CLOUD_MARK)
  }

  function Key(r: Rung): (string, string) { (r.provider, r.model) }

  predicate LocalRung(r: Rung) { IsLocal(r.provider, r.model) }

  /** Does a prompt of `n` characters fit?  A missing or zero declaration makes no claim. */
  predicate Fits(r: Rung, n: nat) {
    r.contextTokens.None? || r.contextTokens.value == 0
    || n / CHARS_PER_TOKEN + RESPONSE_RESERVE_TOKENS <= r.contextTokens.value
  }

  /** The longest prompt that fits is four characters a token for what the reserve leaves. */
  lemma FitsUpTo(r: Rung, n: nat)
    ensures Fits(r, n) <==>
            r.contextTokens.None? || r.contextTokens.value == 0 || n < 4 * (r.contextTokens.value - 1499)
  {
    assert n == 4 * (n / 4) + n % 4;
  }

  ghost predicate Occurs(s: string, part: string) {
    exists i | 0 <= i <= |s| :: part <= s[i..]
  }

  lemma {:induction false} ContainsExactly(s: string, part: string)
    ensures Contains(s, part) <==> Occurs(s, part)
    decreases |s|
  {
    assert s[0..] == s;
    if s != "" {
      ContainsExactly(s[1..], part);
      if Occurs(s[1..], part) {
        var i :| 0 <= i <= |s[1..]| && part <= s[1..][i..];
        assert s[i + 1..] == s[1..][i..];
      }
      if Occurs(s, part) {
        var i :| 0 <= i <= |s| && part <= s[i..];
        if i > 0 { assert s[1..][i - 1..] == s[i..]; }
      }
    }
  }

  lemma {:induction false} LowerAt(s: string, k: nat)
    ensures |Lower(s)| == |s|
    ensures k < |s| ==> Lower(s)[k] == if 'A' <= s[k] <= 'Z' then s[k] - 'A' + 'a' else s[k]
  {
    if s != "" { LowerAt(s[1..], if k == 0 then 0 else k - 1); }
  }

  /** A rung is local when its provider reads "ollama" in any case and its model is not marked as
      hosted in the cloud. */
  lemma LocalExactly(provider: string, model: string)
    ensures IsLocal(provider, model) <==>
            && |provider| == 6 && (forall k | 0 <= k < 6 :: provider[k] == "ollama"[k] || provider[k] == "OLLAMA"[k])
            && !Occurs(model, ":cloud")
  {
    ContainsExactly(model, CLOUD_MARK);
    LowerAt(provider, 0);
    LowerAt(provider, 1);
    LowerAt(provider, 2);
    LowerAt(provider, 3);
    LowerAt(provider, 4);
    LowerAt(provider, 5);
  }

  // ---------------------------------------------------------------- candidates

  function Keys(rs: seq<Rung>): set<(string, string)> {
    if rs == [] then {} else Keys(rs[..|rs| - 1]) + {Key(rs[|rs| - 1])}
  }

  predicate Eligible(r: Rung, allowLocal: bool) { allowLocal || !LocalRung(r) }

  /** The candidates among `rs`: first of its provider and model, and not an excluded local one. */
  function Candidates(rs: seq<Rung>, allowLocal: bool): seq<Rung> {
    if rs == [] then []
    else
      var front, last := rs[..|rs| - 1], rs[|rs| - 1];
      Candidates(front, allowLocal) + if Key(last) in Keys(front) || !Eligible(last, allowLocal) then [] else [last]
  }

  lemma Snoc(rs: seq<Rung>, c: Rung, allowLocal: bool)
    ensures Keys([]) == {} && Candidates([], allowLocal) == []
    ensures Keys(rs + [c]) == Keys(rs) + {Key(c)}
    ensures Candidates(rs + [c], allowLocal)
            == Candidates(rs, allowLocal) + if Key(c) in Keys(rs) || !Eligible(c, allowLocal) then [] else [c]
  {
    assert (rs + [c])[..|rs|] == rs;
  }

  /** The worker first, then the chain. */
  method FailoverCandidates(worker: Rung, chain: seq<Rung>, allowLocal: bool) returns (candidates: seq<Rung>)
    ensures candidates == Candidates([worker] + chain, allowLocal)
  {
    hide Candidates, Keys, Eligible;
    candidates := if Eligible(worker, allowLocal) then [worker] else [];
    var seen := {Key(worker)};
    Snoc([], worker, allowLocal);
    assert [] + [worker] == [worker] == [worker] + chain[..0];
    for i := 0 to |chain|
      invariant candidates == Candidates([worker] + chain[..i], allowLocal)
      invariant seen == Keys([worker] + chain[..i])
    {
      var c := chain[i];
      Snoc([worker] + chain[..i], c, allowLocal);
      assert [worker] + chain[..i + 1] == [worker] + chain[..i] + [c];
      if Key(c) in seen { continue; }
      seen := seen + {Key(c)};
      if !Eligible(c, allowLocal) { continue; }
      candidates := candidates + [c];
    }
    assert chain[..|chain|] == chain;
  }

  /** The positions the candidates come from. */
  function Positions(rs: seq<Rung>, allowLocal: bool): seq<nat> {
    if rs == [] then []
    else
      var front, last := rs[..|rs| - 1], rs[|rs| - 1];
      Positions(front, allowLocal) + if Key(last) in Keys(front) || !Eligible(last, allowLocal) then [] else [|front|]
  }

  lemma {:induction false} KeysExact(rs: seq<Rung>)
    ensures forall key :: key in Keys(rs) <==> exists k | 0 <= k < |rs| :: Key(rs[k]) == key
  {
    if rs != [] {
      var front := rs[..|rs| - 1];
      KeysExact(front);
      forall key ensures key in Keys(rs) <==> exists k | 0 <= k < |rs| :: Key(rs[k]) == key {
        if k :| 0 <= k < |front| && Key(front[k]) == key { assert Key(rs[k]) == key; }
        if key == Key(rs[|front|]) { assert Key(rs[|front|]) == key; }
      }
    }
  }

  lemma {:induction false} KeyAt(rs: seq<Rung>, k: nat)
    requires k < |rs|
    ensures Key(rs[k]) in Keys(rs)
  {
    if k < |rs| - 1 { KeyAt(rs[..|rs| - 1], k); }
  }

  /** Candidates keep the order of the configuration: they stand at strictly growing positions. */
  lemma {:induction false} CandidatesInOrder(rs: seq<Rung>, allowLocal: bool)
    ensures |Positions(rs, allowLocal)| == |Candidates(rs, allowLocal)|
    ensures forall k | 0 <= k < |Candidates(rs, allowLocal)| ::
              Positions(rs, allowLocal)[k] < |rs| && Candidates(rs, allowLocal)[k] == rs[Positions(rs, allowLocal)[k]]
    ensures forall j, k | 0 <= j < k < |Positions(rs, allowLocal)| ::
      Positions(rs, allowLocal)[j] < Positions(rs, allowLocal)[k]
  {
    if rs != [] { CandidatesInOrder(rs[..|rs| - 1], allowLocal); }
  }

  ghost function Visible(keys: set<(string, string)>, allowLocal: bool): set<(string, string)> {
    set key | key in keys && (allowLocal || !IsLocal(key.0, key.1))
  }

  lemma VisibleAdd(keys: set<(string, string)>, r: Rung, allowLocal: bool)
    ensures Visible(keys + {Key(r)}, allowLocal) == Visible(keys, allowLocal) + if Eligible(r, allowLocal)
      then {Key(r)} else {}
  {
    hide IsLocal;
  }

  /** Every model of the configuration that the local filter admits is a candidate, and nothing else is. */
  lemma {:induction false} CandidatesComplete(rs: seq<Rung>, allowLocal: bool)
    ensures Keys(Candidates(rs, allowLocal)) == Visible(Keys(rs), allowLocal)
  {
    hide Eligible, IsLocal;
    if rs != [] {
      var front, last := rs[..|rs| - 1], rs[|rs| - 1];
      CandidatesComplete(front, allowLocal);
      VisibleAdd(Keys(front), last, allowLocal);
      Snoc(Candidates(front, allowLocal), last, allowLocal);
      if Key(last) in Keys(front) {
        assert Keys(front) + {Key(last)} == Keys(front);
        assert Candidates(rs, allowLocal) == Candidates(front, allowLocal);
      } else if !Eligible(last, allowLocal) {
        assert Candidates(rs, allowLocal) == Candidates(front, allowLocal);
      }
    }
  }

  /** No model is tried twice. */
  lemma {:induction false} CandidatesDistinct(rs: seq<Rung>, allowLocal: bool)
    ensures forall j, k | 0 <= j < k < |Candidates(rs, allowLocal)| ::
      Key(Candidates(rs, allowLocal)[j]) != Key(Candidates(rs, allowLocal)[k])
  {
    if rs != [] {
      var front, last := rs[..|rs| - 1], rs[|rs| - 1];
      CandidatesDistinct(front, allowLocal);
      CandidatesComplete(front, allowLocal);
      var before := Candidates(front, allowLocal);
      forall j | 0 <= j < |before| ensures Key(before[j]) in Keys(before) { KeyAt(before, j); }
      assert Candidates(rs, allowLocal) == before || Key(last) !in Keys(before);
    }
  }

  // ---------------------------------------------------------------- the worker's walk

  datatype End = Returned(rung: nat) | Raised(at: nat) | Exhausted

  /** How a walk ends, and the rungs it called on the way. */
  datatype Outcome = Outcome(end: End, tried: seq<nat>)

  /** A named, non-empty quota group that already refused. */
  predicate Dead(r: Rung, dead: set<string>) { r.group.Some? && r.group.value != "" && r.group.value in dead }

  function Bury(r: Rung, dead: set<string>): set<string> {
    if r.group.Some? && r.group.value != "" then dead + {r.group.value} else dead
  }

  /** Would calling rung `i` end the walk? */
  predicate Stops(cs: seq<Rung>, answers: seq<Answer>, i: nat)
    requires |answers| == |cs| && i < |cs|
  {
    match answers[i]
    case Quota => false
    case Unreachable => i + 1 == |cs|
    case _ => true
  }

  /** Both rungs are declared to draw on one named quota group. */
  predicate SameGroup(a: Rung, b: Rung) { a.group.Some? && a.group.value != "" && a.group == b.group }

  /** What rung `i` answers sends the walk on to the next one. */
  predicate SendsOn(cs: seq<Rung>, answers: seq<Answer>, i: nat)
    requires |answers| == |cs| && i < |cs|
  {
    answers[i].Quota? || (answers[i].Unreachable? && i + 1 < |cs|)
  }

  function EndAt(answer: Answer, i: nat): End { if answer.TimesOut? then Raised(i) else Returned(i) }

  function Prepend(i: nat, rest: Outcome): Outcome { Outcome(rest.end, [i] + rest.tried) }

  /** The walk from rung `i` on; with `skip` it passes over rungs of dead groups. */
  function Walk(cs: seq<Rung>, answers: seq<Answer>, n: nat, skip: bool, i: nat, dead: set<string>): Outcome
    requires |answers| == |cs| && i <= |cs|
    decreases |cs| - i
  {
    if i == |cs| then Outcome(Exhausted, [])
    else if (skip && Dead(cs[i], dead)) || !Fits(cs[i], n) then Walk(cs, answers, n, skip, i + 1, dead)
    else if Stops(cs, answers, i) then Outcome(EndAt(answers[i], i), [i])
    else Prepend(i, Walk(cs, answers, n, skip, i + 1, if answers[i].Quota? then Bury(cs[i], dead) else dead))
  }

  /** One called rung, seen from the calls before it. */
  lemma WalkCalls(cs: seq<Rung>, answers: seq<Answer>, n: nat, i: nat, dead: set<string>, tried: seq<nat>)
    requires |answers| == |cs| && i < |cs| && !Dead(cs[i], dead) && Fits(cs[i], n)
    ensures var here, next := Walk(cs, answers, n, true, i, dead),
                              Walk(cs, answers, n, true, i + 1, if answers[i].Quota? then Bury(cs[i], dead) else dead);
            if Stops(cs, answers, i) then here == Outcome(EndAt(answers[i], i), [i])
            else here.end == next.end && tried + here.tried == (tried + [i]) + next.tried
  {
  }

  /** `worker_with_failover`: one loop over the candidates. */
  method WorkerWithFailover(cs: seq<Rung>, answers: seq<Answer>, n: nat)
      returns (end: End, tried: seq<nat>, usedRung: nat)
    requires |answers| == |cs|
    ensures Outcome(end, tried) == Walk(cs, answers, n, true, 0, {})
    ensures usedRung == if tried == [] then 0 else tried[|tried| - 1]
  {
    tried, usedRung := [], 0;
    var dead: set<string> := {};
    for i := 0 to |cs|
      invariant var rest := Walk(cs, answers, n, true, i, dead);
                Walk(cs, answers, n, true, 0, {}) == Outcome(rest.end, tried + rest.tried)
      invariant usedRung == if tried == [] then 0 else tried[|tried| - 1]
    {
      if Dead(cs[i], dead) || !Fits(cs[i], n) { continue; }
      WalkCalls(cs, answers, n, i, dead, tried);
      tried, usedRung := tried + [i], i;
      if answers[i].Quota? {
        dead := Bury(cs[i], dead);
      } else if !(answers[i].Unreachable? && i + 1 < |cs|) {
        end := EndAt(answers[i], i);
        return;
      }
    }
    end := Exhausted;
  }

  // ---------------------------------------------------------------- what the walk decides

  /** The walk that tries every fitting rung ends at the first one that stops it. */
  lemma {:induction false} FullWalkFindsFirstStop(cs: seq<Rung>, answers: seq<Answer>, n: nat, i: nat)
    requires |answers| == |cs| && i <= |cs|
    ensures match Walk(cs, answers, n, false, i, {}).end
            case Exhausted => forall k | i <= k < |cs| && Fits(cs[k], n) :: SendsOn(cs, answers, k)
            case Returned(r) => i <= r < |cs| && Fits(cs[r], n) && !SendsOn(cs, answers, r) && !answers[r].TimesOut?
                                && forall k | i <= k < r && Fits(cs[k], n) :: SendsOn(cs, answers, k)
            case Raised(r) => i <= r < |cs| && Fits(cs[r], n) && answers[r].TimesOut?
                              && forall k | i <= k < r && Fits(cs[k], n) :: SendsOn(cs, answers, k)
    decreases |cs| - i
  {
    if i < |cs| && !(Fits(cs[i], n) && Stops(cs, answers, i)) {
      FullWalkFindsFirstStop(cs, answers, n, i + 1);
      DeadIsUnused(cs, answers, n, i + 1, if answers[i].Quota? then Bury(cs[i], {}) else {}, {});
    }
  }

  lemma {:induction false} DeadIsUnused(cs: seq<Rung>, answers: seq<Answer>, n: nat, i: nat, a: set<string>,
      b: set<string>)
    requires |answers| == |cs| && i <= |cs|
    ensures Walk(cs, answers, n, false, i, a) == Walk(cs, answers, n, false, i, b)
    decreases |cs| - i
  {
    if i < |cs| {
      DeadIsUnused(cs, answers, n, i + 1, a, b);
      DeadIsUnused(cs, answers, n, i + 1, Bury(cs[i], a), Bury(cs[i], b));
    }
  }

  /** A quota group refuses as a whole: after one refusal, its later rungs refuse too. */
  ghost predicate Whole(cs: seq<Rung>, answers: seq<Answer>, n: nat)
    requires |answers| == |cs|
  {
    forall i, k | 0 <= i < k < |cs| && answers[i].Quota? && Fits(cs[i], n) && Fits(cs[k], n)
        && SameGroup(cs[i], cs[k]) ::
      answers[k].Quota?
  }

  /** Everything in `dead` got there by a refusal of an earlier rung. */
  ghost predicate Buried(cs: seq<Rung>, answers: seq<Answer>, n: nat, i: nat, dead: set<string>)
    requires |answers| == |cs| && i <= |cs|
  {
    forall g | g in dead ::
      g != "" && exists k | 0 <= k < i :: Fits(cs[k], n) && answers[k].Quota? && cs[k].group == Some(g)
  }

  /** Skipping dead groups costs nothing: when groups refuse as a whole, the walk that skips
      ends exactly as the walk that tries every fitting rung. */
  lemma {:induction false} SkippingRefines(cs: seq<Rung>, answers: seq<Answer>, n: nat, i: nat, dead: set<string>)
    requires |answers| == |cs| && i <= |cs| && Whole(cs, answers, n) && Buried(cs, answers, n, i, dead)
    ensures Walk(cs, answers, n, true, i, dead).end == Walk(cs, answers, n, false, i, {}).end
    decreases |cs| - i
  {
    if i < |cs| {
      if Dead(cs[i], dead) && Fits(cs[i], n) {
        var k :| 0 <= k < i && Fits(cs[k], n) && answers[k].Quota? && cs[k].group == Some(cs[i].group.value);
        assert answers[i].Quota?;
      }
      SkippingRefines(cs, answers, n, i + 1, dead);
      if Fits(cs[i], n) && answers[i].Quota? { SkippingRefines(cs, answers, n, i + 1, Bury(cs[i], dead)); }
      DeadIsUnused(cs, answers, n, i + 1, if answers[i].Quota? then Bury(cs[i], {}) else {}, {});
    }
  }

  /** An earlier fitting rung of the group of `r` was out of quota. */
  ghost predicate Shadowed(cs: seq<Rung>, answers: seq<Answer>, n: nat, r: nat)
    requires |answers| == |cs| && r < |cs|
  {
    exists k | 0 <= k < r :: Fits(cs[k], n) && answers[k].Quota? && SameGroup(cs[k], cs[r])
  }

  /** `dead` is exactly the groups that earlier fitting rungs found out of quota. */
  ghost predicate BuriedExactly(cs: seq<Rung>, answers: seq<Answer>, n: nat, i: nat, dead: set<string>)
    requires |answers| == |cs| && i <= |cs|
  {
    forall r: Rung :: Dead(r, dead) <==>
      exists k | 0 <= k < i :: Fits(cs[k], n) && answers[k].Quota? && SameGroup(cs[k], r)
  }

  lemma BuryKeepsExact(cs: seq<Rung>, answers: seq<Answer>, n: nat, i: nat, dead: set<string>)
    requires |answers| == |cs| && i < |cs| && BuriedExactly(cs, answers, n, i, dead)
    ensures BuriedExactly(cs, answers, n, i + 1, if Fits(cs[i], n) && answers[i].Quota? then Bury(cs[i], dead)
      else dead)
  {
    var next := if Fits(cs[i], n) && answers[i].Quota? then Bury(cs[i], dead) else dead;
    forall r: Rung
      ensures Dead(r, next) <==>
              exists k | 0 <= k < i + 1 :: Fits(cs[k], n) && answers[k].Quota? && SameGroup(cs[k], r)
    {
      if Dead(r, dead) { var k :| 0 <= k < i && Fits(cs[k], n) && answers[k].Quota? && SameGroup(cs[k], r); }
      assert Dead(r, Bury(cs[i], dead)) <==> Dead(r, dead) || SameGroup(cs[i], r);
    }
  }

  /** A dead group is already among the groups to bury. */
  lemma BuryDead(r: Rung, dead: set<string>)
    requires Dead(r, dead)
    ensures Bury(r, dead) == dead
  {
  }

  function EndIndex(end: End): int { match end case Returned(r) => r case Raised(r) => r case Exhausted => -1 }

  lemma {:induction false} EndIsLater(cs: seq<Rung>, answers: seq<Answer>, n: nat, skip: bool, i: nat,
      dead: set<string>)
    requires |answers| == |cs| && i <= |cs|
    ensures var end := Walk(cs, answers, n, skip, i, dead).end; end == Exhausted || i <= EndIndex(end) < |cs|
    decreases |cs| - i
  {
    if i < |cs| {
      EndIsLater(cs, answers, n, skip, i + 1, dead);
      EndIsLater(cs, answers, n, skip, i + 1, Bury(cs[i], dead));
    }
  }

  /** Exactly when skipping dead groups costs nothing: the walk that skips ends as the walk that
      tries every fitting rung if and only if the rung at which the latter ends is not shadowed
      by a refusal of its own group. */
  lemma {:induction false} SkippingExact(cs: seq<Rung>, answers: seq<Answer>, n: nat, i: nat, dead: set<string>)
    requires |answers| == |cs| && i <= |cs| && BuriedExactly(cs, answers, n, i, dead)
    ensures var full := Walk(cs, answers, n, false, i, {}).end;
            && (full == Exhausted || i <= EndIndex(full) < |cs|)
            && (Walk(cs, answers, n, true, i, dead).end == full
                <==> full == Exhausted || !Shadowed(cs, answers, n, EndIndex(full)))
    decreases |cs| - i
  {
    EndIsLater(cs, answers, n, false, i, {});
    if i < |cs| {
      var next := if Fits(cs[i], n) && answers[i].Quota? then Bury(cs[i], dead) else dead;
      BuryKeepsExact(cs, answers, n, i, dead);
      if Dead(cs[i], dead) { BuryDead(cs[i], dead); }
      SkippingExact(cs, answers, n, i + 1, next);
      EndIsLater(cs, answers, n, true, i + 1, dead);
      DeadIsUnused(cs, answers, n, i + 1, if answers[i].Quota? then Bury(cs[i], {}) else {}, {});
      assert Dead(cs[i], dead) <==> Shadowed(cs, answers, n, i);
    }
  }

  /** The walk calls only rungs that fit and whose group is alive. */
  lemma {:induction false} TriedAreAlive(cs: seq<Rung>, answers: seq<Answer>, n: nat, i: nat, dead: set<string>)
    requires |answers| == |cs| && i <= |cs|
    ensures forall k | k in Walk(cs, answers, n, true, i, dead).tried ::
              i <= k < |cs| && Fits(cs[k], n) && !Dead(cs[k], dead)
    decreases |cs| - i
  {
    if i < |cs| {
      TriedAreAlive(cs, answers, n, i + 1, dead);
      TriedAreAlive(cs, answers, n, i + 1, Bury(cs[i], dead));
    }
  }

  /** Two calls of one walk: in order, and the second not into a group the first found exhausted. */
  ghost predicate Compatible(cs: seq<Rung>, answers: seq<Answer>, a: nat, b: nat)
    requires |answers| == |cs|
  {
    a < b < |cs| && !(answers[a].Quota? && SameGroup(cs[a], cs[b]))
  }

  ghost predicate AllCompatible(cs: seq<Rung>, answers: seq<Answer>, tried: seq<nat>)
    requires |answers| == |cs|
  {
    forall a, b | 0 <= a < b < |tried| :: Compatible(cs, answers, tried[a], tried[b])
  }

  lemma CompatiblePrepend(cs: seq<Rung>, answers: seq<Answer>, i: nat, tried: seq<nat>)
    requires |answers| == |cs| && AllCompatible(cs, answers, tried)
      && forall k | k in tried :: Compatible(cs, answers, i, k)
    ensures AllCompatible(cs, answers, [i] + tried)
  {
    var all := [i] + tried;
    forall a, b | 0 <= a < b < |all| ensures Compatible(cs, answers, all[a], all[b]) {
      if a == 0 { assert all[b] in tried; } else { assert all[a] == tried[a - 1] && all[b] == tried[b - 1]; }
    }
  }

  /** Rungs are called in order, and a group that refused is not called again: at most one quota
      refusal per group. */
  lemma {:induction false} OneRefusalPerGroup(cs: seq<Rung>, answers: seq<Answer>, n: nat, i: nat, dead: set<string>)
    requires |answers| == |cs| && i <= |cs|
    ensures AllCompatible(cs, answers, Walk(cs, answers, n, true, i, dead).tried)
    decreases |cs| - i
  {
    if i < |cs| {
      var next := if Fits(cs[i], n) && !Dead(cs[i], dead) && answers[i].Quota? then Bury(cs[i], dead) else dead;
      OneRefusalPerGroup(cs, answers, n, i + 1, next);
      TriedAreAlive(cs, answers, n, i + 1, next);
      if Fits(cs[i], n) && !Dead(cs[i], dead) && !Stops(cs, answers, i) {
        CompatiblePrepend(cs, answers, i, Walk(cs, answers, n, true, i + 1, next).tried);
      }
    }
  }

  /** The walk that skips, decided rung by rung from the answers alone.  A rung is called when it
      fits and no earlier rung of its group was out of quota.  A called rung that is out of quota,
      or unreachable with a rung after it, is passed over.  The first other one ends the walk: its
      time-out is raised, anything else it said is returned.  When there is none, the walk is
      exhausted.  The calls made are those of the called rungs up to the end. */
  lemma {:induction false} WalkExactly(cs: seq<Rung>, answers: seq<Answer>, n: nat, i: nat, dead: set<string>)
    requires |answers| == |cs| && i <= |cs| && BuriedExactly(cs, answers, n, i, dead)
    ensures var walk := Walk(cs, answers, n, true, i, dead);
            && EndsAsAnswered(cs, answers, n, i, walk.end)
            && forall k :: k in walk.tried <==>
                 i <= k < |cs| && Called(cs, answers, n, k) && (walk.end == Exhausted || k <= EndIndex(walk.end))
    decreases |cs| - i
  {
    if i < |cs| {
      var next := if Fits(cs[i], n) && answers[i].Quota? then Bury(cs[i], dead) else dead;
      BuryKeepsExact(cs, answers, n, i, dead);
      if Dead(cs[i], dead) { BuryDead(cs[i], dead); }
      assert Dead(cs[i], dead) <==> Shadowed(cs, answers, n, i);
      WalkExactly(cs, answers, n, i + 1, next);
      hide Shadowed, BuriedExactly, Fits, Dead, Bury;
    }
  }

  /** How a walk from rung `i` on has to end. */
  ghost predicate EndsAsAnswered(cs: seq<Rung>, answers: seq<Answer>, n: nat, i: nat, end: End)
    requires |answers| == |cs| && i <= |cs|
  {
    match end
    case Exhausted => AllSendOn(cs, answers, n, i, |cs|)
    case Returned(r) =>
      && i <= r < |cs| && Called(cs, answers, n, r) && AllSendOn(cs, answers, n, i, r)
      && (answers[r].Usable? || answers[r].Unusable? || (answers[r].Unreachable? && r + 1 == |cs|))
    case Raised(r) =>
      && i <= r < |cs| && Called(cs, answers, n, r) && AllSendOn(cs, answers, n, i, r)
      && answers[r].TimesOut?
  }

  ghost predicate AllSendOn(cs: seq<Rung>, answers: seq<Answer>, n: nat, from: nat, to: nat)
    requires |answers| == |cs| && to <= |cs|
  {
    forall k | from <= k < to :: Called(cs, answers, n, k) ==> SendsOn(cs, answers, k)
  }

  ghost predicate Called(cs: seq<Rung>, answers: seq<Answer>, n: nat, k: nat)
    requires |answers| == |cs| && k < |cs|
  {
    Fits(cs[k], n) && !Shadowed(cs, answers, n, k)
  }

  /** What exhaustion is documented to mean, every candidate called and answered with a quota
      error, holds of an exhausted walk exactly when every candidate fits, none is passed over
      for its group, and none was unreachable. */
  lemma ExhaustedMeansAllRefused(cs: seq<Rung>, answers: seq<Answer>, n: nat)
    requires |answers| == |cs| && Walk(cs, answers, n, true, 0, {}).end == Exhausted
    ensures (forall k | 0 <= k < |cs| :: k in Walk(cs, answers, n, true, 0, {}).tried && answers[k].Quota?)
            <==> forall k | 0 <= k < |cs| :: Fits(cs[k], n) && !Shadowed(cs, answers, n, k) && !answers[k].Unreachable?
  {
    var tried := Walk(cs, answers, n, true, 0, {}).tried;
    WalkExactly(cs, answers, n, 0, {});
    hide Walk, Fits, Shadowed, BuriedExactly;
    forall k | 0 <= k < |cs|
      ensures (k in tried && answers[k].Quota?) <==>
        (Fits(cs[k], n) && !Shadowed(cs, answers, n, k) && !answers[k].Unreachable?)
    {
      assert k in tried <==> Called(cs, answers, n, k);
    }
  }

  /** No refusal at all is needed: a prompt that fits no rung is reported as exhausted. */
  lemma ExhaustedWithoutAnyRefusal(small: Rung, n: nat)
    requires !Fits(small, n)
    ensures Walk([small], [Usable], n, true, 0, {}) == Outcome(Exhausted, [])
  {
  }

  /** A group declared on two accounts is not whole: the rung that would have answered is skipped. */
  lemma MisdeclaredGroupSkipsAGoodRung(a: Rung, b: Rung, n: nat)
    requires a.group == b.group && a.group.Some? && a.group.value != "" && Fits(a, n) && Fits(b, n)
    ensures Walk([a, b], [Quota, Usable], n, true, 0, {}).end == Exhausted
    ensures Walk([a, b], [Quota, Usable], n, false, 0, {}).end == Returned(1)
    ensures !Whole([a, b], [Quota, Usable], n)
  {
    var cs, answers := [a, b], [Quota, Usable];
    assert Walk(cs, answers, n, true, 2, Bury(a, {})) == Outcome(Exhausted, []);
    assert Walk(cs, answers, n, true, 1, Bury(a, {})) == Outcome(Exhausted, []);
    assert Walk(cs, answers, n, false, 1, Bury(a, {})) == Outcome(Returned(1), [1]);
    assert answers[0].Quota? && !answers[1].Quota? && SameGroup(cs[0], cs[1]);
  }

  // ---------------------------------------------------------------- synthesis

  /** What one synthesis call comes to: a reply, a quota or rate-limit error, an authentication
      or unsupported-provider error, or an error that is passed on. */
  datatype Reply = Text | QuotaError | NoAccess | OtherError

  datatype Reason = ByQuota | ByContext | ByBoth

  datatype SynthesisEnd = Replied(rung: nat) | Failed(at: nat) | Gone(reason: Reason)

  /** What the walk did at each rung. */
  datatype Mark = GroupSkipped | ContextSkipped | Refused | NotAccessible | Ended

  predicate Halts(cs: seq<Rung>, replies: seq<Reply>, i: nat)
    requires |replies| == |cs| && i < |cs|
  {
    replies[i].Text? || replies[i].OtherError? || (replies[i].NoAccess? && i + 1 == |cs|)
  }

  function MarkAt(cs: seq<Rung>, replies: seq<Reply>, n: nat, i: nat, dead: set<string>): Mark
    requires |replies| == |cs| && i < |cs|
  {
    if Dead(cs[i], dead) then GroupSkipped
    else if !Fits(cs[i], n) then ContextSkipped
    else if Halts(cs, replies, i) then Ended
    else if replies[i].QuotaError? then Refused
    else NotAccessible
  }

  /** The marks from rung `i` on, up to the rung that ends the walk. */
  function Trace(cs: seq<Rung>, replies: seq<Reply>, n: nat, i: nat, dead: set<string>): seq<Mark>
    requires |replies| == |cs| && i <= |cs|
    decreases |cs| - i
  {
    if i == |cs| then []
    else
      var mark := MarkAt(cs, replies, n, i, dead);
      if mark.Ended? then [Ended]
      else [mark] + Trace(cs, replies, n, i + 1, if mark.Refused? then Bury(cs[i], dead) else dead)
  }

  /** A rung of this group refused earlier in the trace. */
  ghost predicate GroupRefused(cs: seq<Rung>, trace: seq<Mark>, r: Rung)
    requires |trace| <= |cs|
  {
    exists j | 0 <= j < |trace| :: trace[j].Refused? && SameGroup(cs[j], r)
  }

  /** What a mark says of its rung. */
  ghost predicate MarkRight(cs: seq<Rung>, replies: seq<Reply>, n: nat, before: seq<Mark>, mark: Mark)
    requires |replies| == |cs| && |before| < |cs|
  {
    var i := |before|;
    && (mark.GroupSkipped? <==> GroupRefused(cs, before, cs[i]))
    && (mark.ContextSkipped? <==> !GroupRefused(cs, before, cs[i]) && !Fits(cs[i], n))
    && (mark.Refused? ==> replies[i].QuotaError?)
    && (mark.NotAccessible? ==> replies[i].NoAccess? && i + 1 < |cs|)
    && (mark.Ended? ==> replies[i].Text? || replies[i].OtherError? || (replies[i].NoAccess? && i + 1 == |cs|))
  }

  /** What a trace says of the rungs after `before`. */
  ghost predicate TraceRight(cs: seq<Rung>, replies: seq<Reply>, n: nat, before: seq<Mark>, rest: seq<Mark>)
    requires |replies| == |cs| && |before| <= |cs|
  {
    && |before| + |rest| <= |cs|
    && (forall k | 0 <= k < |rest| :: MarkRight(cs, replies, n, before + rest[..k], rest[k]))
    && (forall k | 0 <= k < |rest| :: rest[k].Ended? ==> k + 1 == |rest|)
    && (|before| + |rest| < |cs| ==> rest != [] && rest[|rest| - 1].Ended?)
  }

  lemma TraceRightStep(cs: seq<Rung>, replies: seq<Reply>, n: nat, before: seq<Mark>, mark: Mark, tail: seq<Mark>)
    requires |replies| == |cs| && |before| < |cs| && MarkRight(cs, replies, n, before, mark)
    requires if mark.Ended? then tail == [] else TraceRight(cs, replies, n, before + [mark], tail)
    ensures TraceRight(cs, replies, n, before, [mark] + tail)
  {
    hide MarkRight;
    var rest := [mark] + tail;
    assert before + rest[..0] == before;
    forall k | 0 < k < |rest| ensures MarkRight(cs, replies, n, before + rest[..k], rest[k]) {
      assert before + rest[..k] == before + [mark] + tail[..k - 1];
    }
  }

  /** The dead groups are those of the rungs that refused. */
  ghost predicate KnowsRefusals(cs: seq<Rung>, before: seq<Mark>, dead: set<string>)
    requires |before| <= |cs|
  {
    forall r: Rung :: Dead(r, dead) <==> GroupRefused(cs, before, r)
  }

  /** The trace of a synthesis, decided from the replies alone; it goes on to the last rung unless
      a reply, an error that is passed on, or a last rung without access ends it. */
  lemma {:induction false} TraceExactly(cs: seq<Rung>, replies: seq<Reply>, n: nat, before: seq<Mark>,
      dead: set<string>)
    requires |replies| == |cs| && |before| <= |cs| && KnowsRefusals(cs, before, dead)
    ensures TraceRight(cs, replies, n, before, Trace(cs, replies, n, |before|, dead))
    decreases |cs| - |before|
  {
    hide Dead, Bury, Fits, GroupRefused;
    var i := |before|;
    if i < |cs| {
      var mark := MarkAt(cs, replies, n, i, dead);
      assert MarkRight(cs, replies, n, before, mark);
      if mark.Ended? {
        TraceRightStep(cs, replies, n, before, mark, []);
      } else {
        var next := if mark.Refused? then Bury(cs[i], dead) else dead;
        BuryByRefusal(cs, before, mark, dead, next);
        hide MarkRight, MarkAt, TraceRight, KnowsRefusals;
        TraceExactly(cs, replies, n, before + [mark], next);
        TraceRightStep(cs, replies, n, before, mark, Trace(cs, replies, n, i + 1, next));
      }
    }
  }

  lemma BuryByRefusal(cs: seq<Rung>, before: seq<Mark>, mark: Mark, dead: set<string>, next: set<string>)
    requires |before| < |cs| && next == if mark.Refused? then Bury(cs[|before|], dead) else dead
    requires KnowsRefusals(cs, before, dead)
    ensures KnowsRefusals(cs, before + [mark], next)
  {
    var all := before + [mark];
    forall r: Rung ensures Dead(r, next) <==> GroupRefused(cs, all, r) {
      if GroupRefused(cs, before, r) {
        var j :| 0 <= j < |before| && before[j].Refused? && SameGroup(cs[j], r);
        assert all[j].Refused?;
      }
      if GroupRefused(cs, all, r) {
        var j :| 0 <= j < |all| && all[j].Refused? && SameGroup(cs[j], r);
        if j < |before| { assert before[j].Refused?; } else { assert mark.Refused?; }
      }
      if mark.Refused? && SameGroup(cs[|before|], r) { assert all[|before|].Refused?; }
    }
  }

  lemma TraceEnds(cs: seq<Rung>, replies: seq<Reply>, n: nat)
    requires |replies| == |cs|
    ensures forall dead :: Trace(cs, replies, n, |cs|, dead) == []
  {
  }

  lemma TraceAt(cs: seq<Rung>, replies: seq<Reply>, n: nat, i: nat, dead: set<string>)
    requires |replies| == |cs| && i < |cs|
    ensures var mark := MarkAt(cs, replies, n, i, dead);
            Trace(cs, replies, n, i, dead) == if mark.Ended? then [Ended]
              else [mark] + Trace(cs, replies, n, i + 1, if mark.Refused? then Bury(cs[i], dead) else dead)
  {
  }

  /** The reported reason against what happened: quota alone, context alone, or both. */
  ghost predicate Explains(reason: Reason, trace: seq<Mark>) {
    && (reason.ByQuota? <==> Refused in trace && ContextSkipped !in trace)
    && (reason.ByContext? <==> ContextSkipped in trace && Refused !in trace)
    && (reason.ByBoth? <==> Refused in trace && ContextSkipped in trace)
  }

  function ReasonFor(quotaSeen: bool, contextSkips: nat): Reason {
    if quotaSeen && contextSkips > 0 then ByBoth else if contextSkips > 0 then ByContext else ByQuota
  }

  /** `synthesis_with_failover`: the same walk, counting why rungs were passed over.  The reason
      it reports for a walk that found nothing is exact. */
  method SynthesisWithFailover(cs: seq<Rung>, replies: seq<Reply>, n: nat) returns (end: SynthesisEnd)
    requires |replies| == |cs| && cs != []
    ensures var trace := Trace(cs, replies, n, 0, {});
            && (end.Gone? <==> Ended !in trace)
            && (end.Gone? ==> |trace| == |cs| && Explains(end.reason, trace))
            && (end.Replied? ==> |trace| == end.rung + 1 <= |cs| && replies[end.rung].Text?)
            && (end.Failed? ==>
                  |trace| == end.at + 1 <= |cs| && (replies[end.at].OtherError? || replies[end.at].NoAccess?))
            && (end.Failed? && replies[end.at].NoAccess? ==> end.at + 1 == |cs|)
  {
    var dead: set<string> := {};
    var quotaSeen, contextSkips := false, 0;
    ghost var trace := [];
    TraceEnds(cs, replies, n);
    hide Trace, Fits;
    for i := 0 to |cs|
      invariant Trace(cs, replies, n, 0, {}) == trace + Trace(cs, replies, n, i, dead)
      invariant |trace| == i && Ended !in trace
      invariant quotaSeen <==> Refused in trace
      invariant contextSkips > 0 <==> ContextSkipped in trace
      invariant dead != {} ==> quotaSeen
      invariant i == |cs| ==> quotaSeen || contextSkips > 0
    {
      TraceAt(cs, replies, n, i, dead);
      trace := trace + [MarkAt(cs, replies, n, i, dead)];
      if Dead(cs[i], dead) { continue; }
      if !Fits(cs[i], n) {
        contextSkips := contextSkips + 1;
        continue;
      }
      match replies[i]
      case Text => end := Replied(i); return;
      case OtherError => end := Failed(i); return;
      case NoAccess => if i + 1 == |cs| { end := Failed(i); return; }
      case QuotaError =>
        quotaSeen := true;
        dead := Bury(cs[i], dead);
    }
    end := Gone(ReasonFor(quotaSeen, contextSkips));
  }

}
