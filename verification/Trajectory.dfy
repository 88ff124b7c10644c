/** The trajectory log of orchestrator/trajectory.py: the chain verifier, the resuming
    writer, and what survives crashes in the middle of an append.

    The file is its text.  Encoding and hashing are parameters: `Codec` collects them,
    `Faithful` and `CollisionFree` state what is assumed of them. */
module Trajectory {
  import opened Wrappers

  type Hash = string

  const GENESIS: Hash := "GENESIS"

  /** Everything of an event that its hash covers. */
  datatype Core = Core(taskId: Option<int>, sequence: Option<int>, previous: Option<Hash>, payload: string)

  datatype Event = Event(core: Core, stored: Option<Hash>)

  datatype Parsed = Broken | NotObject | Object(event: Event)

  datatype Codec = Codec(
    encode: Event -> string,
    parse: string -> Parsed,
    blank: string -> bool,
    hash: Core -> Hash,
    rawHash: string -> Hash)

  /** Printing is undone by parsing, with or without the line end; no proper prefix of a
      printed event is JSON; a printed event is one line. */
  ghost predicate Faithful(c: Codec) {
    && (forall e :: c.parse(c.encode(e)) == Object(e))
    && (forall s {:trigger c.parse(s + "\n")} :: c.parse(s + "\n") == c.parse(s))
    && (forall s {:trigger c.blank(s + "\n")} :: c.blank(s + "\n") == c.blank(s))
    && (forall e, n | 0 < n < |c.encode(e)| :: c.parse(c.encode(e)[..n]) == Broken)
    && (forall e, n | 0 < n <= |c.encode(e)| :: !c.blank(c.encode(e)[..n]))
    && (forall e :: OneLine(c.encode(e)))
    && (forall k :: c.hash(k) != "")
  }

  predicate OneLine(s: string) { s != "" && '\n' !in s && '\r' !in s }

  /** No collisions, also not between an event and a whole earlier line or the genesis mark. */
  ghost predicate CollisionFree(c: Codec) {
    && (forall k, k' :: c.hash(k) == c.hash(k') ==> k == k')
    && (forall s, s' :: c.rawHash(s) == c.rawHash(s') ==> s == s')
    && (forall k, s :: c.hash(k) != c.rawHash(s + "\n"))
    && (forall k :: c.hash(k) != GENESIS)
    && (forall s :: c.rawHash(s) != GENESIS)
  }

  // ---------------------------------------------------------------- lines

  function FirstLine(f: string): (n: nat)
    requires f != ""
    ensures 0 < n <= |f|
  {
    if f[0] == '\n' || |f| == 1 then 1 else 1 + FirstLine(f[1..])
  }

  /** The lines of a file, each with its line end if it has one. */
  function Lines(f: string): seq<string>
    decreases |f|
  {
    if f == "" then [] else [f[..FirstLine(f)]] + Lines(f[FirstLine(f)..])
  }

  predicate Closed(f: string) { f == "" || f[|f| - 1] == '\n' }

  lemma FirstLineAppend(f: string, g: string)
    requires f != "" && Closed(f)
    ensures FirstLine(f + g) == FirstLine(f)
  {
    if f[0] != '\n' {
      assert (f + g)[1..] == f[1..] + g;
      FirstLineAppend(f[1..], g);
    }
  }

  lemma {:induction false} LinesAppend(f: string, g: string)
    requires Closed(f)
    ensures Lines(f + g) == Lines(f) + Lines(g)
    decreases |f|
  {
    if f == "" {
      assert f + g == g;
    } else {
      var n := FirstLine(f);
      FirstLineAppend(f, g);
      assert (f + g)[..n] == f[..n] && (f + g)[n..] == f[n..] + g;
      LinesAppend(f[n..], g);
    }
  }

  lemma FirstLineAlone(s: string)
    requires s != "" && (forall i | 0 <= i < |s| - 1 :: s[i] != '\n')
    ensures FirstLine(s) == |s|
  {
    if |s| > 1 { FirstLineAlone(s[1..]); }
  }

  lemma OneLineAlone(s: string)
    requires s != "" && (forall i | 0 <= i < |s| - 1 :: s[i] != '\n')
    ensures Lines(s) == [s]
  {
    FirstLineAlone(s);
    assert s[..|s|] == s && s[|s|..] == "";
  }

  // ---------------------------------------------------------------- the verifier

  /** The verdict on the lines read so far: the last legacy line and the hashed events after it. */
  datatype Verdict = Rejected | Accepted(anchor: Option<string>, hashed: seq<Event>)

  function Previous(c: Codec, v: Verdict): Hash
    requires v.Accepted?
    requires forall e | e in v.hashed :: e.stored.Some?
  {
    if v.hashed != [] then v.hashed[|v.hashed| - 1].stored.value
    else AnchorHash(c, v.anchor)
  }

  function Scan(c: Codec, lines: seq<string>): (v: Verdict)
    ensures v.Accepted? ==> forall e | e in v.hashed :: e.stored.Some?
  {
    if lines == [] then Accepted(None, [])
    else
      var before, line := Scan(c, lines[..|lines| - 1]), lines[|lines| - 1];
      if before.Rejected? || c.blank(line) then before
      else match c.parse(line)
           case Broken => Rejected
           case NotObject => Rejected
           case Object(e) =>
             if e.stored.None? then
               if before.hashed != [] then Rejected else Accepted(Some(line), [])
             else if e.core.previous != Some(Previous(c, before)) || e.stored.value != c.hash(e.core) then Rejected
             else before.(hashed := before.hashed + [e])
  }

  lemma {:induction false} RejectionStands(c: Codec, lines: seq<string>, more: seq<string>)
    requires Scan(c, lines).Rejected?
    ensures Scan(c, lines + more).Rejected?
    decreases |more|
  {
    if more == [] {
      assert lines + more == lines;
    } else {
      assert (lines + more)[..|lines + more| - 1] == lines + more[..|more| - 1];
      RejectionStands(c, lines, more[..|more| - 1]);
    }
  }

  lemma RejectedPrefix(c: Codec, lines: seq<string>, i: nat)
    requires i <= |lines| && Scan(c, lines[..i]).Rejected?
    ensures Scan(c, lines).Rejected?
  {
    RejectionStands(c, lines[..i], lines[i..]);
    assert lines[..i] + lines[i..] == lines;
  }

  /** `verify_chain` on the lines of an existing file. */
  method VerifyChain(c: Codec, lines: seq<string>) returns (ok: bool)
    ensures ok <==> Scan(c, lines).Accepted?
  {
    var previous := GENESIS;
    var sawHashed := false;
    for i := 0 to |lines|
      invariant Scan(c, lines[..i]).Accepted?
      invariant previous == Previous(c, Scan(c, lines[..i]))
      invariant sawHashed <==> Scan(c, lines[..i]).hashed != []
    {
      assert lines[..i + 1][..i] == lines[..i];
      var raw := lines[i];
      if c.blank(raw) { continue; }
      var parsed := c.parse(raw);
      if !parsed.Object? {
        RejectedPrefix(c, lines, i + 1);
        return false;
      }
      var event := parsed.event;
      if event.stored.None? {
        if sawHashed {
          RejectedPrefix(c, lines, i + 1);
          return false;
        }
        previous := c.rawHash(raw);
        continue;
      }
      if event.core.previous != Some(previous) || event.stored.value != c.hash(event.core) {
        RejectedPrefix(c, lines, i + 1);
        return false;
      }
      previous := event.stored.value;
      sawHashed := true;
    }
    assert lines[..|lines|] == lines;
    return true;
  }

  // ---------------------------------------------------------------- the tip determines the history

  /** Event `i` covers its own content and names the hash of what precedes it. */
  ghost predicate ChainedAt(c: Codec, anchor: Option<string>, es: seq<Event>, i: nat)
    requires i < |es|
  {
    && es[i].stored == Some(c.hash(es[i].core))
    && es[i].core.previous == if i > 0 then es[i - 1].stored else Some(AnchorHash(c, anchor))
  }

  function AnchorHash(c: Codec, anchor: Option<string>): Hash {
    if anchor.Some? then c.rawHash(anchor.value) else GENESIS
  }

  /** What an accepted verdict says about its events, stated outright. */
  ghost predicate Chained(c: Codec, anchor: Option<string>, es: seq<Event>) {
    forall i | 0 <= i < |es| :: ChainedAt(c, anchor, es, i)
  }

  lemma ChainedSnoc(c: Codec, anchor: Option<string>, es: seq<Event>, e: Event)
    ensures Chained(c, anchor, es + [e]) <==> Chained(c, anchor, es) && ChainedAt(c, anchor, es + [e], |es|)
  {
    forall i | 0 <= i < |es| ensures ChainedAt(c, anchor, es + [e], i) == ChainedAt(c, anchor, es, i) {}
    if Chained(c, anchor, es + [e]) {
      forall i | 0 <= i < |es| ensures ChainedAt(c, anchor, es, i) {
        assert ChainedAt(c, anchor, es + [e], i);
      }
    }
  }

  lemma {:induction false} AcceptedIsChained(c: Codec, lines: seq<string>)
    requires Scan(c, lines).Accepted?
    ensures Chained(c, Scan(c, lines).anchor, Scan(c, lines).hashed)
    ensures Scan(c, lines).anchor.Some? ==> Scan(c, lines).anchor.value in lines
    ensures Scan(c, lines).anchor.Some? && Scan(c, lines).hashed != [] ==>
            Scan(c, lines).anchor.value in lines[..|lines| - 1]
  {
    if lines != [] {
      var before := lines[..|lines| - 1];
      AcceptedIsChained(c, before);
      var hashed := Scan(c, lines).hashed;
      if hashed != Scan(c, before).hashed && hashed != [] {
        ChainedSnoc(c, Scan(c, before).anchor, Scan(c, before).hashed, hashed[|hashed| - 1]);
      }
    }
  }

  predicate IsEvent(c: Codec, line: string) { !c.blank(line) && c.parse(line).Object? }

  /** An event written before events were hashed. */
  predicate IsLegacy(c: Codec, line: string) { IsEvent(c, line) && c.parse(line).event.stored.None? }

  predicate IsHashed(c: Codec, line: string) { IsEvent(c, line) && c.parse(line).event.stored.Some? }

  function LastLegacy(c: Codec, lines: seq<string>): Option<string> {
    if lines == [] then None
    else if IsLegacy(c, lines[|lines| - 1]) then Some(lines[|lines| - 1]) else LastLegacy(c, lines[..|lines| - 1])
  }

  function HashedEvents(c: Codec, lines: seq<string>): seq<Event> {
    if lines == [] then []
    else
      var last := lines[|lines| - 1];
      HashedEvents(c, lines[..|lines| - 1]) + if IsHashed(c, last) then [c.parse(last).event] else []
  }

  /** Every line is blank or an event, and no legacy event follows a hashed one. */
  ghost predicate WellOrdered(c: Codec, lines: seq<string>) {
    && (forall i | 0 <= i < |lines| :: c.blank(lines[i]) || IsEvent(c, lines[i]))
    && (forall i, k | 0 <= i < k < |lines| :: IsHashed(c, lines[i]) ==> !IsLegacy(c, lines[k]))
  }

  lemma {:induction false} NoHashedEvents(c: Codec, lines: seq<string>)
    ensures HashedEvents(c, lines) == [] <==> forall i | 0 <= i < |lines| :: !IsHashed(c, lines[i])
  {
    if lines != [] {
      NoHashedEvents(c, lines[..|lines| - 1]);
      hide IsHashed;
      assert lines == lines[..|lines| - 1] + [lines[|lines| - 1]];
    }
  }

  lemma WellOrderedSnoc(c: Codec, front: seq<string>, last: string)
    ensures WellOrdered(c, front + [last]) <==>
            WellOrdered(c, front) && (c.blank(last) || IsEvent(c, last))
            && (IsLegacy(c, last) ==> HashedEvents(c, front) == [])
  {
    NoHashedEvents(c, front);
    hide IsEvent, IsLegacy, IsHashed, HashedEvents;
    var all := front + [last];
    assert forall i | 0 <= i < |front| :: all[i] == front[i];
    assert all[|front|] == last;
    if WellOrdered(c, all) {
      assert forall i | 0 <= i < |front| :: c.blank(all[i]) || IsEvent(c, all[i]);
      assert forall i, k | 0 <= i < k < |front| :: IsHashed(c, all[i]) ==> !IsLegacy(c, all[k]);
      assert forall i | 0 <= i < |front| :: IsHashed(c, all[i]) ==> !IsLegacy(c, all[|front|]);
    }
  }

  /** The verifier accepts exactly the files whose lines are blank or events, with no legacy event
      after a hashed one, and whose hashed events form one chain from the last legacy line, or from
      the genesis mark. */
  lemma {:induction false} AcceptedExactly(c: Codec, lines: seq<string>)
    ensures Scan(c, lines).Accepted? <==>
            WellOrdered(c, lines) && Chained(c, LastLegacy(c, lines), HashedEvents(c, lines))
    ensures Scan(c, lines).Accepted? ==>
            Scan(c, lines) == Accepted(LastLegacy(c, lines), HashedEvents(c, lines))
  {
    if lines != [] {
      var front, last := lines[..|lines| - 1], lines[|lines| - 1];
      assert lines == front + [last];
      AcceptedExactly(c, front);
      WellOrderedSnoc(c, front, last);
      hide WellOrdered, Chained;
      if IsHashed(c, last) {
        var e := c.parse(last).event;
        ChainedSnoc(c, LastLegacy(c, front), HashedEvents(c, front), e);
        assert HashedEvents(c, lines) == HashedEvents(c, front) + [e];
      } else if IsLegacy(c, last) {
        NothingChained(c, Some(last));
        NothingChained(c, LastLegacy(c, front));
        assert HashedEvents(c, lines) == HashedEvents(c, front);
      } else {
        assert HashedEvents(c, lines) == HashedEvents(c, front);
        assert c.blank(last) || !IsEvent(c, last);
      }
    }
  }

  lemma NothingChained(c: Codec, anchor: Option<string>)
    ensures Chained(c, anchor, [])
  {
  }

  lemma {:induction false} EarlierLinesAreClosed(f: string)
    ensures forall i | 0 <= i < |Lines(f)| - 1 :: Lines(f)[i] != "" && Lines(f)[i][|Lines(f)[i]| - 1] == '\n'
    decreases |f|
  {
    if f != "" {
      EarlierLinesAreClosed(f[FirstLine(f)..]);
      FirstLineEnds(f);
    }
  }

  lemma FirstLineEnds(f: string)
    requires f != ""
    ensures FirstLine(f) < |f| ==> f[FirstLine(f) - 1] == '\n'
  {
    if f[0] != '\n' && |f| > 1 { FirstLineEnds(f[1..]); }
  }

  ghost predicate ClosedAnchor(anchor: Option<string>) {
    anchor.Some? ==> anchor.value != "" && Closed(anchor.value)
  }

  lemma {:induction false} ChainTip(c: Codec, a: Option<string>, es: seq<Event>, a': Option<string>, es': seq<Event>)
    requires CollisionFree(c) && Chained(c, a, es) && Chained(c, a', es') && ClosedAnchor(a) && ClosedAnchor(a')
    requires es != [] && es' != [] && es[|es| - 1].stored == es'[|es'| - 1].stored
    ensures es == es' && a == a'
    decreases |es|
  {
    var n, n' := |es| - 1, |es'| - 1;
    assert ChainedAt(c, a, es, n) && ChainedAt(c, a', es', n');
    assert es[n] == es'[n'];
    hide CollisionFree, ClosedAnchor;
    assert es == es[..n] + [es[n]] && es' == es'[..n'] + [es'[n']];
    if n > 0 && n' > 0 {
      ChainedSnoc(c, a, es[..n], es[n]);
      ChainedSnoc(c, a', es'[..n'], es'[n']);
      ChainTip(c, a, es[..n], a', es'[..n']);
    } else if n > 0 {
      assert ChainedAt(c, a, es, n - 1);
      NoEventIsAnAnchor(c, es[n - 1], a');
    } else if n' > 0 {
      assert ChainedAt(c, a', es', n' - 1);
      NoEventIsAnAnchor(c, es'[n' - 1], a);
    }
  }

  lemma NoEventIsAnAnchor(c: Codec, e: Event, a: Option<string>)
    requires CollisionFree(c) && ClosedAnchor(a) && e.stored == Some(c.hash(e.core))
    ensures e.stored != Some(AnchorHash(c, a))
  {
    if a.Some? {
      var line := a.value;
      assert line == line[..|line| - 1] + "\n";
    }
  }

  /** Two accepted files whose last hashed events carry the same hash hold the same hashed
      events in the same order, anchored at the same last legacy line. */
  lemma TipDeterminesHistory(c: Codec, f: string, f': string)
    requires CollisionFree(c) && Scan(c, Lines(f)).Accepted? && Scan(c, Lines(f')).Accepted?
    requires Scan(c, Lines(f)).hashed != [] && Scan(c, Lines(f')).hashed != []
    requires Previous(c, Scan(c, Lines(f))) == Previous(c, Scan(c, Lines(f')))
    ensures Scan(c, Lines(f)) == Scan(c, Lines(f'))
  {
    AcceptedIsChained(c, Lines(f));
    AcceptedIsChained(c, Lines(f'));
    EarlierLinesAreClosed(f);
    EarlierLinesAreClosed(f');
    ChainTip(c, Scan(c, Lines(f)).anchor, Scan(c, Lines(f)).hashed, Scan(c, Lines(f')).anchor,
        Scan(c, Lines(f')).hashed);
  }
}
