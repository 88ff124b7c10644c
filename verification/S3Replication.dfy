/** Checkpoint appends to an object store by several writers (orchestrator/s3_audit_replication.py):
    verify the history, upload, fetch lines and ETag, then replace the object on condition. */
module S3Replication {
  import opened Wrappers
  import opened Checkpoints

  type Pid = nat
  type Tag = string

  /** The content of the checkpoint object, as lines; blank ones can only be there from the start. */
  type Content = seq<Line>

  /** An entity tag names one content (a strong validator, section 8.8.1 of RFC 9110). */
  type Tagging = Content -> Tag

  ghost predicate Strong(tag: Tagging) { forall a, b :: tag(a) == tag(b) ==> a == b }

  /** Where a writer stands. */
  datatype Writer =
    | Idle
    | Verified(body: Body, tip: Hash)                                   // the history it verified ended at `tip`
    | Uploaded(k: Checkpoint)                                           // its artifact is stored, its record signed
    | Fetched(k: Checkpoint, lines: seq<Line>, etag: Option<Tag>)
    | Written(k: Checkpoint)

  datatype State = State(
    content: Option<Content>,
    writers: map<Pid, Writer>,
    applied: seq<Line>,          // history: records the store accepted, in order
    told: seq<Line>)             // history: records whose writer was told so

  /** What becomes of a conditional put: applied and answered, applied with the answer lost (the
      client library may then retry), never delivered, or answered with another error. */
  datatype Delivery = Answered | AnswerLost | Undelivered | Failed

  datatype Event =
    | Verify(p: Pid, body: Body, ok: bool)
    | Upload(p: Pid, ok: bool)
    | Fetch(p: Pid, ok: bool, tagged: bool)
    | Put(p: Pid, delivery: Delivery)
    | GiveUp(p: Pid)

  function NonBlank(content: Content): seq<Line> {
    if content == [] then []
    else NonBlank(content[..|content| - 1]) + if content[|content| - 1].Blank? then [] else [content[|content| - 1]]
  }

  function Stored(s: State): seq<Line> { if s.content.None? then [] else NonBlank(s.content.value) }

  /** Signatures verify and every record names the hash before it. */
  ghost predicate History(c: Crypto, lines: seq<Line>) {
    (forall line | line in lines :: Genuine(c, line)) && Linked(c, Entries(lines))
  }

  function RecordOf(c: Crypto, k: Checkpoint): Line { Entry(Some(k), Some(c.sign(k))) }

  /** `If-Match` with the fetched tag, or `If-None-Match: *` without one
      (sections 13.1.1 and 13.1.2 of RFC 9110). */
  predicate Admits(tag: Tagging, current: Option<Content>, etag: Option<Tag>) {
    if etag.Some? then current.Some? && tag(current.value) == etag.value else current.None?
  }

  function At(s: State, p: Pid): Writer { if p in s.writers then s.writers[p] else Idle }

  ghost function Step(c: Crypto, tag: Tagging, s: State, e: Event): State {
    match e
    case Verify(p, body, ok) =>
      if At(s, p).Idle? && ok && History(c, Stored(s))
      then s.(writers := s.writers[p := Verified(body, Tip(Entries(Stored(s))))]) else s
    case Upload(p, ok) =>
      if !At(s, p).Verified? then s
      else
        var body, tip := At(s, p).body, At(s, p).tip;
        s.(writers := s.writers[p := if ok then Uploaded(Checkpoint(body, tip, c.hash(body, tip))) else Idle])
    case Fetch(p, ok, tagged) =>
      if !At(s, p).Uploaded? then s
      else if !ok then s.(writers := s.writers[p := Idle])
      else s.(writers := s.writers[p := Fetched(At(s, p).k, Stored(s),
                if s.content.Some? && tagged then Some(tag(s.content.value)) else None)])
    case Put(p, delivery) => if At(s, p).Fetched? then PutStep(c, tag, s, p, delivery) else s
    case GiveUp(p) => s.(writers := s.writers[p := Idle])
  }

  ghost function PutStep(c: Crypto, tag: Tagging, s: State, p: Pid, delivery: Delivery): State
    requires At(s, p).Fetched?
  {
    var Fetched(k, lines, etag) := At(s, p);
    var record := RecordOf(c, k);
    if delivery.Failed? || (delivery.Answered? && !Admits(tag, s.content, etag))
        then s.(writers := s.writers[p := Idle])
    else if delivery.Undelivered? || !Admits(tag, s.content, etag) then s
    else
      var s1 := s.(content := Some(lines + [record]), applied := s.applied + [record]);
      if delivery.Answered? then s1.(writers := s.writers[p := Written(k)], told := s.told + [record]) else s1
  }

  ghost function Run(c: Crypto, tag: Tagging, s: State, es: seq<Event>): State
    decreases |es|
  {
    if es == [] then s else Step(c, tag, Run(c, tag, s, es[..|es| - 1]), es[|es| - 1])
  }

  // ---------------------------------------------------------------- no lost update

  lemma {:induction false} NonBlankAppend(content: Content, line: Line)
    requires !line.Blank?
    ensures NonBlank(NonBlank(content) + [line]) == NonBlank(content) + [line]
  {
    NonBlankIdempotent(content);
    assert (NonBlank(content) + [line])[..|NonBlank(content)|] == NonBlank(content);
  }

  lemma {:induction false} NonBlankIdempotent(content: Content)
    ensures NonBlank(NonBlank(content)) == NonBlank(content)
  {
    if content != [] {
      var front, last := content[..|content| - 1], content[|content| - 1];
      NonBlankIdempotent(front);
      if !last.Blank? { assert (NonBlank(front) + [last])[..|NonBlank(front)|] == NonBlank(front); }
      else { assert NonBlank(content) == NonBlank(front); }
    }
  }

  /** A fetched tag, if any, is the tag of a content with the fetched lines. */
  ghost predicate FetchedOk(tag: Tagging, w: Writer) {
    w.Fetched? ==> if w.etag.Some? then exists content :: tag(content) == w.etag.value && NonBlank(content) == w.lines
        else true
  }

  ghost predicate FetchesOk(tag: Tagging, s: State) {
    && (forall p | p in s.writers :: FetchedOk(tag, s.writers[p]))
    && (forall p | p in s.writers && s.writers[p].Fetched? && s.writers[p].etag.None? ::
          s.content.Some? || s.writers[p].lines == [])
  }

  /** An accepted put adds its own record after all the stored ones and changes nothing else. */
  lemma PutExtends(c: Crypto, tag: Tagging, s: State, p: Pid, delivery: Delivery)
    requires Strong(tag) && At(s, p).Fetched? && FetchedOk(tag, At(s, p))
    requires At(s, p).etag.None? ==> s.content.Some? || At(s, p).lines == []
    ensures var s', record := PutStep(c, tag, s, p, delivery), RecordOf(c, At(s, p).k);
            || (s'.content == s.content && s'.applied == s.applied && s'.told == s.told)
            || (Stored(s') == Stored(s) + [record] && s'.applied == s.applied + [record]
                && (s'.told == s.told || s'.told == s.told + [record]))
  {
    hide NonBlank, RecordOf, Strong;
    if Admits(tag, s.content, At(s, p).etag) { AdmittedLines(c, tag, s, p); }
    hide FetchedOk, Admits;
  }

  /** What an admitted put writes: the stored lines and its record. */
  lemma AdmittedLines(c: Crypto, tag: Tagging, s: State, p: Pid)
    requires Strong(tag) && At(s, p).Fetched? && FetchedOk(tag, At(s, p)) && Admits(tag, s.content, At(s, p).etag)
    requires At(s, p).etag.None? ==> s.content.Some? || At(s, p).lines == []
    ensures At(s, p).lines == Stored(s)
    ensures NonBlank(Stored(s) + [RecordOf(c, At(s, p).k)]) == Stored(s) + [RecordOf(c, At(s, p).k)]
  {
    var lines := At(s, p).lines;
    if s.content.Some? {
      var content :| tag(content) == At(s, p).etag.value && NonBlank(content) == lines;
      assert content == s.content.value;
      hide NonBlank;
      NonBlankAppend(content, RecordOf(c, At(s, p).k));
    } else {
      assert NonBlank([]) == [];
      hide NonBlank;
      NonBlankAppend([], RecordOf(c, At(s, p).k));
    }
  }

  lemma StepKeepsFetches(c: Crypto, tag: Tagging, s: State, e: Event)
    requires FetchesOk(tag, s)
    ensures FetchesOk(tag, Step(c, tag, s, e))
  {
    assert FetchedOk(tag, At(s, e.p));
    if e.Fetch? && s.content.Some? { assert NonBlank(s.content.value) == Stored(s); }
  }

  /** What every run keeps: the stored lines are the initial ones and then the accepted records. */
  ghost predicate NothingLost(initial: seq<Line>, s: State) {
    Stored(s) == initial + s.applied && multiset(s.told) <= multiset(s.applied)
  }

  lemma OneMoreRecord(initial: seq<Line>, s: State, s': State, record: Line)
    requires NothingLost(initial, s)
    requires || (s'.content == s.content && s'.applied == s.applied && s'.told == s.told)
             || (Stored(s') == Stored(s) + [record] && s'.applied == s.applied + [record]
                 && (s'.told == s.told || s'.told == s.told + [record]))
    ensures NothingLost(initial, s')
  {
    hide NonBlank;
    if s'.applied != s.applied {
      assert initial + s.applied + [record] == initial + (s.applied + [record]);
      assert multiset(s'.applied) == multiset(s.applied) + multiset{record};
    }
  }

  lemma StepKeepsRecords(c: Crypto, tag: Tagging, initial: seq<Line>, s: State, e: Event)
    requires Strong(tag) && FetchesOk(tag, s) && NothingLost(initial, s)
    ensures NothingLost(initial, Step(c, tag, s, e))
  {
    var s' := Step(c, tag, s, e);
    if e.Put? && At(s, e.p).Fetched? {
      PutExtends(c, tag, s, e.p, e.delivery);
      assert s' == PutStep(c, tag, s, e.p, e.delivery);
      hide *;
      OneMoreRecord(initial, s, s', RecordOf(c, At(s, e.p).k));
    } else {
      assert s'.content == s.content && s'.applied == s.applied && s'.told == s.told;
    }
  }

  /** In every interleaving of writers, with lost answers and retries: the stored lines are the
      initial ones followed by exactly the accepted records, and every record whose writer was
      told of success is among them, as often as it was told. */
  lemma {:induction false} NoLostUpdate(c: Crypto, tag: Tagging, s: State, es: seq<Event>)
    requires Strong(tag) && s.writers == map[] && s.applied == [] && s.told == []
    ensures FetchesOk(tag, Run(c, tag, s, es)) && NothingLost(Stored(s), Run(c, tag, s, es))
    decreases |es|
  {
    if es != [] {
      var prior := Run(c, tag, s, es[..|es| - 1]);
      NoLostUpdate(c, tag, s, es[..|es| - 1]);
      StepKeepsFetches(c, tag, prior, es[|es| - 1]);
      StepKeepsRecords(c, tag, Stored(s), prior, es[|es| - 1]);
    }
  }

  /** The stored lines never shrink and never change: each state's lines begin every later one's. */
  lemma {:induction false} StoredIsAppendOnly(c: Crypto, tag: Tagging, s: State, es: seq<Event>)
    requires Strong(tag) && FetchesOk(tag, s)
    ensures FetchesOk(tag, Run(c, tag, s, es)) && Stored(s) <= Stored(Run(c, tag, s, es))
    decreases |es|
  {
    if es != [] {
      var prior, e := Run(c, tag, s, es[..|es| - 1]), es[|es| - 1];
      StoredIsAppendOnly(c, tag, s, es[..|es| - 1]);
      StepKeepsFetches(c, tag, prior, e);
      if e.Put? && At(prior, e.p).Fetched? { PutExtends(c, tag, prior, e.p, e.delivery); }
    }
  }

  /** A put that was applied but not answered is never applied twice, however often and however
      late the client retries it. */
  lemma RetryIsRefused(c: Crypto, tag: Tagging, s: State, p: Pid, es: seq<Event>)
    requires Strong(tag) && FetchesOk(tag, s) && p in s.writers && s.writers[p].Fetched?
      && Admits(tag, s.content, s.writers[p].etag)
    requires var later := Run(c, tag, PutStep(c, tag, s, p, AnswerLost), es); At(later, p) == s.writers[p]
    ensures var later := Run(c, tag, PutStep(c, tag, s, p, AnswerLost), es);
            !Admits(tag, later.content, s.writers[p].etag)
  {
    var after := PutStep(c, tag, s, p, AnswerLost);
    var later := Run(c, tag, after, es);
    assert after == Step(c, tag, s, Put(p, AnswerLost));
    StepKeepsFetches(c, tag, s, Put(p, AnswerLost));
    PutExtends(c, tag, s, p, AnswerLost);
    StoredIsAppendOnly(c, tag, after, es);
    FetchedLinesWereStored(tag, s, p);
  }

  lemma FetchedLinesWereStored(tag: Tagging, s: State, p: Pid)
    requires Strong(tag) && FetchesOk(tag, s) && p in s.writers && s.writers[p].Fetched?
      && Admits(tag, s.content, s.writers[p].etag)
    ensures s.writers[p].lines == Stored(s)
  {
    assert FetchedOk(tag, s.writers[p]);
  }

  // ---------------------------------------------------------------- the links

  lemma {:induction false} EntriesAppend(lines: seq<Line>, c: Crypto, k: Checkpoint)
    ensures Entries(lines + [RecordOf(c, k)]) == Entries(lines) + [k]
  {
    assert (lines + [RecordOf(c, k)])[..|lines|] == lines;
  }

  lemma HistorySnoc(c: Crypto, lines: seq<Line>, k: Checkpoint)
    requires Sound(c) && k.hash == c.hash(k.body, k.previous)
    ensures History(c, lines + [RecordOf(c, k)]) <==> History(c, lines) && k.previous == Tip(Entries(lines))
  {
    assert Genuine(c, RecordOf(c, k));
    EntriesAppend(lines, c, k);
    LinkedSnoc(c, Entries(lines), k);
    assert forall line :: line in lines + [RecordOf(c, k)] <==> line in lines || line == RecordOf(c, k);
    hide Sound, Linked, Genuine, Entries, RecordOf;
  }

  /** When an accepted put keeps the history valid: exactly when the tip its writer verified is
      still the tip of the lines it fetched.  Otherwise the record names the wrong predecessor. */
  lemma PutKeepsLinksExactly(c: Crypto, tag: Tagging, s: State, p: Pid, body: Body, tip: Hash)
    requires Sound(c) && Strong(tag) && FetchesOk(tag, s) && History(c, Stored(s))
    requires p in s.writers && s.writers[p].Fetched? && s.writers[p].k == Checkpoint(body, tip, c.hash(body, tip))
    requires Admits(tag, s.content, s.writers[p].etag)
    ensures History(c, Stored(PutStep(c, tag, s, p, Answered))) <==> tip == Tip(Entries(s.writers[p].lines))
  {
    var k := s.writers[p].k;
    FetchedLinesWereStored(tag, s, p);
    PutExtends(c, tag, s, p, Answered);
    EntriesAppend(Stored(s), c, k);
    LinkedSnoc(c, Entries(Stored(s)), k);
  }

  lemma {:induction false} EntriesPrefix(a: seq<Line>, b: seq<Line>)
    requires a <= b
    ensures Entries(a) <= Entries(b)
    decreases |b|
  {
    if |a| < |b| { EntriesPrefix(a, b[..|b| - 1]); } else { assert a == b; }
  }

  lemma LinkedPrefix(c: Crypto, ks: seq<Checkpoint>, all: seq<Checkpoint>)
    requires Linked(c, all) && ks <= all
    ensures Linked(c, ks)
  {
    forall i | 0 <= i < |ks| ensures ks[..i] == all[..i] && ks[i] == all[i] {}
  }

  /** A wrong link is permanent: no later run repairs it, so no writer ever verifies again. */
  lemma WrongLinkIsPermanent(c: Crypto, tag: Tagging, s: State, es: seq<Event>)
    requires Strong(tag) && FetchesOk(tag, s) && !Linked(c, Entries(Stored(s)))
    ensures !History(c, Stored(Run(c, tag, s, es)))
  {
    StoredIsAppendOnly(c, tag, s, es);
    EntriesPrefix(Stored(s), Stored(Run(c, tag, s, es)));
    if History(c, Stored(Run(c, tag, s, es))) {
      LinkedPrefix(c, Entries(Stored(s)), Entries(Stored(Run(c, tag, s, es))));
    }
  }

  /** A failed step ends an attempt, and only its own. */
  lemma FailedStepsGiveUp(c: Crypto, tag: Tagging, s: State, p: Pid)
    ensures At(Step(c, tag, s, GiveUp(p)), p) == Idle
    ensures At(s, p).Verified? ==> At(Step(c, tag, s, Upload(p, false)), p) == Idle
    ensures forall tagged | At(s, p).Uploaded? :: At(Step(c, tag, s, Fetch(p, false, tagged)), p) == Idle
    ensures At(s, p).Fetched? ==> At(Step(c, tag, s, Put(p, Failed)), p) == Idle
    ensures forall e: Event, q | e.p == p && q != p :: At(Step(c, tag, s, e), q) == At(s, q)
    ensures forall e: Event | !e.Put? ::
              var s' := Step(c, tag, s, e); s'.content == s.content && s'.applied == s.applied && s'.told == s.told
  {
    hide History, RecordOf, Admits;
  }

  function Attempt(p: Pid, body: Body, tagged: bool, delivery: Delivery): seq<Event> {
    [Verify(p, body, true), Upload(p, true), Fetch(p, true, tagged), Put(p, delivery)]
  }

  /** One attempt that nobody disturbs, exactly.  Its put is accepted unless the store withheld the
      tag of an object that exists.  An accepted and answered put ends with the stored lines and its
      own record, linked to the last one; where the answer is lost, or the put is not delivered, the
      writer still holds what it fetched, to try again. */
  lemma AttemptExactly(c: Crypto, tag: Tagging, s: State, p: Pid, body: Body, tagged: bool, delivery: Delivery)
    requires At(s, p).Idle? && History(c, Stored(s))
    ensures var s' := Run(c, tag, s, Attempt(p, body, tagged, delivery));
            var tip := Tip(Entries(Stored(s)));
            var record := Entry(Some(Checkpoint(body, tip, c.hash(body, tip))),
                                Some(c.sign(Checkpoint(body, tip, c.hash(body, tip)))));
            var accepted := (s.content.None? || tagged) && (delivery.Answered? || delivery.AnswerLost?);
            && s'.content == (if accepted then Some(Stored(s) + [record]) else s.content)
            && s'.applied == s.applied + (if accepted then [record] else [])
            && s'.told == s.told + (if accepted && delivery.Answered? then [record] else [])
            && (At(s', p).Written? <==> accepted && delivery.Answered?)
            && (At(s', p).Idle? <==> delivery.Failed? || (delivery.Answered? && !accepted))
  {
    var es := Attempt(p, body, tagged, delivery);
    hide History, NonBlank;
    RunNext(c, tag, s, es, 0);
    RunNext(c, tag, s, es, 1);
    RunNext(c, tag, s, es, 2);
    RunNext(c, tag, s, es, 3);
    assert es[..4] == es;
    hide Run;
  }

  // ---------------------------------------------------------------- one writer, and two

  /** A lone writer's own view of the history is current until its put is applied. */
  ghost predicate Current(c: Crypto, s: State, w: Writer) {
    match w
    case Verified(body, tip) => tip == Tip(Entries(Stored(s)))
    case Uploaded(k) => k.previous == Tip(Entries(Stored(s))) && k.hash == c.hash(k.body, k.previous)
    case Fetched(k, lines, _) =>
      |lines| < |Stored(s)| || (k.previous == Tip(Entries(Stored(s))) && k.hash == c.hash(k.body, k.previous))
    case _ => true
  }

  ghost predicate Lone(c: Crypto, tag: Tagging, s: State, p: Pid) {
    FetchesOk(tag, s) && History(c, Stored(s)) && s.writers.Keys <= {p} && Current(c, s, At(s, p))
  }

  lemma PutKeepsLone(c: Crypto, tag: Tagging, s: State, p: Pid, delivery: Delivery)
    requires Sound(c) && Strong(tag) && Lone(c, tag, s, p) && At(s, p).Fetched?
    ensures Lone(c, tag, PutStep(c, tag, s, p, delivery), p)
  {
    var s' := PutStep(c, tag, s, p, delivery);
    assert s' == Step(c, tag, s, Put(p, delivery));
    StepKeepsFetches(c, tag, s, Put(p, delivery));
    assert s'.writers.Keys <= {p};
    if s'.content != s.content {
      PutKeepsHistory(c, tag, s, p, delivery);
    } else {
      assert Stored(s') == Stored(s);
    }
    hide PutStep, Step, Stored, History, FetchesOk, Sound, Strong;
  }

  lemma PutKeepsHistory(c: Crypto, tag: Tagging, s: State, p: Pid, delivery: Delivery)
    requires Sound(c) && Strong(tag) && Lone(c, tag, s, p) && At(s, p).Fetched?
    requires PutStep(c, tag, s, p, delivery).content != s.content
    ensures var s' := PutStep(c, tag, s, p, delivery); History(c, Stored(s')) && Current(c, s', At(s', p))
  {
    assert p in s.writers && At(s, p) == s.writers[p] && FetchesOk(tag, s) && FetchedOk(tag, At(s, p));
    assert History(c, Stored(s)) && Current(c, s, At(s, p));
    assert At(s, p).etag.None? ==> s.content.Some? || At(s, p).lines == [];
    hide *;
    PutChanges(c, tag, s, p, delivery);
    FetchedLinesWereStored(tag, s, p);
    PutExtends(c, tag, s, p, delivery);
    OneMoreIsCurrent(c, s, PutStep(c, tag, s, p, delivery), p);
  }

  lemma OneMoreIsCurrent(c: Crypto, s: State, s': State, p: Pid)
    requires Sound(c) && History(c, Stored(s)) && At(s, p).Fetched? && Current(c, s, At(s, p))
    requires At(s, p).lines == Stored(s) && Stored(s') == Stored(s) + [RecordOf(c, At(s, p).k)]
    requires At(s', p).Written? || At(s', p) == At(s, p)
    ensures History(c, Stored(s')) && Current(c, s', At(s', p))
  {
    hide Stored, At, History, Sound, RecordOf, Entries;
    HistorySnoc(c, Stored(s), At(s, p).k);
  }

  lemma PutChanges(c: Crypto, tag: Tagging, s: State, p: Pid, delivery: Delivery)
    requires At(s, p).Fetched? && PutStep(c, tag, s, p, delivery).content != s.content
    ensures Admits(tag, s.content, At(s, p).etag)
    ensures At(PutStep(c, tag, s, p, delivery), p).Written? || At(PutStep(c, tag, s, p, delivery), p) == At(s, p)
  {
    hide RecordOf, Admits;
  }

  lemma StepKeepsLone(c: Crypto, tag: Tagging, s: State, p: Pid, e: Event)
    requires Sound(c) && Strong(tag) && Lone(c, tag, s, p) && e.p == p
    ensures Lone(c, tag, Step(c, tag, s, e), p)
  {
    if e.Put? && At(s, p).Fetched? {
      PutKeepsLone(c, tag, s, p, e.delivery);
    } else {
      StepKeepsFetches(c, tag, s, e);
    }
  }

  /** With one writer at a time the remote history stays valid, whatever fails or is retried. */
  lemma {:induction false} LoneWriterKeepsHistory(c: Crypto, tag: Tagging, s: State, es: seq<Event>, p: Pid)
    requires Sound(c) && Strong(tag) && s.writers == map[] && History(c, Stored(s))
    requires forall e | e in es :: e.p == p
    ensures Lone(c, tag, Run(c, tag, s, es), p)
    decreases |es|
  {
    if es != [] {
      LoneWriterKeepsHistory(c, tag, s, es[..|es| - 1], p);
      StepKeepsLone(c, tag, Run(c, tag, s, es[..|es| - 1]), p, es[|es| - 1]);
    }
  }

  const EMPTY := State(None, map[], [], [])

  /** Two writers verify the empty history; the second fetches after the first has put. */
  function Race(a: Body, b: Body): seq<Event> {
    [Verify(0, a, true), Verify(1, b, true), Upload(0, true), Fetch(0, true, true), Put(0, Answered),
     Upload(1, true), Fetch(1, true, true), Put(1, Answered)]
  }

  lemma RunNext(c: Crypto, tag: Tagging, s: State, es: seq<Event>, n: nat)
    requires n < |es|
    ensures Run(c, tag, s, es[..0]) == s
    ensures Run(c, tag, s, es[..n + 1]) == Step(c, tag, Run(c, tag, s, es[..n]), es[n])
  {
    assert es[..n + 1][..n] == es[..n];
  }

  function FirstOf(c: Crypto, body: Body): Checkpoint { Checkpoint(body, GENESIS, c.hash(body, GENESIS)) }

  lemma RaceVerifies(c: Crypto, tag: Tagging, a: Body, b: Body)
    ensures Run(c, tag, EMPTY, Race(a, b)[..2])
            == State(None, map[0 := Verified(a, GENESIS), 1 := Verified(b, GENESIS)], [], [])
  {
    assert History(c, []);
    RunNext(c, tag, EMPTY, Race(a, b), 0);
    RunNext(c, tag, EMPTY, Race(a, b), 1);
  }

  lemma RaceFetches(c: Crypto, tag: Tagging, a: Body, b: Body)
    ensures Run(c, tag, EMPTY, Race(a, b)[..4])
            == State(None, map[0 := Fetched(FirstOf(c, a), [], None), 1 := Verified(b, GENESIS)], [], [])
  {
    hide Run;
    var es := Race(a, b);
    assert es[2] == Upload(0, true) && es[3] == Fetch(0, true, true);
    hide Race;
    RaceVerifies(c, tag, a, b);
    RunNext(c, tag, EMPTY, es, 2);
    RunNext(c, tag, EMPTY, es, 3);
  }

  lemma RacePuts(c: Crypto, tag: Tagging, a: Body, b: Body)
    ensures var r := RecordOf(c, FirstOf(c, a));
            Run(c, tag, EMPTY, Race(a, b)[..5])
            == State(Some([r]), map[0 := Written(FirstOf(c, a)), 1 := Verified(b, GENESIS)], [r], [r])
  {
    RaceFetches(c, tag, a, b);
    RunNext(c, tag, EMPTY, Race(a, b), 4);
    assert [] + [RecordOf(c, FirstOf(c, a))] == [RecordOf(c, FirstOf(c, a))];
  }

  /** The second writer's upload and fetch, when the store holds one record. */
  lemma LateFetch(c: Crypto, tag: Tagging, s: State, b: Body, r: Line)
    requires !r.Blank? && s.content == Some([r]) && At(s, 1) == Verified(b, GENESIS)
    ensures var s1 := Step(c, tag, s, Upload(1, true));
            s1 == s.(writers := s.writers[1 := Uploaded(FirstOf(c, b))])
            && Step(c, tag, s1, Fetch(1, true, true))
               == s1.(writers := s1.writers[1 := Fetched(FirstOf(c, b), [r], Some(tag([r])))])
  {
    NonBlankOne(r);
    hide NonBlank;
  }

  lemma RaceFetchesAgain(c: Crypto, tag: Tagging, a: Body, b: Body)
    ensures var r := RecordOf(c, FirstOf(c, a));
            Run(c, tag, EMPTY, Race(a, b)[..7])
            == State(Some([r]), map[0 := Written(FirstOf(c, a)), 1 := Fetched(FirstOf(c, b), [r], Some(tag([r])))],
                [r], [r])
  {
    hide Run, Step, FirstOf, NonBlank;
    var es := Race(a, b);
    assert es[5] == Upload(1, true) && es[6] == Fetch(1, true, true);
    hide Race;
    RacePuts(c, tag, a, b);
    RunNext(c, tag, EMPTY, es, 5);
    RunNext(c, tag, EMPTY, es, 6);
    var s := Run(c, tag, EMPTY, es[..5]);
    LateFetch(c, tag, s, b, RecordOf(c, FirstOf(c, a)));
  }

  lemma NonBlankOne(line: Line)
    requires !line.Blank?
    ensures NonBlank([line]) == [line]
  {
    assert [line][..0] == [];
    assert NonBlank([]) == [];
  }

  lemma RaceEnds(c: Crypto, tag: Tagging, a: Body, b: Body)
    ensures Run(c, tag, EMPTY, Race(a, b)).content == Some([RecordOf(c, FirstOf(c, a))] + [RecordOf(c, FirstOf(c, b))])
  {
    RaceFetchesAgain(c, tag, a, b);
    RunNext(c, tag, EMPTY, Race(a, b), 7);
    assert Race(a, b)[..8] == Race(a, b);
  }

  /** Two writers can break the links although both puts succeed and neither record is lost: the
      tip was read before the ETag, so the second record names the genesis mark again. */
  lemma RaceBreaksTheLinks(c: Crypto, tag: Tagging, a: Body, b: Body)
    requires Sound(c) && Strong(tag)
    ensures !History(c, Stored(Run(c, tag, EMPTY, Race(a, b))))
  {
    RaceEnds(c, tag, a, b);
    var x, y := FirstOf(c, a), FirstOf(c, b);
    NonBlankOne(RecordOf(c, x));
    NonBlankAppend([RecordOf(c, x)], RecordOf(c, y));
    EntriesAppend([], c, x);
    assert [] + [RecordOf(c, x)] == [RecordOf(c, x)] && Entries([]) == [] && [] + [x] == [x];
    EntriesAppend([RecordOf(c, x)], c, y);
    LinkedSnoc(c, [x], y);
    assert Tip([x]) == x.hash != GENESIS;
  }

  // ---------------------------------------------------------------- one call, undisturbed

  class AuditBucket {
    const tag: Tagging
    var content: Option<Content>

    constructor (tag: Tagging)
      ensures this.tag == tag && content == None
    {
      this.tag, content := tag, None;
    }

    function Lines(): seq<Line>
      reads this
    {
      if content.None? then [] else NonBlank(content.value)
    }

    method FetchCheckpoints(tagged: bool) returns (lines: seq<Line>, etag: Option<Tag>)
      ensures lines == Lines() && etag == if content.Some? && tagged then Some(tag(content.value)) else None
    {
      lines, etag := [], None;
      if content.Some? {
        for i := 0 to |content.value|
          invariant lines == NonBlank(content.value[..i])
        {
          assert content.value[..i + 1][..i] == content.value[..i];
          if !content.value[i].Blank? { lines := lines + [content.value[i]]; }
        }
        assert content.value[..|content.value|] == content.value;
        if tagged { etag := Some(tag(content.value)); }
      }
    }

    method ConditionalPut(lines: Content, etag: Option<Tag>) returns (ok: bool)
      modifies this`content
      ensures ok == Admits(tag, old(content), etag)
      ensures content == if ok then Some(lines) else old(content)
    {
      ok := Admits(tag, content, etag);
      if ok { content := Some(lines); }
    }

    /** `verified` and `tip` are the verdict of the chain verifier on the stored lines; the put
        goes through unless the store withheld the tag of an object that exists. */
    method Replicate(c: Crypto, body: Body, verified: bool, tip: Hash, tagged: bool) returns (ok: bool)
      requires Sound(c) && (verified <==> History(c, Lines())) && (verified ==> tip == Tip(Entries(Lines())))
      modifies this`content
      ensures ok == (verified && (old(content).Some? ==> tagged))
      ensures ok ==> Lines() == old(Lines()) + [RecordOf(c, Checkpoint(body, tip, c.hash(body, tip)))]
      ensures ok ==> History(c, Lines())
      ensures !ok ==> content == old(content)
    {
      if !verified { return false; }
      var k := Checkpoint(body, tip, c.hash(body, tip));
      var lines, etag := FetchCheckpoints(tagged);
      ok := ConditionalPut(lines + [RecordOf(c, k)], etag);
      if ok {
        RecordKeepsHistory(c, old(content), k);
      }
    }
  }

  lemma RecordKeepsHistory(c: Crypto, content: Option<Content>, k: Checkpoint)
    requires Sound(c) && k.hash == c.hash(k.body, k.previous)
    ensures var lines := if content.None? then [] else NonBlank(content.value);
            && NonBlank(lines + [RecordOf(c, k)]) == lines + [RecordOf(c, k)]
            && (History(c, lines) && k.previous == Tip(Entries(lines)) ==> History(c, lines + [RecordOf(c, k)]))
  {
    var stored := if content.None? then [] else content.value;
    assert NonBlank([]) == [];
    NonBlankAppend(stored, RecordOf(c, k));
    hide NonBlank, History;
    HistorySnoc(c, NonBlank(stored), k);
    HistorySnoc(c, [], k);
  }
}
