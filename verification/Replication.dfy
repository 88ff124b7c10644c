/** The locked replication call of orchestrator/audit_replication.py and its truncation manifest.

    Everything between taking and releasing the checkpoint lock is one call, so an
    interleaving of writers is a sequence of calls.  A call may stop between any two of its
    durable effects and, the checkpoint file being text, after any character of its append (a
    crash, a failed write, a signer that refuses). */
module Replication {
  import opened Wrappers
  import opened Checkpoints
  import Text = Trajectory

  datatype SignedManifest = SignedManifest(payload: ManifestPayload, signature: string)

  /** The replica as it is parsed: what the verifier and the audit work on. */
  datatype Store = Store(lines: seq<Line>, artifacts: Artifacts, manifest: Option<SignedManifest>)

  /** The replica as it is stored. */
  datatype Files = Files(text: string, artifacts: Artifacts, manifest: Option<SignedManifest>)

  const NO_FILES := Files("", map[], None)

  // ---------------------------------------------------------------- the text of the checkpoint file

  /** How a record becomes a line, without its line end, and what a line reads as. */
  datatype Printing = Printing(encode: (Checkpoint, string) -> string, decode: string -> Line)

  /** Decoding undoes encoding; an encoded record is one line; neither a proper part of a record
      nor a record followed by more of another one is JSON. */
  ghost predicate Faithful(p: Printing) {
    && (forall k, s :: p.decode(p.encode(k, s)) == Entry(Some(k), Some(s)))
    && (forall k, s :: p.encode(k, s) != "" && '\n' !in p.encode(k, s))
    && (forall k, s, n | 0 < n < |p.encode(k, s)| :: p.decode(p.encode(k, s)[..n]) == NotJson)
    && (forall k, s, k', s', n | 0 < n <= |p.encode(k', s')| ::
          p.decode(p.encode(k, s) + p.encode(k', s')[..n]) == NotJson)
  }

  /** A line as `splitlines` yields it. */
  function Bare(line: string): string {
    if line != "" && line[|line| - 1] == '\n' then line[..|line| - 1] else line
  }

  function DecodeAll(p: Printing, lines: seq<string>): seq<Line> {
    if lines == [] then [] else DecodeAll(p, lines[..|lines| - 1]) + [p.decode(Bare(lines[|lines| - 1]))]
  }

  function Parse(p: Printing, text: string): seq<Line> { DecodeAll(p, Text.Lines(text)) }

  function View(p: Printing, f: Files): Store { Store(Parse(p, f.text), f.artifacts, f.manifest) }

  lemma {:induction false} DecodeAppend(p: Printing, a: seq<string>, b: seq<string>)
    ensures DecodeAll(p, a + b) == DecodeAll(p, a) + DecodeAll(p, b)
    decreases |b|
  {
    if b == [] {
      assert a + b == a;
    } else {
      assert (a + b)[..|a + b| - 1] == a + b[..|b| - 1];
      DecodeAppend(p, a, b[..|b| - 1]);
    }
  }

  /** One more line, with or without its line end. */
  lemma ParseLine(p: Printing, text: string, line: string)
    requires Text.Closed(text) && line != "" && '\n' !in line
    ensures Parse(p, text + line) == Parse(p, text) + [p.decode(line)]
    ensures Parse(p, text + (line + "\n")) == Parse(p, text) + [p.decode(line)]
  {
    var ended := line + "\n";
    Text.OneLineAlone(line);
    Text.OneLineAlone(ended);
    ParseOne(p, text, line);
    ParseOne(p, text, ended);
    assert ended[..|ended| - 1] == line;
  }

  lemma ParseOne(p: Printing, text: string, line: string)
    requires Text.Closed(text) && Text.Lines(line) == [line]
    ensures Parse(p, text + line) == Parse(p, text) + [p.decode(Bare(line))]
  {
    Text.LinesAppend(text, line);
    DecodeAppend(p, Text.Lines(text), [line]);
  }

  // ---------------------------------------------------------------- one call

  /** Where a call stops: `InAppend` after that many characters of the record and its line end. */
  datatype Stop = BeforeCopy | AfterCopy | InAppend(kept: nat) | AfterAppend | Never

  /** One call: the digest is taken before the lock, the content is what the copy then reads. */
  datatype Call = Call(task: string, taskId: Option<int>, digest: Hash, content: Bytes, now: int, stop: Stop)

  datatype Outcome = Replicated(hash: Hash) | RemoteInvalid(error: Error) | ReplicaTampered | CopyMismatch | Stopped

  function Destination(call: Call): ArtifactPath { Artifact(call.task, call.digest) }

  /** `_copy_immutable`: an existing destination is only checked, a new one is checked before it is put in place. */
  function CopyStep(c: Crypto, artifacts: Artifacts, call: Call): (Artifacts, Option<Outcome>) {
    var path := Destination(call);
    if path in artifacts then (artifacts, if c.digest(artifacts[path]) == call.digest then None
        else Some(ReplicaTampered))
    else if c.digest(call.content) != call.digest then (artifacts, Some(CopyMismatch))
    else (artifacts[path := call.content], None)
  }

  function NewCheckpoint(c: Crypto, call: Call, size: nat, previous: Hash): Checkpoint {
    var body := Body(1, call.taskId, Destination(call), call.digest, size, Some(call.now));
    Checkpoint(body, previous, c.hash(body, previous))
  }

  function ManifestFor(c: Crypto, k: Checkpoint, count: int): SignedManifest {
    var payload := ManifestPayload(k.hash, count, k, c.sign(k));
    SignedManifest(payload, c.signManifest(payload))
  }

  function Size(artifacts: Artifacts, path: ArtifactPath): nat { if path in artifacts then |artifacts[path]| else 0 }

  /** The record a call would append. */
  function NextCheckpoint(c: Crypto, s: Store, call: Call): Checkpoint {
    var artifacts := CopyStep(c, s.artifacts, call).0;
    NewCheckpoint(c, call, Size(artifacts, Destination(call)), Tip(Scan(c, s.lines, Some(s.artifacts)).checkpoints))
  }

  function NextLine(p: Printing, c: Crypto, f: Files, call: Call): string {
    var k := NextCheckpoint(c, View(p, f), call);
    p.encode(k, c.sign(k))
  }

  /** Does the call get as far as its append? */
  predicate Reaches(p: Printing, c: Crypto, f: Files, call: Call) {
    && Scan(c, Parse(p, f.text), Some(f.artifacts)).error.None?
    && CopyStep(c, f.artifacts, call).1.None?
    && !call.stop.BeforeCopy? && !call.stop.AfterCopy?
  }

  function Min(a: nat, b: nat): nat { if a < b then a else b }

  /** The characters a call adds to the checkpoint file. */
  function Appended(p: Printing, c: Crypto, f: Files, call: Call): string {
    if !Reaches(p, c, f, call) then ""
    else
      var ended := NextLine(p, c, f, call) + "\n";
      if call.stop.InAppend? then ended[..Min(call.stop.kept, |ended|)] else ended
  }

  /** The effect of one locked call on the files. */
  function ReplicateStep(p: Printing, c: Crypto, f: Files, call: Call): (Files, Outcome) {
    var chain := Scan(c, Parse(p, f.text), Some(f.artifacts));
    if chain.error.Some? then (f, RemoteInvalid(chain.error.value))
    else if call.stop.BeforeCopy? then (f, Stopped)
    else
      var (artifacts, refused) := CopyStep(c, f.artifacts, call);
      var f1 := f.(artifacts := artifacts);
      if refused.Some? then (f1, refused.value)
      else if call.stop.AfterCopy? then (f1, Stopped)
      else
        var f2 := f1.(text := f1.text + Appended(p, c, f, call));
        if !call.stop.Never? then (f2, Stopped)
        else
          var k := NextCheckpoint(c, View(p, f), call);
          (f2.(manifest := Some(ManifestFor(c, k, |chain.checkpoints| + 1))), Replicated(k.hash))
  }

  /** The replica directory that the call writes to. */
  class Replica {
    const printing: Printing
    var text: string
    var artifacts: Artifacts
    var manifest: Option<SignedManifest>

    ghost function Model(): Files
      reads this
    {
      Files(text, artifacts, manifest)
    }

    constructor (printing: Printing)
      ensures this.printing == printing && Model() == NO_FILES
    {
      this.printing := printing;
      text, artifacts, manifest := "", map[], None;
    }

    method CopyImmutable(c: Crypto, call: Call) returns (refused: Option<Outcome>)
      modifies this`artifacts
      ensures (artifacts, refused) == CopyStep(c, old(artifacts), call)
      ensures refused.None? ==> Destination(call) in artifacts
    {
      var path := Destination(call);
      if path in artifacts {
        if c.digest(artifacts[path]) != call.digest { return Some(ReplicaTampered); }
        return None;
      }
      var temporary := call.content;
      if c.digest(temporary) != call.digest { return Some(CopyMismatch); }
      artifacts := artifacts[path := temporary];
      return None;
    }

    /** The record and its line end, or as much of them as is written before the call stops. */
    method AppendCheckpoint(c: Crypto, k: Checkpoint, signature: string, stop: Stop)
      modifies this`text
      ensures var ended := printing.encode(k, signature) + "\n";
              text == old(text) + if stop.InAppend? then ended[..Min(stop.kept, |ended|)] else ended
    {
      var ended := printing.encode(k, signature) + "\n";
      text := text + if stop.InAppend? then ended[..Min(stop.kept, |ended|)] else ended;
    }

    method ReplicateTrajectory(c: Crypto, call: Call) returns (outcome: Outcome)
      modifies this
      ensures (Model(), outcome) == ReplicateStep(printing, c, old(Model()), call)
    {
      hide Parse, Scan;
      var chain := VerifyCheckpointChain(c, Parse(printing, text), Some(artifacts));
      if chain.error.Some? { return RemoteInvalid(chain.error.value); }
      if call.stop.BeforeCopy? { return Stopped; }
      var refused := CopyImmutable(c, call);
      if refused.Some? { return refused.value; }
      if call.stop.AfterCopy? { return Stopped; }
      var body := Body(1, call.taskId, Destination(call), call.digest, |artifacts[Destination(call)]|, Some(call.now));
      var previous := if chain.checkpoints == [] then GENESIS else chain.checkpoints[|chain.checkpoints| - 1].hash;
      var k := Checkpoint(body, previous, c.hash(body, previous));
      var signature := c.sign(k);
      AppendCheckpoint(c, k, signature, call.stop);
      if !call.stop.Never? { return Stopped; }
      var payload := ManifestPayload(k.hash, |chain.checkpoints| + 1, k, signature);
      manifest := Some(SignedManifest(payload, c.signManifest(payload)));
      return Replicated(k.hash);
    }
  }

  // ---------------------------------------------------------------- the audit

  datatype Audit = ChainBroken(chainError: Error) | ManifestUntrusted | Audited(truncated: bool)

  /** The manifest part of `audit_state`. */
  function AuditTruncation(c: Crypto, s: Store): Audit {
    var chain := Scan(c, s.lines, Some(s.artifacts));
    if chain.error.Some? then ChainBroken(chain.error.value)
    else match s.manifest
         case None => Audited(false)
         case Some(m) =>
           if c.verifyManifest(m.signature) != Some(m.payload) then ManifestUntrusted
           else Audited(|chain.checkpoints| < m.payload.count || chain.checkpoints == []
               || Tip(chain.checkpoints) != m.payload.hash)
  }

  /** The manifest that the call writing the last record of `history` leaves behind. */
  ghost predicate WrittenFor(c: Crypto, m: SignedManifest, history: seq<Checkpoint>) {
    history != [] && m == ManifestFor(c, history[|history| - 1], |history|)
  }

  /** Truncation evidence is exact: against a manifest written for `history`, an accepted file
      shows no truncation if and only if it holds exactly `history`. */
  lemma TruncationEvidence(c: Crypto, s: Store, m: SignedManifest, history: seq<Checkpoint>)
    requires Sound(c) && Linked(c, history) && WrittenFor(c, m, history) && s.manifest == Some(m)
    requires Scan(c, s.lines, Some(s.artifacts)).error.None?
    ensures AuditTruncation(c, s) == Audited(Scan(c, s.lines, Some(s.artifacts)).checkpoints != history)
  {
    var ks := Scan(c, s.lines, Some(s.artifacts)).checkpoints;
    ScanIffAccepts(c, s.lines, s.artifacts);
    assert c.verifyManifest(c.signManifest(m.payload)) == Some(m.payload);
    if ks != [] && Tip(ks) == m.payload.hash { TipDeterminesHistory(c, ks, history); }
  }

  /** A manifest with a genuine signature is believed exactly when it is the one that was signed:
      against an accepted file, any other payload under that signature is reported. */
  lemma AlteredManifestIsUntrusted(c: Crypto, s: Store, signed: ManifestPayload, shown: ManifestPayload)
    requires Sound(c) && s.manifest == Some(SignedManifest(shown, c.signManifest(signed)))
    requires Scan(c, s.lines, Some(s.artifacts)).error.None?
    ensures AuditTruncation(c, s) == ManifestUntrusted <==> shown != signed
  {
    hide Scan;
    assert c.verifyManifest(c.signManifest(signed)) == Some(signed);
  }

  // ---------------------------------------------------------------- the parsed replica

  /** The manifest, if any, was written for a non-empty prefix of the accepted history. */
  ghost predicate ManifestKept(c: Crypto, s: Store) {
    s.manifest.Some? ==>
      exists n :: 0 < n <= |Entries(s.lines)| && WrittenFor(c, s.manifest.value, Entries(s.lines)[..n])
  }

  ghost predicate Verifiable(c: Crypto, s: Store) {
    Accepts(c, s.lines, s.artifacts) && ManifestKept(c, s)
  }

  /** The manifest agrees with the whole file. */
  ghost predicate InAgreement(c: Crypto, s: Store) {
    s.manifest.Some? && WrittenFor(c, s.manifest.value, Entries(s.lines))
  }

  lemma HeldMonotone(c: Crypto, lines: seq<Line>, files: Artifacts, path: ArtifactPath, content: Bytes)
    requires Accepts(c, lines, files) && path !in files
    ensures Accepts(c, lines, files[path := content])
  {}

  lemma NewCheckpointIsGood(c: Crypto, call: Call, content: Bytes, previous: Hash)
    requires Sound(c) && c.digest(content) == call.digest
    ensures var k := NewCheckpoint(c, call, |content|, previous);
            WellFormed(c, k.body) && k.previous == previous && k.hash == c.hash(k.body, k.previous)
            && Genuine(c, Entry(Some(k), Some(c.sign(k))))
  {
    assert c.isDigest(c.digest(content));
  }

  /** What the copy leaves: the accepted history stays held, and the new artifact is held. */
  lemma CopyKeeps(c: Crypto, s: Store, call: Call)
    requires Accepts(c, s.lines, s.artifacts)
    ensures var (artifacts, refused) := CopyStep(c, s.artifacts, call);
            && Accepts(c, s.lines, artifacts)
            && (refused.None? ==>
                  Destination(call) in artifacts && c.digest(artifacts[Destination(call)]) == call.digest)
            && (forall p | p in s.artifacts :: p in artifacts && artifacts[p] == s.artifacts[p])
  {
    if Destination(call) !in s.artifacts { HeldMonotone(c, s.lines, s.artifacts, Destination(call), call.content); }
  }

  /** The appended file: accepted, and one checkpoint longer. */
  lemma AppendKeeps(c: Crypto, lines: seq<Line>, artifacts: Artifacts, call: Call)
    requires Sound(c) && Accepts(c, lines, artifacts)
    requires Destination(call) in artifacts && c.digest(artifacts[Destination(call)]) == call.digest
    ensures var k := NewCheckpoint(c, call, |artifacts[Destination(call)]|, Tip(Entries(lines)));
            var lines' := lines + [Entry(Some(k), Some(c.sign(k)))];
            Accepts(c, lines', artifacts) && Entries(lines') == Entries(lines) + [k]
  {
    var content := artifacts[Destination(call)];
    var k := NewCheckpoint(c, call, |content|, Tip(Entries(lines)));
    var line := Entry(Some(k), Some(c.sign(k)));
    NewCheckpointIsGood(c, call, content, Tip(Entries(lines)));
    AcceptsSnoc(c, lines, line, artifacts);
    EntryCheck(c, line, Tip(Entries(lines)), artifacts);
  }

  lemma ManifestSurvivesAppend(c: Crypto, s: Store, s': Store, k: Checkpoint)
    requires ManifestKept(c, s) && s'.manifest == s.manifest && Entries(s'.lines) == Entries(s.lines) + [k]
    ensures ManifestKept(c, s')
  {
    if s.manifest.Some? {
      var n :| 0 < n <= |Entries(s.lines)| && WrittenFor(c, s.manifest.value, Entries(s.lines)[..n]);
      assert Entries(s'.lines)[..n] == Entries(s.lines)[..n];
    }
  }

  ghost predicate Extends(s: Store, s': Store) {
    && Entries(s.lines) <= Entries(s'.lines)
    && (forall p | p in s.artifacts :: p in s'.artifacts && s'.artifacts[p] == s.artifacts[p])
  }

  /** The last two effects of a call: the append, and the manifest that closes it. */
  lemma FinishKeepsStore(c: Crypto, s1: Store, call: Call)
    requires Sound(c) && Verifiable(c, s1)
    requires Destination(call) in s1.artifacts && c.digest(s1.artifacts[Destination(call)]) == call.digest
    ensures var k := NewCheckpoint(c, call, |s1.artifacts[Destination(call)]|, Tip(Entries(s1.lines)));
            var s2 := s1.(lines := s1.lines + [Entry(Some(k), Some(c.sign(k)))]);
            var s3 := s2.(manifest := Some(ManifestFor(c, k, |Entries(s1.lines)| + 1)));
            && Verifiable(c, s2) && Verifiable(c, s3) && InAgreement(c, s3)
            && Entries(s2.lines) == Entries(s1.lines) + [k]
  {
    AppendKeeps(c, s1.lines, s1.artifacts, call);
    var k := NewCheckpoint(c, call, |s1.artifacts[Destination(call)]|, Tip(Entries(s1.lines)));
    var s2 := s1.(lines := s1.lines + [Entry(Some(k), Some(c.sign(k)))]);
    ManifestSurvivesAppend(c, s1, s2, k);
    var s3 := s2.(manifest := Some(ManifestFor(c, k, |Entries(s1.lines)| + 1)));
    assert WrittenFor(c, s3.manifest.value, Entries(s3.lines));
    assert Entries(s3.lines)[..|Entries(s3.lines)|] == Entries(s3.lines);
  }

  lemma CopiedStoreKept(c: Crypto, s: Store, call: Call)
    requires Verifiable(c, s)
    ensures var s1 := s.(artifacts := CopyStep(c, s.artifacts, call).0);
            Verifiable(c, s1) && Extends(s, s1) && s1.manifest == s.manifest && s1.lines == s.lines
  {
    CopyKeeps(c, s, call);
    var s1 := s.(artifacts := CopyStep(c, s.artifacts, call).0);
    if s.manifest.Some? {
      var n :| 0 < n <= |Entries(s.lines)| && WrittenFor(c, s.manifest.value, Entries(s.lines)[..n]);
      assert WrittenFor(c, s1.manifest.value, Entries(s1.lines)[..n]);
    }
  }

  // ---------------------------------------------------------------- one call on the text

  /** The text ends with a line end, or at most the line end of a whole record is missing. */
  ghost predicate WholeRecords(p: Printing, text: string) {
    Text.Closed(text) || exists front, k, s :: Text.Closed(front) && text == front + p.encode(k, s)
  }

  ghost predicate Good(p: Printing, c: Crypto, f: Files) { WholeRecords(p, f.text) && Verifiable(c, View(p, f)) }

  ghost predicate Accepted(p: Printing, c: Crypto, f: Files) {
    Scan(c, Parse(p, f.text), Some(f.artifacts)).error.None?
  }

  /** The append, if the call gets there, starts on a new line and is not cut inside the record. */
  ghost predicate Harmless(p: Printing, c: Crypto, f: Files, call: Call) {
    Appended(p, c, f, call) == ""
    || (Text.Closed(f.text) && (call.stop.InAppend? ==> call.stop.kept >= |NextLine(p, c, f, call)|))
  }

  /** What is appended leaves the file with the new record, or with a last line that is not JSON. */
  lemma AppendedText(p: Printing, c: Crypto, f: Files, call: Call)
    requires Faithful(p) && WholeRecords(p, f.text) && Appended(p, c, f, call) != ""
    ensures var k := NextCheckpoint(c, View(p, f), call);
            var text := f.text + Appended(p, c, f, call);
            if Harmless(p, c, f, call) then
              WholeRecords(p, text) && Parse(p, text) == Parse(p, f.text) + [Entry(Some(k), Some(c.sign(k)))]
            else
              exists front :: front <= Parse(p, f.text) && Parse(p, text) == front + [NotJson]
  {
    var k := NextCheckpoint(c, View(p, f), call);
    var line, added := NextLine(p, c, f, call), Appended(p, c, f, call);
    if Text.Closed(f.text) {
      if |added| >= |line| {
        assert added == line || added == line + "\n";
        ParseLine(p, f.text, line);
        if added == line { assert f.text + added == f.text + p.encode(k, c.sign(k)); }
      } else {
        assert added == line[..|added|];
        ParseLine(p, f.text, added);
        assert Parse(p, f.text) <= Parse(p, f.text);
      }
    } else {
      GluedText(p, f.text, k, c.sign(k), added);
    }
  }

  /** An append to a record that lost its line end lands on the same line. */
  lemma GluedText(p: Printing, text: string, k: Checkpoint, s: string, added: string)
    requires Faithful(p) && WholeRecords(p, text) && !Text.Closed(text)
    requires added != "" && added <= p.encode(k, s) + "\n"
    ensures exists front :: front <= Parse(p, text) && Parse(p, text + added) == front + [NotJson]
  {
    var front, k0, s0 :| Text.Closed(front) && text == front + p.encode(k0, s0);
    var last, line := p.encode(k0, s0), p.encode(k, s);
    var part := if |added| > |line| then line else added;
    assert part == line[..|part|];
    assert added == part || added == part + "\n";
    assert p.decode(last + part) == NotJson;
    GluedLine(p, front, last, part, added);
    assert Parse(p, front) <= Parse(p, text);
  }

  lemma GluedLine(p: Printing, front: string, last: string, part: string, added: string)
    requires Text.Closed(front) && last != "" && '\n' !in last && '\n' !in part
      && (added == part || added == part + "\n")
    ensures Parse(p, front + last) == Parse(p, front) + [p.decode(last)]
    ensures Parse(p, (front + last) + added) == Parse(p, front) + [p.decode(last + part)]
  {
    ParseLine(p, front, last);
    ParseLine(p, front, last + part);
    assert (front + last) + part == front + (last + part);
    assert (front + last) + (part + "\n") == front + ((last + part) + "\n");
  }

  lemma {:induction false} AcceptedPrefix(c: Crypto, front: seq<Line>, lines: seq<Line>, files: Artifacts)
    requires front <= lines && Scan(c, lines, Some(files)).error.None?
    ensures Scan(c, front, Some(files)).error.None?
  {
    if Scan(c, front, Some(files)).error.Some? {
      ErrorStops(c, front, lines[|front|..], Some(files));
      assert front + lines[|front|..] == lines;
    }
  }

  lemma NotJsonIsRejected(c: Crypto, front: seq<Line>, lines: seq<Line>, files: Artifacts)
    requires front <= lines && Scan(c, lines, Some(files)).error.None?
    ensures Scan(c, front + [NotJson], Some(files)).error == Some(JsonInvalid)
  {
    AcceptedPrefix(c, front, lines, files);
    assert (front + [NotJson])[..|front|] == front;
  }

  /** What one call keeps, and when. */
  ghost predicate CallKept(p: Printing, c: Crypto, f: Files, call: Call, f': Files, outcome: Outcome) {
    && (Accepted(p, c, f') <==> Harmless(p, c, f, call))
    && (Harmless(p, c, f, call) ==> Good(p, c, f') && Extends(View(p, f), View(p, f')))
    && (!Harmless(p, c, f, call) ==> AuditTruncation(c, View(p, f')) == ChainBroken(JsonInvalid))
    && !outcome.RemoteInvalid?
    && (outcome.Replicated? ==> (Accepted(p, c, f') && InAgreement(c, View(p, f')) <==> Text.Closed(f.text)))
    && (!outcome.Replicated? ==> f'.manifest == f.manifest)
  }

  lemma UnappendedCallKept(p: Printing, c: Crypto, f: Files, call: Call)
    requires Sound(c) && Good(p, c, f) && Appended(p, c, f, call) == ""
    ensures CallKept(p, c, f, call, ReplicateStep(p, c, f, call).0, ReplicateStep(p, c, f, call).1)
  {
    var (f', outcome) := ReplicateStep(p, c, f, call);
    StepStops(p, c, f, call);
    hide ReplicateStep, Appended, CopyStep, Parse, WholeRecords, Verifiable, Sound;
    CopiedStoreKept(c, View(p, f), call);
    assert View(p, f') == View(p, f) || View(p, f') == View(p, f).(artifacts := CopyStep(c, f.artifacts, call).0);
    HarmlessKept(p, c, f, call, f', outcome);
  }

  /** A call that appends nothing reports no success and changes at most the artifacts. */
  lemma StepStops(p: Printing, c: Crypto, f: Files, call: Call)
    requires Verifiable(c, View(p, f)) && Appended(p, c, f, call) == ""
    ensures var (f', outcome) := ReplicateStep(p, c, f, call);
            && f'.text == f.text && f'.manifest == f.manifest && !outcome.Replicated? && !outcome.RemoteInvalid?
            && (f'.artifacts == f.artifacts || f'.artifacts == CopyStep(c, f.artifacts, call).0)
  {
    ScanIffAccepts(c, Parse(p, f.text), f.artifacts);
    assert f.text + "" == f.text;
    hide Parse, Scan, Accepts, NextLine, NextCheckpoint;
  }

  lemma AppendingReady(p: Printing, c: Crypto, f: Files, call: Call)
    requires Verifiable(c, View(p, f)) && Reaches(p, c, f, call)
    ensures var s1 := View(p, f).(artifacts := CopyStep(c, f.artifacts, call).0);
            && Verifiable(c, s1) && Extends(View(p, f), s1) && s1.manifest == f.manifest && s1.lines == Parse(p, f.text)
            && Destination(call) in s1.artifacts && c.digest(s1.artifacts[Destination(call)]) == call.digest
            && Scan(c, Parse(p, f.text), Some(f.artifacts)).checkpoints == Entries(Parse(p, f.text))
  {
    ScanIffAccepts(c, Parse(p, f.text), f.artifacts);
    CopiedStoreKept(c, View(p, f), call);
    CopyKeeps(c, View(p, f), call);
    hide CopyStep, Scan, Parse, Accepts, ManifestKept, Extends;
  }

  lemma AppendingCallKept(p: Printing, c: Crypto, f: Files, call: Call)
    requires Sound(c) && Faithful(p) && Good(p, c, f) && Appended(p, c, f, call) != "" && Harmless(p, c, f, call)
    ensures CallKept(p, c, f, call, ReplicateStep(p, c, f, call).0, ReplicateStep(p, c, f, call).1)
  {
    var s1 := View(p, f).(artifacts := CopyStep(c, f.artifacts, call).0);
    assert Reaches(p, c, f, call) && Verifiable(c, View(p, f)) && WholeRecords(p, f.text);
    hide *;
    AppendingReady(p, c, f, call);
    AppendedView(p, c, f, call);
    AppendedKept(p, c, f, call, s1, ReplicateStep(p, c, f, call).0, ReplicateStep(p, c, f, call).1);
  }

  lemma AppendedKept(p: Printing, c: Crypto, f: Files, call: Call, s1: Store, f': Files, outcome: Outcome)
    requires Sound(c) && Harmless(p, c, f, call) && Text.Closed(f.text) && WholeRecords(p, f'.text)
    requires Verifiable(c, s1) && Extends(View(p, f), s1) && s1.manifest == f.manifest
    requires Destination(call) in s1.artifacts && c.digest(s1.artifacts[Destination(call)]) == call.digest
    requires var k := NewCheckpoint(c, call, |s1.artifacts[Destination(call)]|, Tip(Entries(s1.lines)));
             var s2 := s1.(lines := s1.lines + [Entry(Some(k), Some(c.sign(k)))]);
             && View(p, f') == (if call.stop.Never?
                 then s2.(manifest := Some(ManifestFor(c, k, |Entries(s1.lines)| + 1))) else s2)
             && outcome == (if call.stop.Never? then Replicated(k.hash) else Stopped)
    ensures CallKept(p, c, f, call, f', outcome)
  {
    hide *;
    FinishKeepsStore(c, s1, call);
    ViewArtifacts(p, f);
    ExtendsMore(View(p, f), s1, View(p, f'));
    HarmlessKept(p, c, f, call, f', outcome);
  }

  lemma ViewArtifacts(p: Printing, f: Files)
    ensures View(p, f).lines == Parse(p, f.text) && View(p, f).artifacts == f.artifacts
      && View(p, f).manifest == f.manifest
  {
  }

  lemma ExtendsMore(s: Store, s1: Store, s2: Store)
    requires Extends(s, s1) && Entries(s1.lines) <= Entries(s2.lines) && s2.artifacts == s1.artifacts
    ensures Extends(s, s2)
  {
  }

  lemma HarmlessKept(p: Printing, c: Crypto, f: Files, call: Call, f': Files, outcome: Outcome)
    requires Harmless(p, c, f, call) && !outcome.RemoteInvalid? && (outcome.Replicated? ==> Text.Closed(f.text))
    requires WholeRecords(p, f'.text) && Verifiable(c, View(p, f')) && Extends(View(p, f), View(p, f'))
    requires outcome.Replicated? ==> InAgreement(c, View(p, f'))
    requires !outcome.Replicated? ==> View(p, f').manifest == View(p, f).manifest
    ensures CallKept(p, c, f, call, f', outcome)
  {
    hide Harmless, WholeRecords, Parse, InAgreement, Extends, Accepts;
    ScanIffAccepts(c, Parse(p, f'.text), f'.artifacts);
  }

  lemma AppendedView(p: Printing, c: Crypto, f: Files, call: Call)
    requires Faithful(p) && WholeRecords(p, f.text) && Appended(p, c, f, call) != "" && Harmless(p, c, f, call)
    requires Scan(c, Parse(p, f.text), Some(f.artifacts)).checkpoints == Entries(Parse(p, f.text))
    requires Destination(call) in CopyStep(c, f.artifacts, call).0
    ensures var (f', outcome) := ReplicateStep(p, c, f, call);
            var s1 := View(p, f).(artifacts := CopyStep(c, f.artifacts, call).0);
            var k := NewCheckpoint(c, call, |s1.artifacts[Destination(call)]|, Tip(Entries(s1.lines)));
            var s2 := s1.(lines := s1.lines + [Entry(Some(k), Some(c.sign(k)))]);
            && WholeRecords(p, f'.text) && Text.Closed(f.text)
            && View(p, f') == (if call.stop.Never?
                then s2.(manifest := Some(ManifestFor(c, k, |Entries(s1.lines)| + 1))) else s2)
            && outcome == (if call.stop.Never? then Replicated(k.hash) else Stopped)
  {
    StepAppends(p, c, f, call);
    AppendedText(p, c, f, call);
    hide ReplicateStep, Appended, Faithful, WholeRecords, Parse, Scan, CopyStep, ManifestFor;
  }

  lemma StepAppends(p: Printing, c: Crypto, f: Files, call: Call)
    requires Appended(p, c, f, call) != ""
    ensures var k := NextCheckpoint(c, View(p, f), call);
            var f2 := f.(text := f.text + Appended(p, c, f, call), artifacts := CopyStep(c, f.artifacts, call).0);
            var count := |Scan(c, Parse(p, f.text), Some(f.artifacts)).checkpoints| + 1;
            ReplicateStep(p, c, f, call) == if call.stop.Never?
                then (f2.(manifest := Some(ManifestFor(c, k, count))), Replicated(k.hash))
                                            else (f2, Stopped)
  {
    hide Parse, Scan, CopyStep, ManifestFor, NextCheckpoint;
  }

  lemma TornCallKept(p: Printing, c: Crypto, f: Files, call: Call)
    requires Sound(c) && Faithful(p) && Good(p, c, f) && !Harmless(p, c, f, call)
    ensures CallKept(p, c, f, call, ReplicateStep(p, c, f, call).0, ReplicateStep(p, c, f, call).1)
  {
    var (f', outcome) := ReplicateStep(p, c, f, call);
    AppendedText(p, c, f, call);
    CopyKeeps(c, View(p, f), call);
    ScanIffAccepts(c, Parse(p, f.text), f'.artifacts);
    var front :| front <= Parse(p, f.text) && Parse(p, f'.text) == front + [NotJson];
    NotJsonIsRejected(c, front, Parse(p, f.text), f'.artifacts);
  }

  /** One call, wherever it stops: the file stays accepted if and only if the append, if any,
      starts on a new line and is not cut inside its record; it then only extends the history.
      A call that reports success leaves manifest and file in agreement if and only if the file
      ended with a line end before it.  Otherwise the audit reports a broken chain. */
  lemma CallKeepsStore(p: Printing, c: Crypto, f: Files, call: Call)
    requires Sound(c) && Faithful(p) && Good(p, c, f)
    ensures CallKept(p, c, f, call, ReplicateStep(p, c, f, call).0, ReplicateStep(p, c, f, call).1)
  {
    if Appended(p, c, f, call) == "" { UnappendedCallKept(p, c, f, call); }
    else if Harmless(p, c, f, call) { AppendingCallKept(p, c, f, call); }
    else { TornCallKept(p, c, f, call); }
  }

  // ---------------------------------------------------------------- every run of calls

  function RunCalls(p: Printing, c: Crypto, f: Files, calls: seq<Call>): Files {
    if calls == [] then f
    else ReplicateStep(p, c, RunCalls(p, c, f, calls[..|calls| - 1]), calls[|calls| - 1]).0
  }

  /** Once the file is not accepted, no later call changes the replica: nothing is repaired silently. */
  lemma {:induction false} BrokenReplicaIsFrozen(p: Printing, c: Crypto, f: Files, calls: seq<Call>)
    requires !Accepted(p, c, f)
    ensures RunCalls(p, c, f, calls) == f
  {
    if calls != [] { BrokenReplicaIsFrozen(p, c, f, calls[..|calls| - 1]); }
  }

  /** No call of the run was cut inside its record or began on an unended line. */
  ghost predicate NothingTorn(p: Printing, c: Crypto, calls: seq<Call>) {
    calls == []
    || (NothingTorn(p, c, calls[..|calls| - 1])
        && Harmless(p, c, RunCalls(p, c, NO_FILES, calls[..|calls| - 1]), calls[|calls| - 1]))
  }

  lemma EmptyIsGood(p: Printing, c: Crypto)
    ensures Good(p, c, NO_FILES) && Accepted(p, c, NO_FILES)
  {
    assert Parse(p, "") == [];
  }

  /** A call on a file that is not accepted changes nothing and reports the verifier's error, the one
      the audit reports too. */
  lemma BrokenCall(p: Printing, c: Crypto, f: Files, call: Call)
    requires !Accepted(p, c, f)
    ensures var error := Scan(c, Parse(p, f.text), Some(f.artifacts)).error;
            && error.Some? && ReplicateStep(p, c, f, call).1 == RemoteInvalid(error.value)
            && AuditTruncation(c, View(p, f)) == ChainBroken(error.value)
    ensures ReplicateStep(p, c, f, call).0 == f && ReplicateStep(p, c, f, call).1.RemoteInvalid?
      && Harmless(p, c, f, call)
  {
    hide Parse, Scan;
  }

  /** Every sequence of locked calls, each stopping anywhere: the replica is verifiable at the end
      if and only if nothing was torn, and otherwise its last line is not JSON. */
  lemma {:induction false} ReplicaStaysVerifiable(p: Printing, c: Crypto, calls: seq<Call>)
    requires Sound(c) && Faithful(p)
    ensures var f := RunCalls(p, c, NO_FILES, calls);
            && (Accepted(p, c, f) <==> NothingTorn(p, c, calls))
            && (NothingTorn(p, c, calls) ==> Good(p, c, f))
            && (!NothingTorn(p, c, calls) ==> AuditTruncation(c, View(p, f)) == ChainBroken(JsonInvalid))
  {
    if calls == [] {
      EmptyIsGood(p, c);
    } else {
      hide Good, Accepted, Harmless, ReplicateStep, AuditTruncation, Sound, Faithful;
      var prior, last := RunCalls(p, c, NO_FILES, calls[..|calls| - 1]), calls[|calls| - 1];
      ReplicaStaysVerifiable(p, c, calls[..|calls| - 1]);
      if Accepted(p, c, prior) { CallKeepsStore(p, c, prior, last); } else { BrokenCall(p, c, prior, last); }
    }
  }

  lemma StepExtends(p: Printing, c: Crypto, f: Files, call: Call)
    ensures f.text <= ReplicateStep(p, c, f, call).0.text
  {
    hide Appended, Parse, Scan, CopyStep, Accepted;
  }

  /** The checkpoint file is only ever appended to. */
  lemma {:induction false} TextStays(p: Printing, c: Crypto, f: Files, calls: seq<Call>)
    ensures f.text <= RunCalls(p, c, f, calls).text
  {
    if calls != [] {
      hide ReplicateStep;
      TextStays(p, c, f, calls[..|calls| - 1]);
      StepExtends(p, c, RunCalls(p, c, f, calls[..|calls| - 1]), calls[|calls| - 1]);
    }
  }

  lemma PrefixLinked(c: Crypto, ks: seq<Checkpoint>, n: nat)
    requires Linked(c, ks) && n <= |ks|
    ensures Linked(c, ks[..n])
  {
    forall i | 0 <= i < n ensures ks[..n][..i] == ks[..i] {}
  }

  lemma AuditOfVerifiable(c: Crypto, s: Store)
    requires Sound(c) && Verifiable(c, s)
    ensures AuditTruncation(c, s) == Audited(s.manifest.Some? && !InAgreement(c, s))
  {
    ScanIffAccepts(c, s.lines, s.artifacts);
    if s.manifest.Some? {
      var ks := Entries(s.lines);
      var n :| 0 < n <= |ks| && WrittenFor(c, s.manifest.value, ks[..n]);
      PrefixLinked(c, ks, n);
      TruncationEvidence(c, s, s.manifest.value, ks[..n]);
      if InAgreement(c, s) {
        assert s.manifest.value.payload.count == n == |ks|;
        assert ks[..n] == ks;
      }
    }
  }

  /** The audit after any run: a broken chain exactly when something was torn; otherwise
      truncation exactly while a manifest exists and is behind the file, so nothing before the
      first manifest.  The next call that reports success ends that if and only if the file then
      ends with a line end; otherwise it breaks the chain itself. */
  lemma AuditAfterAnyRun(p: Printing, c: Crypto, calls: seq<Call>, last: Call)
    requires Sound(c) && Faithful(p)
    ensures var f := RunCalls(p, c, NO_FILES, calls);
            AuditTruncation(c, View(p, f)) ==
            if NothingTorn(p, c, calls) then Audited(f.manifest.Some? && !InAgreement(c, View(p, f)))
            else ChainBroken(JsonInvalid)
    ensures var f := RunCalls(p, c, NO_FILES, calls);
            var (f', outcome) := ReplicateStep(p, c, f, last);
            outcome.Replicated? ==>
              AuditTruncation(c, View(p, f')) ==
              if Text.Closed(f.text) then Audited(false) else ChainBroken(JsonInvalid)
  {
    var f := RunCalls(p, c, NO_FILES, calls);
    ReplicaStaysVerifiable(p, c, calls);
    hide RunCalls, ReplicateStep, AuditTruncation, NothingTorn, Parse, Scan, Harmless, Verifiable;
    if NothingTorn(p, c, calls) {
      AuditOfGood(p, c, f);
      CallKeepsStore(p, c, f, last);
      AuditOfSuccess(p, c, f, last);
    } else {
      BrokenCall(p, c, f, last);
    }
  }

  lemma AuditOfGood(p: Printing, c: Crypto, f: Files)
    requires Sound(c) && Good(p, c, f)
    ensures AuditTruncation(c, View(p, f)) == Audited(f.manifest.Some? && !InAgreement(c, View(p, f)))
  {
    AuditOfVerifiable(c, View(p, f));
  }

  lemma AuditOfSuccess(p: Printing, c: Crypto, f: Files, call: Call)
    requires Sound(c) && Faithful(p) && Good(p, c, f)
    ensures var (f', outcome) := ReplicateStep(p, c, f, call);
            outcome.Replicated? ==>
              AuditTruncation(c, View(p, f')) ==
              if Text.Closed(f.text) then Audited(false) else ChainBroken(JsonInvalid)
  {
    var (f', outcome) := ReplicateStep(p, c, f, call);
    CallKeepsStore(p, c, f, call);
    if outcome.Replicated? {
      SuccessAppends(p, c, f, call);
      hide ReplicateStep, AuditTruncation, Parse, Scan, Appended, Verifiable, InAgreement;
      if Harmless(p, c, f, call) { AuditOfGood(p, c, f'); }
    }
  }

  /** Does the call find, or bring, content with the digest it was given? */
  predicate Copies(c: Crypto, artifacts: Artifacts, call: Call) {
    var path := Artifact(call.task, call.digest);
    c.digest(if path in artifacts then artifacts[path] else call.content) == call.digest
  }

  /** The last record of `ks` is that of the call: the copied file under its task and digest, with
      its size and time, linked to what was there before and covered by its own hash. */
  ghost predicate Records(c: Crypto, call: Call, files: Artifacts, before: seq<Checkpoint>, ks: seq<Checkpoint>) {
    var path := Artifact(call.task, call.digest);
    && |ks| == |before| + 1 && before <= ks && path in files && c.digest(files[path]) == call.digest
    && var k := ks[|before|];
       && k.body == Body(1, call.taskId, path, call.digest, |files[path]|, Some(call.now))
       && k.previous == (if before == [] then "GENESIS" else before[|before| - 1].hash)
       && k.hash == c.hash(k.body, k.previous)
  }

  /** What a call comes to.  On an accepted replica it succeeds exactly when nothing stops it and
      it copies; an existing copy with another digest is reported as tampered, new content with
      another digest as a mismatch.  A success that starts on a new line leaves the call's own
      record as the last one, and the signed manifest of the whole history. */
  lemma OutcomeExactly(p: Printing, c: Crypto, f: Files, call: Call)
    requires Sound(c) && Faithful(p) && Good(p, c, f)
    ensures var (f', outcome) := ReplicateStep(p, c, f, call);
            var present := Artifact(call.task, call.digest) in f.artifacts;
            && (outcome.Replicated? <==> call.stop.Never? && Copies(c, f.artifacts, call))
            && (outcome.ReplicaTampered? <==> !call.stop.BeforeCopy? && !Copies(c, f.artifacts, call) && present)
            && (outcome.CopyMismatch? <==> !call.stop.BeforeCopy? && !Copies(c, f.artifacts, call) && !present)
            && (call.stop.BeforeCopy? || !Copies(c, f.artifacts, call) ==> f' == f)
            && (call.stop.AfterCopy? && Copies(c, f.artifacts, call) ==>
                  f' == f.(artifacts := if present then f.artifacts
                                        else f.artifacts[Artifact(call.task, call.digest) := call.content]))
    ensures var (f', outcome) := ReplicateStep(p, c, f, call);
            var ks := Entries(Parse(p, f'.text));
            outcome.Replicated? && Text.Closed(f.text) ==>
              && Records(c, call, f'.artifacts, Entries(Parse(p, f.text)), ks)
              && var k := ks[|ks| - 1];
                 && outcome == Replicated(k.hash) && f'.manifest.Some?
                 && f'.manifest.value.payload == ManifestPayload(k.hash, |ks|, k, c.sign(k))
                 && f'.manifest.value.signature == c.signManifest(f'.manifest.value.payload)
  {
    ScanIffAccepts(c, Parse(p, f.text), f.artifacts);
    hide Parse, Scan, Accepts, ManifestKept, WholeRecords;
    if ReplicateStep(p, c, f, call).1.Replicated? && Text.Closed(f.text) {
      SuccessAppends(p, c, f, call);
      AppendingReady(p, c, f, call);
      AppendedView(p, c, f, call);
    }
  }

  lemma SuccessAppends(p: Printing, c: Crypto, f: Files, call: Call)
    requires ReplicateStep(p, c, f, call).1.Replicated?
    ensures Appended(p, c, f, call) != "" && call.stop.Never?
  {
    hide Parse, Scan, NextLine, NextCheckpoint;
  }

  // ---------------------------------------------------------------- what a tear does

  /** A tear inside a record, or an append to an unended line, makes the audit and every later
      call refuse: the replica fails closed. */
  lemma TornAppendFailsClosed(p: Printing, c: Crypto, f: Files, call: Call, calls: seq<Call>)
    requires Sound(c) && Faithful(p) && Good(p, c, f) && !Harmless(p, c, f, call)
    ensures var torn := ReplicateStep(p, c, f, call).0;
            AuditTruncation(c, View(p, torn)) == ChainBroken(JsonInvalid) && RunCalls(p, c, torn, calls) == torn
  {
    CallKeepsStore(p, c, f, call);
    BrokenReplicaIsFrozen(p, c, ReplicateStep(p, c, f, call).0, calls);
  }

  /** The call that copies `content` and appends its record, stopping as given. */
  function CallFor(c: Crypto, content: Bytes, stop: Stop): Call { Call("a", None, c.digest(content), content, 0, stop) }

  lemma CallReaches(p: Printing, c: Crypto, f: Files, content: Bytes, stop: Stop)
    requires Accepted(p, c, f) && !stop.BeforeCopy? && !stop.AfterCopy?
    requires Destination(CallFor(c, content, stop)) !in f.artifacts
      || f.artifacts[Destination(CallFor(c, content, stop))] == content
    ensures Reaches(p, c, f, CallFor(c, content, stop))
    ensures Destination(CallFor(c, content, stop)) in ReplicateStep(p, c, f, CallFor(c, content, stop)).0.artifacts
    ensures ReplicateStep(p, c, f, CallFor(c, content, stop)).0.artifacts[Destination(CallFor(c, content, stop))]
      == content
    ensures ReplicateStep(p, c, f, CallFor(c, content, stop)).0.text == f.text
      + Appended(p, c, f, CallFor(c, content, stop))
    ensures stop.Never? ==> ReplicateStep(p, c, f, CallFor(c, content, stop)).1.Replicated?
  {
    hide Parse, Scan, NextLine, NextCheckpoint;
  }

  /** A tear that loses only the line end goes unnoticed: the file is still accepted.  The next
      call then reports success, and from that moment on the chain is broken for good. */
  lemma LostLineEndBreaksTheNextSuccess(p: Printing, c: Crypto, content: Bytes, calls: seq<Call>)
      returns (first: Call, f1: Files)
    requires Sound(c) && Faithful(p)
    ensures first.stop.InAppend? && f1 == ReplicateStep(p, c, NO_FILES, first).0 && Accepted(p, c, f1)
    ensures var (f2, outcome) := ReplicateStep(p, c, f1, CallFor(c, content, Never));
            && outcome.Replicated? && AuditTruncation(c, View(p, f2)) == ChainBroken(JsonInvalid)
            && RunCalls(p, c, f2, calls) == f2
  {
    EmptyIsGood(p, c);
    var line := NextLine(p, c, NO_FILES, CallFor(c, content, InAppend(0)));
    first := CallFor(c, content, InAppend(|line|));
    f1 := ReplicateStep(p, c, NO_FILES, first).0;
    NextLineIgnoresStop(p, c, NO_FILES, content, InAppend(0), InAppend(|line|));
    CallReaches(p, c, NO_FILES, content, InAppend(|line|));
    LineIsAppended(p, c, content, line);
    CallKeepsStore(p, c, NO_FILES, first);
    var second := CallFor(c, content, Never);
    CallReaches(p, c, f1, content, Never);
    AuditOfSuccess(p, c, f1, second);
    assert !Text.Closed(f1.text);
    BrokenReplicaIsFrozen(p, c, ReplicateStep(p, c, f1, second).0, calls);
  }

  lemma NextLineIgnoresStop(p: Printing, c: Crypto, f: Files, content: Bytes, a: Stop, b: Stop)
    ensures NextLine(p, c, f, CallFor(c, content, a)) == NextLine(p, c, f, CallFor(c, content, b))
  {
  }

  lemma LineIsAppended(p: Printing, c: Crypto, content: Bytes, line: string)
    requires Faithful(p)
    requires line == NextLine(p, c, NO_FILES, CallFor(c, content, InAppend(|line|)))
    requires Reaches(p, c, NO_FILES, CallFor(c, content, InAppend(|line|)))
    ensures Appended(p, c, NO_FILES, CallFor(c, content, InAppend(|line|))) == line != "" && !Text.Closed(line)
  {
    assert (line + "\n")[..|line|] == line;
    assert line[|line| - 1] in line;
  }

  /** Before the first manifest nothing is reported: a first call that stops after its append
      leaves a record that can be cut off again without the audit seeing truncation. */
  lemma NoManifestNoEvidence(p: Printing, c: Crypto, content: Bytes)
    requires Sound(c) && Faithful(p)
    ensures var f := ReplicateStep(p, c, NO_FILES, CallFor(c, content, AfterAppend)).0;
            && Entries(Parse(p, f.text)) != [] && AuditTruncation(c, View(p, f)) == Audited(false)
            && AuditTruncation(c, View(p, f.(text := ""))) == Audited(false)
  {
    var call := CallFor(c, content, AfterAppend);
    var f := ReplicateStep(p, c, NO_FILES, call).0;
    EmptyIsGood(p, c);
    CallReaches(p, c, NO_FILES, content, AfterAppend);
    CallKeepsStore(p, c, NO_FILES, call);
    AppendedText(p, c, NO_FILES, call);
    AuditOfGood(p, c, f);
    EntriesOfOne(p, c, f, call);
  }

  lemma EntriesOfOne(p: Printing, c: Crypto, f: Files, call: Call)
    requires exists k :: Parse(p, f.text) == Parse(p, "") + [Entry(Some(k), Some(c.sign(k)))]
    ensures Entries(Parse(p, f.text)) != []
  {
    assert Parse(p, "") == [];
    var k :| Parse(p, f.text) == Parse(p, "") + [Entry(Some(k), Some(c.sign(k)))];
  }
}
