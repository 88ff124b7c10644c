/** Signed, hash-chained checkpoint replication of orchestrator/audit_replication.py.

    Hashing, digests and signatures are parameters: `Crypto` collects them and `Sound` states
    what is assumed of them (no collisions, no hash equal to the genesis mark, a signature
    verifies to what was signed).  JSON text is parsed away: a checkpoint file is a sequence
    of lines that are blank, broken, or an entry. */
module Checkpoints {
  import opened Wrappers

  type Hash = string
  type Bytes = seq<char>

  const GENESIS: Hash := "GENESIS"

  /** A replica path: the one safe shape, or anything `_safe_artifact_relative` refuses. */
  datatype ArtifactPath = Artifact(task: string, digest: Hash) | Unsafe(text: string)

  datatype Body = Body(
    schemaVersion: int,
    taskId: Option<int>,
    artifact: ArtifactPath,
    digest: Hash,
    sourceBytes: int,
    replicatedAt: Option<int>)   // None when the timestamp does not parse

  datatype Checkpoint = Checkpoint(body: Body, previous: Hash, hash: Hash)

  datatype ManifestPayload = ManifestPayload(hash: Hash, count: int, latest: Checkpoint, signature: string)

  datatype Crypto = Crypto(
    hash: (Body, Hash) -> Hash,
    digest: Bytes -> Hash,
    isDigest: Hash -> bool,
    sign: Checkpoint -> string,
    verify: string -> Option<Checkpoint>,
    signManifest: ManifestPayload -> string,
    verifyManifest: string -> Option<ManifestPayload>)

  ghost predicate CollisionFree(hash: (Body, Hash) -> Hash) {
    forall b, p, b', p' :: hash(b, p) == hash(b', p') ==> b == b' && p == p'
  }

  ghost predicate NeverGenesis(hash: (Body, Hash) -> Hash) {
    forall b, p :: hash(b, p) != GENESIS
  }

  ghost predicate Sound(c: Crypto) {
    && CollisionFree(c.hash)
    && NeverGenesis(c.hash)
    && (forall x :: c.isDigest(c.digest(x)))
    && (forall k :: c.verify(c.sign(k)) == Some(k))
    && (forall m :: c.verifyManifest(c.signManifest(m)) == Some(m))
  }

  datatype Line = Blank | NotJson | NotObject | Entry(checkpoint: Option<Checkpoint>, signature: Option<string>)

  datatype Error =
    | JsonInvalid | RecordInvalid | SignatureInvalid | LinkInvalid | ArtifactInvalid | DigestInvalid
    | SizeInvalid | TimeInvalid | HashInvalid | ArtifactMissing | ArtifactTampered | ArtifactSizeMismatch

  type Artifacts = map<ArtifactPath, Bytes>

  // ---------------------------------------------------------------- one record

  /** The checks of one record against the hash of its predecessor, in the order they are made. */
  function EntryError(c: Crypto, line: Line, previous: Hash, artifacts: Option<Artifacts>): Option<Error> {
    match line
    case Blank => None
    case NotJson => Some(JsonInvalid)
    case NotObject => Some(RecordInvalid)
    case Entry(checkpoint, signature) =>
      if signature.None? || checkpoint.None? || c.verify(signature.value) != checkpoint then Some(SignatureInvalid)
      else CheckpointError(c, checkpoint.value, previous, artifacts)
  }

  function CheckpointError(c: Crypto, k: Checkpoint, previous: Hash, artifacts: Option<Artifacts>): Option<Error> {
    if k.body.schemaVersion != 1 || k.previous != previous then Some(LinkInvalid)
    else if k.body.artifact.Unsafe? then Some(ArtifactInvalid)
    else if !c.isDigest(k.body.digest) then Some(DigestInvalid)
    else if k.body.sourceBytes < 0 then Some(SizeInvalid)
    else if k.body.replicatedAt.None? then Some(TimeInvalid)
    else if k.hash != c.hash(k.body, k.previous) then Some(HashInvalid)
    else match artifacts
         case None => None
         case Some(files) => StoredError(c, k, files)
  }

  function StoredError(c: Crypto, k: Checkpoint, files: Artifacts): Option<Error> {
    if k.body.artifact !in files then Some(ArtifactMissing)
    else if c.digest(files[k.body.artifact]) != k.body.digest then Some(ArtifactTampered)
    else if |files[k.body.artifact]| != k.body.sourceBytes then Some(ArtifactSizeMismatch)
    else None
  }

  // ---------------------------------------------------------------- the whole file

  datatype Chain = Chain(checkpoints: seq<Checkpoint>, error: Option<Error>)

  function Tip(ks: seq<Checkpoint>): Hash {
    if ks == [] then GENESIS else ks[|ks| - 1].hash
  }

  /** The verdict on a file, line by line; the first error stops the scan. */
  function Scan(c: Crypto, lines: seq<Line>, artifacts: Option<Artifacts>): Chain {
    if lines == [] then Chain([], None)
    else
      var before := Scan(c, lines[..|lines| - 1], artifacts);
      var line := lines[|lines| - 1];
      if before.error.Some? || line.Blank? then before
      else match EntryError(c, line, Tip(before.checkpoints), artifacts)
           case Some(e) => Chain(before.checkpoints, Some(e))
           case None => Chain(before.checkpoints + [line.checkpoint.value], None)
  }

  lemma {:induction false} ErrorStops(c: Crypto, lines: seq<Line>, more: seq<Line>, artifacts: Option<Artifacts>)
    requires Scan(c, lines, artifacts).error.Some?
    ensures Scan(c, lines + more, artifacts) == Scan(c, lines, artifacts)
    decreases |more|
  {
    if more == [] {
      assert lines + more == lines;
    } else {
      assert (lines + more)[..|lines + more| - 1] == lines + more[..|more| - 1];
      ErrorStops(c, lines, more[..|more| - 1], artifacts);
    }
  }

  /** `verify_checkpoint_chain`: the loop over the lines of an existing file. */
  method VerifyCheckpointChain(c: Crypto, lines: seq<Line>, artifacts: Option<Artifacts>) returns (chain: Chain)
    ensures chain == Scan(c, lines, artifacts)
  {
    var previous := GENESIS;
    var checkpoints: seq<Checkpoint> := [];
    for i := 0 to |lines|
      invariant Scan(c, lines[..i], artifacts) == Chain(checkpoints, None)
      invariant previous == Tip(checkpoints)
    {
      assert lines[..i + 1][..i] == lines[..i];
      if lines[i].Blank? { continue; }
      var error := EntryError(c, lines[i], previous, artifacts);
      if error.Some? {
        ErrorStops(c, lines[..i + 1], lines[i + 1..], artifacts);
        assert lines[..i + 1] + lines[i + 1..] == lines;
        return Chain(checkpoints, error);
      }
      previous := lines[i].checkpoint.value.hash;
      checkpoints := checkpoints + [lines[i].checkpoint.value];
    }
    assert lines[..|lines|] == lines;
    return Chain(checkpoints, None);
  }

  // ---------------------------------------------------------------- what acceptance means

  /** Every record covers its body and its predecessor's hash, from the genesis mark on. */
  ghost predicate Linked(c: Crypto, ks: seq<Checkpoint>) {
    forall i | 0 <= i < |ks| :: ks[i].previous == Tip(ks[..i]) && ks[i].hash == c.hash(ks[i].body, ks[i].previous)
  }

  ghost predicate WellFormed(c: Crypto, b: Body) {
    b.schemaVersion == 1 && b.artifact.Artifact? && c.isDigest(b.digest) && b.sourceBytes >= 0 && b.replicatedAt.Some?
  }

  ghost predicate Held(c: Crypto, b: Body, files: Artifacts) {
    b.artifact in files && c.digest(files[b.artifact]) == b.digest && |files[b.artifact]| == b.sourceBytes
  }

  ghost predicate Genuine(c: Crypto, line: Line) {
    line.Blank? || (line.Entry? && line.checkpoint.Some? && line.signature.Some?
                    && c.verify(line.signature.value) == line.checkpoint)
  }

  function Entries(lines: seq<Line>): seq<Checkpoint> {
    if lines == [] then []
    else
      var line := lines[|lines| - 1];
      Entries(lines[..|lines| - 1]) + (if line.Entry? && line.checkpoint.Some? then [line.checkpoint.value] else [])
  }

  ghost predicate AllHeld(c: Crypto, ks: seq<Checkpoint>, files: Artifacts) {
    forall k | k in ks :: WellFormed(c, k.body) && Held(c, k.body, files)
  }

  /** Acceptance of a file, stated outright. */
  ghost predicate Accepts(c: Crypto, lines: seq<Line>, files: Artifacts) {
    var ks := Entries(lines);
    && (forall line | line in lines :: Genuine(c, line))
    && Linked(c, ks)
    && AllHeld(c, ks, files)
  }

  lemma LinkedSnoc(c: Crypto, ks: seq<Checkpoint>, k: Checkpoint)
    ensures Linked(c, ks + [k]) <==> Linked(c, ks) && k.previous == Tip(ks) && k.hash == c.hash(k.body, k.previous)
  {
    var all := ks + [k];
    assert all[..|ks|] == ks;
    forall i | 0 <= i < |ks| ensures all[..i] == ks[..i] && all[i] == ks[i] {}
    if Linked(c, all) {
      assert all[|ks|] == k;
      forall i | 0 <= i < |ks|
          ensures ks[i].previous == Tip(ks[..i]) && ks[i].hash == c.hash(ks[i].body, ks[i].previous) {
        assert all[i].previous == Tip(all[..i]);
      }
    }
  }

  lemma EntryCheck(c: Crypto, line: Line, previous: Hash, files: Artifacts)
    ensures EntryError(c, line, previous, Some(files)).None? <==>
            Genuine(c, line) && (!line.Blank? ==>
              var k := line.checkpoint.value;
              k.previous == previous && k.hash == c.hash(k.body, k.previous) && WellFormed(c, k.body)
                  && Held(c, k.body, files))
  {}

  /** The checks of a record, by the error each reports, in the order of their reports. */
  function Rank(e: Error): nat {
    match e
    case JsonInvalid => 0 case RecordInvalid => 1 case SignatureInvalid => 2 case LinkInvalid => 3
    case ArtifactInvalid => 4 case DigestInvalid => 5 case SizeInvalid => 6 case TimeInvalid => 7
    case HashInvalid => 8 case ArtifactMissing => 9 case ArtifactTampered => 10 case ArtifactSizeMismatch => 11
  }

  /** What each error means, on its own. */
  ghost predicate Wrong(c: Crypto, line: Line, previous: Hash, files: Artifacts, e: Error) {
    match line
    case Blank => false
    case NotJson => e == JsonInvalid
    case NotObject => e == RecordInvalid
    case Entry(checkpoint, signature) =>
      if checkpoint == None || signature == None then e == SignatureInvalid
      else
        var k := checkpoint.value;
        match e
        case JsonInvalid => false
        case RecordInvalid => false
        case SignatureInvalid => c.verify(signature.value) != Some(k)
        case LinkInvalid => k.body.schemaVersion != 1 || k.previous != previous
        case ArtifactInvalid => k.body.artifact.Unsafe?
        case DigestInvalid => !c.isDigest(k.body.digest)
        case SizeInvalid => k.body.sourceBytes < 0
        case TimeInvalid => k.body.replicatedAt == None
        case HashInvalid => k.hash != c.hash(k.body, k.previous)
        case ArtifactMissing => k.body.artifact !in files
        case ArtifactTampered => k.body.artifact in files && c.digest(files[k.body.artifact]) != k.body.digest
        case ArtifactSizeMismatch => k.body.artifact in files && |files[k.body.artifact]| != k.body.sourceBytes
  }

  /** A record is refused exactly when something is wrong with it, and for the first thing that is. */
  lemma FirstWrongIsReported(c: Crypto, line: Line, previous: Hash, files: Artifacts, e: Error)
    ensures EntryError(c, line, previous, Some(files)) == Some(e) <==>
            Wrong(c, line, previous, files, e)
            && forall earlier | Rank(earlier) < Rank(e) :: !Wrong(c, line, previous, files, earlier)
  {
    var found := EntryError(c, line, previous, Some(files));
    if found.Some? { assert Wrong(c, line, previous, files, found.value); }
  }

  lemma AcceptsSnoc(c: Crypto, front: seq<Line>, line: Line, files: Artifacts)
    ensures Accepts(c, front + [line], files) <==>
            Accepts(c, front, files) && EntryError(c, line, Tip(Entries(front)), Some(files)).None?
    ensures Genuine(c, line) ==>
            Entries(front + [line]) == Entries(front) + (if line.Blank? then [] else [line.checkpoint.value])
  {
    var all := front + [line];
    assert all[..|all| - 1] == front;
    EntryCheck(c, line, Tip(Entries(front)), files);
    assert forall l :: l in all <==> l in front || l == line;
    if line.Entry? && line.checkpoint.Some? {
      var k := line.checkpoint.value;
      LinkedSnoc(c, Entries(front), k);
      assert forall k' :: k' in Entries(all) <==> k' in Entries(front) || k' == k;
    } else {
      assert Entries(all) == Entries(front);
    }
  }

  /** The verifier accepts exactly the files of signed, well-formed records that form one
      chain from the genesis mark and whose artifacts are all held unchanged. */
  lemma {:induction false} ScanIffAccepts(c: Crypto, lines: seq<Line>, files: Artifacts)
    ensures Scan(c, lines, Some(files)).error.None? <==> Accepts(c, lines, files)
    ensures Scan(c, lines, Some(files)).error.None? ==> Scan(c, lines, Some(files)).checkpoints == Entries(lines)
  {
    if lines != [] {
      var front, line := lines[..|lines| - 1], lines[|lines| - 1];
      assert lines == front + [line];
      ScanIffAccepts(c, front, files);
      AcceptsSnoc(c, front, line, files);
      EntryCheck(c, line, Tip(Entries(front)), files);
    }
  }

  // ---------------------------------------------------------------- the tip determines the history

  lemma SameTipStep(c: Crypto, ks: seq<Checkpoint>, k: Checkpoint, ks': seq<Checkpoint>, k': Checkpoint)
    requires CollisionFree(c.hash) && Linked(c, ks + [k]) && Linked(c, ks' + [k']) && k.hash == k'.hash
    ensures k == k' && Linked(c, ks) && Linked(c, ks') && Tip(ks) == Tip(ks')
  {
    LinkedSnoc(c, ks, k);
    LinkedSnoc(c, ks', k');
  }

  lemma NotGenesis(c: Crypto, ks: seq<Checkpoint>)
    requires NeverGenesis(c.hash) && Linked(c, ks) && ks != []
    ensures Tip(ks) != GENESIS
  {
    var k := ks[|ks| - 1];
    assert k.hash == c.hash(k.body, k.previous);
  }

  lemma {:induction false} TipDeterminesHistory(c: Crypto, ks: seq<Checkpoint>, ks': seq<Checkpoint>)
    requires CollisionFree(c.hash) && NeverGenesis(c.hash)
    requires Linked(c, ks) && Linked(c, ks') && Tip(ks) == Tip(ks')
    ensures ks == ks'
    decreases |ks|
  {
    hide Linked, CollisionFree, NeverGenesis;
    if ks != [] { NotGenesis(c, ks); }
    if ks' != [] { NotGenesis(c, ks'); }
    if ks != [] && ks' != [] {
      var n, n' := |ks| - 1, |ks'| - 1;
      assert ks == ks[..n] + [ks[n]] && ks' == ks'[..n'] + [ks'[n']];
      SameTipStep(c, ks[..n], ks[n], ks'[..n'], ks'[n']);
      TipDeterminesHistory(c, ks[..n], ks'[..n']);
    }
  }

  /** Two accepted files with the same last hash hold the same checkpoints in the same order. */
  lemma AcceptedTipDeterminesHistory(c: Crypto, lines: seq<Line>, files: Artifacts, lines': seq<Line>,
      files': Artifacts)
    requires CollisionFree(c.hash) && NeverGenesis(c.hash)
    requires Scan(c, lines, Some(files)).error.None? && Scan(c, lines', Some(files')).error.None?
    requires Tip(Scan(c, lines, Some(files)).checkpoints) == Tip(Scan(c, lines', Some(files')).checkpoints)
    ensures Scan(c, lines, Some(files)).checkpoints == Scan(c, lines', Some(files')).checkpoints
  {
    ScanIffAccepts(c, lines, files);
    ScanIffAccepts(c, lines', files');
    TipDeterminesHistory(c, Entries(lines), Entries(lines'));
  }
}
