/** The append-only writer of orchestrator/trajectory.py: it resumes from the file it finds,
    and a crash may cut any append short. */
module TrajectoryRuns {
  import opened Wrappers
  import opened Trajectory

  datatype Writer = Writer(sequence: nat, previous: Hash, needsSeparator: bool)

  // ---------------------------------------------------------------- resume and emit

  /** A line the resuming writer takes as one of its own events. */
  function OwnEvent(c: Codec, task: int, line: string): Option<Event> {
    var parsed := c.parse(line);
    if parsed.Object? && parsed.event.core.taskId == Some(task) then Some(parsed.event) else None
  }

  function StoredOrRaw(c: Codec, e: Event, line: string): Hash {
    if e.stored.Some? && e.stored.value != "" then e.stored.value else c.rawHash(line)
  }

  /** The highest sequence number among the writer's own events, with that event's hash. */
  function Highest(c: Codec, task: int, lines: seq<string>): (nat, Hash) {
    if lines == [] then (0, GENESIS)
    else
      var before, line := Highest(c, task, lines[..|lines| - 1]), lines[|lines| - 1];
      match OwnEvent(c, task, line)
      case None => before
      case Some(e) =>
        if e.core.sequence.Some? && e.core.sequence.value > before.0
        then (e.core.sequence.value, StoredOrRaw(c, e, line)) else before
  }

  /** The line is an event of the task with this sequence number. */
  ghost predicate Numbered(c: Codec, task: int, line: string, n: int) {
    && c.parse(line).Object? && c.parse(line).event.core.taskId == Some(task)
    && c.parse(line).event.core.sequence == Some(n)
  }

  /** The tip a writer goes on from: the first line with the highest positive number of the task,
      by its stored hash, or by the hash of the line where none or an empty one is stored. */
  ghost predicate IsTip(c: Codec, task: int, lines: seq<string>, i: nat, n: nat, previous: Hash)
    requires i < |lines|
  {
    && Numbered(c, task, lines[i], n) && n > 0
    && (forall k | 0 <= k < i :: !Numbered(c, task, lines[k], n))
    && var stored := c.parse(lines[i]).event.stored;
       previous == if stored == None || stored == Some("") then c.rawHash(lines[i]) else stored.value
  }

  lemma {:induction false} HighestExactly(c: Codec, task: int, lines: seq<string>)
    ensures var (n, previous) := Highest(c, task, lines);
            && (forall i, m: int | 0 <= i < |lines| && Numbered(c, task, lines[i], m) :: m <= n)
            && (if n == 0 then previous == "GENESIS"
                else exists i | 0 <= i < |lines| :: IsTip(c, task, lines, i, n, previous))
  {
    if lines != [] {
      var front, last := lines[..|lines| - 1], lines[|lines| - 1];
      HighestExactly(c, task, front);
      var before, here := Highest(c, task, front), Highest(c, task, lines);
      assert forall i | 0 <= i < |front| :: lines[i] == front[i];
      if here == before {
        if before.0 > 0 {
          var i :| 0 <= i < |front| && IsTip(c, task, front, i, before.0, before.1);
          assert IsTip(c, task, lines, i, before.0, before.1);
        }
      } else {
        assert IsTip(c, task, lines, |front|, here.0, here.1);
      }
    }
  }

  function Open(c: Codec, task: int, file: string): Writer {
    if file == "" then Writer(0, GENESIS, false)
    else var (sequence, previous) := Highest(c, task, Lines(file));
         Writer(sequence, previous, file[|file| - 1] !in "\n\r")
  }

  /** Where a writer goes on in any file it finds, whoever wrote it. */
  lemma OpenExactly(c: Codec, task: int, file: string)
    ensures var w, lines := Open(c, task, file), Lines(file);
            && (forall i, m: int | 0 <= i < |lines| && Numbered(c, task, lines[i], m) :: m <= w.sequence)
            && (if w.sequence == 0 then w.previous == "GENESIS"
                else exists i | 0 <= i < |lines| :: IsTip(c, task, lines, i, w.sequence, w.previous))
            && (w.needsSeparator <==> file != "" && file[|file| - 1] != '\n' && file[|file| - 1] != '\r')
  {
    HighestExactly(c, task, Lines(file));
    hide Highest, Numbered, IsTip;
  }

  function NewEvent(c: Codec, task: int, w: Writer, payload: string): Event {
    var core := Core(Some(task), Some(w.sequence + 1), Some(w.previous), payload);
    Event(core, Some(c.hash(core)))
  }

  function Separator(w: Writer): string { if w.needsSeparator then "\n" else "" }

  function EmitText(c: Codec, task: int, w: Writer, payload: string): string {
    Separator(w) + c.encode(NewEvent(c, task, w, payload)) + "\n"
  }

  class LogFile {
    var text: string

    constructor (text: string)
      ensures this.text == text
    {
      this.text := text;
    }
  }

  class TrajectoryWriter {
    const codec: Codec
    const taskId: int
    const log: LogFile
    var sequence: nat
    var previousHash: Hash
    var needsSeparator: bool

    ghost function Model(): Writer
      reads this
    {
      Writer(sequence, previousHash, needsSeparator)
    }

    constructor (codec: Codec, taskId: int, log: LogFile)
      ensures this.codec == codec && this.taskId == taskId && this.log == log
      ensures Model() == Open(codec, taskId, log.text)
    {
      this.codec, this.taskId, this.log := codec, taskId, log;
      sequence, previousHash, needsSeparator := 0, GENESIS, false;
      new;
      ResumeState();
    }

    method ResumeState()
      requires Model() == Writer(0, GENESIS, false)
      modifies this
      ensures Model() == Open(codec, taskId, log.text)
    {
      if log.text == "" { return; }
      var lines := Lines(log.text);
      var highest: nat, previous := 0, GENESIS;
      for i := 0 to |lines|
        invariant (highest, previous) == Highest(codec, taskId, lines[..i])
      {
        assert lines[..i + 1][..i] == lines[..i];
        var own := OwnEvent(codec, taskId, lines[i]);
        if own.None? { continue; }
        var e := own.value;
        if e.core.sequence.Some? && e.core.sequence.value > highest {
          highest := e.core.sequence.value;
          previous := StoredOrRaw(codec, e, lines[i]);
        }
      }
      assert lines[..|lines|] == lines;
      sequence, previousHash := highest, previous;
      needsSeparator := log.text[|log.text| - 1] !in "\n\r";
    }

    method Emit(payload: string) returns (event: Event)
      modifies this, log
      ensures event == NewEvent(codec, taskId, old(Model()), payload) && event.core.payload == payload
      ensures log.text == old(log.text) + EmitText(codec, taskId, old(Model()), payload)
      ensures Model() == Writer(old(sequence) + 1, event.stored.value, false)
    {
      sequence := sequence + 1;
      var core := Core(Some(taskId), Some(sequence), Some(previousHash), payload);
      event := Event(core, Some(codec.hash(core)));
      previousHash := event.stored.value;
      var line := codec.encode(event) + "\n";
      ghost var before := log.text;
      if needsSeparator {
        log.text := log.text + "\n";
        needsSeparator := false;
        assert log.text + line == before + ("\n" + codec.encode(event) + "\n");
      }
      log.text := log.text + line;
    }
  }

  // ---------------------------------------------------------------- runs

  /** A torn emit writes `kept` characters of its text and dies; the next process reopens the file. */
  datatype Op = Reopen | Emit(payload: string) | TornEmit(payload: string, kept: nat)

  datatype Log = Log(file: string, w: Writer)

  function Min(a: nat, b: nat): nat { if a < b then a else b }

  function TornText(c: Codec, task: int, w: Writer, payload: string, kept: nat): string {
    var text := EmitText(c, task, w, payload);
    text[..Min(kept, |text| - 1)]
  }

  function Step(c: Codec, task: int, s: Log, op: Op): Log {
    match op
    case Reopen => s.(w := Open(c, task, s.file))
    case Emit(payload) =>
      Log(s.file + EmitText(c, task, s.w, payload),
          Writer(s.w.sequence + 1, NewEvent(c, task, s.w, payload).stored.value, false))
    case TornEmit(payload, kept) =>
      var file := s.file + TornText(c, task, s.w, payload, kept);
      Log(file, Open(c, task, file))
  }

  function Run(c: Codec, task: int, ops: seq<Op>): Log {
    if ops == [] then Log("", Open(c, task, ""))
    else Step(c, task, Run(c, task, ops[..|ops| - 1]), ops[|ops| - 1])
  }

  /** The writer's own events in the file, in order. */
  function Records(c: Codec, task: int, lines: seq<string>): seq<Event> {
    if lines == [] then []
    else
      var own := OwnEvent(c, task, lines[|lines| - 1]);
      Records(c, task, lines[..|lines| - 1]) + (if own.Some? then [own.value] else [])
  }

  /** Sequences 1..n without a gap, each event hashed over its content and its predecessor's hash. */
  ghost predicate GapFree(c: Codec, task: int, es: seq<Event>) {
    && Chained(c, None, es)
    && forall i | 0 <= i < |es| :: es[i].core.sequence == Some(i + 1) && es[i].core.taskId == Some(task)
  }

  function TipOf(es: seq<Event>): Hash
    requires es != [] ==> es[|es| - 1].stored.Some?
  {
    if es == [] then GENESIS else es[|es| - 1].stored.value
  }

  /** Every line is an own event or a torn fragment, and the own events form a gap-free chain. */
  ghost predicate Sane(c: Codec, task: int, lines: seq<string>) {
    && (forall line | line in lines :: !c.blank(line) && (c.parse(line).Broken? || OwnEvent(c, task, line).Some?))
    && GapFree(c, task, Records(c, task, lines))
  }

  ghost predicate NothingTorn(c: Codec, lines: seq<string>) {
    forall line | line in lines :: !c.parse(line).Broken?
  }

  lemma GapFreePrefix(c: Codec, task: int, es: seq<Event>, e: Event)
    requires GapFree(c, task, es + [e])
    ensures GapFree(c, task, es) && ChainedAt(c, None, es + [e], |es|) && e.core.sequence == Some(|es| + 1)
  {
    ChainedSnoc(c, None, es, e);
    forall i | 0 <= i < |es| ensures es[i].core.sequence == Some(i + 1) && es[i].core.taskId == Some(task) {
      assert (es + [e])[i] == es[i];
    }
    assert (es + [e])[|es|] == e;
  }

  lemma SanePrefix(c: Codec, task: int, lines: seq<string>, line: string)
    requires Sane(c, task, lines + [line])
    ensures Sane(c, task, lines)
  {
    assert forall l | l in lines :: l in lines + [line];
    var own := OwnEvent(c, task, line);
    if own.Some? { GapFreePrefix(c, task, Records(c, task, lines), own.value); }
    else { assert Records(c, task, lines + [line]) == Records(c, task, lines); }
  }

  /** Resuming finds exactly the last event of the chain, whatever fragments lie between. */
  lemma {:induction false} ResumeFindsTheTip(c: Codec, task: int, lines: seq<string>)
    requires Faithful(c) && Sane(c, task, lines)
    ensures var es := Records(c, task, lines);
            (es != [] ==> es[|es| - 1].stored.Some?) && Highest(c, task, lines) == (|es|, TipOf(es))
  {
    if lines != [] {
      var front, line := lines[..|lines| - 1], lines[|lines| - 1];
      assert lines == front + [line];
      SanePrefix(c, task, front, line);
      ResumeFindsTheTip(c, task, front);
      var own := OwnEvent(c, task, line);
      if own.Some? {
        GapFreePrefix(c, task, Records(c, task, front), own.value);
        assert own.value.stored == Some(c.hash(own.value.core));
      }
    }
  }

  /** On such files the verifier accepts exactly when no fragment was left behind. */
  lemma {:induction false} VerifiedIffNothingTorn(c: Codec, task: int, lines: seq<string>)
    requires Sane(c, task, lines)
    ensures Scan(c, lines).Accepted? <==> NothingTorn(c, lines)
    ensures NothingTorn(c, lines) ==> Scan(c, lines) == Accepted(None, Records(c, task, lines))
  {
    if lines != [] {
      var front, line := lines[..|lines| - 1], lines[|lines| - 1];
      assert lines == front + [line];
      SanePrefix(c, task, front, line);
      VerifiedIffNothingTorn(c, task, front);
      assert line in lines;
      assert NothingTorn(c, lines) <==> NothingTorn(c, front) && !c.parse(line).Broken?;
      var own := OwnEvent(c, task, line);
      if own.Some? { GapFreePrefix(c, task, Records(c, task, front), own.value); }
    }
  }

  // ---------------------------------------------------------------- the lines of an append

  lemma {:induction false} ClosingTheLastLine(f: string)
    requires !Closed(f)
    ensures Lines(f) != [] && var ls := Lines(f); Lines(f + "\n") == ls[..|ls| - 1] + [ls[|ls| - 1] + "\n"]
    decreases |f|
  {
    var n := FirstLine(f);
    FirstLineEnds(f);
    if n == |f| {
      NoLineEnd(f);
      OneLineAlone(f);
      OneLineAlone(f + "\n");
    } else {
      FirstLineGrows(f);
      assert (f + "\n")[..n] == f[..n] && (f + "\n")[n..] == f[n..] + "\n";
      ClosingTheLastLine(f[n..]);
      var ls := Lines(f[n..]);
      assert Lines(f) == [f[..n]] + ls;
      assert Lines(f)[..|ls|] == [f[..n]] + ls[..|ls| - 1];
    }
  }

  lemma NoLineEnd(f: string)
    requires !Closed(f) && FirstLine(f) == |f|
    ensures '\n' !in f
  {
    if |f| > 1 { NoLineEnd(f[1..]); }
  }

  lemma FirstLineGrows(f: string)
    requires f != "" && FirstLine(f) < |f|
    ensures FirstLine(f + "\n") == FirstLine(f)
  {
    if f[0] != '\n' {
      assert (f + "\n")[1..] == f[1..] + "\n";
      FirstLineGrows(f[1..]);
    }
  }

  /** Ending the last line changes neither what it parses to nor the chain. */
  lemma ClosedLinesStaySane(c: Codec, task: int, front: seq<string>, line: string)
    requires Faithful(c) && Sane(c, task, front + [line])
    ensures Sane(c, task, front + [line + "\n"])
    ensures Records(c, task, front + [line + "\n"]) == Records(c, task, front + [line])
    ensures NothingTorn(c, front + [line + "\n"]) <==> NothingTorn(c, front + [line])
  {
    assert line in front + [line] && line + "\n" in front + [line + "\n"];
    assert c.parse(line + "\n") == c.parse(line) && c.blank(line + "\n") == c.blank(line);
    assert forall l | l in front :: l in front + [line] && l in front + [line + "\n"];
  }

  lemma FragmentKeepsSane(c: Codec, task: int, lines: seq<string>, fragment: string)
    requires Sane(c, task, lines) && c.parse(fragment).Broken? && !c.blank(fragment)
    ensures Sane(c, task, lines + [fragment]) && Records(c, task, lines + [fragment]) == Records(c, task, lines)
    ensures !NothingTorn(c, lines + [fragment])
  {
    assert fragment in lines + [fragment];
  }

  lemma EventKeepsSane(c: Codec, task: int, lines: seq<string>, line: string, payload: string, separator: bool)
    requires Faithful(c) && Sane(c, task, lines) && !c.blank(line)
    requires c.parse(line)
      == Object(NewEvent(c, task, Writer(Highest(c, task, lines).0, Highest(c, task, lines).1, separator), payload))
    ensures Sane(c, task, lines + [line])
    ensures Records(c, task, lines + [line]) == Records(c, task, lines) + [c.parse(line).event]
    ensures NothingTorn(c, lines + [line]) <==> NothingTorn(c, lines)
  {
    ResumeFindsTheTip(c, task, lines);
    var es, e := Records(c, task, lines), c.parse(line).event;
    ChainedSnoc(c, None, es, e);
    assert (es + [e])[|es|] == e;
    forall i | 0 <= i < |es| + 1
      ensures (es + [e])[i].core.sequence == Some(i + 1) && (es + [e])[i].core.taskId == Some(task)
    {
      if i < |es| { assert (es + [e])[i] == es[i]; }
    }
    assert forall l :: l in lines + [line] <==> l in lines || l == line;
  }

  // ---------------------------------------------------------------- restart refinement

  /** A sane file under a writer that is what reopening the file would give. */
  ghost predicate Consistent(c: Codec, task: int, s: Log) {
    && Sane(c, task, Lines(s.file))
    && s.w == Open(c, task, s.file)
    && (s.file != "" ==> s.file[|s.file| - 1] != '\r')
  }

  /** The file with its last line completed: what an append starts on. */
  ghost predicate Separated(c: Codec, task: int, s: Log, f: string) {
    && f == s.file + Separator(s.w)
    && Closed(f) && Sane(c, task, Lines(f))
    && Records(c, task, Lines(f)) == Records(c, task, Lines(s.file))
    && (NothingTorn(c, Lines(f)) <==> NothingTorn(c, Lines(s.file)))
    && Highest(c, task, Lines(f)) == (s.w.sequence, s.w.previous)
    && s.w.sequence == |Records(c, task, Lines(f))|
  }

  lemma SeparatedFile(c: Codec, task: int, s: Log)
    requires Faithful(c) && Consistent(c, task, s)
    ensures Separated(c, task, s, s.file + Separator(s.w))
  {
    var f := s.file + Separator(s.w);
    if s.w.needsSeparator {
      var ls := Lines(s.file);
      ClosingTheLastLine(s.file);
      var front, line := ls[..|ls| - 1], ls[|ls| - 1];
      assert ls == front + [line];
      ClosedLinesStaySane(c, task, front, line);
    } else {
      assert f == s.file;
    }
    ResumeFindsTheTip(c, task, Lines(f));
    ResumeFindsTheTip(c, task, Lines(s.file));
    if s.file == "" { assert Lines(s.file) == []; }
  }

  /** A whole event appended to closed lines, with or without its line end. */
  lemma AppendEvent(c: Codec, task: int, f: string, w: Writer, payload: string, line: string)
    requires Faithful(c) && Closed(f) && Sane(c, task, Lines(f))
      && Highest(c, task, Lines(f)) == (w.sequence, w.previous)
    requires line == c.encode(NewEvent(c, task, w, payload)) || line == c.encode(NewEvent(c, task, w, payload)) + "\n"
    ensures Lines(f + line) == Lines(f) + [line]
    ensures Sane(c, task, Lines(f + line))
    ensures Records(c, task, Lines(f + line)) == Records(c, task, Lines(f)) + [NewEvent(c, task, w, payload)]
    ensures NothingTorn(c, Lines(f + line)) <==> NothingTorn(c, Lines(f))
  {
    var e := NewEvent(c, task, w, payload);
    EncodedLine(c, e, line);
    LinesAppend(f, line);
    EventKeepsSane(c, task, Lines(f), line, payload, w.needsSeparator);
  }

  lemma EncodedLine(c: Codec, e: Event, line: string)
    requires Faithful(c) && (line == c.encode(e) || line == c.encode(e) + "\n")
    ensures c.parse(line) == Object(e) && !c.blank(line) && Lines(line) == [line]
    ensures line[|line| - 1] != '\r'
  {
    var text := c.encode(e);
    assert OneLine(text) && text[..|text|] == text;
    assert c.parse(text + "\n") == c.parse(text) && c.blank(text + "\n") == c.blank(text);
    OneLineAlone(line);
  }

  lemma FragmentLine(c: Codec, e: Event, n: nat)
    requires Faithful(c) && 0 < n < |c.encode(e)|
    ensures var line := c.encode(e)[..n];
            c.parse(line).Broken? && !c.blank(line) && Lines(line) == [line] && line[|line| - 1] != '\r'
  {
    var text := c.encode(e);
    assert OneLine(text);
    forall i | 0 <= i < n ensures text[..n][i] != '\n' && text[..n][i] != '\r' { assert text[..n][i] == text[i]; }
    OneLineAlone(text[..n]);
  }

  lemma ReopenedTip(c: Codec, task: int, file: string, sequence: nat, e: Event)
    requires Faithful(c) && Sane(c, task, Lines(file)) && file != "" && Closed(file)
    requires var es := Records(c, task, Lines(file)); |es| == sequence > 0 && es[|es| - 1] == e && e.stored.Some?
    ensures Open(c, task, file) == Writer(sequence, e.stored.value, false)
  {
    ResumeFindsTheTip(c, task, Lines(file));
  }

  /** What one step keeps, and how it may change the chain. */
  ghost predicate StepKept(c: Codec, task: int, s: Log, op: Op, s': Log) {
    var es, es' := Records(c, task, Lines(s.file)), Records(c, task, Lines(s'.file));
    && Consistent(c, task, s')
    && s.file <= s'.file
    && (NothingTorn(c, Lines(s'.file)) ==> NothingTorn(c, Lines(s.file)))
    && match op {
         case Reopen => s' == s
         case Emit(payload) =>
           && es <= es' && Payloads(es') == Payloads(es) + [payload]
           && (NothingTorn(c, Lines(s.file)) ==> NothingTorn(c, Lines(s'.file)))
         case TornEmit(payload, _) =>
           if OnlyLineEndLost(c, task, s, payload, s'.file)
           then es <= es' && Payloads(es') == Payloads(es) + [payload]
           else es' == es
       }
  }

  function Payloads(es: seq<Event>): seq<string> { seq(|es|, i requires 0 <= i < |es| => es[i].core.payload) }

  /** The file lacks just the last line end of what the whole emit would have written. */
  ghost predicate OnlyLineEndLost(c: Codec, task: int, s: Log, payload: string, file: string) {
    file + "\n" == Step(c, task, s, Emit(payload)).file
  }

  lemma PayloadsSnoc(es: seq<Event>, e: Event)
    ensures Payloads(es + [e]) == Payloads(es) + [e.core.payload]
  {
  }

  lemma EmitKeepsConsistent(c: Codec, task: int, s: Log, payload: string)
    requires Faithful(c) && Consistent(c, task, s)
    ensures StepKept(c, task, s, Emit(payload), Step(c, task, s, Emit(payload)))
  {
    hide Sane, NothingTorn, Records, Lines, Open, Highest, Faithful, Consistent, Separator, EmitText, StepKept;
    SeparatedFile(c, task, s);
    var f, e := s.file + Separator(s.w), NewEvent(c, task, s.w, payload);
    var line := c.encode(e) + "\n";
    EmittedText(c, task, s, payload);
    AppendEvent(c, task, f, s.w, payload, line);
    ReopenedTip(c, task, f + line, s.w.sequence + 1, e);
    EmittedFileKept(c, task, s, payload, e, Log(f + line, Writer(s.w.sequence + 1, e.stored.value, false)));
  }

  lemma EmittedText(c: Codec, task: int, s: Log, payload: string)
    ensures var file := (s.file + Separator(s.w)) + (c.encode(NewEvent(c, task, s.w, payload)) + "\n");
            && s.file + EmitText(c, task, s.w, payload) == file
            && s.file <= file && file != "" && file[|file| - 1] == '\n'
  {
    hide NewEvent;
  }

  lemma EmittedFileKept(c: Codec, task: int, s: Log, payload: string, e: Event, s': Log)
    requires s.file <= s'.file && s'.file != "" && s'.file[|s'.file| - 1] == '\n'
    requires Sane(c, task, Lines(s'.file)) && s'.w == Open(c, task, s'.file) && e.core.payload == payload
    requires NothingTorn(c, Lines(s'.file)) <==> NothingTorn(c, Lines(s.file))
    requires Records(c, task, Lines(s'.file)) == Records(c, task, Lines(s.file)) + [e]
    ensures StepKept(c, task, s, Emit(payload), s')
  {
    hide Sane, NothingTorn, Records, Lines, Open;
    PayloadsSnoc(Records(c, task, Lines(s.file)), e);
  }

  lemma SequenceOfOpen(c: Codec, task: int, s: Log)
    requires Faithful(c) && Consistent(c, task, s)
    ensures s.w.sequence == |Records(c, task, Lines(s.file))|
  {
    if s.file == "" { assert Lines(s.file) == []; }
    ResumeFindsTheTip(c, task, Lines(s.file));
  }

  /** A file cut inside the event, or at its last character. */
  lemma TornEventKept(c: Codec, task: int, s: Log, f: string, payload: string, n: nat)
    requires Faithful(c) && Separated(c, task, s, f)
    requires 0 < n <= |c.encode(NewEvent(c, task, s.w, payload))|
    ensures var file := f + c.encode(NewEvent(c, task, s.w, payload))[..n];
            && Sane(c, task, Lines(file)) && file[|file| - 1] != '\r'
            && (NothingTorn(c, Lines(file)) ==> NothingTorn(c, Lines(f)))
            && Records(c, task, Lines(file)) ==
               Records(c, task, Lines(f))
               + if n == |c.encode(NewEvent(c, task, s.w, payload))| then [NewEvent(c, task, s.w, payload)] else []
  {
    var e := NewEvent(c, task, s.w, payload);
    var text := c.encode(e);
    if n == |text| {
      assert text[..n] == text;
      EncodedLine(c, e, text);
      AppendEvent(c, task, f, s.w, payload, text);
    } else {
      FragmentLine(c, e, n);
      LinesAppend(f, text[..n]);
      FragmentKeepsSane(c, task, Lines(f), text[..n]);
    }
  }

  /** The text of an emit, taken apart. */
  lemma EmitTextParts(c: Codec, task: int, s: Log, payload: string, kept: nat)
    requires Faithful(c)
    ensures var f, text := s.file + Separator(s.w), c.encode(NewEvent(c, task, s.w, payload));
            var torn := TornText(c, task, s.w, payload, kept);
            && text != "" && Step(c, task, s, Emit(payload)).file == f + text + "\n"
            && if |torn| <= |Separator(s.w)| then s.file + torn == s.file || s.file + torn == f
               else var n := |torn| - |Separator(s.w)|; 0 < n <= |text| && s.file + torn == f + text[..n]
  {
    var separator, torn := Separator(s.w), TornText(c, task, s.w, payload, kept);
    var text := c.encode(NewEvent(c, task, s.w, payload));
    assert OneLine(text);
    assert EmitText(c, task, s.w, payload) == separator + text + "\n";
    if |torn| <= |separator| {
      assert torn == "" || torn == separator;
    } else {
      assert torn == separator + text[..|torn| - |separator|];
    }
  }

  /** A cut before the event, or inside it: what is known of the file says what the step kept. */
  lemma TornFileKept(c: Codec, task: int, s: Log, payload: string, s': Log, e: Event, whole: bool)
    requires Consistent(c, task, s) && s' == Log(s'.file, Open(c, task, s'.file)) && s.file <= s'.file
    requires Sane(c, task, Lines(s'.file)) && (s'.file != "" ==> s'.file[|s'.file| - 1] != '\r')
    requires NothingTorn(c, Lines(s'.file)) ==> NothingTorn(c, Lines(s.file))
    requires e.core.payload == payload && (OnlyLineEndLost(c, task, s, payload, s'.file) <==> whole)
    requires Records(c, task, Lines(s'.file)) == Records(c, task, Lines(s.file)) + if whole then [e] else []
    ensures forall kept :: StepKept(c, task, s, TornEmit(payload, kept), s')
  {
    hide Sane, NothingTorn, Records, Lines, OnlyLineEndLost, Open;
    PayloadsSnoc(Records(c, task, Lines(s.file)), e);
  }

  lemma TornBeforeEvent(c: Codec, task: int, s: Log, f: string, e: Event, text: string, s': Log)
    requires Consistent(c, task, s) && Separated(c, task, s, f) && text != ""
    requires Step(c, task, s, Emit(e.core.payload)).file == f + text + "\n"
    requires s' == Log(s'.file, Open(c, task, s'.file)) && (s'.file == s.file || s'.file == f)
    ensures forall kept :: StepKept(c, task, s, TornEmit(e.core.payload, kept), s')
  {
    assert |s'.file + "\n"| < |f + text + "\n"|;
    hide Sane, NothingTorn, Records, Lines, StepKept, Step, Open, Highest;
    TornFileKept(c, task, s, e.core.payload, s', e, false);
  }

  lemma TornInEvent(c: Codec, task: int, s: Log, f: string, payload: string, n: nat, s': Log)
    requires Faithful(c) && Consistent(c, task, s) && Separated(c, task, s, f)
    requires 0 < n <= |c.encode(NewEvent(c, task, s.w, payload))|
    requires var text := c.encode(NewEvent(c, task, s.w, payload));
             Step(c, task, s, Emit(payload)).file == f + text + "\n" && s'.file == f + text[..n]
    requires s' == Log(s'.file, Open(c, task, s'.file))
    ensures forall kept :: StepKept(c, task, s, TornEmit(payload, kept), s')
  {
    var e := NewEvent(c, task, s.w, payload);
    var text := c.encode(e);
    TornEventKept(c, task, s, f, payload, n);
    WholeText(f, text, n);
    assert e.core.payload == payload && s.file <= f;
    hide NewEvent, Sane, NothingTorn, Records, Faithful, Lines, StepKept, Step, Open, Highest;
    TornFileKept(c, task, s, payload, s', e, n == |text|);
  }

  lemma TornKeepsConsistent(c: Codec, task: int, s: Log, payload: string, kept: nat)
    requires Faithful(c) && Consistent(c, task, s)
    ensures StepKept(c, task, s, TornEmit(payload, kept), Step(c, task, s, TornEmit(payload, kept)))
  {
    SeparatedFile(c, task, s);
    EmitTextParts(c, task, s, payload, kept);
    var f, e := s.file + Separator(s.w), NewEvent(c, task, s.w, payload);
    var text, torn := c.encode(e), TornText(c, task, s.w, payload, kept);
    var s' := Step(c, task, s, TornEmit(payload, kept));
    assert s'.file == s.file + torn && e.core.payload == payload;
    hide TornText, EmitText, Separated, Consistent, Faithful, StepKept, Highest;
    if |torn| <= |Separator(s.w)| {
      TornBeforeEvent(c, task, s, f, e, text, s');
    } else {
      TornInEvent(c, task, s, f, payload, |torn| - |Separator(s.w)|, s');
    }
  }

  lemma WholeText(f: string, text: string, n: nat)
    requires 0 < n <= |text|
    ensures f + text[..n] + "\n" == f + text + "\n" <==> n == |text|
  {
    assert n == |text| ==> text[..n] == text;
  }

  lemma StepKeepsConsistent(c: Codec, task: int, s: Log, op: Op)
    requires Faithful(c) && Consistent(c, task, s)
    ensures StepKept(c, task, s, op, Step(c, task, s, op))
  {
    match op
    case Reopen =>
    case Emit(payload) => EmitKeepsConsistent(c, task, s, payload);
    case TornEmit(payload, kept) => TornKeepsConsistent(c, task, s, payload, kept);
  }

  ghost predicate NoTears(ops: seq<Op>) { forall op | op in ops :: !op.TornEmit? }

  lemma {:induction false} RunIsConsistent(c: Codec, task: int, ops: seq<Op>)
    requires Faithful(c)
    ensures Consistent(c, task, Run(c, task, ops))
    ensures NoTears(ops) ==> NothingTorn(c, Lines(Run(c, task, ops).file))
  {
    if ops == [] {
      assert Lines("") == [];
    } else {
      var front, op := ops[..|ops| - 1], ops[|ops| - 1];
      RunIsConsistent(c, task, front);
      StepKeepsConsistent(c, task, Run(c, task, front), op);
      if NoTears(ops) {
        assert op in ops;
        assert forall o | o in front :: o in ops;
      }
    }
  }

  /** Restart refinement: from an empty file, any mix of emits, reopens and torn emits leaves
      a gap-free chain of well-formed events, the writer in memory equals a reopened one, and
      the verifier accepts the file exactly when no fragment was left, as without tears. */
  lemma RestartRefinement(c: Codec, task: int, ops: seq<Op>)
    requires Faithful(c)
    ensures var s := Run(c, task, ops);
            && s.w == Open(c, task, s.file)
            && GapFree(c, task, Records(c, task, Lines(s.file)))
            && s.w.sequence == |Records(c, task, Lines(s.file))|
            && (Scan(c, Lines(s.file)).Accepted? <==> NothingTorn(c, Lines(s.file)))
            && (NoTears(ops) ==> Scan(c, Lines(s.file)) == Accepted(None, Records(c, task, Lines(s.file))))
  {
    RunIsConsistent(c, task, ops);
    var s := Run(c, task, ops);
    VerifiedIffNothingTorn(c, task, Lines(s.file));
    SequenceOfOpen(c, task, s);
  }

  /** What was emitted, in order; of the emits that were torn, those that lost only their line end. */
  ghost function Emitted(c: Codec, task: int, ops: seq<Op>): seq<string> {
    if ops == [] then []
    else
      var front, op := ops[..|ops| - 1], ops[|ops| - 1];
      Emitted(c, task, front)
      + match op
        case Reopen => []
        case Emit(payload) => [payload]
        case TornEmit(payload, _) =>
          if OnlyLineEndLost(c, task, Run(c, task, front), payload, Run(c, task, ops).file) then [payload] else []
  }

  /** The log says what was emitted: the payloads of its events are those of the emits, in order,
      and of the torn emits exactly those whose record is whole. */
  lemma {:induction false} LogIsWhatWasEmitted(c: Codec, task: int, ops: seq<Op>)
    requires Faithful(c)
    ensures Payloads(Records(c, task, Lines(Run(c, task, ops).file))) == Emitted(c, task, ops)
  {
    if ops == [] {
      assert Lines("") == [];
    } else {
      var front := ops[..|ops| - 1];
      LogIsWhatWasEmitted(c, task, front);
      RunIsConsistent(c, task, front);
      StepKeepsConsistent(c, task, Run(c, task, front), ops[|ops| - 1]);
      hide Records, Consistent, NothingTorn, Payloads, OnlyLineEndLost;
    }
  }

  /** No later operation rewrites bytes, and every event once in the file stays in the chain. */
  lemma {:induction false} BytesAndEventsStay(c: Codec, task: int, ops: seq<Op>, more: seq<Op>)
    requires Faithful(c)
    ensures Run(c, task, ops).file <= Run(c, task, ops + more).file
    ensures Records(c, task, Lines(Run(c, task, ops).file)) <= Records(c, task, Lines(Run(c, task, ops + more).file))
    decreases |more|
  {
    if more == [] {
      assert ops + more == ops;
    } else {
      var front, op := more[..|more| - 1], more[|more| - 1];
      assert (ops + more)[..|ops + more| - 1] == ops + front;
      BytesAndEventsStay(c, task, ops, front);
      RunIsConsistent(c, task, ops + front);
      StepKeepsConsistent(c, task, Run(c, task, ops + front), op);
    }
  }
}
