/** The byte relay of a CONNECT tunnel in orchestrator/egress_broker.py: one select loop, two
    directions, partial sends, a byte cap, and half-close. */
module Relay {
  import opened Wrappers

  type Bytes = seq<bv8>

  /** One round of `_forward_chunk`: select, then send. */
  datatype Send = NotWritable | WouldBlock | SendError | Sent(n: int)

  datatype Progress = Progress(sent: nat, done: bool)

  /** How many bytes of a chunk of `len` go out against a script of send results, and whether all
      do.  A script that ends early is a target that never becomes writable again. */
  function SentOf(len: nat, script: seq<Send>): (r: Progress)
    ensures r.sent <= len && (r.done <==> r.sent == len)
    decreases |script|
  {
    if len == 0 then Progress(0, true)
    else if script == [] then Progress(0, false)
    else match script[0]
         case WouldBlock => SentOf(len, script[1..])
         case Sent(n) =>
           if n <= 0 then Progress(0, false)
           else if n >= len then Progress(len, true)      // `send` reports no more than it was given
           else var rest := SentOf(len - n, script[1..]); Progress(n + rest.sent, rest.done)
         case _ => Progress(0, false)
  }

  /** What a target takes over a script, up to its first failure, before any limit on the chunk. */
  function Capacity(script: seq<Send>): nat {
    if script == [] then 0
    else match script[0]
         case WouldBlock => Capacity(script[1..])
         case Sent(n) => if n <= 0 then 0 else n + Capacity(script[1..])
         case _ => 0
  }

  /** Partial sends lose nothing: as much of the chunk goes out as the target takes. */
  lemma {:induction false} SentExactly(len: nat, script: seq<Send>)
    ensures SentOf(len, script).sent == if len <= Capacity(script) then len else Capacity(script)
    decreases |script|
  {
    if len > 0 && script != [] {
      SentExactly(len, script[1..]);
      if script[0].Sent? && 0 < script[0].n < len { SentExactly(len - script[0].n, script[1..]); }
    }
  }

  function Min(a: nat, b: nat): nat { if a < b then a else b }

  datatype Side = Client | Upstream

  /** One direction: what its source has sent us, what its target has been given, whether the
      source has ended, and whether that end was passed on. */
  datatype Flow = Flow(received: Bytes, delivered: Bytes, ended: bool, passed: bool)

  datatype State = State(
    fromClient: Flow,
    fromUpstream: Flow,
    readers: set<Side>,
    forwarded: nat,
    aborted: bool)          // left the loop for another reason than both ends closing

  const START := State(Flow([], [], false, false), Flow([], [], false, false), {Client, Upstream}, 0, false)

  /** One readable source: what `recv` yields (None is an error, no bytes are the end of the
      stream), what sending it meets, and whether a shutdown of the target succeeds. */
  datatype Turn = Turn(source: Side, recv: Option<Bytes>, sends: seq<Send>, shutdownWorks: bool)

  /** One select: a failure or timeout, or one or two readable sources. */
  datatype Round = Quiet | Ready(first: Turn) | ReadyBoth(first: Turn, second: Turn)

  function FlowOf(s: State, side: Side): Flow { if side.Client? then s.fromClient else s.fromUpstream }

  function WithFlow(s: State, side: Side, f: Flow): State {
    if side.Client? then s.(fromClient := f) else s.(fromUpstream := f)
  }

  function Abort(s: State): State { s.(readers := {}, aborted := true) }

  function TurnStep(max: nat, s: State, t: Turn): State {
    if t.source !in s.readers then s
    else if t.recv.None? then Abort(s)
    else
      var data, f := t.recv.value, FlowOf(s, t.source);
      if data == [] then WithFlow(s, t.source, f.(ended := true, passed := t.shutdownWorks)).(readers :=
          s.readers - {t.source})
      else if s.forwarded + |data| > max then
        Abort(WithFlow(s, t.source, f.(received := f.received + data)).(forwarded := s.forwarded + |data|))
      else
        var out := SentOf(|data|, t.sends);
        var s1 := WithFlow(s, t.source, f.(received := f.received + data, delivered := f.delivered + data[..out.sent]))
                  .(forwarded := s.forwarded + |data|);
        if out.done then s1 else Abort(s1)
  }

  function RoundStep(max: nat, s: State, r: Round): State {
    match r
    case Quiet => Abort(s)
    case Ready(a) => TurnStep(max, s, a)
    case ReadyBoth(a, b) => TurnStep(max, TurnStep(max, s, a), b)
  }

  /** The state after a schedule; the loop leaves when no reader is left. */
  function Run(max: nat, s: State, rounds: seq<Round>): State
    decreases |rounds|
  {
    if s.readers == {} || rounds == [] then s else Run(max, RoundStep(max, s, rounds[0]), rounds[1..])
  }

  // ---------------------------------------------------------------- what every schedule keeps

  ghost predicate FlowOk(s: State, side: Side) {
    var f := FlowOf(s, side);
    && f.delivered <= f.received
    && (!s.aborted ==> f.delivered == f.received && (side in s.readers <==> !f.ended))
    && (f.ended ==> f.delivered == f.received)
    && (f.passed ==> f.ended)
  }

  ghost predicate Inv(max: nat, s: State) {
    && FlowOk(s, Client) && FlowOk(s, Upstream)
    && (s.aborted ==> s.readers == {})
    && |s.fromClient.received| + |s.fromUpstream.received| == s.forwarded
    && |s.fromClient.delivered| + |s.fromUpstream.delivered| <= max
    && (!s.aborted ==> s.forwarded <= max)
  }

  /** A flow whose end was seen does not change any more. */
  ghost predicate Grows(a: State, b: State) {
    forall side: Side ::
      && FlowOf(a, side).received <= FlowOf(b, side).received
      && FlowOf(a, side).delivered <= FlowOf(b, side).delivered
      && (FlowOf(a, side).ended ==> FlowOf(b, side) == FlowOf(a, side))
  }

  lemma TurnKeepsInv(max: nat, s: State, t: Turn)
    requires Inv(max, s)
    ensures Inv(max, TurnStep(max, s, t)) && Grows(s, TurnStep(max, s, t))
  {
    hide SentOf;
    if t.source in s.readers && t.recv.Some? && t.recv.value != [] {
      var data, f := t.recv.value, FlowOf(s, t.source);
      assert f.delivered == f.received && !f.ended;
      var sent := SentOf(|data|, t.sends).sent;
      assert data[..sent] <= data && (sent == |data| ==> data[..sent] == data);
      assert f.received + data[..sent] <= f.received + data;
    }
  }

  /** The turn cannot be served: `recv` fails, the cap would be passed, or the target does not
      take the whole chunk. */
  ghost predicate Trouble(max: nat, s: State, t: Turn) {
    t.recv.None?
    || (t.recv.value != [] && (s.forwarded + |t.recv.value| > max || Capacity(t.sends) < |t.recv.value|))
  }

  /** One turn of an open source, exactly.  The relay gives up if and only if the turn is in
      trouble, and then the target has what it took of the chunk, nothing at all if the cap is
      passed.  Otherwise the target has the whole chunk, or is told of the end, and the source is
      read on until its end.  The other direction is not touched. */
  lemma TurnExactly(max: nat, s: State, t: Turn)
    requires Inv(max, s) && t.source in s.readers
    ensures var s', f, f' := TurnStep(max, s, t), FlowOf(s, t.source), FlowOf(TurnStep(max, s, t), t.source);
            var data := if t.recv.Some? then t.recv.value else [];
            var took := if s.forwarded + |data| > max then 0 else Min(|data|, Capacity(t.sends));
            && (s'.aborted <==> Trouble(max, s, t)) && s'.forwarded == s.forwarded + |data|
            && (forall side | side != t.source :: FlowOf(s', side) == FlowOf(s, side))
            && f'.received == f.received + data
            && (f'.ended <==> t.recv == Some([])) && (f'.passed <==> t.recv == Some([]) && t.shutdownWorks)
            && f'.delivered == f.delivered + data[..took] && (!s'.aborted ==> took == |data|)
            && s'.readers == if s'.aborted then {} else if data == [] then s.readers - {t.source} else s.readers
  {
    if t.recv.Some? { SentExactly(|t.recv.value|, t.sends); }
    hide SentOf, Capacity;
    assert FlowOf(s, t.source).received + [] == FlowOf(s, t.source).received;
  }

  lemma {:induction false} RunKeepsInv(max: nat, s: State, rounds: seq<Round>)
    requires Inv(max, s)
    ensures Inv(max, Run(max, s, rounds)) && Grows(s, Run(max, s, rounds))
    decreases |rounds|
  {
    if s.readers != {} && rounds != [] {
      RoundKeepsInv(max, s, rounds[0]);
      RunKeepsInv(max, RoundStep(max, s, rounds[0]), rounds[1..]);
    }
  }

  lemma RoundKeepsInv(max: nat, s: State, r: Round)
    requires Inv(max, s)
    ensures Inv(max, RoundStep(max, s, r)) && Grows(s, RoundStep(max, s, r))
  {
    match r
    case Quiet =>
    case Ready(a) => TurnKeepsInv(max, s, a);
    case ReadyBoth(a, b) =>
      TurnKeepsInv(max, s, a);
      TurnKeepsInv(max, TurnStep(max, s, a), b);
  }

  /** The source has ended, and its target holds everything it sent. */
  ghost predicate Complete(f: Flow) { f.ended && f.delivered == f.received }

  /** Relay fidelity, for every schedule of readable sides and every pattern of partial sends:
      each target holds a prefix of what its source sent, never more than the cap in all; the
      end of a stream is passed on only when all its bytes are delivered; nothing is held back while the
      loop runs; and a run that ends
      by both sides closing has delivered everything. */
  lemma RelayFidelity(max: nat, rounds: seq<Round>)
    ensures var s := Run(max, START, rounds);
            && s.fromClient.delivered <= s.fromClient.received && s.fromUpstream.delivered <= s.fromUpstream.received
            && |s.fromClient.delivered| + |s.fromUpstream.delivered| <= max
            && (s.fromClient.passed ==> Complete(s.fromClient)) && (s.fromUpstream.passed ==> Complete(s.fromUpstream))
            && (!s.aborted ==> s.fromClient.delivered == s.fromClient.received)
            && (!s.aborted ==> s.fromUpstream.delivered == s.fromUpstream.received)
            && (s.readers == {} && !s.aborted ==> Complete(s.fromClient) && Complete(s.fromUpstream))
  {
    RunKeepsInv(max, START, rounds);
  }

  // ---------------------------------------------------------------- when the relay gives up

  function TurnsOf(r: Round): seq<Option<Turn>> {
    match r case Quiet => [None] case Ready(a) => [Some(a)] case ReadyBoth(a, b) => [Some(a), Some(b)]
  }

  /** A schedule turn by turn; None is a select that fails or times out. */
  function Turns(rounds: seq<Round>): seq<Option<Turn>> {
    if rounds == [] then [] else Turns(rounds[..|rounds| - 1]) + TurnsOf(rounds[|rounds| - 1])
  }

  /** The source has sent its end of stream. */
  ghost predicate EndSeen(side: Side, turns: seq<Option<Turn>>) {
    exists t: Turn :: Some(t) in turns && t.source == side && t.recv == Some([])
  }

  /** What a source says before its end. */
  ghost function Heard(side: Side, turns: seq<Option<Turn>>): Bytes {
    if turns == [] then []
    else
      var front, last := turns[..|turns| - 1], turns[|turns| - 1];
      Heard(side, front) + if last.Some? && last.value.source == side && last.value.recv.Some? && !EndSeen(side, front)
        then last.value.recv.value else []
  }

  /** The turn cannot be served, given what came before: nobody is ready in time while a source is
      still open, or an open source fails, or passes the cap, or meets a target that does not take
      its whole chunk. */
  ghost predicate Fatal(max: nat, before: seq<Option<Turn>>, turn: Option<Turn>) {
    if turn.None? then !EndSeen(Client, before) || !EndSeen(Upstream, before)
    else
      var t := turn.value;
      && !EndSeen(t.source, before)
      && (t.recv.None?
          || |Heard(Client, before)| + |Heard(Upstream, before)| + |t.recv.value| > max
          || Capacity(t.sends) < |t.recv.value|)
  }

  ghost predicate GivenUp(max: nat, turns: seq<Option<Turn>>) {
    exists k | 0 <= k < |turns| :: Fatal(max, turns[..k], turns[k])
  }

  /** The relay has served every turn: all was delivered, and exactly the ended sources are closed. */
  ghost predicate Served(s: State, turns: seq<Option<Turn>>) {
    && !s.aborted
    && forall side ::
         && FlowOf(s, side).received == FlowOf(s, side).delivered == Heard(side, turns)
         && (side !in s.readers <==> EndSeen(side, turns)) && (FlowOf(s, side).ended <==> EndSeen(side, turns))
  }

  ghost predicate Stands(max: nat, s: State, turns: seq<Option<Turn>>) {
    Inv(max, s) && (s.aborted <==> GivenUp(max, turns)) && (!s.aborted ==> Served(s, turns))
  }

  lemma HeardNext(side: Side, turns: seq<Option<Turn>>, turn: Option<Turn>)
    ensures EndSeen(side, turns + [turn]) <==>
            EndSeen(side, turns) || (turn.Some? && turn.value.source == side && turn.value.recv == Some([]))
    ensures Heard(side, turns + [turn]) == Heard(side, turns)
      + if turn.Some? && turn.value.source == side && turn.value.recv.Some? && !EndSeen(side, turns)
        then turn.value.recv.value else []
  {
    assert (turns + [turn])[..|turns|] == turns;
    assert turn in turns + [turn];
    assert forall t :: Some(t) in turns ==> Some(t) in turns + [turn];
  }

  lemma GivenUpNext(max: nat, turns: seq<Option<Turn>>, turn: Option<Turn>)
    ensures GivenUp(max, turns + [turn]) <==> GivenUp(max, turns) || Fatal(max, turns, turn)
  {
    hide Fatal;
    var all := turns + [turn];
    assert forall k | 0 <= k <= |turns| :: all[..k] == turns[..k];
    assert turns[..|turns|] == turns;
    if GivenUp(max, turns) {
      var k :| 0 <= k < |turns| && Fatal(max, turns[..k], turns[k]);
      assert Fatal(max, all[..k], all[k]);
    }
    if Fatal(max, turns, turn) { assert Fatal(max, all[..|turns|], all[|turns|]); }
  }

  lemma ServedNext(max: nat, s: State, turns: seq<Option<Turn>>, t: Turn)
    requires Inv(max, s) && Served(s, turns) && t.source in s.readers
    ensures TurnStep(max, s, t).aborted <==> Fatal(max, turns, Some(t))
    ensures !TurnStep(max, s, t).aborted ==> Served(TurnStep(max, s, t), turns + [Some(t)])
  {
    TurnExactly(max, s, t);
    HeardNext(Client, turns, Some(t));
    HeardNext(Upstream, turns, Some(t));
    hide TurnStep, Capacity, EndSeen, Heard, Grows;
  }

  /** A turn of a closed source, or a quiet select when both are closed. */
  lemma IdleNext(max: nat, s: State, turns: seq<Option<Turn>>, turn: Option<Turn>)
    requires Served(s, turns) && if turn.None? then s.readers == {} else turn.value.source !in s.readers
    ensures !Fatal(max, turns, turn) && Served(s, turns + [turn])
  {
    HeardNext(Client, turns, turn);
    HeardNext(Upstream, turns, turn);
    hide EndSeen, Heard;
  }

  lemma QuietNext(max: nat, s: State, turns: seq<Option<Turn>>)
    requires Inv(max, s) && Served(s, turns) && s.readers != {}
    ensures Fatal(max, turns, None) && Inv(max, Abort(s))
  {
    var side :| side in s.readers;
    assert EndSeen(side, turns) <==> side !in s.readers;
    hide EndSeen, Heard;
  }

  lemma StandsNext(max: nat, s: State, turns: seq<Option<Turn>>, turn: Option<Turn>, s': State)
    requires Stands(max, s, turns)
    requires s' == if s.readers == {} then s else if turn.None? then Abort(s) else TurnStep(max, s, turn.value)
    ensures Stands(max, s', turns + [turn])
  {
    GivenUpNext(max, turns, turn);
    if !s.aborted {
      if if turn.None? then s.readers == {} else turn.value.source !in s.readers {
        IdleNext(max, s, turns, turn);
      } else if turn.None? {
        QuietNext(max, s, turns);
      } else {
        TurnKeepsInv(max, s, turn.value);
        ServedNext(max, s, turns, turn.value);
      }
    } else {
      assert s.readers == {};
    }
    hide GivenUp, Served, Inv, Fatal, Grows;
  }

  lemma StandsNextRound(max: nat, s: State, turns: seq<Option<Turn>>, r: Round)
    requires Stands(max, s, turns)
    ensures Stands(max, if s.readers == {} then s else RoundStep(max, s, r), turns + TurnsOf(r))
  {
    hide Stands, TurnStep;
    var s' := if s.readers == {} then s else RoundStep(max, s, r);
    match r
    case Quiet => StandsNext(max, s, turns, None, s');
    case Ready(a) => StandsNext(max, s, turns, Some(a), s');
    case ReadyBoth(a, b) =>
      var mid := if s.readers == {} then s else TurnStep(max, s, a);
      StandsNext(max, s, turns, Some(a), mid);
      ClosedStep(max, mid, b);
      StandsNext(max, mid, turns + [Some(a)], Some(b), s');
      assert turns + [Some(a)] + [Some(b)] == turns + TurnsOf(r);
  }

  lemma ClosedStep(max: nat, s: State, t: Turn)
    ensures s.readers == {} ==> TurnStep(max, s, t) == s
  {
  }

  lemma RunOne(max: nat, s: State, r: Round)
    ensures Run(max, s, [r]) == if s.readers == {} then s else RoundStep(max, s, r)
  {
    assert [r][1..] == [];
  }

  lemma StandsAtStart(max: nat)
    ensures Stands(max, START, [])
  {
  }

  /** Exactly when the relay gives up, over every schedule: at a turn of an open source that cannot
      be served, or a quiet select before both ends, and at no other.  Without one, each target has
      exactly what its source said up to its end, and the ended sources are exactly those closed. */
  lemma {:induction false} RelayGivesUpExactly(max: nat, rounds: seq<Round>)
    ensures Stands(max, Run(max, START, rounds), Turns(rounds))
  {
    hide Stands, RoundStep;
    if rounds == [] {
      StandsAtStart(max);
    } else {
      var front, last := rounds[..|rounds| - 1], rounds[|rounds| - 1];
      RelayGivesUpExactly(max, front);
      assert front + [last] == rounds;
      RunSplits(max, START, front, [last]);
      RunOne(max, Run(max, START, front), last);
      StandsNextRound(max, Run(max, START, front), Turns(front), last);
    }
  }

  lemma {:induction false} RunSplits(max: nat, s: State, before: seq<Round>, after: seq<Round>)
    ensures Run(max, s, before + after) == Run(max, Run(max, s, before), after)
    decreases |before|
  {
    if before == [] || s.readers == {} {
      assert before == [] ==> before + after == after;
    } else {
      assert (before + after)[1..] == before[1..] + after;
      RunSplits(max, RoundStep(max, s, before[0]), before[1..], after);
    }
  }

  /** Nothing follows an end of stream: once it was passed on, that direction is final. */
  lemma NothingAfterTheEnd(max: nat, before: seq<Round>, after: seq<Round>, side: Side)
    requires FlowOf(Run(max, START, before), side).ended
    ensures FlowOf(Run(max, START, before + after), side) == FlowOf(Run(max, START, before), side)
  {
    RunSplits(max, START, before, after);
    RunKeepsInv(max, START, before);
    RunKeepsInv(max, Run(max, START, before), after);
  }

  // ---------------------------------------------------------------- the loops

  class Socket {
    var sent: Bytes

    constructor ()
      ensures sent == []
    {
      sent := [];
    }

    /** `_forward_chunk` towards this socket. */
    method ForwardChunk(data: Bytes, script: seq<Send>) returns (ok: bool)
      modifies this
      ensures ok == SentOf(|data|, script).done
      ensures sent == old(sent) + data[..SentOf(|data|, script).sent]
    {
      var total: nat, i: nat := 0, 0;
      while total < |data|
        invariant total <= |data| && i <= |script| && sent == old(sent) + data[..total]
        invariant SentOf(|data|, script).sent == total + SentOf(|data| - total, script[i..]).sent
        invariant SentOf(|data|, script).done == SentOf(|data| - total, script[i..]).done
        decreases |script| - i
      {
        if i == |script| { return false; }
        var result := script[i];
        assert script[i..][1..] == script[i + 1..];
        i := i + 1;
        match result
        case NotWritable => return false;
        case SendError => return false;
        case WouldBlock => continue;
        case Sent(n) =>
          if n <= 0 { return false; }
          var count := if n > |data| - total then |data| - total else n;
          assert data[..total] + data[total..total + count] == data[..total + count];
          sent := sent + data[total..total + count];
          total := total + count;
      }
      assert data[..total] == data;
      return true;
    }
  }

  /** The tunnel of one CONNECT request: what each side has received from the other. */
  class Tunnel {
    const max: nat
    const client: Socket
    const upstream: Socket
    var readers: set<Side>
    var forwarded: nat
    ghost var model: State

    ghost predicate Valid()
      reads this, client, upstream
    {
      && client != upstream
      && readers == model.readers && forwarded == model.forwarded && Inv(max, model)
      && client.sent == model.fromUpstream.delivered && upstream.sent == model.fromClient.delivered
    }

    constructor (max: nat)
      ensures Valid() && fresh(client) && fresh(upstream) && this.max == max && model == START
    {
      this.max := max;
      client := new Socket();
      upstream := new Socket();
      readers, forwarded, model := {Client, Upstream}, 0, START;
    }

    /** What one readable source causes. */
    method Serve(t: Turn)
      requires Valid() && t.source in readers
      modifies this`readers, this`forwarded, this`model, client, upstream
      ensures Valid() && model == TurnStep(max, old(model), t)
    {
      TurnKeepsInv(max, model, t);
      model := TurnStep(max, model, t);
      if t.recv.None? {
        readers := {};
        return;
      }
      var data := t.recv.value;
      if data == [] {
        readers := readers - {t.source};
        return;
      }
      forwarded := forwarded + |data|;
      if forwarded > max {
        readers := {};
        return;
      }
      var target := if t.source.Client? then upstream else client;
      var ok := target.ForwardChunk(data, t.sends);
      if !ok { readers := {}; }
    }

    /** The select loop, against a schedule of rounds. */
    method Relay(rounds: seq<Round>)
      requires Valid() && model == START
      modifies this`readers, this`forwarded, this`model, client, upstream
      ensures Valid() && model == Run(max, START, rounds)
    {
      var i := 0;
      while readers != {} && i < |rounds|
        invariant Valid() && i <= |rounds| && Run(max, START, rounds) == Run(max, model, rounds[i..])
        decreases |rounds| - i
      {
        assert rounds[i..][1..] == rounds[i + 1..];
        match rounds[i] {
          case Quiet =>
            model := Abort(model);
            readers := {};
          case Ready(a) =>
            if a.source in readers { Serve(a); }
          case ReadyBoth(a, b) =>
            if a.source in readers { Serve(a); }
            if b.source in readers { Serve(b); }
        }
        i := i + 1;
      }
    }
  }
}
