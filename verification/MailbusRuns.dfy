/** No message is lost unnoticed: runs of the mailbox router with sends it polls half-way, reads
    and moves that fail, and crashes. */
module MailbusRuns {
  import opened Mailbus

  /** What an observer records of a message when its sender is done. */
  datatype Record = Record(box: string, addressee: string, command: bool, msg: Message)

  /** `used` holds every id so far and `writing` the sends in progress.  Histories of undelivered
      messages: `torn` by a crash while their only copy was rewritten, and set `aside` complete. */
  datatype World = World(
    s: State,
    sent: map<string, Record>,
    used: set<string>,
    writing: map<string, Message>,
    torn: set<string>,
    aside: set<string>)

  const EMPTY := World(State(map[], map[], map[], map[]), map[], {}, map[], {}, {})

  /** A send opens its file and ends later, complete or not; `Put` is a file that appears at once. */
  datatype Event =
    | SendBegin(m: Message)
    | SendEnd(id: string, written: bool)
    | Put(box: string, m: Message)
    | Route(file: Slot, fault: Fault)
    | Archive(file: Slot, moved: bool)

  /** Message ids are never reused. */
  ghost predicate Enabled(w: World, e: Event) {
    match e
    case SendBegin(m) => m.id !in w.used
    case SendEnd(id, _) => id in w.writing
    case Put(_, m) => m.id !in w.used && Valid(m)
    case _ => true
  }

  predicate Delivered(s: State, id: string, agent: string) {
    Slot(agent, id) in s.inbox || Slot(agent, id) in s.archive
  }

  function RecordFor(c: IsCommand, box: string, m: Message): Record {
    Record(box, Addressee(c, m), c(m.body), m)
  }

  function EndSend(c: IsCommand, w: World, id: string): World
    requires id in w.writing
  {
    var m := w.writing[id];
    var file := SendSlot(c, m);
    World(CloseStep(c, w.s, m), w.sent[id := RecordFor(c, file.agent, m)], w.used, w.writing - {id}, w.torn,
          if file in w.s.outbox then w.aside else w.aside + {id})
  }

  function RouteWorld(c: IsCommand, w: World, file: Slot, fault: Fault): World {
    var s := RouteStep(c, w.s, file, fault).0;
    var endangered := file in w.s.outbox && w.s.outbox[file].Whole? && file.id in w.sent
                      && !Delivered(w.s, file.id, w.sent[file.id].addressee);
    w.(s := s,
       torn := if endangered && file in s.outbox && s.outbox[file].Torn? then w.torn + {file.id} else w.torn,
       aside := if endangered && fault.ReadFails? then w.aside + {file.id} else w.aside)
  }

  function Step(c: IsCommand, w: World, e: Event): World
    requires e.SendEnd? ==> e.id in w.writing
  {
    match e
    case SendBegin(m) =>
      if Valid(m) then w.(s := OpenStep(c, w.s, m), used := w.used + {m.id}, writing := w.writing[m.id := m]) else w
    case SendEnd(id, written) => if written then EndSend(c, w, id) else w.(writing := w.writing - {id})
    case Put(box, m) =>
      w.(s := w.s.(outbox := w.s.outbox[Slot(box, m.id) := Whole(m)]), used := w.used + {m.id},
         sent := w.sent[m.id := RecordFor(c, box, m)])
    case Route(file, fault) => RouteWorld(c, w, file, fault)
    case Archive(file, moved) => w.(s := ArchiveStep(w.s, file, moved))
  }

  ghost predicate Run(c: IsCommand, w: World, es: seq<Event>, w': World)
    decreases |es|
  {
    if es == [] then w' == w
    else Enabled(w, es[0]) && Run(c, Step(c, w, es[0]), es[1..], w')
  }

  // ---------------------------------------------------------------- the invariant

  /** Waiting, intact, in the outbox it was put in, and still bound for its addressee. */
  ghost predicate Waiting(c: IsCommand, w: World, id: string)
    requires id in w.sent
  {
    var file := Slot(w.sent[id].box, id);
    file in w.s.outbox && w.s.outbox[file].Whole?
  }

  ghost predicate Safe(c: IsCommand, w: World, id: string)
    requires id in w.sent
  {
    Waiting(c, w, id) || Delivered(w.s, id, w.sent[id].addressee)
  }

  /** A file's message is the one recorded, still bound for its addressee. */
  ghost predicate Bound(c: IsCommand, r: Record, id: string, m: Message) {
    && m.id == id && Valid(m)
    && (if r.command then r.addressee == OPERATOR && (c(m.body) || m.to == OPERATOR)
        else !c(m.body) && m.to == r.addressee)
  }

  ghost predicate FileOk(c: IsCommand, w: World, f: Slot)
    requires f in w.s.outbox
  {
    && f.id in w.used
    && (f.id in w.sent ==> f.agent == w.sent[f.id].box && (w.s.outbox[f].Torn? ==> w.sent[f.id].command))
    && (f.id in w.writing ==> w.s.outbox[f].Torn? && f == SendSlot(c, w.writing[f.id]))
    && (w.s.outbox[f].Whole? ==> f.id in w.sent && Bound(c, w.sent[f.id], f.id, w.s.outbox[f].msg))
  }

  ghost predicate OutboxOk(c: IsCommand, w: World) { forall f | f in w.s.outbox :: FileOk(c, w, f) }

  /** Nothing is anywhere but with its addressee. */
  ghost predicate InboxOk(w: World) {
    && (forall f | f in w.s.inbox :: f.id in w.sent && f.agent == w.sent[f.id].addressee)
    && (forall f | f in w.s.archive :: f.id in w.sent && f.agent == w.sent[f.id].addressee)
  }

  /** The whole message is in quarantine, and gone from its outbox. */
  ghost predicate HeldAside(c: IsCommand, w: World, id: string)
    requires id in w.sent
  {
    var file := Slot(w.sent[id].box, id);
    && file !in w.s.outbox && file in w.s.quarantine
    && w.s.quarantine[file].Whole? && Bound(c, w.sent[id], id, w.s.quarantine[file].msg)
  }

  ghost predicate IdsOk(w: World) {
    && w.sent.Keys <= w.used && w.writing.Keys <= w.used && w.sent.Keys !! w.writing.Keys
    && (forall id | id in w.writing :: w.writing[id].id == id && Valid(w.writing[id]))
    && w.torn <= w.sent.Keys && w.aside <= w.sent.Keys
  }

  /** What the histories say of one message. */
  ghost predicate MessageOk(c: IsCommand, w: World, id: string)
    requires id in w.sent
  {
    && (id in w.torn ==> w.sent[id].command)
    && (id in w.aside ==> HeldAside(c, w, id))
    && (Safe(c, w, id) <==> id !in w.torn && id !in w.aside)
  }

  ghost predicate Inv(c: IsCommand, w: World) {
    IdsOk(w) && OutboxOk(c, w) && InboxOk(w) && forall id | id in w.sent :: MessageOk(c, w, id)
  }

  ghost predicate Capped(w: World) {
    forall agent | agent != "operator" :: |Pending(w.s.inbox, agent)| <= 50
  }

  lemma OperatorIsNonBlank()
    ensures NonBlank(OPERATOR)
  {
    assert OPERATOR[0] !in " \t\r\n";
  }

  function Rerouted(c: IsCommand, m: Message): Message { if c(m.body) then RouterIntercepted(m) else m }

  lemma ReroutedIsBound(c: IsCommand, r: Record, id: string, m: Message)
    requires Bound(c, r, id, m)
    ensures Bound(c, r, id, Rerouted(c, m)) && Rerouted(c, m).to == r.addressee
    ensures c(m.body) ==> r.command
  {
    OperatorIsNonBlank();
  }

  lemma OutgoingIsBound(c: IsCommand, m: Message)
    requires Valid(m)
    ensures Bound(c, RecordFor(c, SendSlot(c, m).agent, m), m.id, Outgoing(c, m))
  {
    OperatorIsNonBlank();
  }

  /** What routing one complete file can do to the directories. */
  datatype Outcome = Nothing | Quarantined | Tore | Rewritten | Copied | Moved

  ghost function OutcomeOf(c: IsCommand, s: State, file: Slot, fault: Fault): Outcome
    requires file in s.outbox && s.outbox[file].Whole?
  {
    var m := s.outbox[file].msg;
    if fault.StaysUnread? then Nothing
    else if fault.ReadFails? || !Valid(m) then Quarantined
    else if |Pending(s.inbox, m.to)| >= INBOX_CAP then Nothing
    else if c(m.body) && fault.TearRewrite? then Tore
    else match fault case DeliverFails => Rewritten case UnlinkFails => Copied case _ => Moved
  }

  ghost function Apply(s: State, file: Slot, m1: Message, o: Outcome): State
    requires file in s.outbox
  {
    match o
    case Nothing => s
    case Quarantined => s.(outbox := s.outbox - {file}, quarantine := s.quarantine[file := s.outbox[file]])
    case Tore => s.(outbox := s.outbox[file := Torn])
    case Rewritten => s.(outbox := s.outbox[file := Whole(m1)])
    case Copied => s.(outbox := s.outbox[file := Whole(m1)], inbox := s.inbox[Slot(m1.to, m1.id) := m1])
    case Moved => s.(outbox := s.outbox - {file}, inbox := s.inbox[Slot(m1.to, m1.id) := m1])
  }

  lemma RouteIsApply(c: IsCommand, s: State, file: Slot, fault: Fault)
    requires file in s.outbox && s.outbox[file].Whole?
    ensures RouteStep(c, s, file, fault).0
      == Apply(s, file, Rerouted(c, s.outbox[file].msg), OutcomeOf(c, s, file, fault))
  {
    var m1 := Rerouted(c, s.outbox[file].msg);
    assert s.outbox[file := Whole(m1)] - {file} == s.outbox - {file};
  }

  /** A complete, bound file is routed with outcome `o`; only the histories change beside the directories. */
  ghost predicate Routed(c: IsCommand, w: World, file: Slot, m1: Message, o: Outcome, w': World) {
    && file in w.s.outbox && w.s.outbox[file].Whole? && file.id in w.sent && file == Slot(w.sent[file.id].box, file.id)
    && Bound(c, w.sent[file.id], file.id, w.s.outbox[file].msg)
    && Bound(c, w.sent[file.id], file.id, m1) && m1.to == w.sent[file.id].addressee
    && (o.Tore? ==> w.sent[file.id].command)
    && w'.s == Apply(w.s, file, m1, o)
    && w'.sent == w.sent && w'.used == w.used && w'.writing == w.writing
    && var lost := !Delivered(w.s, file.id, w.sent[file.id].addressee);
    && w'.torn == (if o.Tore? && lost then w.torn + {file.id} else w.torn)
    && w'.aside == (if o.Quarantined? && lost then w.aside + {file.id} else w.aside)
  }

  lemma RoutedKeepsOthers(c: IsCommand, w: World, file: Slot, m1: Message, o: Outcome, w': World, id: string)
    requires id in w.sent && id != file.id && MessageOk(c, w, id) && Routed(c, w, file, m1, o, w')
    ensures MessageOk(c, w', id)
  {
    assert Waiting(c, w', id) <==> Waiting(c, w, id);
    assert Delivered(w'.s, id, w.sent[id].addressee) <==> Delivered(w.s, id, w.sent[id].addressee);
    assert HeldAside(c, w, id) ==> HeldAside(c, w', id);
  }

  /** The routed message itself: it stops being safe exactly when it was undelivered and is torn or set aside. */
  lemma RoutedKeepsOwn(c: IsCommand, w: World, file: Slot, m1: Message, o: Outcome, w': World)
    requires file.id in w.sent && MessageOk(c, w, file.id) && Routed(c, w, file, m1, o, w')
    ensures MessageOk(c, w', file.id) && Safe(c, w, file.id)
    ensures Safe(c, w', file.id) <==> Delivered(w.s, file.id, w.sent[file.id].addressee) || !(o.Tore? || o.Quarantined?)
  {
    assert Waiting(c, w, file.id);
  }

  lemma RoutedKeepsInv(c: IsCommand, w: World, file: Slot, m1: Message, o: Outcome, w': World)
    requires Inv(c, w) && Routed(c, w, file, m1, o, w')
    ensures Inv(c, w')
  {
    forall id | id in w'.sent ensures MessageOk(c, w', id) {
      assert MessageOk(c, w, id);
      if id == file.id { RoutedKeepsOwn(c, w, file, m1, o, w'); } else { RoutedKeepsOthers(c, w, file, m1, o, w', id); }
    }
  }

  lemma RouteIsRouted(c: IsCommand, w: World, file: Slot, fault: Fault)
    requires OutboxOk(c, w) && file in w.s.outbox && w.s.outbox[file].Whole?
    ensures Routed(c, w, file, Rerouted(c, w.s.outbox[file].msg), OutcomeOf(c, w.s, file, fault),
      RouteWorld(c, w, file, fault))
  {
    assert FileOk(c, w, file);
    RouteIsApply(c, w.s, file, fault);
    RouteTears(c, w.s, file, fault);
    ReroutedIsBound(c, w.sent[file.id], file.id, w.s.outbox[file].msg);
    hide RouteStep, Apply, Rerouted, OutboxOk, Pending;
  }

  lemma RouteTears(c: IsCommand, s: State, file: Slot, fault: Fault)
    requires file in s.outbox && s.outbox[file].Whole? && Valid(s.outbox[file].msg)
    ensures var s', o := RouteStep(c, s, file, fault).0, OutcomeOf(c, s, file, fault);
            && (file in s'.outbox && s'.outbox[file].Torn? <==> o.Tore?) && (o.Tore? ==> c(s.outbox[file].msg.body))
            && (fault.ReadFails? <==> o.Quarantined?)
  {
  }

  /** An unreadable file is moved aside or left; no complete message is touched. */
  lemma TornRouteKeepsInv(c: IsCommand, w: World, file: Slot, fault: Fault)
    requires Inv(c, w) && file in w.s.outbox && w.s.outbox[file].Torn?
    ensures Inv(c, RouteWorld(c, w, file, fault))
  {
    var w' := RouteWorld(c, w, file, fault);
    forall f | f in w'.s.outbox ensures FileOk(c, w', f) { assert FileOk(c, w, f); }
    forall id | id in w'.sent ensures MessageOk(c, w', id) {
      assert MessageOk(c, w, id);
      assert Waiting(c, w', id) <==> Waiting(c, w, id);
      assert HeldAside(c, w, id) ==> HeldAside(c, w', id);
    }
  }

  lemma RouteKeepsInv(c: IsCommand, w: World, file: Slot, fault: Fault)
    requires Inv(c, w)
    ensures Inv(c, RouteWorld(c, w, file, fault))
  {
    if file in w.s.outbox {
      if w.s.outbox[file].Torn? {
        TornRouteKeepsInv(c, w, file, fault);
      } else {
        RouteIsRouted(c, w, file, fault);
        hide RouteWorld, Routed;
        RoutedKeepsInv(c, w, file, Rerouted(c, w.s.outbox[file].msg), OutcomeOf(c, w.s, file, fault),
            RouteWorld(c, w, file, fault));
      }
    }
  }

  lemma PutKeepsInv(c: IsCommand, w: World, box: string, m: Message)
    requires Inv(c, w) && Enabled(w, Put(box, m))
    ensures Inv(c, Step(c, w, Put(box, m)))
  {
    var w' := Step(c, w, Put(box, m));
    forall f | f in w'.s.outbox ensures FileOk(c, w', f) { if f.id != m.id { assert FileOk(c, w, f); } }
    forall id | id in w'.sent ensures MessageOk(c, w', id) {
      if id != m.id {
        assert MessageOk(c, w, id);
        assert Waiting(c, w', id) <==> Waiting(c, w, id);
        assert HeldAside(c, w, id) ==> HeldAside(c, w', id);
      } else {
        assert Waiting(c, w', id);
      }
    }
  }

  lemma BeginKeepsInv(c: IsCommand, w: World, m: Message)
    requires Inv(c, w) && Enabled(w, SendBegin(m))
    ensures Inv(c, Step(c, w, SendBegin(m)))
  {
    var w' := Step(c, w, SendBegin(m));
    if Valid(m) {
      forall f | f in w'.s.outbox ensures FileOk(c, w', f) { if f.id != m.id { assert FileOk(c, w, f); } }
      forall id | id in w'.sent ensures MessageOk(c, w', id) {
        assert MessageOk(c, w, id);
        assert Waiting(c, w', id) <==> Waiting(c, w, id);
        assert HeldAside(c, w, id) ==> HeldAside(c, w', id);
      }
    }
  }

  lemma EndKeepsFiles(c: IsCommand, w: World, id: string)
    requires IdsOk(w) && OutboxOk(c, w) && id in w.writing
    ensures IdsOk(EndSend(c, w, id)) && OutboxOk(c, EndSend(c, w, id))
  {
    var w' := EndSend(c, w, id);
    OutgoingIsBound(c, w.writing[id]);
    forall f | f in w'.s.outbox ensures FileOk(c, w', f) { assert FileOk(c, w, f); }
  }

  lemma EndKeepsMessages(c: IsCommand, w: World, id: string, other: string)
    requires Inv(c, w) && id in w.writing && other in EndSend(c, w, id).sent
    ensures MessageOk(c, EndSend(c, w, id), other)
  {
    var w' := EndSend(c, w, id);
    OutgoingIsBound(c, w.writing[id]);
    if other != id {
      assert MessageOk(c, w, other);
      assert Waiting(c, w', other) <==> Waiting(c, w, other);
      assert HeldAside(c, w, other) ==> HeldAside(c, w', other);
    }
  }

  lemma EndKeepsInv(c: IsCommand, w: World, id: string, written: bool)
    requires Inv(c, w) && id in w.writing
    ensures Inv(c, Step(c, w, SendEnd(id, written)))
  {
    var w' := Step(c, w, SendEnd(id, written));
    if written {
      EndKeepsFiles(c, w, id);
      forall other | other in w'.sent ensures MessageOk(c, w', other) { EndKeepsMessages(c, w, id, other); }
    } else {
      forall f | f in w'.s.outbox ensures FileOk(c, w', f) { assert FileOk(c, w, f); }
      forall other | other in w'.sent ensures MessageOk(c, w', other) { assert MessageOk(c, w, other); }
    }
  }

  lemma ArchiveKeepsInv(c: IsCommand, w: World, file: Slot, moved: bool)
    requires Inv(c, w)
    ensures Inv(c, Step(c, w, Archive(file, moved)))
  {
    var w' := Step(c, w, Archive(file, moved));
    forall f | f in w'.s.outbox ensures FileOk(c, w', f) { assert FileOk(c, w, f); }
    forall id | id in w.sent ensures MessageOk(c, w', id) {
      assert MessageOk(c, w, id);
      assert Delivered(w'.s, id, w.sent[id].addressee) <==> Delivered(w.s, id, w.sent[id].addressee);
    }
  }

  lemma StepKeepsInv(c: IsCommand, w: World, e: Event)
    requires Inv(c, w) && Enabled(w, e)
    ensures Inv(c, Step(c, w, e))
  {
    hide Inv, RouteWorld, EndSend, OpenStep, ArchiveStep;
    match e
    case SendBegin(m) => BeginKeepsInv(c, w, m);
    case SendEnd(id, written) => EndKeepsInv(c, w, id, written);
    case Put(box, m) => PutKeepsInv(c, w, box, m);
    case Route(file, fault) => RouteKeepsInv(c, w, file, fault);
    case Archive(file, moved) => ArchiveKeepsInv(c, w, file, moved);
  }

  lemma PendingGrowth(inbox: map<Slot, Message>, file: Slot, m: Message, agent: string)
    ensures Pending(inbox[file := m], agent) == if file.agent == agent then Pending(inbox, agent) + {file}
      else Pending(inbox, agent)
  {}

  lemma RouteKeepsCap(c: IsCommand, s: State, file: Slot, fault: Fault, agent: string)
    requires agent != OPERATOR && |Pending(s.inbox, agent)| <= INBOX_CAP
    ensures |Pending(RouteStep(c, s, file, fault).0.inbox, agent)| <= INBOX_CAP
  {
    if file in s.outbox && s.outbox[file].Whole? {
      RouteIsApply(c, s, file, fault);
      ApplyKeepsCap(c, s, file, fault, agent);
      hide RouteStep, Apply, Pending;
    } else {
      assert RouteStep(c, s, file, fault).0.inbox == s.inbox;
    }
  }

  lemma CopyKeepsCap(s: State, file: Slot, m1: Message, o: Outcome, agent: string)
    requires agent != OPERATOR && |Pending(s.inbox, agent)| <= INBOX_CAP && file in s.outbox
    requires o.Copied? || o.Moved? ==> m1.to == OPERATOR || |Pending(s.inbox, m1.to)| < INBOX_CAP
    ensures |Pending(Apply(s, file, m1, o).inbox, agent)| <= INBOX_CAP
  {
    PendingGrowth(s.inbox, Slot(m1.to, m1.id), m1, agent);
    hide Pending;
  }

  lemma ApplyKeepsCap(c: IsCommand, s: State, file: Slot, fault: Fault, agent: string)
    requires agent != OPERATOR && |Pending(s.inbox, agent)| <= INBOX_CAP && file in s.outbox && s.outbox[file].Whole?
    ensures |Pending(Apply(s, file, Rerouted(c, s.outbox[file].msg), OutcomeOf(c, s, file, fault)).inbox,
      agent)| <= INBOX_CAP
  {
    hide Pending;
    CopyKeepsCap(s, file, Rerouted(c, s.outbox[file].msg), OutcomeOf(c, s, file, fault), agent);
  }

  lemma ArchiveKeepsCap(s: State, file: Slot, moved: bool, agent: string)
    requires |Pending(s.inbox, agent)| <= INBOX_CAP
    ensures |Pending(ArchiveStep(s, file, moved).inbox, agent)| <= INBOX_CAP
  {
    var before, after := Pending(s.inbox, agent), Pending(ArchiveStep(s, file, moved).inbox, agent);
    assert after <= before;
    SubsetSize(after, before);
  }

  lemma StepKeepsCap(c: IsCommand, w: World, e: Event)
    requires Capped(w) && Enabled(w, e)
    ensures Capped(Step(c, w, e))
  {
    var w' := Step(c, w, e);
    forall agent | agent != OPERATOR ensures |Pending(w'.s.inbox, agent)| <= INBOX_CAP {
      hide Pending, RouteStep, ArchiveStep;
      match e {
        case Route(file, fault) => RouteKeepsCap(c, w.s, file, fault, agent);
        case Archive(file, moved) => ArchiveKeepsCap(w.s, file, moved, agent);
        case _ =>
      }
    }
  }

  lemma SubsetSize(a: set<Slot>, b: set<Slot>)
    requires a <= b
    ensures |a| <= |b|
  {
    assert b == a + (b - a);
  }

  lemma {:induction false} RunKeepsInv(c: IsCommand, w: World, es: seq<Event>, w': World)
    requires Inv(c, w) && Capped(w) && Run(c, w, es, w')
    ensures Inv(c, w') && Capped(w')
    decreases |es|
  {
    if es != [] {
      hide Inv, Capped, Step;
      StepKeepsInv(c, w, es[0]);
      StepKeepsCap(c, w, es[0]);
      RunKeepsInv(c, Step(c, w, es[0]), es[1..], w');
    }
  }

  lemma ReachedInv(c: IsCommand, es: seq<Event>, w: World)
    requires Run(c, EMPTY, es, w)
    ensures Inv(c, w) && Capped(w)
  {
    assert forall agent :: Pending(EMPTY.s.inbox, agent) == {};
    RunKeepsInv(c, EMPTY, es, w);
  }

  /** No loss, over every run of sends, routing with failing reads and moves and crashes, and
      archiving: a message is intact in its outbox, or in the inbox or archive of its addressee,
      if and only if it was neither torn undelivered in an interception rewrite nor set aside
      undelivered.  A message without a command is never torn; one that is set aside is complete
      in quarantine; a copy is never with anyone but the addressee; and no inbox but the
      operator's exceeds the cap. */
  lemma RouterNoLoss(c: IsCommand, es: seq<Event>, w: World, id: string)
    requires Run(c, EMPTY, es, w) && id in w.sent
    ensures Safe(c, w, id) <==> id !in w.torn && id !in w.aside
    ensures !w.sent[id].command ==> (Safe(c, w, id) <==> id !in w.aside)
    ensures id in w.aside ==> HeldAside(c, w, id)
    ensures forall agent | Delivered(w.s, id, agent) :: agent == w.sent[id].addressee
    ensures forall f, g | f in w.s.inbox && g in w.s.inbox && f.id == id && g.id == id :: f == g
    ensures forall agent | agent != OPERATOR :: |Pending(w.s.inbox, agent)| <= INBOX_CAP
  {
    ReachedInv(c, es, w);
    assert MessageOk(c, w, id);
  }

  /** Which routing steps endanger a message: those of its own complete file, undelivered so far,
      in which the read fails and the file can be moved, or the router dies in the rewrite that a
      command body makes it do, the inbox it names having room. */
  lemma RoutingLosesExactly(c: IsCommand, es: seq<Event>, w: World, file: Slot, fault: Fault, id: string)
    requires Run(c, EMPTY, es, w) && id in w.sent && Safe(c, w, id)
    ensures !Safe(c, Step(c, w, Route(file, fault)), id) <==>
            && id == file.id && !Delivered(w.s, id, w.sent[id].addressee)
            && file in w.s.outbox && w.s.outbox[file].Whole?
            && (fault.ReadFails?
                || (fault.TearRewrite? && c(w.s.outbox[file].msg.body)
                    && |Pending(w.s.inbox, w.s.outbox[file].msg.to)| < INBOX_CAP))
  {
    ReachedInv(c, es, w);
    assert MessageOk(c, w, id);
    if file in w.s.outbox && w.s.outbox[file].Whole? {
      assert FileOk(c, w, file);
      RouteEndangers(c, w, file, fault, id);
      hide RouteWorld, Pending, Safe, Inv, Run;
    } else {
      hide Pending, Inv, Run;
      assert Waiting(c, Step(c, w, Route(file, fault)), id) <==> Waiting(c, w, id);
    }
  }

  lemma RouteEndangers(c: IsCommand, w: World, file: Slot, fault: Fault, id: string)
    requires OutboxOk(c, w) && file in w.s.outbox && w.s.outbox[file].Whole? && file.id in w.sent
      && Valid(w.s.outbox[file].msg)
    requires id in w.sent && MessageOk(c, w, id) && Safe(c, w, id)
    ensures !Safe(c, RouteWorld(c, w, file, fault), id) <==>
            && id == file.id && !Delivered(w.s, id, w.sent[id].addressee)
            && (fault.ReadFails? || (fault.TearRewrite? && c(w.s.outbox[file].msg.body)
                                     && |Pending(w.s.inbox, w.s.outbox[file].msg.to)| < INBOX_CAP))
  {
    RouteIsRouted(c, w, file, fault);
    RouteTears(c, w.s, file, fault);
    var m1, o, w' := Rerouted(c, w.s.outbox[file].msg), OutcomeOf(c, w.s, file, fault), RouteWorld(c, w, file, fault);
    if id == file.id { RoutedKeepsOwn(c, w, file, m1, o, w'); } else { RoutedKeepsOthers(c, w, file, m1, o, w', id); }
    hide RouteWorld, Routed, Pending, MessageOk, Safe, OutboxOk, Rerouted, RouteStep;
  }

  /** A send ends with its message safe exactly when the router has not moved its half-written file. */
  lemma SendArrivesExactly(c: IsCommand, es: seq<Event>, w: World, id: string)
    requires Run(c, EMPTY, es, w) && id in w.writing
    ensures var w' := Step(c, w, SendEnd(id, true));
            id in w'.sent && (Safe(c, w', id) <==> SendSlot(c, w.writing[id]) in w.s.outbox)
  {
    ReachedInv(c, es, w);
    EndKeepsInv(c, w, id, true);
    assert MessageOk(c, Step(c, w, SendEnd(id, true)), id);
    assert id !in w.sent;
  }

  /** The copies after one file was routed: at most one new one, in the slot of its addressee. */
  ghost predicate OneSlot(s: State, slot: Slot, s': State) {
    && s'.archive == s.archive
    && (slot in s.inbox ==> s'.inbox.Keys == s.inbox.Keys)
    && (s'.inbox.Keys == s.inbox.Keys || (slot !in s.inbox && s'.inbox.Keys == s.inbox.Keys + {slot}))
  }

  lemma ApplyCopies(s: State, file: Slot, m1: Message, o: Outcome)
    requires file in s.outbox
    ensures OneSlot(s, Slot(m1.to, m1.id), Apply(s, file, m1, o))
  {}

  /** Redelivery after a failed unlink replaces the pending copy; only after archiving can a second one appear. */
  lemma RedeliveryMakesNoSecondCopy(c: IsCommand, es: seq<Event>, w: World, file: Slot, fault: Fault)
    requires Run(c, EMPTY, es, w) && file in w.s.outbox && file.id in w.sent
    ensures OneSlot(w.s, Slot(w.sent[file.id].addressee, file.id), Step(c, w, Route(file, fault)).s)
  {
    ReachedInv(c, es, w);
    assert FileOk(c, w, file);
    hide Inv, Capped, FileOk, OneSlot, RouteStep;
    RoutingFillsOneSlot(c, w, file, fault);
  }

  lemma RoutingFillsOneSlot(c: IsCommand, w: World, file: Slot, fault: Fault)
    requires file in w.s.outbox && file.id in w.sent && FileOk(c, w, file)
    ensures OneSlot(w.s, Slot(w.sent[file.id].addressee, file.id), RouteStep(c, w.s, file, fault).0)
  {
    if w.s.outbox[file].Whole? {
      ReroutedIsBound(c, w.sent[file.id], file.id, w.s.outbox[file].msg);
      RouteIsApply(c, w.s, file, fault);
      ApplyCopies(w.s, file, Rerouted(c, w.s.outbox[file].msg), OutcomeOf(c, w.s, file, fault));
      hide RouteStep, Rerouted, Apply, OneSlot;
    }
  }

  /** With room in the inbox and no fault, one pass delivers a waiting message and clears its file. */
  lemma RoutingDelivers(c: IsCommand, es: seq<Event>, w: World, id: string)
    requires Run(c, EMPTY, es, w) && id in w.sent && Waiting(c, w, id)
    requires forall agent :: |Pending(w.s.inbox, agent)| < INBOX_CAP
    ensures var file := Slot(w.sent[id].box, id);
            var w' := Step(c, w, Route(file, NoFault));
            Slot(w.sent[id].addressee, id) in w'.s.inbox && file !in w'.s.outbox
  {
    ReachedInv(c, es, w);
    var file := Slot(w.sent[id].box, id);
    assert FileOk(c, w, file);
    RouteIsRouted(c, w, file, NoFault);
  }

  /** The file is complete and valid, its addressee's inbox has room, and no step of its delivery fails. */
  ghost predicate Deliverable(c: IsCommand, s: State, file: Slot, fault: Fault) {
    && file in s.outbox && s.outbox[file].Whole? && Valid(s.outbox[file].msg)
    && |Pending(s.inbox, s.outbox[file].msg.to)| < 50
    && (fault == NoFault || fault == UnlinkFails || (fault == TearRewrite && !c(s.outbox[file].msg.body)))
  }

  /** Routing one file, exactly: it counts as delivered if and only if it can be, and then, and only
      then, an inbox gets it: its addressee's, or the operator's when it carries a command. */
  lemma RoutingDeliversExactly(c: IsCommand, s: State, file: Slot, fault: Fault)
    ensures var (s', delivered) := RouteStep(c, s, file, fault);
            && (delivered <==> Deliverable(c, s, file, fault))
            && (!delivered ==> s'.inbox == s.inbox)
            && (delivered ==>
                  var m := s.outbox[file].msg;
                  var to := Slot(if c(m.body) then "operator" else m.to, m.id);
                  && to in s'.inbox && CopyOf(c, m, s'.inbox[to]) && s'.inbox == s.inbox[to := s'.inbox[to]]
                  && (file in s'.outbox <==> fault == UnlinkFails))
  {
    if Deliverable(c, s, file, fault) {
      var m := s.outbox[file].msg;
      SameIsCopy(c, m);
      if c(m.body) { InterceptedIsCopy(c, m, m, RouterIntercepted(m)); }
    }
  }

  /** A pass reports as many deliveries as it makes: none at first, and one more for each file that
      can be delivered when its turn comes. */
  lemma PassCountsDeliveries(c: IsCommand, s: State, files: seq<Slot>, fault: Slot -> Fault, i: nat)
    requires i < |files|
    ensures RouteAll(c, s, [], fault) == (s, 0)
    ensures var before := RouteAll(c, s, files[..i], fault);
            RouteAll(c, s, files[..i + 1], fault).1
            == before.1 + if Deliverable(c, before.0, files[i], fault(files[i])) then 1 else 0
  {
    assert files[..i + 1][..i] == files[..i];
    RoutingDeliversExactly(c, RouteAll(c, s, files[..i], fault).0, files[i], fault(files[i]));
    hide RouteStep, Deliverable, CopyOf;
  }

  /** A send, exactly: it succeeds if and only if the message is valid and its file is written; the
      sender's outbox, or the operator's when it carries a command, then holds a copy of it.  A
      refused one changes nothing, and one that fails half-way leaves a torn file. */
  lemma SendExactly(c: IsCommand, s: State, m: Message, write: Write)
    requires Slot(if c(m.body) then "operator" else m.from, m.id) !in s.outbox
    ensures var (s', ok) := SendStep(c, s, m, write);
            var file := Slot(if c(m.body) then "operator" else m.from, m.id);
            && (ok <==> Valid(m) && write == Written)
            && (!Valid(m) || write == OpenFails ==> s' == s)
            && (Valid(m) && write == WriteFails ==> s' == s.(outbox := s.outbox[file := Torn]))
            && (ok ==> file in s'.outbox && s'.outbox[file].Whole? && CopyOf(c, m, s'.outbox[file].msg)
                       && s' == s.(outbox := s.outbox[file := s'.outbox[file]]))
  {
    SameIsCopy(c, m);
    if c(m.body) { InterceptedIsCopy(c, m, m, SendIntercepted(m)); }
  }

  // ---------------------------------------------------------------- what a copy says

  /** `b` is an interception of `a`: addressed to the operator, marked as one, and ending with the
      first 500 characters of the body it replaces. */
  ghost predicate Interception(c: IsCommand, a: Message, b: Message) {
    && c(a.body)
    && b.id == a.id && b.from == a.from && b.act == a.act && b.hops == a.hops
    && b.to == OPERATOR && b.subject == "[INTERCEPTED] " + a.subject
    && exists notice :: Noticed(a.subject, notice)
        && b.body == notice + (if |a.body| > 500 then a.body[..500] else a.body)
  }

  /** The two texts an interception may begin with. */
  ghost predicate Noticed(subject: string, notice: string) {
    || notice == ROUTER_HEADING + BODY_LABEL
    || notice == SEND_HEADING + SEND_REASON + SEND_ACTION + subject + BODY_LABEL
  }

  /** `b` comes from `a` by `n` interceptions. */
  ghost predicate Descends(c: IsCommand, a: Message, b: Message, n: nat)
    decreases n
  {
    if n == 0 then b == a else exists mid :: Descends(c, a, mid, n - 1) && Interception(c, mid, b)
  }

  ghost predicate CopyOf(c: IsCommand, a: Message, b: Message) { exists n: nat :: Descends(c, a, b, n) }

  /** A complete message in some directory. */
  ghost predicate Held(s: State, f: Slot, m: Message) {
    || (f in s.outbox && s.outbox[f] == Whole(m))
    || (f in s.inbox && s.inbox[f] == m)
    || (f in s.archive && s.archive[f] == m)
    || (f in s.quarantine && s.quarantine[f] == Whole(m))
  }

  ghost predicate CopiesOk(c: IsCommand, w: World) {
    && (forall id | id in w.sent :: w.sent[id].msg.id == id && Valid(w.sent[id].msg))
    && forall f, m | Held(w.s, f, m) :: f.id in w.sent && CopyOf(c, w.sent[f.id].msg, m)
  }

  lemma InterceptedIsCopy(c: IsCommand, a: Message, m: Message, m1: Message)
    requires CopyOf(c, a, m)
    requires m1 == m || (c(m.body) && (m1 == SendIntercepted(m) || m1 == RouterIntercepted(m)))
    ensures CopyOf(c, a, m1)
  {
    if m1 != m {
      var n: nat :| Descends(c, a, m, n);
      assert Noticed(m.subject, RouterNotice()) && Noticed(m.subject, SendNotice(m.subject));
      assert Interception(c, m, m1);
      assert Descends(c, a, m, n + 1 - 1);
      assert Descends(c, a, m1, n + 1);
    }
  }

  lemma SameIsCopy(c: IsCommand, m: Message)
    ensures CopyOf(c, m, m)
  {
    assert Descends(c, m, m, 0);
  }

  lemma AppliedCopies(s: State, file: Slot, m1: Message, o: Outcome, f: Slot, m: Message)
    requires file in s.outbox && m1.id == file.id && Held(Apply(s, file, m1, o), f, m)
    ensures Held(s, f, m) || (f.id == file.id && (m == m1 || s.outbox[file] == Whole(m)))
  {
  }

  lemma AppliedKeepsCopies(c: IsCommand, w: World, file: Slot, m1: Message, o: Outcome, w': World)
    requires CopiesOk(c, w) && file in w.s.outbox && w.s.outbox[file].Whole? && m1.id == file.id
    requires file.id in w.sent && CopyOf(c, w.sent[file.id].msg, m1)
    requires w'.s == Apply(w.s, file, m1, o) && w'.sent == w.sent
    ensures CopiesOk(c, w')
  {
    hide CopyOf, Apply, Valid;
    forall f, m | Held(w'.s, f, m) ensures f.id in w.sent && CopyOf(c, w.sent[f.id].msg, m) {
      AppliedCopies(w.s, file, m1, o, f, m);
      if w.s.outbox[file] == Whole(m) { assert Held(w.s, file, m); }
    }
  }

  /** Routing a file that is torn, or not there, copies nothing. */
  lemma TornRouteKeepsCopies(c: IsCommand, w: World, file: Slot, fault: Fault)
    requires CopiesOk(c, w) && (file in w.s.outbox ==> w.s.outbox[file].Torn?)
    ensures CopiesOk(c, RouteWorld(c, w, file, fault))
  {
    hide CopyOf, Valid;
    var w' := RouteWorld(c, w, file, fault);
    forall f, m | Held(w'.s, f, m) ensures Held(w.s, f, m) {}
  }

  lemma RouteKeepsCopies(c: IsCommand, w: World, file: Slot, fault: Fault)
    requires Inv(c, w) && CopiesOk(c, w)
    ensures CopiesOk(c, RouteWorld(c, w, file, fault))
  {
    if file in w.s.outbox && w.s.outbox[file].Whole? {
      var m0, m1, o := w.s.outbox[file].msg, Rerouted(c, w.s.outbox[file].msg), OutcomeOf(c, w.s, file, fault);
      var w' := RouteWorld(c, w, file, fault);
      assert FileOk(c, w, file) && Held(w.s, file, m0);
      assert w'.s == RouteStep(c, w.s, file, fault).0 && w'.sent == w.sent && m1.id == file.id;
      InterceptedIsCopy(c, w.sent[file.id].msg, m0, m1);
      hide Inv, RouteWorld, RouteStep, Apply, OutcomeOf, Rerouted, CopiesOk, CopyOf;
      RouteIsApply(c, w.s, file, fault);
      AppliedKeepsCopies(c, w, file, m1, o, w');
    } else {
      TornRouteKeepsCopies(c, w, file, fault);
    }
  }

  lemma EndKeepsCopies(c: IsCommand, w: World, id: string)
    requires Inv(c, w) && CopiesOk(c, w) && id in w.writing
    ensures CopiesOk(c, EndSend(c, w, id))
  {
    var w', a := EndSend(c, w, id), w.writing[id];
    SameIsCopy(c, a);
    InterceptedIsCopy(c, a, a, Outgoing(c, a));
    assert w'.sent == w.sent[id := w'.sent[id]] && w'.sent[id].msg == a && a.id == id && Valid(a);
    hide CopyOf, Outgoing, Valid;
    forall f, m | Held(w'.s, f, m) ensures f.id in w'.sent && CopyOf(c, w'.sent[f.id].msg, m) {
      EndedFiles(c, w, id, f, m);
    }
  }

  lemma EndedFiles(c: IsCommand, w: World, id: string, f: Slot, m: Message)
    requires Inv(c, w) && CopiesOk(c, w) && id in w.writing && Held(EndSend(c, w, id).s, f, m)
    ensures if f.id == id then m == Outgoing(c, w.writing[id]) else Held(w.s, f, m)
  {
    hide CopyOf, Outgoing, Valid, OutboxOk, InboxOk, MessageOk;
    if f.id == id && Held(w.s, f, m) { assert false; }
  }

  lemma StepKeepsCopies(c: IsCommand, w: World, e: Event)
    requires Inv(c, w) && CopiesOk(c, w) && Enabled(w, e)
    ensures CopiesOk(c, Step(c, w, e))
  {
    hide Inv, CopiesOk;
    if e.Route? {
      RouteKeepsCopies(c, w, e.file, e.fault);
    } else if e.SendEnd? && e.written {
      EndKeepsCopies(c, w, e.id);
    } else {
      QuietStepKeepsCopies(c, w, e);
    }
  }

  /** What a step that copies nothing holds was held before, but for a file put there at once. */
  lemma QuietStepHolds(c: IsCommand, w: World, e: Event, f: Slot, m: Message)
    requires CopiesOk(c, w) && Enabled(w, e) && !e.Route? && !(e.SendEnd? && e.written)
    requires Held(Step(c, w, e).s, f, m)
    ensures Held(w.s, f, m) || (e.Put? && f == Slot(e.box, e.m.id) && m == e.m)
  {
    hide CopyOf, Valid;
  }

  lemma QuietStepSends(c: IsCommand, w: World, e: Event)
    requires Enabled(w, e) && !e.Route? && !(e.SendEnd? && e.written)
    ensures e.Put? ==> exists record: Record :: record.msg == e.m && Step(c, w, e).sent == w.sent[e.m.id := record]
    ensures !e.Put? ==> Step(c, w, e).sent == w.sent
  {
    if e.Put? { assert RecordFor(c, e.box, e.m).msg == e.m; }
  }

  lemma QuietStepKeepsCopies(c: IsCommand, w: World, e: Event)
    requires Inv(c, w) && CopiesOk(c, w) && Enabled(w, e) && !e.Route? && !(e.SendEnd? && e.written)
    ensures CopiesOk(c, Step(c, w, e))
  {
    var w' := Step(c, w, e);
    QuietStepSends(c, w, e);
    if e.Put? {
      SameIsCopy(c, e.m);
      assert e.m.id !in w.sent && Valid(e.m);
    }
    hide CopyOf, Valid, Inv, Step, Held;
    forall f, m | Held(w'.s, f, m) ensures f.id in w'.sent && CopyOf(c, w'.sent[f.id].msg, m) {
      QuietStepHolds(c, w, e, f, m);
    }
  }

  lemma {:induction false} RunKeepsCopies(c: IsCommand, w: World, es: seq<Event>, w': World)
    requires Inv(c, w) && CopiesOk(c, w) && Run(c, w, es, w')
    ensures CopiesOk(c, w')
    decreases |es|
  {
    if es != [] {
      StepKeepsInv(c, w, es[0]);
      StepKeepsCopies(c, w, es[0]);
      hide Inv, CopiesOk, Step;
      RunKeepsCopies(c, Step(c, w, es[0]), es[1..], w');
    }
  }

  lemma {:induction false} DescendsKeeps(c: IsCommand, a: Message, b: Message, n: nat)
    requires Descends(c, a, b, n)
    ensures b.id == a.id && b.from == a.from && b.act == a.act && b.hops == a.hops
    ensures n > 0 ==> b.to == OPERATOR && c(a.body)
    decreases n
  {
    if n > 0 {
      var mid :| Descends(c, a, mid, n - 1) && Interception(c, mid, b);
      DescendsKeeps(c, a, mid, n - 1);
    }
  }

  /** What is queued, delivered, archived or quarantined is what was sent, over every run: each
      complete copy of a message without a command equals it; one with a command is the message or
      comes from it by interceptions, keeps id, sender, act and hops, and goes to the operator; and
      unless an interception can itself look like a command, it was intercepted at most once, so
      that its body ends with the first 500 characters of the original. */
  lemma CopiesAreFaithful(c: IsCommand, es: seq<Event>, w: World, f: Slot, m: Message)
    requires Run(c, EMPTY, es, w) && Held(w.s, f, m)
    ensures f.id in w.sent && var a := w.sent[f.id].msg;
            && a.id == f.id && m.id == a.id && m.from == a.from && m.act == a.act && m.hops == a.hops
            && CopyOf(c, a, m)
            && (!c(a.body) ==> m == a)
            && (m != a ==> m.to == "operator")
            && (m == a || Interception(c, a, m) || exists b :: Interception(c, a, b) && c(b.body))
    ensures m.act in {"request", "inform", "propose", "query", "agree", "refuse", "done"} && 0 <= m.hops <= 10
    ensures |m.id| == 12 && m.id[..4] == "mbx-"
  {
    assert Inv(c, EMPTY) && CopiesOk(c, EMPTY);
    RunKeepsCopies(c, EMPTY, es, w);
    hide Inv, Run, Held;
    var a := w.sent[f.id].msg;
    var n: nat :| Descends(c, a, m, n);
    DescendsKeeps(c, a, m, n);
    if n > 1 { SecondInterception(c, a, m, n); }
    if n == 1 { assert exists mid :: Descends(c, a, mid, 0) && Interception(c, mid, m); }
  }

  lemma {:induction false} SecondInterception(c: IsCommand, a: Message, m: Message, n: nat)
    requires n > 1 && Descends(c, a, m, n)
    ensures exists b :: Interception(c, a, b) && c(b.body)
    decreases n
  {
    var mid :| Descends(c, a, mid, n - 1) && Interception(c, mid, m);
    if n == 2 {
      var first :| Descends(c, a, first, 0) && Interception(c, first, mid);
    } else {
      SecondInterception(c, a, mid, n - 1);
    }
  }

  /** One send, polled when it is done. */
  function SendThenRoute(m: Message): seq<Event> {
    [SendBegin(m), SendEnd(m.id, true), Route(Slot(OPERATOR, m.id), NoFault)]
  }

  lemma SentCommandIsRewrapped(c: IsCommand, m: Message) returns (w: World)
    requires Valid(m) && c(m.body) && c(SendIntercepted(m).body)
    ensures Run(c, EMPTY, SendThenRoute(m), w)
    ensures var file := Slot(OPERATOR, m.id);
            file in w.s.inbox && w.s.inbox[file] == RouterIntercepted(SendIntercepted(m))
  {
    var file, es := Slot(OPERATOR, m.id), SendThenRoute(m);
    OperatorIsNonBlank();
    assert Valid(SendIntercepted(m));
    hide Valid, SendIntercepted, RouterIntercepted;
    assert Pending(EMPTY.s.inbox, OPERATOR) == {};
    var w1 := Step(c, EMPTY, es[0]);
    var w2 := Step(c, w1, es[1]);
    assert w2.s.outbox[file] == Whole(SendIntercepted(m)) && w2.s.inbox == map[];
    w := Step(c, w2, es[2]);
    hide Step;
    RunOfThree(c, w1, w2, w, es);
  }

  lemma RunOfThree(c: IsCommand, w1: World, w2: World, w: World, es: seq<Event>)
    requires |es| == 3 && Enabled(EMPTY, es[0]) && Enabled(w1, es[1]) && Enabled(w2, es[2])
    requires w1 == Step(c, EMPTY, es[0]) && w2 == Step(c, w1, es[1]) && w == Step(c, w2, es[2])
    ensures Run(c, EMPTY, es, w)
  {
    hide Step;
    assert Run(c, w, es[2..][1..], w);
    assert Run(c, w2, es[2..], w);
    assert es[1..][1..] == es[2..];
    assert Run(c, w1, es[1..], w);
  }

  /** The router intercepts again what `send` intercepted, if the kept text still holds the command.
      The operator then gets the first 500 characters of notice and body together: all that `send`
      kept if and only if both fit, and otherwise only as much of the body as the notice leaves. */
  lemma SentCommandIsCut(c: IsCommand, m: Message, notice: string) returns (w: World)
    requires Valid(m) && c(m.body) && c(notice + First500(m.body))
    requires notice == SEND_HEADING + SEND_REASON + SEND_ACTION + m.subject + BODY_LABEL
    ensures Run(c, EMPTY, SendThenRoute(m), w) && Slot(OPERATOR, m.id) in w.s.inbox
    ensures var copy, kept, head := w.s.inbox[Slot(OPERATOR, m.id)], First500(m.body), ROUTER_HEADING + BODY_LABEL;
            && (copy.body == head + (notice + kept) <==> |notice| + |kept| <= 500)
            && (|notice| <= 500 < |notice| + |kept| ==> copy.body == head + (notice + m.body[..500 - |notice|]))
            && (|notice| > 500 ==> copy.body == head + notice[..500])
  {
    assert notice == SendNotice(m.subject);
    assert SendIntercepted(m).body == notice + First500(m.body);
    w := SentCommandIsRewrapped(c, m);
    CutText(notice, First500(m.body), m.body, ROUTER_HEADING + BODY_LABEL);
  }

  lemma CutText(notice: string, kept: string, body: string, head: string)
    requires kept == First500(body)
    ensures var text := head + First500(notice + kept);
            && (text == head + (notice + kept) <==> |notice| + |kept| <= 500)
            && (|notice| <= 500 < |notice| + |kept| ==> text == head + (notice + body[..500 - |notice|]))
            && (|notice| > 500 ==> text == head + notice[..500])
  {
  }

  predicate WindowAt(body: string, i: nat) { i + 19 <= |body| && body[i..i + 19] == "--controlled-window" }

  /** One of the command patterns of the harness. */
  predicate OpensWindow(body: string) { exists i | 0 <= i <= |body| :: WindowAt(body, i) }

  const LONG_COMMAND: string := "--controlled-window" + seq(480, _ => 'x') + "!"

  /** So what the notice promises, the first 500 characters, fails for a body of that length: the
      operator gets 221 of them. */
  lemma LongCommandLosesItsEnd() returns (m: Message, notice: string, w: World)
    ensures m.body == LONG_COMMAND && |m.body| == 500 && m.body[499] == '!' && m.body[220] == 'x'
    ensures Run(OpensWindow, EMPTY, SendThenRoute(m), w) && Slot(OPERATOR, m.id) in w.s.inbox
    ensures w.s.inbox[Slot(OPERATOR, m.id)].body == ROUTER_HEADING + BODY_LABEL + (notice + m.body[..221])
  {
    m := LongMessage();
    notice := SEND_HEADING + SEND_REASON + SEND_ACTION + m.subject + BODY_LABEL;
    assert |notice| == 279;
    assert WindowAt(LONG_COMMAND, 0);
    OpensAfter(notice, LONG_COMMAND, 0);
    OpensAfter("", LONG_COMMAND, 0);
    assert "" + LONG_COMMAND == LONG_COMMAND;
    w := LongBodyIsCut(OpensWindow, m, notice);
  }

  lemma LongBodyIsCut(c: IsCommand, m: Message, notice: string) returns (w: World)
    requires Valid(m) && c(m.body) && c(notice + m.body) && |m.body| == 500 && |notice| == 279
    requires notice == SEND_HEADING + SEND_REASON + SEND_ACTION + m.subject + BODY_LABEL
    ensures Run(c, EMPTY, SendThenRoute(m), w) && Slot(OPERATOR, m.id) in w.s.inbox
    ensures w.s.inbox[Slot(OPERATOR, m.id)].body == ROUTER_HEADING + BODY_LABEL + (notice + m.body[..221])
  {
    assert First500(m.body) == m.body;
    w := SentCommandIsCut(c, m, notice);
  }

  lemma LongMessage() returns (m: Message)
    ensures m == Message("mbx-00000000", "alice", "bob", "inform", "s", LONG_COMMAND, 0) && Valid(m)
  {
    m := Message("mbx-00000000", "alice", "bob", "inform", "s", LONG_COMMAND, 0);
    assert m.from[0] !in " \t\r\n" && m.to[0] !in " \t\r\n";
  }

  lemma OpensAfter(before: string, body: string, i: nat)
    requires WindowAt(body, i)
    ensures OpensWindow(before + body)
  {
    assert (before + body)[|before| + i..|before| + i + 19] == body[i..i + 19];
    assert WindowAt(before + body, |before| + i);
  }

  // ---------------------------------------------------------------- the ways to lose a message

  /** A crash in the in-place rewrite of an intercepted message leaves nothing of it. */
  lemma TornRewriteLosesAMessage(c: IsCommand, m: Message)
    requires Valid(m) && c(m.body)
    ensures var w := Step(c, Step(c, EMPTY, Put(m.from, m)), Route(Slot(m.from, m.id), TearRewrite));
            m.id in w.sent && m.id in w.torn && !Safe(c, w, m.id)
  {
    assert Pending(EMPTY.s.inbox, m.to) == {};
  }

  /** One failed read sets any valid message aside for good. */
  lemma FailedReadSetsAside(c: IsCommand, m: Message)
    requires Valid(m)
    ensures var w := Step(c, Step(c, EMPTY, Put(m.from, m)), Route(Slot(m.from, m.id), ReadFails));
            m.id in w.sent && m.id in w.aside && !Safe(c, w, m.id)
  {
  }

  /** Without any fault, a router that polls during a send sets the message aside. */
  lemma PolledSendIsSetAside(c: IsCommand, m: Message)
    requires Valid(m)
    ensures var w1 := Step(c, Step(c, EMPTY, SendBegin(m)), Route(SendSlot(c, m), NoFault));
            m.id in w1.writing
            && var w := Step(c, w1, SendEnd(m.id, true));
            m.id in w.sent && m.id in w.aside && !Safe(c, w, m.id)
  {
  }

  /** What is set aside stays unsafe: nothing the router or an agent does brings it back. */
  lemma {:induction false} AsideStays(c: IsCommand, w: World, es: seq<Event>, w': World, id: string)
    requires Run(c, w, es, w') && id in w.aside
    ensures id in w'.aside
    decreases |es|
  {
    if es != [] { AsideStays(c, Step(c, w, es[0]), es[1..], w', id); }
  }
}
