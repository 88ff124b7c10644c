/** The file mailbox router of orchestrator/mailbus.py: outboxes, inboxes, `.done` and
    `.quarantine` directories as maps from (agent, message id) to what the file holds.  Ids are
    never reused, so a slot is quarantined at most once whatever suffix its name then carries. */
module Mailbus {

  const MAX_HOPS := 10
  const INBOX_CAP: nat := 50
  const OPERATOR := "operator"
  const ALLOWED_VERBS := {"request", "inform", "propose", "query", "agree", "refuse", "done"}

  datatype Message = Message(id: string, from: string, to: string, act: string, subject: string, body: string,
      hops: int)

  /** A file of an agent's directory, named after the message id. */
  datatype Slot = Slot(agent: string, id: string)

  /** A sender's file: complete, or cut off while it is written or rewritten in place. */
  datatype OutFile = Whole(msg: Message) | Torn

  datatype State = State(
    outbox: map<Slot, OutFile>,
    inbox: map<Slot, Message>,
    archive: map<Slot, Message>,
    quarantine: map<Slot, OutFile>)

  type IsCommand = string -> bool

  predicate ValidId(id: string) {
    |id| == 12 && id[..4] == "mbx-" && forall i | 4 <= i < 12 :: '0' <= id[i] <= '9' || 'a' <= id[i] <= 'f'
  }

  predicate NonBlank(s: string) { exists i | 0 <= i < |s| :: s[i] !in " \t\r\n" }

  /** `validate_message` on the fields the router uses. */
  predicate Valid(m: Message) {
    ValidId(m.id) && m.act in ALLOWED_VERBS && 0 <= m.hops <= MAX_HOPS && NonBlank(m.from) && NonBlank(m.to)
  }

  function First500(s: string): string { if |s| > 500 then s[..500] else s }

  const MARK := "[INTERCEPTED] "
  const SEND_HEADING := "[INTERCEPTED \U{2014} original body contained execution commands]\n\n"
  const SEND_REASON :=
    "The following message was flagged as containing mission-execution or ESTOP-bypass patterns and has been "
  const SEND_ACTION := "rewritten as a passive proposal to the Operator for review:\n\nOriginal subject: "
  const ROUTER_HEADING := "[INTERCEPTED at router boundary]"
  const BODY_LABEL := "\n\nOriginal body (first 500 chars):\n"

  /** The text an interception puts before what it keeps of the body. */
  function SendNotice(subject: string): string { SEND_HEADING + SEND_REASON + SEND_ACTION + subject + BODY_LABEL }

  function RouterNotice(): string { ROUTER_HEADING + BODY_LABEL }

  /** The passive proposal `send` makes of a message with a command in its body. */
  function SendIntercepted(m: Message): Message {
    m.(to := OPERATOR, subject := MARK + m.subject, body := SendNotice(m.subject) + First500(m.body))
  }

  function RouterIntercepted(m: Message): Message {
    m.(to := OPERATOR, subject := MARK + m.subject, body := RouterNotice() + First500(m.body))
  }

  /** Where a message in an outbox is bound for. */
  function Addressee(c: IsCommand, m: Message): string { if c(m.body) then OPERATOR else m.to }

  function Pending(inbox: map<Slot, Message>, agent: string): set<Slot> {
    set s | s in inbox && s.agent == agent
  }

  // ---------------------------------------------------------------- steps

  /** What goes wrong while one outbox file is routed: the file cannot be read and is moved
      aside, or cannot even be moved; the rewrite, the delivery or the unlink fails. */
  datatype Fault = NoFault | ReadFails | StaysUnread | TearRewrite | DeliverFails | UnlinkFails

  /** Where and in what form `send` writes a message. */
  function Outgoing(c: IsCommand, m: Message): Message { if c(m.body) then SendIntercepted(m) else m }

  function SendSlot(c: IsCommand, m: Message): Slot { Slot(if c(m.body) then OPERATOR else m.from, m.id) }

  /** `send` opens its file in place: from now on the router sees a file that does not parse. */
  function OpenStep(c: IsCommand, s: State, m: Message): State {
    if Valid(m) then s.(outbox := s.outbox[SendSlot(c, m) := Torn]) else s
  }

  /** The message is complete in the file, wherever the router has moved that in the meantime. */
  function CloseStep(c: IsCommand, s: State, m: Message): State {
    var file := SendSlot(c, m);
    if file in s.outbox then s.(outbox := s.outbox[file := Whole(Outgoing(c, m))])
    else s.(quarantine := s.quarantine[file := Whole(Outgoing(c, m))])
  }

  /** How far one `send` gets. */
  datatype Write = OpenFails | WriteFails | Written

  function SendStep(c: IsCommand, s: State, m: Message, write: Write): (State, bool) {
    if !Valid(m) || write.OpenFails? then (s, false)
    else if write.WriteFails? then (OpenStep(c, s, m), false)
    else (CloseStep(c, OpenStep(c, s, m), m), true)
  }

  /** `_quarantine_unparseable`, which leaves the file when it cannot be moved. */
  function SetAside(s: State, file: Slot, fault: Fault): State
    requires file in s.outbox
  {
    if fault.StaysUnread? then s
    else s.(outbox := s.outbox - {file}, quarantine := s.quarantine[file := s.outbox[file]])
  }

  /** One iteration of `route_cycle`; the flag says whether it counts as delivered. */
  function RouteStep(c: IsCommand, s: State, file: Slot, fault: Fault): (State, bool) {
    if file !in s.outbox then (s, false)
    else match s.outbox[file]
         case Torn => (SetAside(s, file, fault), false)
         case Whole(m) =>
           if fault.ReadFails? || fault.StaysUnread? || !Valid(m) then (SetAside(s, file, fault), false)
           else if |Pending(s.inbox, m.to)| >= INBOX_CAP then (s, false)
           else if c(m.body) && fault.TearRewrite? then (s.(outbox := s.outbox[file := Torn]), false)
           else
             var m1 := if c(m.body) then RouterIntercepted(m) else m;
             var s1 := s.(outbox := s.outbox[file := Whole(m1)]);
             if fault.DeliverFails? then (s1, false)
             else
               var s2 := s1.(inbox := s1.inbox[Slot(m1.to, m.id) := m1]);
               (if fault.UnlinkFails? then s2 else s2.(outbox := s2.outbox - {file}), true)
  }

  /** `_archive_message`, or nothing if the move keeps failing. */
  function ArchiveStep(s: State, file: Slot, moved: bool): State {
    if file in s.inbox && moved then s.(archive := s.archive[file := s.inbox[file]], inbox := s.inbox - {file}) else s
  }

  function RouteAll(c: IsCommand, s: State, files: seq<Slot>, fault: Slot -> Fault): (State, nat) {
    if files == [] then (s, 0)
    else
      var (s1, n) := RouteAll(c, s, files[..|files| - 1], fault);
      var (s2, delivered) := RouteStep(c, s1, files[|files| - 1], fault(files[|files| - 1]));
      (s2, if delivered then n + 1 else n)
  }

  // ---------------------------------------------------------------- the router

  class Mailboxes {
    const isCommand: IsCommand
    var outbox: map<Slot, OutFile>
    var inbox: map<Slot, Message>
    var archive: map<Slot, Message>
    var quarantine: map<Slot, OutFile>

    ghost function Model(): State
      reads this
    {
      State(outbox, inbox, archive, quarantine)
    }

    constructor (isCommand: IsCommand)
      ensures this.isCommand == isCommand && Model() == State(map[], map[], map[], map[])
    {
      this.isCommand := isCommand;
      outbox, inbox, archive, quarantine := map[], map[], map[], map[];
    }

    /** A send that no router polls meanwhile. */
    method Send(m: Message, write: Write) returns (ok: bool)
      modifies this`outbox
      ensures (Model(), ok) == SendStep(isCommand, old(Model()), m, write)
    {
      if !Valid(m) { return false; }
      var msg, box := m, m.from;
      if isCommand(m.body) {
        msg := SendIntercepted(m);
        box := OPERATOR;
      }
      if write.OpenFails? { return false; }
      outbox := outbox[Slot(box, msg.id) := Torn];
      if write.WriteFails? { return false; }
      outbox := outbox[Slot(box, msg.id) := Whole(msg)];
      return true;
    }

    method QuarantineUnparseable(file: Slot, fault: Fault)
      requires file in outbox
      modifies this`outbox, this`quarantine
      ensures Model() == SetAside(old(Model()), file, fault)
    {
      if !fault.StaysUnread? {
        quarantine := quarantine[file := outbox[file]];
        outbox := outbox - {file};
      }
    }

    method RouteFile(file: Slot, fault: Fault) returns (delivered: bool)
      modifies this`outbox, this`inbox, this`quarantine
      ensures (Model(), delivered) == RouteStep(isCommand, old(Model()), file, fault)
    {
      if file !in outbox { return false; }
      if fault.ReadFails? || fault.StaysUnread? || outbox[file].Torn? || !Valid(outbox[file].msg) {
        QuarantineUnparseable(file, fault);
        return false;
      }
      var msg := outbox[file].msg;
      var recipient := msg.to;
      if |Pending(inbox, recipient)| >= INBOX_CAP { return false; }
      if isCommand(msg.body) {
        if fault.TearRewrite? {
          outbox := outbox[file := Torn];
          return false;
        }
        msg := RouterIntercepted(msg);
        recipient := OPERATOR;
      }
      outbox := outbox[file := Whole(msg)];
      if fault.DeliverFails? { return false; }
      inbox := inbox[Slot(recipient, msg.id) := msg];
      if !fault.UnlinkFails? { outbox := outbox - {file}; }
      return true;
    }

    method RouteCycle(files: seq<Slot>, fault: Slot -> Fault) returns (delivered: nat)
      modifies this`outbox, this`inbox, this`quarantine
      ensures (Model(), delivered) == RouteAll(isCommand, old(Model()), files, fault)
    {
      delivered := 0;
      for i := 0 to |files|
        invariant (Model(), delivered) == RouteAll(isCommand, old(Model()), files[..i], fault)
      {
        assert files[..i + 1][..i] == files[..i];
        var one := RouteFile(files[i], fault(files[i]));
        if one { delivered := delivered + 1; }
      }
      assert files[..|files|] == files;
    }

    method ArchiveMessage(file: Slot, moved: bool)
      modifies this`inbox, this`archive
      ensures Model() == ArchiveStep(old(Model()), file, moved)
    {
      if file in inbox && moved {
        archive := archive[file := inbox[file]];
        inbox := inbox - {file};
      }
    }
  }
}
