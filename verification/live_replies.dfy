/** What the owner answers in the live-state protocol: an acknowledgement exactly when the command it answers was
    carried out, an error exactly when it was not. */
module LiveReplies {
  import opened Types
  import opened Browser
  import opened Bridge
  import opened LiveState
  import ArchiveTransfer
  import Controller
  import Dispatcher
  import LiveAnswers
  import Transport

  /** One answer as it was worked out: the request, the event, what the dispatcher had just carried out if the answer
      completes a command, and whether the same turn queued anything. */
  datatype Reply = Reply(request: Bridge.Request, event: Event, ran: Option<Dispatcher.Done>, queued: bool)

  /** The answers among scheduled blocks, oldest first. */
  function AnswersIn(pending: seq<Out>): seq<(Bridge.Request, Event)>
  {
    if pending == [] then []
    else (if pending[0].Answer? then [(pending[0].request, pending[0].event)] else []) + AnswersIn(pending[1..])
  }

  function Newest(applied: seq<Dispatcher.Done>): Option<Dispatcher.Done>
  {
    if applied == [] then None else Some(applied[|applied| - 1])
  }

  function Named(answers: seq<(Bridge.Request, Event)>, ran: Option<Dispatcher.Done>, queued: bool): (s: seq<Reply>)
    ensures |s| == |answers|
    ensures forall i :: 0 <= i < |s| ==> s[i] == Reply(answers[i].0, answers[i].1, ran, queued)
  {
    seq(|answers|, i requires 0 <= i < |answers| => Reply(answers[i].0, answers[i].1, ran, queued))
  }

  /** The answers a step works out. Calls of the HTTP task and the sending of a block work out none. */
  function StepReplies(w: World, step: Step): seq<Reply>
    requires Enabled(w, step)
  {
    if step.HttpWork? || step.EmitNext? then []
    else
      var n := Next(w, step);
      Named(AnswersIn(n.b.pending), if step.RunNext? then Newest(n.d.applied) else None, n.d.submitted != w.d.submitted)
  }

  function Replies(w: World, steps: seq<Step>): seq<Reply>
    decreases |steps|
  {
    if steps == [] then []
    else if Enabled(w, steps[0]) then StepReplies(w, steps[0]) + Replies(Next(w, steps[0]), steps[1..])
    else Replies(w, steps[1..])
  }

  /** The dispatcher carried out this command, for a client, and it took effect or had none to take. */
  predicate CarriedOut(ran: Option<Dispatcher.Done>)
  {
    ran.Some? && (ran.value.result.status == Dispatcher.Applied || ran.value.result.status == Dispatcher.NoChange)
  }

  /** What an answer must be. A command is acknowledged if and only if it was carried out, and gets an error if and only
      if it was refused without being queued, or carried out with another end; the command that ran is the client's
      own. An archive request gets its own kind of answer, and what ran for it is a replacement. */
  predicate Lawful(x: Reply)
  {
    && x.request.body.Asked? && x.event.id == x.request.id && x.event.sequence != 0
    && (x.ran.Some? ==> x.ran.value.entry.order.source.External?)
    && (x.ran.None? ==> !x.queued)
    && match x.request.body.ask
       case CommandAsk(command) =>
         && (x.event.kind == Ack <==> CarriedOut(x.ran)) && (x.event.kind == Error <==> !CarriedOut(x.ran))
         && (x.ran.Some? ==> x.ran.value.entry.order.command == command)
       case ArchiveAsk(_) =>
         x.event.kind == ArchiveResult && (x.ran.Some? ==> x.ran.value.entry.order.command.ReplaceCmd?)
       case SideAsk(side, _) => x.ran.None? && (x.event.kind == Sided(side) || x.event.kind == Error)
       case StateAsk => false
  }

  ghost predicate AllLawful(replies: seq<Reply>)
  {
    forall i :: 0 <= i < |replies| ==> Lawful(replies[i])
  }

  // ---------------------------------------------------------------------------------------
  // The command in flight is the client's own

  function ExternalCommands(queue: seq<Dispatcher.Entry>): seq<Controller.Command>
  {
    if queue == [] then []
    else (if queue[0].order.source.External? then [queue[0].order.command] else []) + ExternalCommands(queue[1..])
  }

  lemma Together<T>(a: seq<T>, b: seq<T>, c: seq<T>)
    ensures a + b + c == a + (b + c)
  {
  }

  lemma {:induction false} ExternalCommandsAppend(queue: seq<Dispatcher.Entry>, entry: Dispatcher.Entry)
    ensures ExternalCommands(queue + [entry]) ==
              ExternalCommands(queue) + if entry.order.source.External? then [entry.order.command] else []
  {
    if queue == [] {
      assert [] + [entry] == [entry];
    } else {
      assert (queue + [entry])[1..] == queue[1..] + [entry] && (queue + [entry])[0] == queue[0];
      ExternalCommandsAppend(queue[1..], entry);
      Together(if queue[0].order.source.External? then [queue[0].order.command] else [], ExternalCommands(queue[1..]),
               if entry.order.source.External? then [entry.order.command] else []);
    }
  }

  /** What was queued for a request. */
  predicate QueuedFor(r: Bridge.Request, commands: seq<Controller.Command>)
  {
    && |commands| == 1 && r.body.Asked?
    && match r.body.ask
       case CommandAsk(command) => commands[0] == command
       case ArchiveAsk(_) => commands[0].ReplaceCmd?
       case _ => false
  }

  predicate FlightIsOwn(w: World)
  {
    w.b.flight.Some? ==> QueuedFor(w.b.flight.value.request, ExternalCommands(w.d.queue))
  }

  lemma SubmitCommands(d: Dispatcher.World, order: Dispatcher.Order)
    ensures var (e, status, ticket) := Dispatcher.Submit(d, order);
            && ExternalCommands(e.queue) == ExternalCommands(d.queue)
                 + (if status == Dispatcher.Accepted && order.source.External? then [order.command] else [])
            && (status != Dispatcher.Accepted ==> e == d)
            && e.applied == d.applied
  {
    hide Dispatcher.Validate, ExternalCommands;
    var (e, status, ticket) := Dispatcher.Submit(d, order);
    if status == Dispatcher.Accepted {
      ExternalCommandsAppend(d.queue, Dispatcher.Entry(order, ticket));
    } else {
      assert ExternalCommands(d.queue) + [] == ExternalCommands(d.queue);
    }
  }

  // ---------------------------------------------------------------------------------------
  // The answers of each step

  lemma {:induction false} AnswersAppend1(pending: seq<Out>, o: Out)
    ensures AnswersIn(pending + [o]) == AnswersIn(pending) + if o.Answer? then [(o.request, o.event)] else []
  {
    if pending == [] {
      assert [] + [o] == [o];
    } else {
      assert (pending + [o])[1..] == pending[1..] + [o] && (pending + [o])[0] == pending[0];
      AnswersAppend1(pending[1..], o);
      Together(if pending[0].Answer? then [(pending[0].request, pending[0].event)] else [], AnswersIn(pending[1..]),
               if o.Answer? then [(o.request, o.event)] else []);
    }
  }

  /** Blocks that are not answers leave the answers alone. */
  lemma QueuedNoAnswer(b: Bridge.State, o: Out)
    requires !o.Answer?
    ensures AnswersIn(Queued(b, o).pending) == AnswersIn(b.pending)
  {
    AnswersAppend1(b.pending, o);
    assert AnswersIn(b.pending) + [] == AnswersIn(b.pending);
  }

  lemma {:induction false} SideNewsAnswersNothing(b: Bridge.State, news: seq<(Side, nat)>)
    ensures AnswersIn(SideNews(b, news).pending) == AnswersIn(b.pending)
    decreases |news|
  {
    hide AnswersIn;
    if news != [] {
      QueuedNoAnswer(b, Broadcast(SideEvent(b, news[0].0, 0, news[0].1, Plain), Some(news[0].0)));
      SideNewsAnswersNothing(SideTold(b, news[0].0, news[0].1), news[1..]);
    }
  }

  lemma AnnouncedAnswersNothing(b: Bridge.State, c: Controller.State, kind: Kind)
    ensures AnswersIn(Announced(b, c, kind).pending) == AnswersIn(b.pending)
  {
    hide AnswersIn, Made;
    QueuedNoAnswer(b, Broadcast(Made(b, c, kind, 0), None));
  }

  lemma SnapshottedAnswersNothing(b: Bridge.State, c: Controller.State, r: Bridge.Request, inspected: seq<Byte>)
    requires b.pending == []
    ensures AnswersIn(Snapshotted(b, c, r, inspected).pending) == []
  {
    hide AnswersIn, Made, Announced;
    var hello := if r.body.Greeting? then Some(Made(b, c, Hello, 0)) else None;
    var current := Refreshed(if r.body.Greeting? then Counted(b) else b, inspected);
    var told := if current.presets != b.presets then Announced(current, c, Universe) else current;
    AnnouncedAnswersNothing(current, c, Universe);
    QueuedNoAnswer(told, Deliver(r, hello, Made(told, c, Snapshot, r.id)));
    assert AnswersIn([]) == [] by { NoBlocksNoAnswers(); }
  }

  lemma NoBlocksNoAnswers()
    ensures AnswersIn([]) == []
  {
  }

  lemma RepliedAnswers(b: Bridge.State, c: Controller.State, r: Bridge.Request, kind: Kind)
    ensures var e := Made(b, c, kind, r.id);
            && AnswersIn(Replied(b, c, r, kind).pending) == AnswersIn(b.pending) + [(r, e)]
            && e.kind == kind && e.id == r.id && e.sequence != 0
  {
    hide AnswersIn;
    AnswersAppend1(b.pending, Answer(r, Made(b, c, kind, r.id)));
  }

  lemma PrepareAnswersNothing(w: World, sender: bool, blocked: bool, now: U32, news: seq<(Side, nat)>)
    requires w.b.pending == []
    ensures AnswersIn(Prepare(w, sender, blocked, now, news).b.pending) == []
  {
    hide AnswersIn, SideNews, Announced, TransferOver, ArchiveTransfer.Aborted;
    var s := if TransferOver(w, sender, blocked, now) then AbortArchive(w) else w;
    SideNewsAnswersNothing(w.b, news);
    AnnouncedAnswersNothing(SideNews(w.b, news).(sender := sender), s.d.c, ModeUpdate);
    NoBlocksNoAnswers();
  }

  /** One answer, worked out in this turn without anything being queued or carried out, or none. */
  ghost predicate ServedLawfully(w: World, e: World, r: Bridge.Request)
  {
    && FlightIsOwn(e)
    && var answers := AnswersIn(e.b.pending);
       && (answers == [] || (|answers| == 1 && answers[0].0 == r && Lawful(Reply(r, answers[0].1, None, false))))
       && (answers != [] ==> e.d.submitted == w.d.submitted && e.d.applied == w.d.applied)
  }

  lemma SubmitForAnswers(w: World, s: World, r: Bridge.Request, command: Controller.Command)
    requires s.b.pending == [] && s.b.flight.None? && ExternalCommands(s.d.queue) == [] && QueuedFor(r, [command])
    requires s.d.submitted == w.d.submitted && s.d.applied == w.d.applied
    ensures ServedLawfully(w, SubmitFor(s, r, command), r)
  {
    hide AnswersIn, ExternalCommands, Dispatcher.Submit, Made, ArchiveTransfer.Aborted;
    var id := NextInternal(s.b.internalId);
    var order := Dispatcher.Order(command, Dispatcher.External, id);
    SubmitCommands(s.d, order);
    NoBlocksNoAnswers();
    var (d, status, ticket) := Dispatcher.Submit(s.d, order);
    if status != Dispatcher.Accepted {
      RefusedStatus(s.d, order);
      RepliedAnswers(s.b.(internalId := id), d.c, r, ReplyKind(r, status));
    }
  }

  lemma RefusedStatus(d: Dispatcher.World, order: Dispatcher.Order)
    ensures var status := Dispatcher.Submit(d, order).1;
            status in {Dispatcher.Accepted, Dispatcher.Busy, Dispatcher.Invalid, Dispatcher.UnsupportedMode}
  {
    hide Dispatcher.WellFormed;
  }

  lemma ServeSideAnswers(w: World, s: World, r: Bridge.Request, side: Side, subscribes: bool, turn: Turn)
    requires s.b.pending == [] && s.b.flight.None? && s.d == w.d && r.body == Asked(SideAsk(side, subscribes))
    ensures ServedLawfully(w, ServeSide(s, r, side, subscribes, turn), r)
  {
    hide AnswersIn, ExternalCommands, Made, SideNews, Verdict;
    NoBlocksNoAnswers();
    if turn.committed && side.Settings? && !subscribes {
      RepliedAnswers(s.b, s.d.c, r, Error);
    } else {
      var b := if subscribes then Queued(s.b, Subscribe(r.token, side)) else s.b;
      QueuedNoAnswer(s.b, Subscribe(r.token, side));
      SideNewsAnswersNothing(b, turn.news);
      var told := SideNews(b, turn.news);
      SideNewsKeepsFlight(b, turn.news);
      var outcome := Verdict(s.b.clients, r.token, side, subscribes, turn.sideCode);
      AnswersAppend1(told.pending, Answer(r, SideEvent(told, side, r.id, turn.sideRevision, outcome)));
    }
  }

  lemma {:induction false} SideNewsKeepsFlight(b: Bridge.State, news: seq<(Side, nat)>)
    ensures SideNews(b, news).flight == b.flight
    decreases |news|
  {
    if news != [] { SideNewsKeepsFlight(SideTold(b, news[0].0, news[0].1), news[1..]); }
  }

  lemma ServeArchiveAnswers(w: World, s: World, r: Bridge.Request, op: ArchiveTransfer.Op, turn: Turn)
    requires s.b.pending == [] && s.b.flight.None? && s.d == w.d && r.body == Asked(ArchiveAsk(op))
    requires ExternalCommands(s.d.queue) == []
    ensures ServedLawfully(w, ServeArchive(s, r, op, turn), r)
  {
    hide AnswersIn, ExternalCommands, Made, ArchiveTransfer.Handle, SubmitFor, Dispatcher.Submit;
    NoBlocksNoAnswers();
    var (a, c, answer) := ArchiveTransfer.Handle(s.a, s.d.c, op, r.token.generation, turn.archive);
    var t := s.(a := a, d := s.d.(c := c));
    if !s.b.sender || turn.blocked {
      RepliedAnswers(s.b, s.d.c, r, ArchiveResult);
    } else if answer.Submit? {
      SubmitForAnswers(w, t, r, Controller.ReplaceCmd(answer.archiveToken));
    } else {
      RepliedAnswers(s.b, c, r, ArchiveResult);
    }
  }

  lemma DealtAnswers(w: World, s: World, r: Bridge.Request, turn: Turn)
    requires s.b.pending == [] && s.b.flight.None? && s.d == w.d && ExternalCommands(s.d.queue) == []
    ensures ServedLawfully(w, Dealt(s, r, turn), r)
  {
    hide AnswersIn, ExternalCommands, Made, ServeArchive, ServeSide, SubmitFor, Snapshotted;
    NoBlocksNoAnswers();
    if r.body.Greeting? || r.body.ask.StateAsk? {
      SnapshottedAnswersNothing(s.b, s.d.c, r, turn.inspected);
      SnapshotKeepsFlight(s.b, s.d.c, r, turn.inspected);
    } else {
      match r.body.ask
      case ArchiveAsk(op) => ServeArchiveAnswers(w, s, r, op, turn);
      case SideAsk(side, subscribes) => ServeSideAnswers(w, s, r, side, subscribes, turn);
      case CommandAsk(command) =>
        if turn.committed { RepliedAnswers(s.b, s.d.c, r, Error); } else { SubmitForAnswers(w, s, r, command); }
    }
  }

  lemma SnapshotKeepsFlight(b: Bridge.State, c: Controller.State, r: Bridge.Request, inspected: seq<Byte>)
    ensures Snapshotted(b, c, r, inspected).flight == b.flight
  {
    hide Made;
  }

  lemma {:induction false} OneCommandEach(queue: seq<Dispatcher.Entry>)
    ensures |ExternalCommands(queue)| == |External(queue)|
  {
    if queue != [] { OneCommandEach(queue[1..]); }
  }

  lemma NoneQueuedWithoutFlight(w: World)
    requires Inv(w) && w.b.flight.None?
    ensures ExternalCommands(w.d.queue) == []
  {
    hide BridgeOk, ShownAtEnd, Dispatcher.Inv, External, ExternalCommands;
    OneCommandEach(w.d.queue);
  }

  lemma ServeAnswers(w: World, turn: Turn)
    requires Inv(w) && w.b.pending == [] && w.b.flight.None? && w.b.inbox != []
    ensures ServedLawfully(w, Serve(w, turn), w.b.inbox[0])
  {
    hide AnswersIn, ExternalCommands, Dealt, Inv;
    NoneQueuedWithoutFlight(w);
    NoBlocksNoAnswers();
    DealtAnswers(w, w.(b := Popped(w.b)), w.b.inbox[0], turn);
  }

  // ---------------------------------------------------------------------------------------
  // Completion

  lemma PublishedAnswersNothing(b: Bridge.State, c: Controller.State, command: Controller.Command,
                                result: Dispatcher.Result, inspected: seq<Byte>)
    requires b.pending == []
    ensures var p := PublishedAfter(b, c, command, result, inspected);
            AnswersIn(p.pending) == [] && p.flight == b.flight
  {
    hide AnswersIn, Made, ChannelEvent, LiveState.Publishes, Announced;
    NoBlocksNoAnswers();
    var s := if PresetCommand(command) then b.(presetsReady := false) else b;
    if ChannelCommand(command) { QueuedNoAnswer(s, Broadcast(ChannelEvent(s, c, command.channel), None)); }
    AnnouncedAnswersNothing(Refreshed(s, inspected), c, Universe);
    AnnouncedKeepsFlight(Refreshed(s, inspected), c, Universe);
  }

  lemma AnnouncedKeepsFlight(b: Bridge.State, c: Controller.State, kind: Kind)
    ensures Announced(b, c, kind).flight == b.flight
  {
    hide Made;
  }

  lemma ProcessRecords(d: Dispatcher.World, r: Controller.StorageReply)
    requires d.queue != []
    ensures var e := Dispatcher.ProcessOne(d, r);
            && e.queue == d.queue[1..] && e.submitted == d.submitted
            && |e.applied| == |d.applied| + 1 && e.applied[|d.applied|].entry == d.queue[0]
            && d.applied <= e.applied
  {
    hide Controller.Execute, Dispatcher.Validate, Transport.Stage, Transport.StageAllowed, Dispatcher.Verdict;
  }

  /** The command just carried out is the one in flight, or the one in flight still waits. */
  lemma HeadIsOwn(w: World)
    requires Inv(w) && FlightIsOwn(w) && w.d.queue != []
    ensures var order := w.d.queue[0].order;
            && (AnswersFlight(w.b, order) ==>
                  order.source.External? && QueuedFor(w.b.flight.value.request, [order.command]))
            && (!AnswersFlight(w.b, order) && w.b.flight.Some? ==>
                  QueuedFor(w.b.flight.value.request, ExternalCommands(w.d.queue[1..])))
  {
    hide BridgeOk, ShownAtEnd, Dispatcher.Inv;
    HeadOfQueue(w.b, w.d.queue);
    var head := if w.d.queue[0].order.source.External? then [w.d.queue[0].order.command] else [];
    assert ExternalCommands(w.d.queue) == head + ExternalCommands(w.d.queue[1..]);
    if head == [] { assert [] + ExternalCommands(w.d.queue[1..]) == ExternalCommands(w.d.queue[1..]); }
  }

  /** What a completed command's turn answers: nothing, or the request in flight, lawfully. */
  ghost predicate CompletedLawfully(w: World, e: World)
  {
    && FlightIsOwn(e) && e.d.submitted == w.d.submitted && w.d.applied <= e.d.applied
    && var answers := AnswersIn(e.b.pending);
       answers == []
       || (|answers| == 1 && w.b.flight.Some? && answers[0].0 == w.b.flight.value.request
           && Newest(e.d.applied).Some? && Lawful(Reply(answers[0].0, answers[0].1, Newest(e.d.applied), false)))
  }

  lemma RunHeadAnswers(w: World, reply: Controller.StorageReply, inspected: seq<Byte>)
    requires Inv(w) && FlightIsOwn(w) && w.b.pending == [] && w.d.queue != []
    ensures CompletedLawfully(w, RunHead(w, reply, inspected))
  {
    hide AnswersIn, ExternalCommands, Made, PublishedAfter, Dispatcher.ProcessOne, Inv, ArchiveTransfer.Aborted,
      AnswersFlight;
    var order := w.d.queue[0].order;
    ProcessRecords(w.d, reply);
    HeadIsOwn(w);
    var d := Dispatcher.ProcessOne(w.d, reply);
    var result := d.applied[|d.applied| - 1].result;
    PublishedAnswersNothing(w.b, d.c, order.command, result, inspected);
    var p := PublishedAfter(w.b, d.c, order.command, result, inspected);
    if AnswersFlight(w.b, order) {
      FlightThere(w.b, order);
      var r := w.b.flight.value.request;
      RepliedAnswers(p.(flight := None), d.c, r, ReplyKind(r, result.status));
    }
  }

  lemma FlightThere(b: Bridge.State, order: Dispatcher.Order)
    requires AnswersFlight(b, order)
    ensures b.flight.Some?
  {
  }

  // ---------------------------------------------------------------------------------------
  // Whole runs

  /** The answer went to the client that asked, under the id it asked with. */
  ghost predicate Has(replies: seq<Reply>, t: Token, e: Event)
  {
    exists j :: 0 <= j < |replies| && replies[j].event == e && replies[j].request.token == t
  }

  /** An owner's answer in a stream, other than a snapshot. */
  predicate IsAnswer(e: Event)
  {
    e.sequence != 0 && e.id != 0 && !e.kind.Snapshot?
  }

  ghost predicate ClientRecorded(c: Client, t: Token, replies: seq<Reply>)
  {
    c.active ==> forall k :: 0 <= k < |c.sent| && IsAnswer(c.sent[k]) ==> Has(replies, t, c.sent[k])
  }

  ghost predicate PendingRecorded(pending: seq<Out>, replies: seq<Reply>)
  {
    forall k :: 0 <= k < |pending| && pending[k].Answer? ==> Has(replies, pending[k].request.token, pending[k].event)
  }

  /** Whatever was answered or is about to be was worked out as one of these replies. */
  ghost predicate Recorded(b: Bridge.State, replies: seq<Reply>)
  {
    && PendingRecorded(b.pending, replies)
    && forall i :: 0 <= i < |b.clients| ==> ClientRecorded(b.clients[i], Token(i, b.clients[i].generation), replies)
  }

  lemma HasMore(a: seq<Reply>, b: seq<Reply>, t: Token, e: Event)
    requires Has(a, t, e)
    ensures Has(a + b, t, e)
  {
    var j :| 0 <= j < |a| && a[j].event == e && a[j].request.token == t;
    assert (a + b)[j] == a[j];
  }

  lemma RecordedMore(b: Bridge.State, replies: seq<Reply>, more: seq<Reply>)
    requires Recorded(b, replies)
    ensures Recorded(b, replies + more)
  {
    hide Has, IsAnswer;
    forall k | 0 <= k < |b.pending| && b.pending[k].Answer?
      ensures Has(replies + more, b.pending[k].request.token, b.pending[k].event)
    {
      HasMore(replies, more, b.pending[k].request.token, b.pending[k].event);
    }
    forall i | 0 <= i < |b.clients|
      ensures ClientRecorded(b.clients[i], Token(i, b.clients[i].generation), replies + more)
    {
      var c, t := b.clients[i], Token(i, b.clients[i].generation);
      assert ClientRecorded(c, t, replies);
      forall k | c.active && 0 <= k < |c.sent| && IsAnswer(c.sent[k]) ensures Has(replies + more, t, c.sent[k]) {
        HasMore(replies, more, t, c.sent[k]);
      }
    }
  }

  lemma PushRecorded(c: Client, t: Token, e: Event, replies: seq<Reply>)
    requires ClientRecorded(c, t, replies) && (IsAnswer(e) ==> Has(replies, t, e))
    ensures ClientRecorded(Push(c, e), t, replies)
  {
    hide Has, IsAnswer;
  }

  lemma HttpRecorded(b: Bridge.State, step: HttpStep, replies: seq<Reply>)
    requires Recorded(b, replies)
    ensures Recorded(Http(b, step), replies)
  {
    hide Has, Judged, FirstFree, PendingRecorded;
    FirstFreeIsFree(b.clients, 0);
    if step.ReceiveStep? && Alive(b.clients, step.from) {
      JudgedRecorded(b.clients[step.from.slot], step.from, step.message, step.at, |b.inbox| < INBOX, replies);
    }
  }

  lemma JudgedRecorded(c: Client, t: Token, m: Message, now: nat, room: bool, replies: seq<Reply>)
    requires c.active && ClientRecorded(c, t, replies)
    ensures ClientRecorded(Judged(c, m, now, room).0, t, replies)
    ensures Judged(c, m, now, room).0.generation == c.generation
  {
    hide Has;
  }

  lemma EmitRecorded(b: Bridge.State, replies: seq<Reply>)
    requires BridgeOk(b) && b.pending != [] && Recorded(b, replies)
    ensures Recorded(Emit(b), replies)
  {
    hide Has, Push, IsAnswer, ClientsOk, Pipe, OutsOk, Advance;
    var o := b.pending[0];
    HeadOk(b);
    assert PendingRecorded(b.pending[1..], replies);
    var after := ClientsAfter(b.clients, o);
    forall i | 0 <= i < |after| ensures ClientRecorded(after[i], Token(i, after[i].generation), replies) {
      OneRecorded(b.clients, i, o, b.shown, b.bound, replies);
    }
  }

  lemma HeadOk(b: Bridge.State)
    requires BridgeOk(b) && b.pending != []
    ensures OutOk(b.pending[0], b.shown, b.bound)
  {
    hide ClientsOk, Pipe;
  }

  lemma OneRecorded(clients: seq<Client>, i: nat, o: Out, shown: Shown, bound: nat, replies: seq<Reply>)
    requires i < |clients| && OutOk(o, shown, bound)
    requires ClientRecorded(clients[i], Token(i, clients[i].generation), replies)
    requires o.Answer? ==> Has(replies, o.request.token, o.event)
    ensures var c := ClientsAfter(clients, o)[i];
            c.generation == clients[i].generation && ClientRecorded(c, Token(i, c.generation), replies)
  {
    hide Has, Advance;
    var c, t := clients[i], Token(i, clients[i].generation);
    match o
    case Broadcast(e, _) => PushRecorded(c, t, e, replies);
    case Subscribe(_, _) =>
    case Deliver(_, hello, e) => DeliveredRecorded(c, t, hello, e, replies);
    case Answer(r, e) =>
      if Alive(clients, r.token) && r.token.slot == i { PushRecorded(Settled(c), t, e, replies); }
  }

  lemma DeliveredRecorded(c: Client, t: Token, hello: Option<Event>, e: Event, replies: seq<Reply>)
    requires ClientRecorded(c, t, replies) && e.kind.Snapshot? && (hello.Some? ==> hello.value.id == 0)
    ensures Delivered(c, hello, e).generation == c.generation
    ensures ClientRecorded(Delivered(c, hello, e), t, replies)
  {
    hide Has;
    if hello.Some? { PushRecorded(c, t, hello.value, replies); }
    var g := if hello.Some? then Push(c, hello.value) else c;
    PushRecorded(g, t, e, replies);
  }

  lemma {:induction false} AnswersAreBlocks(pending: seq<Out>, replies: seq<Reply>, ran: Option<Dispatcher.Done>,
                                            queued: bool)
    requires Named(AnswersIn(pending), ran, queued) <= replies
    ensures PendingRecorded(pending, replies)
  {
    if pending != [] {
      var rest := AnswersIn(pending[1..]);
      forall k | 0 <= k < |pending| && pending[k].Answer?
        ensures Has(replies, pending[k].request.token, pending[k].event)
      {
        var j := AnswerAt(pending, k);
        assert replies[j] == Named(AnswersIn(pending), ran, queued)[j];
      }
    }
  }

  lemma {:induction false} AnswerAt(pending: seq<Out>, k: nat) returns (j: nat)
    requires k < |pending| && pending[k].Answer?
    ensures j < |AnswersIn(pending)| && AnswersIn(pending)[j] == (pending[k].request, pending[k].event)
    decreases |pending|
  {
    if k == 0 {
      j := 0;
    } else {
      var i := AnswerAt(pending[1..], k - 1);
      j := i + if pending[0].Answer? then 1 else 0;
    }
  }

  /** What the run has recorded so far about one reply stays true of the dispatcher's record. */
  ghost predicate RanForReal(replies: seq<Reply>, applied: seq<Dispatcher.Done>)
  {
    forall j :: 0 <= j < |replies| && replies[j].ran.Some? ==> replies[j].ran.value in applied
  }

  lemma OwnerStep(w: World, step: Step)
    requires Inv(w) && FlightIsOwn(w) && Enabled(w, step) && !step.HttpWork? && !step.EmitNext?
    ensures var n := Next(w, step);
            FlightIsOwn(n) && w.d.applied <= n.d.applied && AllLawful(StepReplies(w, step))
            && RanForReal(StepReplies(w, step), n.d.applied)
  {
    hide Inv, Serve, RunHead, Prepare, AnswersIn, ExternalCommands, Lawful, Dispatcher.Submit, Transport.Apply,
      Dispatcher.HeadRuns;
    NoBlocksNoAnswers();
    match step
    case PrepareTurn(sender, blocked, now, news) =>
      PrepareAnswersNothing(w, sender, blocked, now, news);
      PrepareKeepsFlight(w, sender, blocked, now, news);
    case ServeNext(turn) =>
      ServeAnswers(w, turn);
      ServeKeepsApplied(w, turn);
    case SubmitLocal(order) => SubmitCommandsLocal(w.d, order);
    case RunNext(reply, inspected) =>
      HeadThere(w.d);
      RunHeadAnswers(w, reply, inspected);
    case SetSenderActive(_) =>
    case TransportWork(_) =>
  }

  lemma HeadThere(d: Dispatcher.World)
    requires Dispatcher.HeadRuns(d)
    ensures d.queue != []
  {
  }

  lemma SubmitCommandsLocal(d: Dispatcher.World, order: Dispatcher.Order)
    requires !order.source.External?
    ensures var e := Dispatcher.Submit(d, order).0;
            ExternalCommands(e.queue) == ExternalCommands(d.queue) && e.applied == d.applied
  {
    hide ExternalCommands, Dispatcher.Submit;
    SubmitCommands(d, order);
    assert ExternalCommands(d.queue) + [] == ExternalCommands(d.queue);
  }

  lemma PrepareKeepsFlight(w: World, sender: bool, blocked: bool, now: U32, news: seq<(Side, nat)>)
    ensures var n := Prepare(w, sender, blocked, now, news);
            n.b.flight == w.b.flight && n.d.queue == w.d.queue && n.d.applied == w.d.applied
            && n.d.submitted == w.d.submitted
  {
    hide SideNews, Made, TransferOver, ArchiveTransfer.Aborted;
    SideNewsKeepsFlight(w.b, news);
  }

  lemma ServeKeepsApplied(w: World, turn: Turn)
    requires w.b.inbox != []
    ensures Serve(w, turn).d.applied == w.d.applied
  {
    hide Made, SideNews, ArchiveTransfer.Handle, ArchiveTransfer.Aborted, Dispatcher.Submit, Snapshotted,
      ExternalCommands;
    var r := w.b.inbox[0];
    var id := NextInternal(w.b.internalId);
    if r.body.Asked? && r.body.ask.CommandAsk? {
      SubmitCommands(w.d, Dispatcher.Order(r.body.ask.command, Dispatcher.External, id));
    }
    if r.body.Asked? && r.body.ask.ArchiveAsk? {
      var (a, c, answer) := ArchiveTransfer.Handle(w.a, w.d.c, r.body.ask.op, r.token.generation, turn.archive);
      if answer.Submit? {
        var order := Dispatcher.Order(Controller.ReplaceCmd(answer.archiveToken), Dispatcher.External, id);
        SubmitCommands(w.d.(c := c), order);
      }
    }
  }

  /** One step: its replies are lawful, whatever ran for them is in the dispatcher's record, and every answer that goes
      out or is scheduled is one of them. */
  lemma StepRecorded(w: World, step: Step, before: seq<Reply>)
    requires Inv(w) && FlightIsOwn(w) && Enabled(w, step) && Recorded(w.b, before) && RanForReal(before, w.d.applied)
    ensures var n := Next(w, step);
            && FlightIsOwn(n) && AllLawful(StepReplies(w, step))
            && Recorded(n.b, before + StepReplies(w, step)) && RanForReal(before + StepReplies(w, step), n.d.applied)
  {
    hide Inv, Http, Emit, Serve, RunHead, Prepare, Has, ClientRecorded, AnswersIn, Lawful, ExternalCommands,
      Dispatcher.Submit, Transport.Apply, Dispatcher.HeadRuns, BridgeOk;
    var more := StepReplies(w, step);
    if step.HttpWork? {
      HttpRecorded(w.b, step.http, before);
      HttpIsBlind(w.b, step.http);
      assert before + more == before;
    } else if step.EmitNext? {
      InvBridge(w);
      EmitRecorded(w.b, before);
      EmitShows(w.b);
      assert before + more == before;
    } else {
      OwnerStep(w, step);
      OwnerRecorded(w, step, before);
    }
  }

  lemma InvBridge(w: World)
    requires Inv(w)
    ensures BridgeOk(w.b)
  {
  }

  lemma OwnerRecorded(w: World, step: Step, before: seq<Reply>)
    requires Enabled(w, step) && !step.HttpWork? && !step.EmitNext? && Recorded(w.b, before)
    ensures Recorded(Next(w, step).b, before + StepReplies(w, step))
  {
    hide Next, Enabled, Has, AnswersIn;
    var n, more := Next(w, step), StepReplies(w, step);
    LiveAnswers.OwnerLeavesClients(w, step);
    RecordedMore(w.b, before, more);
    var ran := if step.RunNext? then Newest(n.d.applied) else None;
    AnswersAreBlocks(n.b.pending, more, ran, n.d.submitted != w.d.submitted);
    forall k | 0 <= k < |n.b.pending| && n.b.pending[k].Answer?
      ensures Has(before + more, n.b.pending[k].request.token, n.b.pending[k].event)
    {
      HasAfter(before, more, n.b.pending[k].request.token, n.b.pending[k].event);
    }
  }

  lemma HasAfter(a: seq<Reply>, b: seq<Reply>, t: Token, e: Event)
    requires Has(b, t, e)
    ensures Has(a + b, t, e)
  {
    var j :| 0 <= j < |b| && b[j].event == e && b[j].request.token == t;
    assert (a + b)[|a| + j] == b[j];
  }

  lemma {:induction false} RunRecorded(w: World, steps: seq<Step>, before: seq<Reply>)
    requires Inv(w) && FlightIsOwn(w) && Recorded(w.b, before) && RanForReal(before, w.d.applied) && AllLawful(before)
    ensures var e := Run(w, steps);
            var all := before + Replies(w, steps);
            Recorded(e.b, all) && RanForReal(all, e.d.applied) && AllLawful(all)
    decreases |steps|
  {
    hide Inv, Next, Enabled, Recorded, RanForReal, FlightIsOwn, StepReplies, Lawful;
    if steps == [] {
      assert before + [] == before;
    } else if Enabled(w, steps[0]) {
      StepKeepsInv(w, steps[0]);
      StepRecorded(w, steps[0], before);
      var more := StepReplies(w, steps[0]);
      RunRecorded(Next(w, steps[0]), steps[1..], before + more);
      assert before + more + Replies(Next(w, steps[0]), steps[1..]) == before + Replies(w, steps);
    } else {
      RunRecorded(w, steps[1..], before);
    }
  }

  /** Over every run from power-up, every answer in every client's stream is one of the replies worked out in that run
      for that very client, and each of these is lawful: in particular a command's answer is an acknowledgement if
      and only if the dispatcher's record holds that command of that client, carried out with effect or with none
      to take, and an error if and only if it was refused or ended otherwise. */
  lemma AnswersTellTheTruth(w: World, steps: seq<Step>, slot: nat, k: nat)
    requires Initial(w) && slot < MAX_CLIENTS
    ensures var e := Run(w, steps);
            |e.b.clients| == MAX_CLIENTS &&
            var c := e.b.clients[slot];
            c.active && k < |c.sent| && IsAnswer(c.sent[k]) ==>
              exists x :: x in Replies(w, steps) && x.event == c.sent[k] && Lawful(x)
                          && x.request.token == Token(slot, c.generation) && x.request.id == c.sent[k].id
                          && (x.ran.Some? ==> x.ran.value in e.d.applied)
  {
    hide Run, Lawful, Replies, BridgeOk, Dispatcher.Inv;
    EveryBrowserIsAReplica(w, steps);
    InitialInv(w);
    assert FlightIsOwn(w) && Recorded(w.b, []);
    RunRecorded(w, steps, []);
    var e := Run(w, steps);
    var all := Replies(w, steps);
    assert [] + all == all;
    var c := e.b.clients[slot];
    if c.active && k < |c.sent| && IsAnswer(c.sent[k]) {
      assert Has(all, Token(slot, c.generation), c.sent[k]);
      var j :| 0 <= j < |all| && all[j].event == c.sent[k] && all[j].request.token == Token(slot, c.generation);
      assert Lawful(all[j]);
      LawfulId(all[j]);
      assert all[j] in all;
    }
  }

  lemma LawfulId(x: Reply)
    requires Lawful(x)
    ensures x.event.id == x.request.id
  {
  }
}
