/** The archive transfer inside the live-state protocol: with any clients interleaved, what an import
    stores is what its owner uploaded, unless a preset was written meanwhile. */
module LiveTransfer {
  import opened Types
  import opened Browser
  import opened Bridge
  import opened LiveState
  import ArchiveTransfer
  import Controller
  import Dispatcher
  import PresetArchive
  import Transport

  ghost predicate InboxDecoded(inbox: seq<Bridge.Request>)
  {
    forall i :: 0 <= i < |inbox| ==> inbox[i].body.Asked? ==> DecodedAsk(inbox[i].body.ask)
  }

  ghost predicate TransferInv(w: World)
  {
    InboxDecoded(w.b.inbox) && ArchiveTransfer.Inv(ArchiveTransfer.World(w.a, w.d.c))
  }

  lemma AbortKeepsTransfer(a: ArchiveTransfer.State, c: Controller.State)
    requires ArchiveTransfer.Inv(ArchiveTransfer.World(a, c))
    ensures ArchiveTransfer.Inv(ArchiveTransfer.World(ArchiveTransfer.Aborted(a), Controller.Discarded(c)))
  {
  }

  lemma HandleKeepsTransfer(a: ArchiveTransfer.State, c: Controller.State, op: ArchiveTransfer.Op, generation: nat,
                            env: ArchiveTransfer.Env)
    requires ArchiveTransfer.Inv(ArchiveTransfer.World(a, c)) && ArchiveTransfer.Decodable(op)
    ensures var (e, d, answer) := ArchiveTransfer.Handle(a, c, op, generation, env);
            ArchiveTransfer.Inv(ArchiveTransfer.World(e, d))
  {
    hide ArchiveTransfer.Inv, ArchiveTransfer.Handle;
    ArchiveTransfer.HandleKeepsInv(ArchiveTransfer.World(a, c), op, generation, env);
  }

  lemma SubmitKeepsController(d: Dispatcher.World, order: Dispatcher.Order)
    ensures Dispatcher.Submit(d, order).0.c == d.c
  {
  }

  lemma SubmitForKeepsTransfer(w: World, r: Bridge.Request, command: Controller.Command)
    requires TransferInv(w)
    ensures TransferInv(SubmitFor(w, r, command))
  {
    hide ArchiveTransfer.Inv, Dispatcher.Submit, ArchiveTransfer.Aborted;
    SubmitKeepsController(w.d, Dispatcher.Order(command, Dispatcher.External, NextInternal(w.b.internalId)));
    AbortKeepsTransfer(w.a, w.d.c);
  }

  lemma ServeKeepsTransfer(w: World, turn: Turn)
    requires TransferInv(w) && w.b.inbox != []
    ensures TransferInv(Serve(w, turn))
  {
    hide ArchiveTransfer.Inv, ArchiveTransfer.Handle, SubmitFor, SideNews, Made;
    var r := w.b.inbox[0];
    var s := w.(b := Popped(w.b));
    assert TransferInv(s) by { assert forall i :: 0 <= i < |s.b.inbox| ==> s.b.inbox[i] == w.b.inbox[i + 1]; }
    if r.body.Asked? {
      assert DecodedAsk(r.body.ask);
      match r.body.ask
      case StateAsk =>
      case ArchiveAsk(op) =>
        HandleKeepsTransfer(w.a, w.d.c, op, r.token.generation, turn.archive);
        var (a, c, answer) := ArchiveTransfer.Handle(w.a, w.d.c, op, r.token.generation, turn.archive);
        if answer.Submit? {
          SubmitForKeepsTransfer(s.(a := a, d := w.d.(c := c)), r, Controller.ReplaceCmd(answer.archiveToken));
        }
      case SideAsk(side, subscribes) =>
        SideNewsIsOwners(if subscribes then Queued(s.b, Subscribe(r.token, side)) else s.b, turn.news);
      case CommandAsk(command) => SubmitForKeepsTransfer(s, r, command);
    }
  }

  lemma CompletedShape(w: World, order: Dispatcher.Order, result: Dispatcher.Result, inspected: seq<Byte>)
    ensures var e := Completed(w, order, result, inspected);
            && e.b.inbox == w.b.inbox
            && ((e.a == w.a && e.d == w.d) || (e.a == AbortArchive(w).a && e.d == AbortArchive(w).d))
  {
    hide ArchiveTransfer.Aborted, Made, Publishes, ChannelEvent, AnswersFlight;
  }

  lemma RunHeadKeepsTransfer(w: World, reply: Controller.StorageReply, inspected: seq<Byte>)
    requires TransferInv(w) && w.d.queue != []
    ensures TransferInv(RunHead(w, reply, inspected))
  {
    hide ArchiveTransfer.Inv, Dispatcher.Apply, Controller.Execute, ArchiveTransfer.Aborted, Completed;
    var entry := w.d.queue[0];
    ApplyShape(w.d.(queue := w.d.queue[1..]), entry, reply);
    ArchiveTransfer.CommandKeepsInv(ArchiveTransfer.World(w.a, w.d.c), entry.order.command, reply);
    var d := Dispatcher.ProcessOne(w.d, reply);
    assert ArchiveTransfer.Inv(ArchiveTransfer.World(w.a, d.c));
    AbortKeepsTransfer(w.a, d.c);
    CompletedShape(w.(d := d), entry.order, d.applied[|d.applied| - 1].result, inspected);
  }

  lemma HttpKeepsInbox(b: Bridge.State, h: HttpStep)
    requires InboxDecoded(b.inbox) && (h.ReceiveStep? && h.message.Decoded? ==> DecodedAsk(h.message.ask))
    ensures InboxDecoded(Http(b, h).inbox)
  {
    hide FirstFree, Push, Arrived, DecodedAsk;
  }

  lemma {:induction false} RunKeepsTransfer(w: World, steps: seq<Step>)
    requires TransferInv(w)
    ensures TransferInv(Run(w, steps))
    decreases |steps|
  {
    hide TransferInv, Http, Emit, Prepare, Serve, RunHead, Dispatcher.Submit, Transport.Apply, Dispatcher.HeadRuns,
      Bridge.BridgeOk;
    if steps != [] {
      if Enabled(w, steps[0]) {
        StepKeepsTransfer(w, steps[0]);
        RunKeepsTransfer(Next(w, steps[0]), steps[1..]);
      } else {
        RunKeepsTransfer(w, steps[1..]);
      }
    }
  }

  lemma StepKeepsTransfer(w: World, step: Step)
    requires TransferInv(w) && Enabled(w, step)
    ensures TransferInv(Next(w, step))
  {
    hide ArchiveTransfer.Inv, Http, Emit, Serve, RunHead, Dispatcher.Submit, Transport.Apply, SideNews,
      ArchiveTransfer.Aborted;
    match step
    case HttpWork(h) => HttpKeepsInbox(w.b, h);
    case EmitNext => EmitShows(w.b);
    case PrepareTurn(sender, blocked, now, news) =>
      AbortKeepsTransfer(w.a, w.d.c);
      SideNewsIsOwners(w.b, news);
    case ServeNext(turn) => ServeKeepsTransfer(w, turn);
    case SubmitLocal(order) => SubmitKeepsController(w.d, order);
    case RunNext(reply, inspected) => RunHeadKeepsTransfer(w, reply, inspected);
    case SetSenderActive(active) =>
    case TransportWork(t) =>
  }

  /** When the device starts no import has begun, and the invariant holds. */
  lemma InitialTransfer(w: World)
    requires Initial(w) && ArchiveTransfer.Unused(ArchiveTransfer.World(w.a, w.d.c))
    ensures TransferInv(w)
  {
    ArchiveTransfer.UnusedInv(ArchiveTransfer.World(w.a, w.d.c));
  }

  /** In the whole protocol, with any clients interleaved: whenever the next queued command gives the
      storage a new content, it is the parse of exactly the chunks accepted from the owner, at
      the preset revision the import began with. */
  lemma ReplacementIsTheUpload(w: World, steps: seq<Step>, reply: Controller.StorageReply, inspected: seq<Byte>)
    requires TransferInv(w)
    ensures var e := Run(w, steps);
            e.d.queue != [] ==>
              var d := RunHead(e, reply, inspected).d.c;
              d.replacements != e.d.c.replacements ==>
                && PresetArchive.Parse(ArchiveTransfer.Flatten(e.a.chunks)) == Some(e.d.c.archive)
                && d.replacements == e.d.c.replacements + [e.d.c.archive]
                && e.d.c.presetRevision == e.a.base
  {
    hide TransferInv, Run, Dispatcher.Apply, Controller.Execute, PresetArchive.Parse, ArchiveTransfer.Flatten,
      PublishedAfter;
    RunKeepsTransfer(w, steps);
    var e := Run(w, steps);
    if e.d.queue != [] {
      var entry := e.d.queue[0];
      ApplyShape(e.d.(queue := e.d.queue[1..]), entry, reply);
      TransferHolds(e);
      ArchiveTransfer.ReplacementIsTheUpload(ArchiveTransfer.World(e.a, e.d.c), [], entry.order.command, reply);
    }
  }

  lemma TransferHolds(w: World)
    requires TransferInv(w)
    ensures ArchiveTransfer.Inv(ArchiveTransfer.World(w.a, w.d.c))
  {
  }

  predicate Onward(w: World, e: World)
  {
    ArchiveTransfer.Onward(ArchiveTransfer.World(w.a, w.d.c), ArchiveTransfer.World(e.a, e.d.c))
  }

  lemma ServeIsOnward(w: World, turn: Turn)
    requires w.b.inbox != []
    ensures Onward(w, Serve(w, turn))
  {
    hide ArchiveTransfer.Handle, Dispatcher.Submit, SideNews, Made, ArchiveTransfer.Erased;
    var r := w.b.inbox[0];
    if r.body.Asked? {
      match r.body.ask
      case ArchiveAsk(op) =>
        ArchiveTransfer.HandleIsOnward(ArchiveTransfer.World(w.a, w.d.c), op, r.token.generation, turn.archive);
        var (a, c, answer) := ArchiveTransfer.Handle(w.a, w.d.c, op, r.token.generation, turn.archive);
        if answer.Submit? {
          SubmitForIsOnward(w.(b := Popped(w.b), a := a, d := w.d.(c := c)), r, answer.archiveToken);
        }
      case CommandAsk(command) =>
        SubmitKeepsController(w.d, Dispatcher.Order(command, Dispatcher.External, NextInternal(w.b.internalId)));
      case _ =>
    }
  }

  lemma SubmitForIsOnward(w: World, r: Bridge.Request, token: nat)
    ensures Onward(w, SubmitFor(w, r, Controller.ReplaceCmd(token)))
  {
    hide Dispatcher.Submit, Made, ArchiveTransfer.Erased;
    var id := NextInternal(w.b.internalId);
    SubmitKeepsController(w.d, Dispatcher.Order(Controller.ReplaceCmd(token), Dispatcher.External, id));
  }

  lemma RunHeadIsOnward(w: World, reply: Controller.StorageReply, inspected: seq<Byte>)
    requires w.d.queue != []
    ensures Onward(w, RunHead(w, reply, inspected))
  {
    hide Dispatcher.Apply, Controller.Execute, ArchiveTransfer.Erased, Completed;
    var entry := w.d.queue[0];
    ApplyShape(w.d.(queue := w.d.queue[1..]), entry, reply);
    Controller.ExecuteKeepsArchive(w.d.c, entry.order.command, reply);
    var d := Dispatcher.ProcessOne(w.d, reply);
    CompletedShape(w.(d := d), entry.order, d.applied[|d.applied| - 1].result, inspected);
  }

  lemma StepIsOnward(w: World, step: Step)
    requires Enabled(w, step)
    ensures Onward(w, Next(w, step))
  {
    hide Http, Emit, Serve, RunHead, Dispatcher.Submit, Transport.Apply, SideNews, ArchiveTransfer.Erased, TransferOver;
    match step
    case ServeNext(turn) => ServeIsOnward(w, turn);
    case SubmitLocal(order) => SubmitKeepsController(w.d, order);
    case RunNext(reply, inspected) => RunHeadIsOnward(w, reply, inspected);
    case _ =>
  }

  lemma {:induction false} RunIsOnward(w: World, steps: seq<Step>)
    ensures Onward(w, Run(w, steps))
    decreases |steps|
  {
    hide Next, Enabled;
    if steps != [] {
      if Enabled(w, steps[0]) {
        StepIsOnward(w, steps[0]);
        RunIsOnward(Next(w, steps[0]), steps[1..]);
      } else {
        RunIsOnward(w, steps[1..]);
      }
    }
  }

  /** In the whole protocol: once a command has moved the preset revision, as every save, copy, clear and replace
      that reaches the storage does, the transfer open at that time never gives the storage anything,
      whatever the clients, the device and the storage do next. */
  lemma LaterWriteRefuses(w: World, reply: Controller.StorageReply, inspected: seq<Byte>, steps: seq<Step>,
                          lastReply: Controller.StorageReply, lastInspected: seq<Byte>)
    requires TransferInv(w) && w.d.queue != []
    ensures var n := RunHead(w, reply, inspected);
            var u := Run(n, steps);
            n.d.c.presetRevision != w.d.c.presetRevision && u.a.counter == w.a.counter && u.d.queue != [] ==>
              RunHead(u, lastReply, lastInspected).d.c.replacements == u.d.c.replacements
  {
    hide TransferInv, Run, RunHead, ArchiveTransfer.Inv;
    var n := RunHead(w, reply, inspected);
    RunHeadIsOnward(w, reply, inspected);
    RunHeadKeepsTransfer(w, reply, inspected);
    RunIsOnward(n, steps);
    RunKeepsTransfer(n, steps);
    TransferHolds(w);
    ArchiveTransfer.BaseIsOld(ArchiveTransfer.World(w.a, w.d.c));
    var u := Run(n, steps);
    TransferHolds(u);
    if u.d.queue != [] && u.a.base < u.d.c.presetRevision { StaleHeadRefused(u, lastReply, lastInspected); }
  }

  lemma StaleHeadRefused(w: World, reply: Controller.StorageReply, inspected: seq<Byte>)
    requires ArchiveTransfer.Inv(ArchiveTransfer.World(w.a, w.d.c))
    requires w.a.base < w.d.c.presetRevision && w.d.queue != []
    ensures RunHead(w, reply, inspected).d.c.replacements == w.d.c.replacements
  {
    hide Dispatcher.Apply, Controller.Execute, ArchiveTransfer.Inv, Completed;
    var entry := w.d.queue[0];
    ApplyShape(w.d.(queue := w.d.queue[1..]), entry, reply);
    ArchiveTransfer.StaleIsRefused(ArchiveTransfer.World(w.a, w.d.c), entry.order.command, reply);
    var d := Dispatcher.ProcessOne(w.d, reply);
    CompletedShape(w.(d := d), entry.order, d.applied[|d.applied| - 1].result, inspected);
  }
}
