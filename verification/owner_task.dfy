/** The owner task: bridge, archive transfer and dispatcher working on one controller. Each turn is
    the whole protocol's step with its scheduled blocks run at once. */
module OwnerTask {
  import opened Types
  import opened Browser
  import opened Bridge
  import opened BridgeServer
  import ArchiveTransfer
  import Controller
  import Dispatcher
  import LiveState
  import LiveAnswers
  import LiveTransfer
  import Transport

  function Played(w: LiveState.World): LiveState.World
  {
    w.(b := Drain(w.b))
  }

  method MakeDispatcher(status: Transport.Status) returns (d: Dispatcher.CommandDispatcher)
    ensures d.Valid() && d.controller.View() == Controller.PowerUp() == d.View().c && Controller.Inv(d.View().c)
    ensures d.View() == Dispatcher.World(d.View().c, d.View().t, [], 0, false, false, [], [])
  {
    hide Controller.PowerUp, Controller.Inv, Transport.Initial;
    var c := new Controller.DmxController();
    var output := new Transport.DmxTransport(status);
    d := new Dispatcher.CommandDispatcher(c, output);
  }

  method MakeParts(text: array<char>, status: Transport.Status)
    returns (s: Server, t: ArchiveTransfer.Transfer, d: Dispatcher.CommandDispatcher)
    ensures d.Valid() && d.View().c == Controller.PowerUp() && Controller.Inv(d.View().c)
    ensures d.View() == Dispatcher.World(d.View().c, d.View().t, [], 0, false, false, [], [])
    ensures t.Valid() && t.controller == d.controller && t.View().mode.Idle? && t.View().base == 0
    ensures s.Valid() && s.View() == Unconnected(d.View().c)
    ensures fresh(s) && fresh(s.slots) && fresh(s.Rings()) && fresh(s.Buffers())
  {
    hide Controller.PowerUp, Controller.Inv, Unconnected;
    hide Server.View, ArchiveTransfer.Transfer.View, Dispatcher.CommandDispatcher.View, Controller.DmxController.View;
    d := MakeDispatcher(status);
    t := new ArchiveTransfer.Transfer(text, d.controller);
    s := new Server(d.controller);
  }

  class Owner {
    const server: Server
    const transfer: ArchiveTransfer.Transfer
    const dispatcher: Dispatcher.CommandDispatcher

    ghost function Parts(): set<object>
    {
      {dispatcher, dispatcher.queue, dispatcher.controller, dispatcher.transport, dispatcher.transport.ring}
    }

    ghost function Arrays(): set<object>
    {
      {dispatcher.queue.data, dispatcher.controller.working, dispatcher.controller.restore,
       dispatcher.transport.ring.data}
    }

    ghost predicate Valid()
      reads server, server.slots, server.Rings(), transfer, Parts()
    {
      transfer.controller == dispatcher.controller && server.Valid() && transfer.Valid() && dispatcher.Valid()
    }

    ghost function View(): LiveState.World
      requires Valid()
      reads server, server.slots, server.Rings(), server.Buffers(), transfer, transfer.text, Parts(), Arrays()
    {
      LiveState.World(server.View(), transfer.View(), dispatcher.View())
    }

    /** Everything as it is when the device starts, which is where the protocol's theorems begin. */
    constructor (text: array<char>, status: Transport.Status)
      ensures Valid() && LiveState.Initial(View()) && LiveTransfer.TransferInv(View()) && Sound()
    {
      hide Steady, LiveState.Initial, LiveTransfer.TransferInv, ArchiveTransfer.Unused, Unconnected, Controller.PowerUp,
        Controller.Inv;
      hide Server.View, ArchiveTransfer.Transfer.View, Dispatcher.CommandDispatcher.View, Controller.DmxController.View;
      var s, t, d := MakeParts(text, status);
      server, transfer, dispatcher := s, t, d;
      new;
      StartIsInitial(View());
      InitialIsSteady(View());
    }

    /** What belongs to the bridge belongs to nothing else. */
    lemma ServerIsApart()
      ensures (server.Rings() + server.Buffers() + (set s | s in server.slots :: s as object) + {server as object}) !!
              (Parts() + Arrays() + {transfer as object, transfer.text as object})
    {
    }

    lemma Shows()
      requires Valid()
      ensures dispatcher.View().c == dispatcher.controller.View()
      ensures dispatcher.View().queue == dispatcher.queue.Contents()
      ensures server.View().pending == []
    {
    }

    /** Between turns: whatever was scheduled has gone out, and all that the protocol promises holds. */
    ghost predicate Sound()
      reads server, server.slots, server.Rings(), server.Buffers(), transfer, transfer.text, Parts(), Arrays()
    {
      Valid() && Steady(View())
    }

    /** Every browser connected to the device is served as the replica theorem says. */
    lemma SoundServes()
      requires Sound()
      ensures |View().b.clients| == MAX_CLIENTS
      ensures forall slot :: 0 <= slot < MAX_CLIENTS ==> LiveState.Served(View(), slot)
    {
      SteadyServes(View());
    }

    // One component at a time

    method Reply(r: Request, kind: Kind)
      requires Valid()
      modifies server, server.slots, server.Rings(), server.Buffers()
      ensures Valid() && View() == old(View()).(b := Drain(Replied(old(View()).b, old(View()).d.c, r, kind)))
    {
      hide Drain, Replied;
      hide Server.View, ArchiveTransfer.Transfer.View, Dispatcher.CommandDispatcher.View;
      ServerIsApart();
      Shows();
      server.ReplyNow(dispatcher.controller, r, kind);
      assert transfer.View() == old(transfer.View()) && dispatcher.View() == old(dispatcher.View());
    }

    method Abort()
      requires Valid()
      modifies transfer, transfer.text, dispatcher.controller`archiveToken
      ensures Valid() && View() == LiveState.AbortArchive(old(View()))
    {
      hide ArchiveTransfer.Aborted;
      hide Server.View;
      ServerIsApart();
      Shows();
      transfer.Abort();
      assert server.View() == old(server.View());
    }

    method Submit(order: Dispatcher.Order) returns (status: Dispatcher.Status)
      requires Valid()
      modifies dispatcher, dispatcher.queue, dispatcher.queue.data
      ensures Valid() && status == Dispatcher.Submit(old(View()).d, order).1
      ensures View() == old(View()).(d := Dispatcher.Submit(old(View()).d, order).0)
    {
      hide Dispatcher.Submit;
      hide Server.View, ArchiveTransfer.Transfer.View, Dispatcher.CommandDispatcher.View;
      ServerIsApart();
      Shows();
      var ticket;
      status, ticket := dispatcher.SubmitOrder(order);
      assert server.View() == old(server.View()) && transfer.View() == old(transfer.View());
    }

    method Handle(op: ArchiveTransfer.Op, generation: nat, env: ArchiveTransfer.Env)
        returns (answer: ArchiveTransfer.Answer)
      requires Valid()
      modifies transfer, transfer.text, dispatcher.controller
      ensures Valid()
      ensures var w := old(View());
              var (a, c, expected) := ArchiveTransfer.Handle(w.a, w.d.c, op, generation, env);
              answer == expected && View() == w.(a := a, d := w.d.(c := c))
    {
      hide ArchiveTransfer.Handle;
      hide Server.View;
      ServerIsApart();
      Shows();
      answer := transfer.HandleRequest(op, generation, env);
      assert server.View() == old(server.View());
    }

    method Allot() returns (id: nat)
      requires Valid()
      modifies server`internalId
      ensures Valid() && id == NextInternal(old(View()).b.internalId)
      ensures View() == old(View()).(b := old(View()).b.(internalId := id))
    {
      id := NextInternal(server.internalId);
      server.internalId := id;
    }

    method TakeOff(r: Request, id: nat)
      requires Valid()
      modifies server`flight
      ensures Valid() && View() == old(View()).(b := old(View()).b.(flight := Some(Flight(r, id))))
    {
      server.flight := Some(Flight(r, id));
    }

    method Pop() returns (r: Request)
      requires Valid() && View().b.inbox != []
      modifies server.inbox
      ensures Valid() && r == old(View()).b.inbox[0] && View() == old(View()).(b := Popped(old(View()).b))
    {
      hide Server.View, ArchiveTransfer.Transfer.View, Dispatcher.CommandDispatcher.View;
      ServerIsApart();
      Shows();
      r := server.PopRequest();
      assert transfer.View() == old(transfer.View()) && dispatcher.View() == old(dispatcher.View());
    }

    method Capture(r: Request, inspected: seq<Byte>)
      requires Valid() && |inspected| == 8
      modifies server, server.slots, server.Rings(), server.Buffers()
      ensures Valid() && View() == old(View()).(b := Drain(Snapshotted(old(View()).b, old(View()).d.c, r, inspected)))
    {
      hide Drain, Snapshotted;
      hide Server.View, ArchiveTransfer.Transfer.View, Dispatcher.CommandDispatcher.View;
      ServerIsApart();
      Shows();
      server.SnapshotNow(dispatcher.controller, r, inspected);
      assert transfer.View() == old(transfer.View()) && dispatcher.View() == old(dispatcher.View());
    }

    method AskSide(r: Request, side: Side, subscribes: bool, news: seq<(Side, nat)>, revision: nat, code: nat)
      requires Valid()
      modifies server, server.slots, server.Rings(), server.Buffers()
      ensures Valid()
      ensures View() == old(View()).(b := Drain(SideServed(old(View()).b, r, side, subscribes, news, revision, code)))
    {
      hide Drain, SideServed;
      hide Server.View, ArchiveTransfer.Transfer.View, Dispatcher.CommandDispatcher.View;
      ServerIsApart();
      Shows();
      server.SideNow(r, side, subscribes, news, revision, code);
      assert transfer.View() == old(transfer.View()) && dispatcher.View() == old(dispatcher.View());
    }

    // Turns

    method Refuse(r: Request, status: Dispatcher.Status)
      requires Valid()
      modifies server, server.slots, server.Rings(), server.Buffers(), transfer, transfer.text, dispatcher.controller
      ensures Valid() && View() == Refused(old(View()), r, status)
    {
      hide Drain, Replied, LiveState.AbortArchive;
      Reply(r, LiveState.ReplyKind(r, status));
      if LiveState.IsArchive(r) { Abort(); }
    }

    method SubmitFor(r: Request, command: Controller.Command)
      requires Valid()
      modifies server, server.slots, server.Rings(), server.Buffers(), transfer, transfer.text, dispatcher,
        dispatcher.queue, dispatcher.queue.data, dispatcher.controller
      ensures Valid() && View() == Played(LiveState.SubmitFor(old(View()), r, command))
    {
      hide Drain, Refused, Dispatcher.Submit, LiveState.SubmitFor, Played;
      ghost var w := View();
      SubmitForParts(w, r, command);
      var id := Allot();
      var status := Submit(Dispatcher.Order(command, Dispatcher.External, id));
      if status == Dispatcher.Accepted { TakeOff(r, id); } else { Refuse(r, status); }
    }

    method HandleArchive(r: Request, op: ArchiveTransfer.Op, turn: LiveState.Turn)
      requires Valid()
      modifies server, server.slots, server.Rings(), server.Buffers(), transfer, transfer.text, dispatcher,
        dispatcher.queue, dispatcher.queue.data, dispatcher.controller
      ensures Valid() && View() == Played(LiveState.ServeArchive(old(View()), r, op, turn))
    {
      hide ArchiveTransfer.Transfer.View, Dispatcher.CommandDispatcher.View;
      hide Drain, Replied, ArchiveTransfer.Handle, LiveState.SubmitFor;
      if !server.sender || turn.blocked {
        Reply(r, ArchiveResult);
        return;
      }
      var answer := Handle(op, r.token.generation, turn.archive);
      if answer.Submit? {
        SubmitFor(r, Controller.ReplaceCmd(answer.archiveToken));
      } else {
        Reply(r, ArchiveResult);
      }
    }

    method HandleSide(r: Request, side: Side, subscribes: bool, turn: LiveState.Turn)
      requires Valid()
      modifies server, server.slots, server.Rings(), server.Buffers()
      ensures Valid() && View() == Played(LiveState.ServeSide(old(View()), r, side, subscribes, turn))
    {
      hide Drain, Replied, SideNews;
      if turn.committed && side.Settings? && !subscribes {
        Reply(r, Error);
      } else {
        AskSide(r, side, subscribes, turn.news, turn.sideRevision, turn.sideCode);
      }
    }

    method Deal(r: Request, turn: LiveState.Turn)
      requires Valid() && |turn.inspected| == 8
      modifies server, server.slots, server.Rings(), server.Buffers(), transfer, transfer.text, dispatcher,
        dispatcher.queue, dispatcher.queue.data, dispatcher.controller
      ensures Valid() && View() == Played(LiveState.Dealt(old(View()), r, turn))
    {
      hide Server.View, ArchiveTransfer.Transfer.View, Dispatcher.CommandDispatcher.View;
      hide Drain, Replied, Snapshotted, LiveState.ServeArchive, LiveState.ServeSide, LiveState.SubmitFor;
      if r.body.Greeting? || r.body.ask.StateAsk? {
        Capture(r, turn.inspected);
        return;
      }
      match r.body.ask {
        case ArchiveAsk(op) => HandleArchive(r, op, turn);
        case SideAsk(side, subscribes) => HandleSide(r, side, subscribes, turn);
        case CommandAsk(command) => if turn.committed { Reply(r, Error); } else { SubmitFor(r, command); }
      }
    }

    /** Take one request off the inbox and deal with it, if its client is still there. */
    method ServeNow(turn: LiveState.Turn)
      requires Valid() && View().b.inbox != [] && |turn.inspected| == 8
      modifies server, server.slots, server.Rings(), server.Buffers(), transfer, transfer.text, dispatcher,
        dispatcher.queue, dispatcher.queue.data, dispatcher.controller
      ensures Valid() && View() == Played(LiveState.Serve(old(View()), turn))
    {
      hide Drain, LiveState.Dealt, LiveState.Serve;
      ServeParts(View(), turn);
      var r := Pop();
      if server.Live(r.token) { Deal(r, turn); }
    }

    method Process(reply: Controller.StorageReply) returns (order: Dispatcher.Order, result: Dispatcher.Result)
      requires Valid() && View().d.queue != []
      modifies Parts(), Arrays()
      ensures Valid() && View() == old(View()).(d := Dispatcher.ProcessOne(old(View()).d, reply))
      ensures order == old(View()).d.queue[0].order
      ensures View().d.applied != [] && result == View().d.applied[|View().d.applied| - 1].result
    {
      hide Dispatcher.Apply;
      hide Server.View, ArchiveTransfer.Transfer.View, Dispatcher.CommandDispatcher.View;
      ServerIsApart();
      Shows();
      result, order := dispatcher.RunHead(reply);
      assert server.View() == old(server.View()) && transfer.View() == old(transfer.View());
    }

    method Complete(order: Dispatcher.Order, result: Dispatcher.Result, inspected: seq<Byte>)
      requires Valid() && |inspected| == 8
      modifies server, server.slots, server.Rings(), server.Buffers()
      ensures Valid()
      ensures View() == old(View()).(b :=
          Drain(LiveState.CompletedBridge(old(View()).b, old(View()).d.c, order, result, inspected)))
    {
      hide Drain, LiveState.CompletedBridge;
      hide Server.View, ArchiveTransfer.Transfer.View, Dispatcher.CommandDispatcher.View;
      ServerIsApart();
      Shows();
      server.CompletedNow(dispatcher.controller, order, result, inspected);
      assert transfer.View() == old(transfer.View()) && dispatcher.View() == old(dispatcher.View());
    }

    method Finish(order: Dispatcher.Order, result: Dispatcher.Result, inspected: seq<Byte>)
      requires Valid() && |inspected| == 8
      modifies server, server.slots, server.Rings(), server.Buffers(), transfer, transfer.text, Parts(), Arrays()
      ensures Valid() && View() == Played(LiveState.Completed(old(View()), order, result, inspected))
    {
      hide Drain, LiveState.CompletedBridge, LiveState.Completed, LiveState.AbortArchive;
      CompletedParts(View(), order, result, inspected);
      var answers := server.flight.Some? && order.source.External? && order.requestId == server.flight.value.commandId;
      var abort := answers && LiveState.IsArchive(server.flight.value.request);
      Complete(order, result, inspected);
      if abort { Abort(); }
    }

    /** Carry out the oldest queued command, publish what it changed and answer whoever asked for it. */
    method RunHeadNow(reply: Controller.StorageReply, inspected: seq<Byte>)
      requires Valid() && View().d.queue != [] && |inspected| == 8
      modifies server, server.slots, server.Rings(), server.Buffers(), transfer, transfer.text, Parts(), Arrays()
      ensures Valid() && View() == Played(LiveState.RunHead(old(View()), reply, inspected))
    {
      hide Drain, LiveState.Completed, LiveState.RunHead, Dispatcher.ProcessOne, Played;
      hide Owner.View, Owner.Valid, Owner.Parts, Owner.Arrays, Server.Rings, Server.Buffers;
      RunHeadParts(View(), reply, inspected);
      var order, result := Process(reply);
      Finish(order, result, inspected);
    }

    method News(news: seq<(Side, nat)>)
      requires Valid()
      modifies server, server.slots, server.Rings(), server.Buffers()
      ensures Valid() && View() == old(View()).(b := Drain(SideNews(old(View()).b, news)))
    {
      hide Drain, SideNews;
      hide Server.View, ArchiveTransfer.Transfer.View, Dispatcher.CommandDispatcher.View;
      ServerIsApart();
      Shows();
      server.TellNews(news);
      assert transfer.View() == old(transfer.View()) && dispatcher.View() == old(dispatcher.View());
    }

    method Mode(sender: bool)
      requires Valid()
      modifies server, server.slots, server.Rings(), server.Buffers()
      ensures Valid() && View() == old(View()).(b := Drain(ModeChanged(old(View()).b, old(View()).d.c, sender)))
    {
      hide Drain, ModeChanged;
      hide Server.View, ArchiveTransfer.Transfer.View, Dispatcher.CommandDispatcher.View;
      ServerIsApart();
      Shows();
      server.ModeNow(dispatcher.controller, sender);
      assert transfer.View() == old(transfer.View()) && dispatcher.View() == old(dispatcher.View());
    }

    /** The transfer's time and owner, looked up. */
    method IsOver(sender: bool, blocked: bool, now: U32) returns (over: bool)
      requires Valid()
      ensures over == LiveState.TransferOver(View(), sender, blocked, now)
    {
      var connected := server.Connected(transfer.owner);
      over := !transfer.mode.Idle?
        && (!sender || !server.sender || !connected || blocked
            || Elapsed(now, transfer.touched) >= ArchiveTransfer.IDLE_MS
            || Elapsed(now, transfer.started) >= ArchiveTransfer.TOTAL_MS);
    }

    method Expire(sender: bool, blocked: bool, now: U32)
      requires Valid()
      modifies transfer, transfer.text, dispatcher.controller`archiveToken
      ensures Valid()
      ensures var w := old(View());
              View() == if LiveState.TransferOver(w, sender, blocked, now) then LiveState.AbortArchive(w) else w
    {
      hide LiveState.AbortArchive, LiveState.TransferOver;
      var over := IsOver(sender, blocked, now);
      if over { Abort(); }
    }

    /** What an owner turn does before it looks at the inbox. */
    method PrepareNow(sender: bool, blocked: bool, now: U32, news: seq<(Side, nat)>)
      requires Valid()
      modifies server, server.slots, server.Rings(), server.Buffers(), transfer, transfer.text, dispatcher.controller
      ensures Valid() && View() == Played(LiveState.Prepare(old(View()), sender, blocked, now, news))
    {
      hide Drain, SideNews, ModeChanged, LiveState.AbortArchive, LiveState.TransferOver;
      hide Server.View, ArchiveTransfer.Transfer.View, Dispatcher.CommandDispatcher.View;
      Expire(sender, blocked, now);
      ModeAfterDrain(SideNews(View().b, news), View().d.c, sender);
      News(news);
      Mode(sender);
    }

    // Whole turns, and the calls of the HTTP task between them

    /** `ownerPoll`. */
    method OwnerPoll(sender: bool, blocked: bool, now: U32, news: seq<(Side, nat)>, turn: LiveState.Turn)
      requires Sound() && Inspected(turn.inspected)
      modifies server, server.slots, server.Rings(), server.Buffers(), transfer, transfer.text, dispatcher,
        dispatcher.queue, dispatcher.queue.data, dispatcher.controller
      ensures Sound() && View() == Polled(old(View()), sender, blocked, now, news, turn)
    {
      hide Steady, Played, LiveState.Prepare, LiveState.Serve;
      ghost var w := View();
      PollIsSteady(w, sender, blocked, now, news, turn);
      PrepareNow(sender, blocked, now, news);
      if server.flight.None? && server.inbox.count > 0 { ServeNow(turn); }
    }

    /** The dispatcher carries out its oldest command. */
    method CommandTurn(reply: Controller.StorageReply, inspected: seq<Byte>)
      requires Sound() && Dispatcher.HeadRuns(View().d) && Inspected(inspected)
      modifies server, server.slots, server.Rings(), server.Buffers(), transfer, transfer.text, Parts(), Arrays()
      ensures Sound() && View() == Played(LiveState.RunHead(old(View()), reply, inspected))
    {
      hide Steady, Played, LiveState.RunHead, Dispatcher.HeadRuns;
      CommandIsSteady(View(), reply, inspected);
      RunHeadNow(reply, inspected);
    }

    /** The device's own interface queues a command. */
    method LocalTurn(order: Dispatcher.Order) returns (status: Dispatcher.Status)
      requires Sound() && !order.source.External?
      modifies dispatcher, dispatcher.queue, dispatcher.queue.data
      ensures Sound() && View() == old(View()).(d := Dispatcher.Submit(old(View()).d, order).0)
    {
      hide Steady, Dispatcher.Submit;
      LocalIsSteady(View(), order);
      status := Submit(order);
    }

    /** A call of the HTTP task. */
    method HttpCall(step: HttpStep)
      requires Sound() && (step.ReceiveStep? && step.message.Decoded? ==> LiveState.DecodedAsk(step.message.ask))
      modifies server, server.slots, server.Rings(), server.Buffers()
      ensures Sound() && View() == old(View()).(b := Http(old(View()).b, step))
    {
      hide Steady, Http;
      HttpIsSteady(View(), step);
      HttpNow(step);
    }

    method HttpNow(step: HttpStep)
      requires Valid()
      modifies server, server.slots, server.Rings(), server.Buffers()
      ensures Valid() && View() == old(View()).(b := Http(old(View()).b, step))
    {
      hide Http;
      hide Server.View, ArchiveTransfer.Transfer.View, Dispatcher.CommandDispatcher.View;
      ServerIsApart();
      Shows();
      server.HttpNow(step);
      assert transfer.View() == old(transfer.View()) && dispatcher.View() == old(dispatcher.View());
    }
  }

  // ---------------------------------------------------------------------------------------
  // What holds between turns

  ghost predicate Steady(w: LiveState.World)
  {
    w.b.pending == [] && LiveState.Inv(w) && LiveTransfer.TransferInv(w) && AllAccounted(w.b.clients)
  }

  /** `ownerPoll`: the preliminaries, and one request when none is in flight. */
  function Polled(w: LiveState.World, sender: bool, blocked: bool, now: U32, news: seq<(Side, nat)>,
                  turn: LiveState.Turn): LiveState.World
  {
    var p := Played(LiveState.Prepare(w, sender, blocked, now, news));
    if p.b.flight.Some? || p.b.inbox == [] then p else Played(LiveState.Serve(p, turn))
  }

  lemma StartIsInitial(w: LiveState.World)
    requires w.d.c == Controller.PowerUp() && Controller.Inv(w.d.c) && w.b == Unconnected(w.d.c)
    requires w.d.queue == [] && w.d.submitted == [] && w.d.applied == [] && !w.d.processing
    requires w.a.mode.Idle? && w.a.base == 0
    ensures LiveState.Initial(w) && ArchiveTransfer.Unused(ArchiveTransfer.World(w.a, w.d.c))
  {
  }

  lemma InitialIsSteady(w: LiveState.World)
    requires LiveState.Initial(w) && ArchiveTransfer.Unused(ArchiveTransfer.World(w.a, w.d.c))
    ensures Steady(w) && LiveTransfer.TransferInv(w)
  {
    hide LiveState.Inv, LiveTransfer.TransferInv;
    LiveState.InitialInv(w);
    LiveTransfer.InitialTransfer(w);
  }

  lemma SteadyServes(w: LiveState.World)
    requires Steady(w)
    ensures |w.b.clients| == MAX_CLIENTS && forall slot :: 0 <= slot < MAX_CLIENTS ==> LiveState.Served(w, slot)
  {
    hide LiveState.Inv, LiveState.Served;
    LiveState.InvServes(w, 0);
    forall slot | 0 <= slot < MAX_CLIENTS ensures LiveState.Served(w, slot) {
      LiveState.InvServes(w, slot);
    }
  }

  /** A step of the protocol with its blocks run at once leads from one such state to the next. */
  lemma TurnIsSteady(w: LiveState.World, step: LiveState.Step)
    requires Steady(w) && LiveState.Enabled(w, step)
    ensures Steady(Played(LiveState.Next(w, step)))
  {
    hide LiveState.Inv, LiveTransfer.TransferInv, AllAccounted, LiveState.Next, LiveState.Enabled, Played;
    var n := LiveState.Next(w, step);
    LiveState.StepKeepsInv(w, step);
    LiveTransfer.StepKeepsTransfer(w, step);
    LiveAnswers.StepAccounts(w, step);
    PlayedIsARun(n);
    LiveState.RunKeepsInv(n, Emits(|n.b.pending|));
    LiveTransfer.RunKeepsTransfer(n, Emits(|n.b.pending|));
    LiveAnswers.RunAccounts(n, Emits(|n.b.pending|));
  }

  lemma PollIsSteady(w: LiveState.World, sender: bool, blocked: bool, now: U32, news: seq<(Side, nat)>,
                     turn: LiveState.Turn)
    requires Steady(w) && Inspected(turn.inspected)
    ensures Steady(Polled(w, sender, blocked, now, news, turn))
  {
    hide LiveState.Inv, LiveTransfer.TransferInv, AllAccounted, LiveState.Prepare, LiveState.Serve, Played;
    TurnIsSteady(w, LiveState.PrepareTurn(sender, blocked, now, news));
    var p := Played(LiveState.Prepare(w, sender, blocked, now, news));
    if p.b.flight.None? && p.b.inbox != [] { TurnIsSteady(p, LiveState.ServeNext(turn)); }
  }

  lemma CommandIsSteady(w: LiveState.World, reply: Controller.StorageReply, inspected: seq<Byte>)
    requires Steady(w) && Dispatcher.HeadRuns(w.d) && Inspected(inspected)
    ensures w.d.queue != [] && Steady(Played(LiveState.RunHead(w, reply, inspected)))
  {
    hide Steady, LiveState.RunHead, Played;
    assert w.b.pending == [] by { StillBetween(w); }
    TurnIsSteady(w, LiveState.RunNext(reply, inspected));
  }

  lemma StillBetween(w: LiveState.World)
    requires Steady(w)
    ensures w.b.pending == [] && Played(w) == w
  {
    NothingToDrain(w.b);
  }

  lemma LocalIsSteady(w: LiveState.World, order: Dispatcher.Order)
    requires Steady(w) && !order.source.External?
    ensures Steady(w.(d := Dispatcher.Submit(w.d, order).0))
  {
    hide Steady, Dispatcher.Submit;
    StillBetween(w);
    NothingToDrain(w.b);
    TurnIsSteady(w, LiveState.SubmitLocal(order));
  }

  lemma HttpIsSteady(w: LiveState.World, step: HttpStep)
    requires Steady(w) && (step.ReceiveStep? && step.message.Decoded? ==> LiveState.DecodedAsk(step.message.ask))
    ensures Steady(w.(b := Http(w.b, step)))
  {
    hide Steady, Http;
    StillBetween(w);
    LiveState.HttpIsBlind(w.b, step);
    NothingToDrain(Http(w.b, step));
    TurnIsSteady(w, LiveState.HttpWork(step));
  }

  lemma RunHeadParts(w: LiveState.World, reply: Controller.StorageReply, inspected: seq<Byte>)
    requires w.d.queue != []
    ensures var d := Dispatcher.ProcessOne(w.d, reply);
            d.applied != [] &&
            LiveState.RunHead(w, reply, inspected) ==
              LiveState.Completed(w.(d := d), w.d.queue[0].order, d.applied[|d.applied| - 1].result, inspected)
  {
    hide LiveState.Completed, Dispatcher.Apply;
  }

  lemma CompletedParts(w: LiveState.World, order: Dispatcher.Order, result: Dispatcher.Result, inspected: seq<Byte>)
    ensures var u := w.(b := Drain(LiveState.CompletedBridge(w.b, w.d.c, order, result, inspected)));
            Played(LiveState.Completed(w, order, result, inspected)) ==
              if LiveState.AnswersFlight(w.b, order) && LiveState.IsArchive(w.b.flight.value.request)
              then LiveState.AbortArchive(u) else u
  {
    hide Drain, LiveState.PublishedAfter, Replied, ArchiveTransfer.Aborted;
  }

  lemma ModeAfterDrain(p: State, c: Controller.State, sender: bool)
    ensures Drain(ModeChanged(Drain(p), c, sender)) == Drain(ModeChanged(p, c, sender))
  {
    hide Drain, Emit;
    DrainIgnores(p, p);
    NothingToDrain(Drain(p));
    if p.sender != sender {
      var q := p.(sender := sender);
      DrainIgnores(p, q);
      var o := Broadcast(Made(q, c, ModeUpdate, 0), None);
      MadeIgnores(q, Drain(q), c, ModeUpdate, 0);
      DrainCounted(q, o);
      DrainCounted(Drain(q), o);
      NothingToDrain(Drain(q));
    }
  }

  lemma ServeParts(w: LiveState.World, turn: LiveState.Turn)
    requires w.b.inbox != [] && w.b.pending == []
    ensures var s := w.(b := Popped(w.b));
            Played(LiveState.Serve(w, turn)) ==
              if Alive(s.b.clients, w.b.inbox[0].token) then Played(LiveState.Dealt(s, w.b.inbox[0], turn)) else s
  {
    hide Drain, LiveState.Dealt;
    NothingToDrain(Popped(w.b));
  }

  function Refused(w: LiveState.World, r: Request, status: Dispatcher.Status): LiveState.World
  {
    var u := w.(b := Drain(Replied(w.b, w.d.c, r, LiveState.ReplyKind(r, status))));
    if LiveState.IsArchive(r) then LiveState.AbortArchive(u) else u
  }

  lemma SubmitForParts(w: LiveState.World, r: Request, command: Controller.Command)
    requires w.b.pending == []
    ensures var id := NextInternal(w.b.internalId);
            var order := Dispatcher.Order(command, Dispatcher.External, id);
            var s := w.(b := w.b.(internalId := id), d := Dispatcher.Submit(w.d, order).0);
            Played(LiveState.SubmitFor(w, r, command)) ==
              if Dispatcher.Submit(w.d, order).1 == Dispatcher.Accepted then
                s.(b := s.b.(flight := Some(Flight(r, id))))
              else Refused(s, r, Dispatcher.Submit(w.d, order).1)
  {
    hide Drain, Dispatcher.Submit, Replied, ArchiveTransfer.Aborted;
    var id := NextInternal(w.b.internalId);
    NothingToDrain(w.b.(internalId := id, flight := Some(Flight(r, id))));
  }

  // ---------------------------------------------------------------------------------------
  // Turns are runs of the protocol

  function Emits(n: nat): seq<LiveState.Step>
  {
    seq(n, _ => LiveState.EmitNext)
  }

  lemma {:induction false} PlayedIsARun(w: LiveState.World)
    ensures LiveState.Run(w, Emits(|w.b.pending|)) == Played(w) && Played(w).b.pending == []
    decreases |w.b.pending|
  {
    hide Emit;
    if w.b.pending == [] {
      assert w.(b := w.b) == w;
    } else {
      EmitLeaves(w.b);
      var e := w.(b := Emit(w.b));
      assert Emits(|w.b.pending|)[0] == LiveState.EmitNext && Emits(|w.b.pending|)[1..] == Emits(|e.b.pending|);
      PlayedIsARun(e);
    }
  }

  /** A turn of the object is a run of the protocol, so whatever holds along runs holds after turns: all events
      scheduled have gone out, and every synchronized browser will show exactly the device. */
  lemma TurnsKeepReplicas(w: LiveState.World, steps: seq<LiveState.Step>, step: LiveState.Step)
    requires LiveState.Initial(w) && LiveState.Enabled(LiveState.Run(w, steps), step)
    ensures var z := Played(LiveState.Next(LiveState.Run(w, steps), step));
            z.b.pending == [] && |z.b.clients| == MAX_CLIENTS
            && forall slot :: 0 <= slot < MAX_CLIENTS ==> LiveState.Served(z, slot)
  {
    hide LiveState.Next, LiveState.Enabled, LiveState.Served, LiveState.Initial, Played;
    var e := LiveState.Run(w, steps);
    var n := LiveState.Next(e, step);
    var more := [step] + Emits(|n.b.pending|);
    assert more[0] == step && more[1..] == Emits(|n.b.pending|);
    PlayedIsARun(n);
    LiveState.RunAppend(w, steps, more);
    assert LiveState.Run(e, more) == LiveState.Run(n, more[1..]);
    LiveState.EveryBrowserIsAReplica(w, steps + more);
  }
}
