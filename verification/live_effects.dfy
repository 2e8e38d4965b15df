/** What each step of the live-state protocol does: when a message is granted, who hears a block, when a command is
    published, and what an owner turn does with a request. */
module LiveEffects {
  import opened Types
  import opened Browser
  import opened Bridge
  import opened LiveState
  import ArchiveTransfer
  import Controller
  import Dispatcher
  import Transport

  // ---------------------------------------------------------------------------------------
  // Messages

  /** How many messages reached the client in the rate window, with this one. A window is a second long, and a clock
      that goes back starts a new one. */
  function RateNow(c: Client, now: nat): (n: nat)
    ensures n >= 1
  {
    if now < c.window || now >= c.window + 1000 then 1 else c.rate + 1
  }

  predicate GrantedNow(c: Client, m: Message, now: nat, room: bool)
  {
    && m.Decoded? && c.ready && m.request > c.lastId && c.outstanding < 4 && room && RateNow(c, now) <= 20
  }

  /** What a message does, exactly. Past 20 in a window it costs the client its connection. A decoded request of a ready
      client with a new id, less than four outstanding and room in the inbox is granted. Anything else is refused by one
      event with its id, and uses its id up if it was a decoded one. */
  lemma ReceiveTells(b: State, t: Token, m: Message, now: nat)
    requires Alive(b.clients, t)
    ensures var e := Bridge.Receive(b, t, m, now);
            var c, granted := b.clients[t.slot], GrantedNow(b.clients[t.slot], m, now, |b.inbox| < 16);
            && |e.clients| == |b.clients| && e == b.(clients := e.clients, inbox := e.inbox)
            && var d := e.clients[t.slot];
            && (granted ==>
                  && e.inbox == b.inbox + [Request(t, m.request, Asked(m.ask))]
                  && d.active && d.lastId == m.request && d.outstanding == c.outstanding + 1)
            && (!granted ==> e.inbox == b.inbox)
            && (RateNow(c, now) > 20 ==> !d.active && d.queue == [])
            && (RateNow(c, now) <= 20 && !granted ==>
                  && (d.active <==> |c.queue| != 8)
                  && (d.active ==>
                        && d.queue == c.queue + [Refusal(MessageId(m))] && d.outstanding == c.outstanding
                        && d.lastId == (if m.Decoded? && m.request > c.lastId then m.request else c.lastId)))
            && (d.active ==>
                  && d.rate == RateNow(c, now) && d.ready == c.ready && d.subscribed == c.subscribed
                  && d.window == if RateNow(c, now) == 1 && (now < c.window || now >= c.window + 1000) then now
                                 else c.window)
  {
  }

  /** A close drops the client the token names, with all that was queued for it and owed to it, and nobody else. */
  lemma CloseTells(b: Bridge.State, t: Token)
    ensures var e := Close(b, t);
            && |e.clients| == |b.clients| && e == b.(clients := e.clients)
            && forall i :: 0 <= i < |b.clients| ==>
                 var c := b.clients[i];
                 e.clients[i] == if c.active && i == t.slot && c.generation == t.generation
                                 then c.(active := false, queue := [], outstanding := 0) else c
  {
  }

  /** A refusal names the message and nothing of the device. */
  lemma RefusalTells(id: nat)
    ensures var e := Refusal(id);
            e.kind == Error && e.id == id && e.sequence == 0 && e.values == [] && e.presets == []
  {
  }

  // ---------------------------------------------------------------------------------------
  // Blocks

  /** Queued for the client, unless its eight places are taken: that costs it its connection. */
  predicate Reaches(c: Client, d: Client, e: Event)
  {
    if |c.queue| == 8 then !d.active && d.queue == []
    else d == c.(queue := c.queue + [e], sent := c.sent + [e])
  }

  /** A broadcast reaches every active, ready client of its audience and nobody else; an answer or a subscription
      reaches its own client, if that is still connected, and nobody else. */
  lemma EmitTells(b: State)
    requires b.pending != [] && forall i :: 0 <= i < |b.clients| ==> |b.clients[i].queue| <= 8
    ensures var e, o := Emit(b), b.pending[0];
            && |e.clients| == |b.clients| && e.pending == b.pending[1..] && e.inbox == b.inbox
            && forall i :: 0 <= i < |b.clients| ==>
                 var c, d := b.clients[i], e.clients[i];
                 match o
                 case Broadcast(event, audience) =>
                   if c.active && c.ready && (audience.Some? ==> audience.value in c.subscribed)
                   then Reaches(c, d, event) else d == c
                 case Subscribe(t, side) =>
                   if c.active && i == t.slot && c.generation == t.generation
                   then d == c.(subscribed := c.subscribed + {side}) else d == c
                 case Answer(r, event) =>
                   if c.active && i == r.token.slot && c.generation == r.token.generation
                   then Reaches(c.(outstanding := if c.outstanding > 0 then c.outstanding - 1 else 0), d, event)
                   else d == c
                 case Deliver(r, hello, snapshot) =>
                   if c.active && i == r.token.slot && c.generation == r.token.generation
                   then DeliveredAll(c, d, hello, snapshot) else d == c
  {
    hide ShownAfter, BoundAfter, Delivered, DeliveredAll;
    if b.pending[0].Deliver? && Alive(b.clients, b.pending[0].request.token) {
      var o := b.pending[0];
      DeliverTells(b.clients[o.request.token.slot], o.hello, o.snapshot);
    }
  }

  /** Hello, if there is one, then the snapshot; a client they both reach is ready and has one answer less to wait
      for. */
  predicate DeliveredAll(c: Client, d: Client, hello: Option<Event>, snapshot: Event)
  {
    var events := (if hello.Some? then [hello.value] else []) + [snapshot];
    if |c.queue| + |events| > 8 then !d.active && d.queue == []
    else
      d == c.(queue := c.queue + events, sent := c.sent + events, ready := true,
              outstanding := if c.outstanding > 0 then c.outstanding - 1 else 0)
  }

  lemma DeliverTells(c: Client, hello: Option<Event>, snapshot: Event)
    requires c.active && |c.queue| <= 8
    ensures DeliveredAll(c, Delivered(c, hello, snapshot), hello, snapshot)
  {
    if hello.Some? {
      assert c.queue + [hello.value] + [snapshot] == c.queue + ([hello.value] + [snapshot]);
      assert c.sent + [hello.value] + [snapshot] == c.sent + ([hello.value] + [snapshot]);
    } else {
      assert [] + [snapshot] == [snapshot];
    }
  }

  // ---------------------------------------------------------------------------------------
  // Publication

  /** A command is told to every page when the revision moved, when a load succeeded even without moving it, and
      when the storage failed it after it may have touched a slot. */
  predicate Told(command: Controller.Command, result: Dispatcher.Result)
  {
    || result.after != result.before
    || (command.LoadCmd? && result.domain == Controller.Ok
        && result.status in {Dispatcher.Applied, Dispatcher.NoChange, Dispatcher.TransportError})
    || (result.status == Dispatcher.StorageError
        && (command.LoadCmd? || command.SaveCmd? || command.ClearCmd? || command.CopyCmd?))
  }

  /** What such a command adds to what is to be sent: one event for everybody, of one channel if it was a channel
      command and of everything otherwise. After a command on presets their metadata is read again. */
  lemma PublishTells(b: Bridge.State, c: Controller.State, command: Controller.Command, result: Dispatcher.Result,
                     inspected: seq<Byte>)
    ensures var p := PublishedAfter(b, c, command, result, inspected);
            var one := command.SetChannelCmd? || command.AdjustChannelCmd?;
            var onPresets := command.LoadCmd? || command.SaveCmd? || command.CopyCmd? || command.ClearCmd?
                             || command.ResetCmd? || command.ReplaceCmd?;
            && (!Told(command, result) ==>
                  p == b.(presetsReady := p.presetsReady) && (p.presetsReady <==> b.presetsReady && !onPresets))
            && (Told(command, result) ==>
                  && |p.pending| == |b.pending| + 1 && p.pending[..|b.pending|] == b.pending
                  && p.sequence == b.sequence + 1
                  && var o := p.pending[|b.pending|];
                  && o.Broadcast? && o.audience == None && o.event.sequence == p.sequence
                  && o.event.revision == c.revision && o.event.kind == (if one then ChannelUpdate else Universe)
                  && (one && 1 <= command.channel <= 512 ==>
                        o.event.channel == command.channel && o.event.value == c.working[command.channel])
                  && (!one && (onPresets || !b.presetsReady) ==>
                        p.presets == inspected && (p.presetsReady <==> 3 !in inspected))
                  && (!one && !onPresets && b.presetsReady ==> p.presets == b.presets && p.presetsReady))
  {
  }

  /** One update for this piece of news. */
  predicate TellsNews(o: Out, news: (Side, nat), sequence: nat)
  {
    && o.Broadcast? && o.audience == Some(news.0) && o.event.kind == Sided(news.0) && o.event.id == 0
    && o.event.revision == news.1 && o.event.sequence == sequence
  }

  /** One update per piece of news, in order, each to the subscribers of its side and with that side's revision. */
  lemma {:induction false} SideNewsTells(b: Bridge.State, news: seq<(Side, nat)>)
    ensures var e := SideNews(b, news);
            && |e.pending| == |b.pending| + |news| && e.pending[..|b.pending|] == b.pending
            && e == b.(pending := e.pending, sequence := b.sequence + |news|)
            && forall i :: 0 <= i < |news| ==> TellsNews(e.pending[|b.pending| + i], news[i], b.sequence + 1 + i)
    decreases |news|
  {
    if news != [] {
      var n := SideTold(b, news[0].0, news[0].1);
      SideNewsTells(n, news[1..]);
      var e := SideNews(b, news);
      assert n.pending[|b.pending|] == e.pending[..|n.pending|][|b.pending|];
      assert TellsNews(n.pending[|b.pending|], news[0], n.sequence);
      hide TellsNews, SideTold, SideNews;
      assert e.pending[..|b.pending|] == e.pending[..|n.pending|][..|b.pending|];
      forall i | 0 <= i < |news| ensures TellsNews(e.pending[|b.pending| + i], news[i], b.sequence + 1 + i) {
        if i > 0 {
          assert TellsNews(e.pending[|n.pending| + (i - 1)], news[1..][i - 1], n.sequence + 1 + (i - 1));
        }
      }
    }
  }

  // ---------------------------------------------------------------------------------------
  // Owner turns

  /** The turn schedules one answer to `r`, of this kind and under its id. */
  predicate AnsweredBy(b: Bridge.State, e: Bridge.State, r: Bridge.Request, kind: Kind)
  {
    && |e.pending| == |b.pending| + 1 && e.pending[..|b.pending|] == b.pending
    && var o := e.pending[|b.pending|];
    o.Answer? && o.request == r && o.event.kind == kind && o.event.id == r.id && o.event.sequence == b.sequence + 1
  }

  /** A command handed over: in flight and the newest entry under a fresh internal id when it is valid and there is
      room; otherwise refused by an error, with nothing queued. */
  lemma CommandTells(w: World, r: Bridge.Request, command: Controller.Command)
    requires !w.d.processing && |w.d.queue| <= Dispatcher.CAPACITY
    ensures var e := SubmitFor(w, r, command);
            var able := Dispatcher.Validate(w.d, Dispatcher.Order(command, Dispatcher.External, e.b.internalId))
                        == Dispatcher.Accepted && |w.d.queue| < 32;
            && 1 <= e.b.internalId <= 0xFFFF_FFFF && e.b.internalId != w.b.internalId
            && (able ==>
                  && e.b.flight == Some(Flight(r, e.b.internalId)) && e.b.pending == w.b.pending && e.a == w.a
                  && |e.d.queue| == |w.d.queue| + 1 && e.d.queue[..|w.d.queue|] == w.d.queue
                  && e.d.queue[|w.d.queue|].order == Dispatcher.Order(command, Dispatcher.External, e.b.internalId))
            && (!able ==>
                  && e.b.flight == w.b.flight && e.d.queue == w.d.queue && e.d.submitted == w.d.submitted
                  && AnsweredBy(w.b, e.b, r, if IsArchive(r) then ArchiveResult else Error)
                  && (IsArchive(r) ==> e.a.mode == ArchiveTransfer.Idle && e.d.c.archiveToken == 0))
  {
    hide Dispatcher.WellFormed;
  }

  /** A turn takes the oldest request. One of a client that is gone is forgotten; a command is handed over unless a
      restart or power off is committed, which makes it an error. */
  lemma ServeTells(w: World, turn: Turn)
    requires w.b.inbox != []
    ensures var e, r := Serve(w, turn), w.b.inbox[0];
            var s := w.(b := w.b.(inbox := w.b.inbox[1..]));
            && (!Alive(w.b.clients, r.token) ==> e == s)
            && (Alive(w.b.clients, r.token) && r.body.Asked? && r.body.ask.CommandAsk? ==>
                  if turn.committed then e.d == w.d && e.a == w.a && AnsweredBy(s.b, e.b, r, Error)
                  else e == SubmitFor(s, r, r.body.ask.command))
            && (Alive(w.b.clients, r.token) && r.body.Asked? && r.body.ask.ArchiveAsk? ==>
                  e == ServeArchive(s, r, r.body.ask.op, turn))
            && (Alive(w.b.clients, r.token) && r.body.Asked? && r.body.ask.SideAsk? ==>
                  e == ServeSide(s, r, r.body.ask.side, r.body.ask.subscribes, turn))
            && (Alive(w.b.clients, r.token) && (r.body.Greeting? || r.body.ask.StateAsk?) ==>
                  SnapshotFor(s.b, e.b, w.d.c, r) && e.d == w.d && e.a == w.a)
  {
    hide SubmitFor, ServeSide, ServeArchive, Snapshotted, SnapshotFor;
    SnapshotTells(Popped(w.b), w.d.c, w.b.inbox[0], turn.inspected);
  }

  /** The last thing a snapshot turn schedules is the delivery: for a new client hello first, with the older
      sequence, and the snapshot is the state of the device under the request's id. The others are told only of
      changed metadata. */
  predicate SnapshotFor(b: Bridge.State, e: Bridge.State, c: Controller.State, r: Bridge.Request)
  {
    && |b.pending| < |e.pending| <= |b.pending| + 2 && e.pending[..|b.pending|] == b.pending
    && (|e.pending| == |b.pending| + 2 <==> e.presets != b.presets)
    && (e.presets != b.presets ==>
          && e.pending[|b.pending|].Broadcast? && e.pending[|b.pending|].audience == None
          && e.pending[|b.pending|].event.kind == Universe && e.pending[|b.pending|].event.presets == e.presets)
    && var last := e.pending[|e.pending| - 1];
    && last.Deliver? && last.request == r && (last.hello.Some? <==> r.body.Greeting?)
    && (last.hello.Some? ==> last.hello.value.kind == Hello && last.hello.value.sequence < last.snapshot.sequence)
    && last.snapshot.kind == Snapshot && last.snapshot.id == r.id && last.snapshot.sequence == e.sequence
    && last.snapshot.values == c.working[1..] && last.snapshot.presets == e.presets
    && last.snapshot.revision == c.revision
  }

  lemma SnapshotTells(b: Bridge.State, c: Controller.State, r: Bridge.Request, inspected: seq<Byte>)
    ensures var e := Snapshotted(b, c, r, inspected);
            && SnapshotFor(b, e, c, r) && e.clients == b.clients && e.inbox == b.inbox
            && (b.presetsReady ==> e.presets == b.presets && e.presetsReady)
            && (!b.presetsReady ==> e.presets == inspected && (e.presetsReady <==> 3 !in inspected))
  {
  }

  /** A request to a side service: a subscription counts from this answer on, and the service's verdict reaches only
      a client that had subscribed before. */
  lemma SideTells(w: World, r: Bridge.Request, side: Side, subscribes: bool, turn: Turn)
    ensures var e := ServeSide(w, r, side, subscribes, turn);
            && e.d == w.d && e.a == w.a && e.b.clients == w.b.clients
            && (turn.committed && side == Settings && !subscribes ==> AnsweredBy(w.b, e.b, r, Error))
            && (!(turn.committed && side == Settings && !subscribes) ==>
                  var asked := if subscribes then w.b.pending + [Subscribe(r.token, side)] else w.b.pending;
                  && |e.b.pending| == |asked| + |turn.news| + 1 && e.b.pending[..|asked|] == asked
                  && var last := e.b.pending[|e.b.pending| - 1];
                  && last.Answer? && last.request == r && last.event.kind == Sided(side) && last.event.id == r.id
                  && last.event.revision == turn.sideRevision
                  && (subscribes ==> last.event.outcome == Plain)
                  && (!subscribes ==>
                        var before := Alive(w.b.clients, r.token) && side in w.b.clients[r.token.slot].subscribed;
                        last.event.outcome == if before then Given(turn.sideCode) else NotSubscribed))
  {
    var b := if subscribes then Queued(w.b, Subscribe(r.token, side)) else w.b;
    SideNewsTells(b, turn.news);
    var n := SideNews(b, turn.news);
    var e := ServeSide(w, r, side, subscribes, turn);
    if !(turn.committed && side == Settings && !subscribes) {
      assert e.b.pending[..|b.pending|] == n.pending[..|b.pending|];
    }
  }

  /** An archive request is dealt with only in sender mode while no other service is at work. */
  lemma ArchiveTells(w: World, r: Bridge.Request, op: ArchiveTransfer.Op, turn: Turn)
    ensures var e := ServeArchive(w, r, op, turn);
            var (a, c, answer) := ArchiveTransfer.Handle(w.a, w.d.c, op, r.token.generation, turn.archive);
            && (!w.b.sender || turn.blocked ==> e.a == w.a && e.d == w.d && AnsweredBy(w.b, e.b, r, ArchiveResult))
            && (w.b.sender && !turn.blocked && !answer.Submit? ==>
                  e.a == a && e.d == w.d.(c := c) && AnsweredBy(w.b, e.b, r, ArchiveResult))
            && (w.b.sender && !turn.blocked && answer.Submit? ==>
                  e == SubmitFor(w.(a := a, d := w.d.(c := c)), r, Controller.ReplaceCmd(answer.archiveToken)))
  {
    hide ArchiveTransfer.Handle, Dispatcher.Submit;
  }

  /** An open transfer outlasts an owner turn exactly while the device is and stays in sender mode, its owner is
      connected, no other service is at work, its last request came within 10 s and it began within 120 s. A changed
      mode is told to everybody; the news come first. */
  lemma PrepareTells(w: World, sender: bool, blocked: bool, now: U32, news: seq<(Side, nat)>)
    ensures var e := Prepare(w, sender, blocked, now, news);
            var stays := sender && w.b.sender && !blocked
                         && (exists i :: 0 <= i < |w.b.clients| && w.b.clients[i].active
                                         && w.b.clients[i].generation == w.a.owner)
                         && Elapsed(now, w.a.touched) < 10000 && Elapsed(now, w.a.started) < 120000;
            && (w.a.mode == ArchiveTransfer.Idle || stays ==> e.a == w.a && e.d == w.d)
            && (w.a.mode != ArchiveTransfer.Idle && !stays ==>
                  e.a.mode == ArchiveTransfer.Idle && e.d == w.d.(c := e.d.c) && e.d.c == w.d.c.(archiveToken := 0))
            && e.b.sender == sender && e.b.clients == w.b.clients && e.b.inbox == w.b.inbox
            && |e.b.pending| == |w.b.pending| + |news| + (if sender != w.b.sender then 1 else 0)
            && (sender != w.b.sender ==>
                  var last := e.b.pending[|e.b.pending| - 1];
                  && last.Broadcast? && last.audience == None && last.event.kind == ModeUpdate
                  && last.event.sender == sender)
  {
    SideNewsTells(w.b, news);
  }

  /** A completed command answers the request in flight exactly when it is that one's, and then nothing is in flight and
      an archive transfer is over; any other command leaves flight and transfer alone. */
  lemma CompletedTells(w: World, order: Dispatcher.Order, result: Dispatcher.Result, inspected: seq<Byte>)
    ensures var e := Completed(w, order, result, inspected);
            var own := w.b.flight.Some? && order.source == Dispatcher.External
                       && order.requestId == w.b.flight.value.commandId;
            && (own ==>
                  && e.b.flight == None
                  && (IsArchive(w.b.flight.value.request) ==>
                        e.a.mode == ArchiveTransfer.Idle && e.d.c.archiveToken == 0)
                  && (!IsArchive(w.b.flight.value.request) ==> e.a == w.a && e.d == w.d))
            && (!own ==> e.b.flight == w.b.flight && e.a == w.a && e.d == w.d)
  {
    hide ArchiveTransfer.Erased;
  }

  /** What the device does besides: a local command becomes the newest entry if it is valid and there is room, the
      sender flag and the transport follow their own steps; none of it touches the bridge or the transfer. */
  lemma LocalTells(w: World, order: Dispatcher.Order, active: bool, transport: Transport.Step)
    requires w.b.pending == [] && !order.source.External? && !w.d.processing && |w.d.queue| <= Dispatcher.CAPACITY
    ensures var e := Next(w, SubmitLocal(order));
            var able := Dispatcher.Validate(w.d, order) == Dispatcher.Accepted && |w.d.queue| < 32;
            && e.b == w.b && e.a == w.a && e.d.c == w.d.c && e.d.t == w.d.t
            && (!able ==> e.d == w.d)
            && (able ==>
                  && |e.d.queue| == |w.d.queue| + 1 && e.d.queue[..|w.d.queue|] == w.d.queue
                  && e.d.queue[|w.d.queue|].order == order)
    ensures var e := Next(w, SetSenderActive(active));
            e.d.senderActive == active && e == w.(d := w.d.(senderActive := active))
    ensures var e := Next(w, TransportWork(transport));
            e.b == w.b && e.a == w.a && e.d == w.d.(t := Transport.Apply(w.d.t, transport))
  {
    hide Dispatcher.Validate, Transport.Apply;
  }
}
