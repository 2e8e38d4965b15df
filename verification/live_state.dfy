/** The live-state protocol as a whole: controller, dispatcher, bridge and browsers. Owner turns
    and HTTP steps interleave freely; the result is that every synchronized browser is an exact
    replica, is never refused or left behind, and gets one answer per granted request, in order. */
module LiveState {
  import opened Types
  import opened Browser
  import opened Bridge
  import ArchiveTransfer
  import Controller
  import Dispatcher
  import PresetArchive
  import Transport

  datatype World = World(b: Bridge.State, a: ArchiveTransfer.State, d: Dispatcher.World)

  /** What an owner turn meets outside: preset metadata as read now, what the other services report,
      and what the archive transfer needs. */
  datatype Turn = Turn(
    inspected: seq<Byte>, blocked: bool, committed: bool, news: seq<(Side, nat)>, sideRevision: nat, sideCode: nat,
    archive: ArchiveTransfer.Env)

  predicate PresetCommand(c: Controller.Command)
  {
    c.LoadCmd? || c.SaveCmd? || c.CopyCmd? || c.ClearCmd? || c.ResetCmd? || c.ReplaceCmd?
  }

  predicate ChannelCommand(c: Controller.Command)
  {
    c.SetChannelCmd? || c.AdjustChannelCmd?
  }

  /** Whether a completed command is published: any revision change, any successful load, and storage
      errors of commands that may have touched a slot. */
  predicate Publishes(command: Controller.Command, result: Dispatcher.Result)
  {
    || result.after != result.before
    || (command.LoadCmd? && result.domain.Ok?
        && (result.status.Applied? || result.status.NoChange? || result.status.TransportError?))
    || (result.status.StorageError? && (command.LoadCmd? || command.SaveCmd? || command.ClearCmd? || command.CopyCmd?))
  }

  function ChannelEvent(b: Bridge.State, c: Controller.State, channel: int): Event
  {
    var ch := if 1 <= channel <= 512 then channel else 0;
    Made(b, c, ChannelUpdate, 0).(channel := ch, value := c.working[ch])
  }

  /** `completed()`, publication half. */
  function PublishedAfter(b: Bridge.State, c: Controller.State, command: Controller.Command, result: Dispatcher.Result,
                          inspected: seq<Byte>): Bridge.State
  {
    var s := if PresetCommand(command) then b.(presetsReady := false) else b;
    if !Publishes(command, result) then s
    else if ChannelCommand(command) then Counted(Queued(s, Broadcast(ChannelEvent(s, c, command.channel), None)))
    else Announced(Refreshed(s, inspected), c, Universe)
  }

  predicate AnswersFlight(b: Bridge.State, order: Dispatcher.Order)
  {
    b.flight.Some? && order.source.External? && order.requestId == b.flight.value.commandId
  }

  function ReplyKind(r: Bridge.Request, status: Dispatcher.Status): Kind
  {
    if r.body.Asked? && r.body.ask.ArchiveAsk? then ArchiveResult
    else if status.Applied? || status.NoChange? then Ack else Error
  }

  predicate IsArchive(r: Bridge.Request)
  {
    r.body.Asked? && r.body.ask.ArchiveAsk?
  }

  function AbortArchive(w: World): World
  {
    w.(a := ArchiveTransfer.Aborted(w.a), d := w.d.(c := Controller.Discarded(w.d.c)))
  }

  /** `completed()` as far as the bridge goes: publish, then answer the request whose command this was. */
  function CompletedBridge(b: Bridge.State, c: Controller.State, order: Dispatcher.Order, result: Dispatcher.Result,
                           inspected: seq<Byte>): Bridge.State
  {
    var p := PublishedAfter(b, c, order.command, result, inspected);
    if !AnswersFlight(b, order) then p
    else
      var r := b.flight.value.request;
      Replied(p.(flight := None), c, r, ReplyKind(r, result.status))
  }

  function Completed(w: World, order: Dispatcher.Order, result: Dispatcher.Result, inspected: seq<Byte>): World
  {
    var p := w.(b := CompletedBridge(w.b, w.d.c, order, result, inspected));
    if AnswersFlight(w.b, order) && IsArchive(w.b.flight.value.request) then AbortArchive(p) else p
  }

  /** Carry out the oldest queued command and complete it. */
  function RunHead(w: World, reply: Controller.StorageReply, inspected: seq<Byte>): World
    requires w.d.queue != []
  {
    var order := w.d.queue[0].order;
    var d := Dispatcher.ProcessOne(w.d, reply);
    Completed(w.(d := d), order, d.applied[|d.applied| - 1].result, inspected)
  }

  /** Hand a command to the dispatcher; the request is in flight, or refused at once. */
  function SubmitFor(w: World, r: Bridge.Request, command: Controller.Command): World
  {
    var id := NextInternal(w.b.internalId);
    var (d, status, ticket) := Dispatcher.Submit(w.d, Dispatcher.Order(command, Dispatcher.External, id));
    var s := w.(d := d, b := w.b.(internalId := id));
    if status == Dispatcher.Accepted then s.(b := s.b.(flight := Some(Flight(r, id))))
    else
      var refused := s.(b := Replied(s.b, s.d.c, r, ReplyKind(r, status)));
      if IsArchive(r) then AbortArchive(refused) else refused
  }

  function ServeArchive(w: World, r: Bridge.Request, op: ArchiveTransfer.Op, turn: Turn): World
  {
    if !w.b.sender || turn.blocked then w.(b := Replied(w.b, w.d.c, r, ArchiveResult))
    else
      var (a, c, answer) := ArchiveTransfer.Handle(w.a, w.d.c, op, r.token.generation, turn.archive);
      var s := w.(a := a, d := w.d.(c := c));
      if answer.Submit? then SubmitFor(s, r, Controller.ReplaceCmd(answer.archiveToken))
      else s.(b := Replied(s.b, c, r, ArchiveResult))
  }

  function ServeSide(w: World, r: Bridge.Request, side: Side, subscribes: bool, turn: Turn): World
  {
    if turn.committed && side.Settings? && !subscribes then w.(b := Replied(w.b, w.d.c, r, Error))
    else
      var subscribed := if subscribes then Queued(w.b, Subscribe(r.token, side)) else w.b;
      var told := SideNews(subscribed, turn.news);
      var outcome := Verdict(w.b.clients, r.token, side, subscribes, turn.sideCode);
      w.(b := SideAnswered(told, r, side, turn.sideRevision, outcome))
  }

  /** Deal with a request of a client that is still there. */
  function Dealt(w: World, r: Bridge.Request, turn: Turn): World
  {
    if r.body.Greeting? || r.body.ask.StateAsk? then w.(b := Snapshotted(w.b, w.d.c, r, turn.inspected))
    else
      match r.body.ask
      case ArchiveAsk(op) => ServeArchive(w, r, op, turn)
      case SideAsk(side, subscribes) => ServeSide(w, r, side, subscribes, turn)
      case CommandAsk(command) =>
        if turn.committed then w.(b := Replied(w.b, w.d.c, r, Error)) else SubmitFor(w, r, command)
  }

  /** Take one request off the inbox and deal with it, unless its client is gone. */
  function Serve(w: World, turn: Turn): World
    requires w.b.inbox != []
  {
    var s := w.(b := Popped(w.b));
    if Alive(s.b.clients, w.b.inbox[0].token) then Dealt(s, w.b.inbox[0], turn) else s
  }

  /** The archive transfer has lost its owner, its mode or its time. */
  predicate TransferOver(w: World, sender: bool, blocked: bool, now: U32)
  {
    ArchiveTransfer.Expired(w.a, sender, w.b.sender, HasGeneration(w.b.clients, w.a.owner), blocked, now)
  }

  /** What an owner turn does before it looks at the inbox; `blocked` says whether another service is at work. */
  function Prepare(w: World, sender: bool, blocked: bool, now: U32, news: seq<(Side, nat)>): World
  {
    var s := if TransferOver(w, sender, blocked, now) then AbortArchive(w) else w;
    s.(b := ModeChanged(SideNews(s.b, news), s.d.c, sender))
  }

  // ---------------------------------------------------------------------------------------
  // Steps. The owner task starts something new only when its scheduled blocks have run.

  datatype Step =
    | HttpWork(http: HttpStep)
    | EmitNext
    | PrepareTurn(sender: bool, blocked: bool, now: U32, news: seq<(Side, nat)>)
    | ServeNext(turn: Turn)
    | SubmitLocal(order: Dispatcher.Order)
    | RunNext(reply: Controller.StorageReply, inspected: seq<Byte>)
    | SetSenderActive(active: bool)
    | TransportWork(transport: Transport.Step)

  predicate DecodedAsk(ask: Ask)
  {
    ask.ArchiveAsk? ==> ArchiveTransfer.Decodable(ask.op)
  }

  /** When a step may happen at all. */
  predicate Enabled(w: World, step: Step)
  {
    match step
    case HttpWork(h) => h.ReceiveStep? && h.message.Decoded? ==> DecodedAsk(h.message.ask)
    case EmitNext => w.b.pending != []
    case PrepareTurn(_, _, _, _) => w.b.pending == []
    case ServeNext(turn) => w.b.pending == [] && w.b.flight.None? && w.b.inbox != [] && Inspected(turn.inspected)
    case SubmitLocal(order) => w.b.pending == [] && !order.source.External?
    case RunNext(_, inspected) => w.b.pending == [] && Dispatcher.HeadRuns(w.d) && Inspected(inspected)
    case SetSenderActive(_) => w.b.pending == []
    case TransportWork(_) => w.b.pending == []
  }

  function Next(w: World, step: Step): World
    requires Enabled(w, step)
  {
    match step
    case HttpWork(h) => w.(b := Http(w.b, h))
    case EmitNext => w.(b := Emit(w.b))
    case PrepareTurn(sender, blocked, now, news) => Prepare(w, sender, blocked, now, news)
    case ServeNext(turn) => Serve(w, turn)
    case SubmitLocal(order) => w.(d := Dispatcher.Submit(w.d, order).0)
    case RunNext(reply, inspected) => RunHead(w, reply, inspected)
    case SetSenderActive(active) => w.(d := w.d.(senderActive := active))
    case TransportWork(t) => w.(d := w.d.(t := Transport.Apply(w.d.t, t)))
  }

  /** Runs; a step that is not enabled does not happen. */
  function Run(w: World, steps: seq<Step>): World
    decreases |steps|
  {
    if steps == [] then w
    else if Enabled(w, steps[0]) then Run(Next(w, steps[0]), steps[1..])
    else Run(w, steps[1..])
  }

  // ---------------------------------------------------------------------------------------
  // The invariant

  /** What a page must show of the device right now. */
  function ActualOf(b: Bridge.State, c: Controller.State): Shown
  {
    Shown(c.working[1..], c.blackout, c.loaded, c.modified, b.sender, b.presets, c.revision)
  }

  function Actual(w: World): Shown
  {
    ActualOf(w.b, w.d.c)
  }

  function External(queue: seq<Dispatcher.Entry>): seq<nat>
  {
    if queue == [] then []
    else (if queue[0].order.source.External? then [queue[0].order.requestId] else []) + External(queue[1..])
  }

  ghost predicate Inv(w: World)
  {
    && BridgeOk(w.b)
    && ShownAtEnd(w.b.pending, w.b.shown) == Actual(w)
    && Dispatcher.Inv(w.d)
    && External(w.d.queue) == (if w.b.flight.Some? then [w.b.flight.value.commandId] else [])
    && (w.b.flight.Some? ==> w.b.flight.value.request.body.Asked?)
  }

  /** The bridge before any connection: its published content is what the controller shows. */
  ghost predicate Initial(w: World)
  {
    && |w.b.clients| == MAX_CLIENTS && (forall i :: 0 <= i < MAX_CLIENTS ==> !w.b.clients[i].active)
    && w.b.inbox == [] && w.b.flight.None? && w.b.pending == [] && w.b.bound <= w.b.sequence && Inspected(w.b.presets)
    && w.b.shown == Actual(w)
    && Dispatcher.Inv(w.d) && w.d.queue == []
  }

  // ---------------------------------------------------------------------------------------
  // Planning: what the owner task schedules is fit to be sent

  ghost predicate Plan(b: Bridge.State)
  {
    OutsOk(b.pending, b.shown, b.bound) && BoundAtEnd(b.pending, b.bound) <= b.sequence && Inspected(b.presets)
  }

  /** Once everything scheduled has run, the pages show the device as it is now. */
  ghost predicate Current(b: Bridge.State, c: Controller.State)
  {
    ShownAtEnd(b.pending, b.shown) == ActualOf(b, c)
  }

  /** The owner's computation touches neither clients nor what was published. */
  predicate Undisturbed(b: Bridge.State, e: Bridge.State)
  {
    e.clients == b.clients && e.shown == b.shown && e.bound == b.bound && e.generation == b.generation
  }

  /** Scheduled blocks are added at the end, and the unanswered requests stay where they were. */
  ghost predicate Extends(b: Bridge.State, e: Bridge.State, owed: seq<Bridge.Request>)
  {
    && Undisturbed(b, e) && e.inbox == b.inbox && e.flight == b.flight
    && Owed(e.pending) == Owed(b.pending) + owed
  }

  lemma QueuePlan(b: Bridge.State, o: Out)
    requires Plan(b) && OutOk(o, ShownAtEnd(b.pending, b.shown), BoundAtEnd(b.pending, b.bound))
    requires BoundAfter(o, BoundAtEnd(b.pending, b.bound)) <= b.sequence + 1
    ensures Plan(Counted(Queued(b, o)))
    ensures ShownAtEnd(b.pending + [o], b.shown) == ShownAfter(o, ShownAtEnd(b.pending, b.shown))
    ensures BoundAtEnd(b.pending + [o], b.bound) == BoundAfter(o, BoundAtEnd(b.pending, b.bound))
    ensures Extends(b, Counted(Queued(b, o)), if o.Deliver? || o.Answer? then [o.request] else [])
  {
    hide OutsOk, ShownAtEnd, BoundAtEnd, Owed, OutOk;
    OutsAppend(b.pending, o, b.shown, b.bound);
    OwedAppend(b.pending, o);
  }

  lemma ExtendsTrans(a: Bridge.State, b: Bridge.State, c: Bridge.State, x: seq<Bridge.Request>, y: seq<Bridge.Request>)
    requires Extends(a, b, x) && Extends(b, c, y)
    ensures Extends(a, c, x + y)
  {
    assert Owed(a.pending) + x + y == Owed(a.pending) + (x + y);
  }

  /** Announcing a full state, or a mode change when nothing else changed, makes the pages current. */
  lemma AnnouncedPlan(b: Bridge.State, c: Controller.State, kind: Kind)
    requires Plan(b) && Controller.Inv(c) && (kind.Universe? || kind.ModeUpdate?)
    requires ShownAtEnd(b.pending, b.shown).revision <= c.revision
    requires kind.ModeUpdate? ==>
             ShownAtEnd(b.pending, b.shown).values == c.working[1..]
                 && ShownAtEnd(b.pending, b.shown).presets == b.presets
    ensures Plan(Announced(b, c, kind)) && Current(Announced(b, c, kind), c) && Extends(b, Announced(b, c, kind), [])
  {
    hide OutsOk, ShownAtEnd, BoundAtEnd, Owed, Extends;
    QueuePlan(b, Broadcast(Made(b, c, kind, 0), None));
  }

  lemma RepliedPlan(b: Bridge.State, c: Controller.State, r: Bridge.Request, kind: Kind)
    requires Plan(b) && Current(b, c) && r.body.Asked? && (kind.Ack? || kind.Error? || kind.ArchiveResult?)
    ensures Plan(Replied(b, c, r, kind)) && Current(Replied(b, c, r, kind), c)
    ensures Extends(b, Replied(b, c, r, kind), [r])
  {
    hide OutsOk, ShownAtEnd, BoundAtEnd, Owed, Extends;
    QueuePlan(b, Answer(r, Made(b, c, kind, r.id)));
  }

  lemma SideAnswerPlan(b: Bridge.State, c: Controller.State, r: Bridge.Request, side: Side, revision: nat,
                       outcome: Outcome)
    requires Plan(b) && Current(b, c) && r.body.Asked?
    ensures var e := SideAnswered(b, r, side, revision, outcome);
            Plan(e) && Current(e, c) && Extends(b, e, [r])
  {
    hide OutsOk, ShownAtEnd, BoundAtEnd, Owed, Extends;
    QueuePlan(b, Answer(r, SideEvent(b, side, r.id, revision, outcome)));
  }

  lemma SideNewsPlan(b: Bridge.State, c: Controller.State, news: seq<(Side, nat)>)
    requires Plan(b) && Current(b, c)
    ensures Plan(SideNews(b, news)) && Current(SideNews(b, news), c) && Extends(b, SideNews(b, news), [])
    decreases |news|
  {
    hide OutsOk, ShownAtEnd, BoundAtEnd, Owed, Extends;
    if news == [] {
      ExtendsSelf(b);
    } else {
      var o := Broadcast(SideEvent(b, news[0].0, 0, news[0].1, Plain), Some(news[0].0));
      QueuePlan(b, o);
      var more := Counted(Queued(b, o));
      SideNewsPlan(more, c, news[1..]);
      ExtendsTrans(b, more, SideNews(b, news), [], []);
      EmptyIsNeutral<Bridge.Request>();
    }
  }

  lemma EmptyIsNeutral<T>()
    ensures forall x: seq<T> :: [] + x == x && x + [] == x
  {
  }

  lemma ExtendsSelf(b: Bridge.State)
    ensures Extends(b, b, [])
  {
  }

  lemma ModeChangedPlan(b: Bridge.State, c: Controller.State, sender: bool)
    requires Plan(b) && Current(b, c) && Controller.Inv(c)
    ensures Plan(ModeChanged(b, c, sender)) && Current(ModeChanged(b, c, sender), c)
    ensures Extends(b, ModeChanged(b, c, sender), [])
  {
    hide OutsOk, ShownAtEnd, BoundAtEnd, Owed;
    if b.sender == sender { ExtendsSelf(b); } else { AnnouncedPlan(b.(sender := sender), c, ModeUpdate); }
  }

  lemma ToldPlan(b: Bridge.State, c: Controller.State, inspected: seq<Byte>, greeted: Bridge.State)
    requires Plan(b) && Current(b, c) && Controller.Inv(c) && Inspected(inspected)
    requires greeted == b || greeted == Counted(b)
    ensures var current := Refreshed(greeted, inspected);
            var told := if current.presets != b.presets then Announced(current, c, Universe) else current;
            Plan(told) && Current(told, c) && Extends(b, told, []) && told.sequence >= greeted.sequence
  {
    hide OutsOk, ShownAtEnd, BoundAtEnd, Owed, Extends;
    var current := Refreshed(greeted, inspected);
    assert Plan(current);
    if current.presets != b.presets { AnnouncedPlan(current, c, Universe); } else { ExtendsSelf(current); }
    ExtendsSame(b, current, if current.presets != b.presets then Announced(current, c, Universe) else current, []);
  }

  /** The snapshot block: what is captured is exactly what is published by the time it runs. */
  lemma SnapshottedPlan(b: Bridge.State, c: Controller.State, r: Bridge.Request, inspected: seq<Byte>)
    requires Plan(b) && Current(b, c) && Controller.Inv(c) && Inspected(inspected)
    ensures var e := Snapshotted(b, c, r, inspected);
            Plan(e) && Current(e, c) && Extends(b, e, [r])
  {
    hide OutsOk, ShownAtEnd, BoundAtEnd, Owed, Extends, Announced;
    var hello := if r.body.Greeting? then Some(Made(b, c, Hello, 0)) else None;
    var greeted := if r.body.Greeting? then Counted(b) else b;
    var current := Refreshed(greeted, inspected);
    var told := if current.presets != b.presets then Announced(current, c, Universe) else current;
    ToldPlan(b, c, inspected, greeted);
    var o := Deliver(r, hello, Made(told, c, Snapshot, r.id));
    QueuePlan(told, o);
    ExtendsTrans(b, told, Counted(Queued(told, o)), [], [r]);
    EmptyIsNeutral<Bridge.Request>();
  }

  /** Fields a page does not depend on may change before the schedule is extended. */
  lemma ExtendsSame(b: Bridge.State, m: Bridge.State, e: Bridge.State, owed: seq<Bridge.Request>)
    requires Extends(m, e, owed) && Undisturbed(b, m) && m.inbox == b.inbox
    requires m.flight == b.flight && m.pending == b.pending
    ensures Extends(b, e, owed)
  {
  }

  // ---------------------------------------------------------------------------------------
  // The owner's steps keep the invariant

  /** A computation that leaves the clients alone and the pipe unchanged keeps the bridge coherent. */
  lemma SamePipeKeeps(b: Bridge.State, e: Bridge.State)
    requires BridgeOk(b) && Plan(e) && Undisturbed(b, e) && |e.inbox| <= INBOX && Pipe(e) == Pipe(b)
    ensures BridgeOk(e)
  {
    hide ClientsOk, OutsOk, Pipe;
  }

  lemma BridgePlans(b: Bridge.State)
    requires BridgeOk(b)
    ensures Plan(b)
  {
    hide ClientsOk, OutsOk, Pipe;
  }

  /** A request of a client that is gone can be forgotten. */
  lemma ForgottenKeeps(b: Bridge.State)
    requires BridgeOk(b) && b.pending == [] && b.flight.None? && b.inbox != [] && !Alive(b.clients, b.inbox[0].token)
    ensures BridgeOk(Popped(b))
  {
    hide ClientOk;
    assert Pipe(b) == b.inbox && Pipe(Popped(b)) == b.inbox[1..];
    OthersUntouched(b, b.bound);
  }

  lemma PrepareKeeps(w: World, sender: bool, blocked: bool, now: U32, news: seq<(Side, nat)>)
    requires Inv(w)
    ensures Inv(Prepare(w, sender, blocked, now, news))
  {
    hide BridgeOk, ShownAtEnd, SideNews, ModeChanged, TransferOver;
    var s := if TransferOver(w, sender, blocked, now) then AbortArchive(w) else w;
    BridgePlans(w.b);
    DiscardKeeps(w);
    SideNewsPlan(s.b, s.d.c, news);
    var told := SideNews(s.b, news);
    ModeChangedPlan(told, s.d.c, sender);
    var e := ModeChanged(told, s.d.c, sender);
    ExtendsTrans(w.b, told, e, [], []);
    EmptyIsNeutral<Bridge.Request>();
    PipeExtended(w.b, e);
    SamePipeKeeps(w.b, e);
  }

  lemma DiscardKeeps(w: World)
    requires Inv(w)
    ensures Inv(AbortArchive(w)) && AbortArchive(w).b == w.b
  {
    hide BridgeOk;
  }

  lemma PipeExtended(b: Bridge.State, e: Bridge.State)
    requires Extends(b, e, []) && BridgeOk(b)
    ensures Pipe(e) == Pipe(b) && |e.inbox| <= INBOX
  {
    EmptyIsNeutral<Bridge.Request>();
  }

  lemma ServedPipe(b: Bridge.State, e: Bridge.State)
    requires b.pending == [] && b.flight.None? && b.inbox != [] && BridgeOk(b)
    requires Extends(Popped(b), e, [b.inbox[0]])
    ensures Pipe(e) == Pipe(b) && |e.inbox| <= INBOX
  {
    EmptyIsNeutral<Bridge.Request>();
    assert [b.inbox[0]] + b.inbox[1..] == b.inbox;
  }

  /** Closing a served request: an extension by exactly that request keeps everything. */
  lemma ServedKeeps(w: World, e: World)
    requires Inv(w) && w.b.pending == [] && w.b.flight.None? && w.b.inbox != []
    requires Plan(e.b) && Current(e.b, e.d.c) && Extends(Popped(w.b), e.b, [w.b.inbox[0]])
    requires Dispatcher.Inv(e.d) && External(e.d.queue) == External(w.d.queue)
    ensures Inv(e)
  {
    hide BridgeOk, Plan, ShownAtEnd;
    ServedPipe(w.b, e.b);
    SamePipeKeeps(w.b, e.b);
  }

  lemma ExternalAppend(queue: seq<Dispatcher.Entry>, entry: Dispatcher.Entry)
    ensures External(queue + [entry]) ==
              External(queue) + if entry.order.source.External? then [entry.order.requestId] else []
  {
    if queue == [] {
      assert [] + [entry] == [entry];
    } else {
      assert (queue + [entry])[1..] == queue[1..] + [entry];
      ExternalAppend(queue[1..], entry);
    }
  }

  lemma SubmitShape(d: Dispatcher.World, order: Dispatcher.Order)
    requires Dispatcher.Inv(d)
    ensures var (e, status, ticket) := Dispatcher.Submit(d, order);
            && Dispatcher.Inv(e) && e.c == d.c
            && External(e.queue) == External(d.queue)
                 + if status == Dispatcher.Accepted && order.source.External? then [order.requestId] else []
  {
    hide Dispatcher.Validate, External;
    Dispatcher.SubmitKeepsInv(d, order);
    var (e, status, ticket) := Dispatcher.Submit(d, order);
    if status == Dispatcher.Accepted {
      ExternalAppend(d.queue, Dispatcher.Entry(order, ticket));
    } else {
      assert External(d.queue) + [] == External(d.queue);
    }
  }

  /** A served command is in flight, or answered. `s` is the world with the request popped. */
  lemma SubmitForKeeps(w: World, s: World, command: Controller.Command)
    requires Inv(w) && w.b.pending == [] && w.b.flight.None? && w.b.inbox != [] && w.b.inbox[0].body.Asked?
    requires s.b == Popped(w.b) && Dispatcher.Inv(s.d) && s.d.queue == w.d.queue && Current(s.b, s.d.c)
    ensures Inv(SubmitFor(s, w.b.inbox[0], command))
  {
    hide BridgeOk, Plan, ShownAtEnd, Dispatcher.Submit, Dispatcher.Inv, OutsOk, BoundAtEnd;
    var r := w.b.inbox[0];
    var id := NextInternal(s.b.internalId);
    var order := Dispatcher.Order(command, Dispatcher.External, id);
    SubmitShape(s.d, order);
    var (d, status, ticket) := Dispatcher.Submit(s.d, order);
    var b := s.b.(internalId := id);
    assert Plan(b) by { BridgePlans(w.b); PoppedPlans(w.b, id); }
    assert Current(b, d.c);
    var e := SubmitFor(s, r, command);
    if status == Dispatcher.Accepted {
      var f := b.(flight := Some(Flight(r, id)));
      FlownPipe(w.b, f, id);
      assert Plan(f) by { FlightPlans(b, f); }
      SamePipeKeeps(w.b, f);
      assert e.b == f;
    } else {
      var kind := ReplyKind(r, status);
      RepliedPlan(b, d.c, r, kind);
      ExtendsSame(Popped(w.b), b, Replied(b, d.c, r, kind), [r]);
      EmptyIsNeutral<Bridge.Request>();
      if IsArchive(r) { DiscardKeepsDispatcher(d); }
      ServedKeeps(w, e);
    }
  }

  lemma PoppedPlans(b: Bridge.State, id: nat)
    requires Plan(b) && b.inbox != []
    ensures Plan(Popped(b)) && Plan(Popped(b).(internalId := id))
  {
  }

  lemma FlightPlans(b: Bridge.State, f: Bridge.State)
    requires Plan(b) && f == b.(flight := f.flight)
    ensures Plan(f)
  {
  }

  lemma FlownPipe(b: Bridge.State, f: Bridge.State, id: nat)
    requires b.pending == [] && b.flight.None? && b.inbox != [] && BridgeOk(b)
    requires f == Popped(b).(internalId := id, flight := Some(Flight(b.inbox[0], id)))
    ensures Pipe(f) == Pipe(b) && |f.inbox| <= INBOX && Undisturbed(b, f)
  {
    assert [b.inbox[0]] + b.inbox[1..] == b.inbox;
  }

  lemma DiscardKeepsDispatcher(d: Dispatcher.World)
    requires Dispatcher.Inv(d)
    ensures Dispatcher.Inv(d.(c := Controller.Discarded(d.c)))
  {
  }

  lemma StartKeepsLive(a: ArchiveTransfer.State, c: Controller.State, op: ArchiveTransfer.Op, generation: nat,
                       env: ArchiveTransfer.Env)
    requires op.Export? || op.Import?
    ensures var e := ArchiveTransfer.Start(a, c, op, generation, env).1;
            e == c.(archive := e.archive, archiveToken := e.archiveToken, archiveCounter := e.archiveCounter,
                    archiveBase := e.archiveBase)
  {
    hide PresetArchive.Print, ArchiveTransfer.Aborted;
  }

  lemma ContinueKeepsLive(a: ArchiveTransfer.State, c: Controller.State, op: ArchiveTransfer.Op, generation: nat,
                          env: ArchiveTransfer.Env)
    requires !op.Export? && !op.Import?
    ensures var e := ArchiveTransfer.Continue(a, c, op, generation, env).1;
            e == c.(archive := e.archive, archiveToken := e.archiveToken, archiveCounter := e.archiveCounter,
                    archiveBase := e.archiveBase)
  {
    hide PresetArchive.Parse, ArchiveTransfer.Aborted;
  }

  /** The archive transfer never touches what a page shows. */
  lemma HandleKeepsLive(a: ArchiveTransfer.State, c: Controller.State, op: ArchiveTransfer.Op, generation: nat,
                        env: ArchiveTransfer.Env)
    ensures var e := ArchiveTransfer.Handle(a, c, op, generation, env).1;
            e == c.(archive := e.archive, archiveToken := e.archiveToken, archiveCounter := e.archiveCounter,
                    archiveBase := e.archiveBase)
  {
    hide ArchiveTransfer.Start, ArchiveTransfer.Continue;
    if op.Export? || op.Import? {
      StartKeepsLive(a, c, op, generation, env);
    } else {
      ContinueKeepsLive(a, c, op, generation, env);
    }
  }

  lemma ServeArchiveKeeps(w: World, op: ArchiveTransfer.Op, turn: Turn)
    requires Inv(w) && w.b.pending == [] && w.b.flight.None? && w.b.inbox != [] && IsArchive(w.b.inbox[0])
    ensures Inv(ServeArchive(w.(b := Popped(w.b)), w.b.inbox[0], op, turn))
  {
    hide BridgeOk, Plan, ShownAtEnd, ArchiveTransfer.Handle, SubmitFor;
    var r := w.b.inbox[0];
    var s := w.(b := Popped(w.b));
    BridgePlans(w.b);
    PoppedPlans(w.b, 0);
    HandleKeepsLive(w.a, w.d.c, op, r.token.generation, turn.archive);
    var (a, c, answer) := ArchiveTransfer.Handle(w.a, w.d.c, op, r.token.generation, turn.archive);
    var t := s.(a := a, d := w.d.(c := c));
    if !w.b.sender || turn.blocked {
      RepliedPlan(s.b, w.d.c, r, ArchiveResult);
      ServedKeeps(w, s.(b := Replied(s.b, w.d.c, r, ArchiveResult)));
    } else if answer.Submit? {
      SubmitForKeeps(w, t, Controller.ReplaceCmd(answer.archiveToken));
    } else {
      RepliedPlan(s.b, c, r, ArchiveResult);
      ServedKeeps(w, t.(b := Replied(s.b, c, r, ArchiveResult)));
    }
  }

  lemma ServeSideKeeps(w: World, side: Side, subscribes: bool, turn: Turn)
    requires Inv(w) && w.b.pending == [] && w.b.flight.None? && w.b.inbox != [] && w.b.inbox[0].body.Asked?
    ensures Inv(ServeSide(w.(b := Popped(w.b)), w.b.inbox[0], side, subscribes, turn))
  {
    hide BridgeOk, Plan, ShownAtEnd, Dispatcher.Inv, SideNews;
    var r := w.b.inbox[0];
    var s := w.(b := Popped(w.b));
    BridgePlans(w.b);
    PoppedPlans(w.b, 0);
    if turn.committed && side.Settings? && !subscribes {
      RepliedPlan(s.b, s.d.c, r, Error);
      ServedKeeps(w, s.(b := Replied(s.b, s.d.c, r, Error)));
    } else {
      var subscribed := if subscribes then Queued(s.b, Subscribe(r.token, side)) else s.b;
      if subscribes { SubscribedPlan(s.b, s.d.c, r.token, side); } else { ExtendsSelf(s.b); }
      SideNewsPlan(subscribed, s.d.c, turn.news);
      var told := SideNews(subscribed, turn.news);
      ExtendsTrans(s.b, subscribed, told, [], []);
      var outcome := Verdict(s.b.clients, r.token, side, subscribes, turn.sideCode);
      SideAnswerPlan(told, s.d.c, r, side, turn.sideRevision, outcome);
      var e := SideAnswered(told, r, side, turn.sideRevision, outcome);
      EmptyIsNeutral<Bridge.Request>();
      ExtendsTrans(s.b, told, e, [], [r]);
      ServedKeeps(w, s.(b := e));
    }
  }

  lemma SubscribedPlan(b: Bridge.State, c: Controller.State, t: Token, side: Side)
    requires Plan(b) && Current(b, c)
    ensures var e := Queued(b, Subscribe(t, side));
            Plan(e) && Current(e, c) && Extends(b, e, [])
  {
    QueuePlan(b, Subscribe(t, side));
  }

  lemma ServeKeeps(w: World, turn: Turn)
    requires Inv(w) && w.b.pending == [] && w.b.flight.None? && w.b.inbox != [] && Inspected(turn.inspected)
    ensures Inv(Serve(w, turn))
  {
    hide BridgeOk, Plan, ShownAtEnd, Dispatcher.Inv, ServeArchive, ServeSide, SubmitFor, Snapshotted;
    var r := w.b.inbox[0];
    var s := w.(b := Popped(w.b));
    BridgePlans(w.b);
    PoppedPlans(w.b, 0);
    if !Alive(w.b.clients, r.token) {
      ForgottenKeeps(w.b);
    } else if r.body.Greeting? || r.body.ask.StateAsk? {
      assert Controller.Inv(w.d.c) by { DispatcherHolds(w.d); }
      SnapshottedPlan(s.b, s.d.c, r, turn.inspected);
      ServedKeeps(w, s.(b := Snapshotted(s.b, s.d.c, r, turn.inspected)));
    } else {
      match r.body.ask
      case ArchiveAsk(op) => ServeArchiveKeeps(w, op, turn);
      case SideAsk(side, subscribes) => ServeSideKeeps(w, side, subscribes, turn);
      case CommandAsk(command) =>
        if turn.committed {
          RepliedPlan(s.b, s.d.c, r, Error);
          ServedKeeps(w, s.(b := Replied(s.b, s.d.c, r, Error)));
        } else {
          SubmitForKeeps(w, s, command);
        }
    }
  }

  lemma DispatcherHolds(d: Dispatcher.World)
    requires Dispatcher.Inv(d)
    ensures Controller.Inv(d.c)
  {
  }

  // ---------------------------------------------------------------------------------------
  // A command completes

  lemma ApplyShape(d: Dispatcher.World, entry: Dispatcher.Entry, r: Controller.StorageReply)
    ensures var (e, result) := Dispatcher.Apply(d, entry, r);
            && (e.c == d.c || e.c == Controller.Execute(d.c, entry.order.command, r).0)
            && result.before == d.c.revision && result.after == e.c.revision
            && e.queue == d.queue && e.processing == d.processing
  {
    hide Controller.Execute, Dispatcher.Validate, Transport.Stage, Transport.StageAllowed, Dispatcher.Verdict;
  }

  lemma ProcessShape(d: Dispatcher.World, r: Controller.StorageReply)
    requires Dispatcher.Inv(d) && Dispatcher.HeadRuns(d)
    ensures var e := Dispatcher.ProcessOne(d, r);
            && Dispatcher.Inv(e) && e.queue == d.queue[1..] && e.applied != []
            && var result := e.applied[|e.applied| - 1].result;
            && (e.c == d.c || e.c == Controller.Execute(d.c, d.queue[0].order.command, r).0)
            && result.before == d.c.revision && result.after == e.c.revision
  {
    hide Dispatcher.Apply;
    Dispatcher.ProcessOneKeeps(d, r);
    ApplyShape(d.(queue := d.queue[1..]), d.queue[0], r);
  }

  lemma ChannelPlan(b: Bridge.State, s: Bridge.State, c: Controller.State, d: Controller.State,
                    command: Controller.Command)
    requires Plan(s) && Current(s, c) && Controller.Inv(d) && ChannelCommand(command)
    requires s == b || s == b.(presetsReady := false)
    requires d.blackout == c.blackout && d.loaded == c.loaded && c.revision <= d.revision
    requires Controller.ValidChannel(command.channel)
    requires d.working == c.working[command.channel := d.working[command.channel]]
    ensures var e := Counted(Queued(s, Broadcast(ChannelEvent(s, d, command.channel), None)));
            Plan(e) && Current(e, d) && Extends(b, e, [])
  {
    hide OutsOk, ShownAtEnd, BoundAtEnd, Owed, Extends;
    var e := ChannelEvent(s, d, command.channel);
    ChannelAdvances(s, c, d, command, e);
    QueuePlan(s, Broadcast(e, None));
    ExtendsSame(b, s, Counted(Queued(s, Broadcast(e, None))), []);
  }

  lemma UniversePlan(b: Bridge.State, s: Bridge.State, c: Controller.State, d: Controller.State, inspected: seq<Byte>)
    requires Plan(s) && Current(s, c) && Controller.Inv(d) && Inspected(inspected) && c.revision <= d.revision
    requires s == b || s == b.(presetsReady := false)
    ensures var e := Announced(Refreshed(s, inspected), d, Universe);
            Plan(e) && Current(e, d) && Extends(b, e, [])
  {
    hide OutsOk, ShownAtEnd, BoundAtEnd, Owed, Extends, Announced;
    var current := Refreshed(s, inspected);
    AnnouncedPlan(current, d, Universe);
    ExtendsSame(b, current, Announced(current, d, Universe), []);
  }

  /** Publication is complete: after any command, what is scheduled brings every page to the new state. */
  lemma PublishedPlan(b: Bridge.State, c: Controller.State, d: Controller.State, command: Controller.Command,
                      r: Controller.StorageReply, result: Dispatcher.Result, inspected: seq<Byte>)
    requires Plan(b) && Current(b, c) && Controller.Inv(c) && Controller.Inv(d) && Inspected(inspected)
    requires d == c || d == Controller.Execute(c, command, r).0
    requires result.before == c.revision && result.after == d.revision
    ensures var e := PublishedAfter(b, d, command, result, inspected);
            Plan(e) && Current(e, d) && Extends(b, e, [])
  {
    hide OutsOk, ShownAtEnd, BoundAtEnd, Owed, Extends, Controller.Execute, Announced, Refreshed, ChannelEvent;
    Controller.RevisionDetectsChange(c, command, r);
    var s := if PresetCommand(command) then b.(presetsReady := false) else b;
    if !Publishes(command, result) {
      assert Controller.View(d) == Controller.View(c);
      ExtendsSelf(s);
      ExtendsSame(b, s, s, []);
    } else if ChannelCommand(command) {
      Controller.ChannelCommandIsLocal(c, command, r);
      ChannelPlan(b, s, c, d, command);
    } else {
      UniversePlan(b, s, c, d, inspected);
    }
  }

  lemma ChannelAdvances(b: Bridge.State, c: Controller.State, d: Controller.State, command: Controller.Command,
                        e: Event)
    requires Current(b, c) && ChannelCommand(command) && Controller.Inv(d)
    requires d.blackout == c.blackout && d.loaded == c.loaded && c.revision <= d.revision
    requires Controller.ValidChannel(command.channel)
    requires d.working == c.working[command.channel := d.working[command.channel]]
    requires e == ChannelEvent(b, d, command.channel)
             || e == ChannelEvent(b.(presetsReady := false), d, command.channel)
    ensures Advance(ShownAtEnd(b.pending, b.shown), e) == ActualOf(b, d)
    ensures OutOk(Broadcast(e, None), ShownAtEnd(b.pending, b.shown), b.sequence)
  {
    hide ShownAtEnd;
    assert c.working[1..][command.channel - 1 := d.working[command.channel]] == d.working[1..];
  }

  lemma CompletedPipe(b: Bridge.State, p: Bridge.State, e: Bridge.State, answered: bool)
    requires b.pending == [] && BridgeOk(b) && Extends(b, p, [])
    requires answered ==> b.flight.Some? && Extends(p.(flight := None), e, [b.flight.value.request])
    requires !answered ==> e == p
    ensures Pipe(e) == Pipe(b) && |e.inbox| <= INBOX && Undisturbed(b, e)
  {
    EmptyIsNeutral<Bridge.Request>();
    if answered {
      assert Owed(e.pending) == [b.flight.value.request];
      assert Owed(e.pending) + [] + b.inbox == [] + [b.flight.value.request] + b.inbox;
    }
  }

  /** Publication and answer together: the pages become current and exactly the request in flight is answered. */
  lemma CompletedPlan(b: Bridge.State, c: Controller.State, d: Controller.State, order: Dispatcher.Order,
                      r: Controller.StorageReply, result: Dispatcher.Result, inspected: seq<Byte>)
    requires BridgeOk(b) && b.pending == [] && Current(b, c)
    requires Controller.Inv(c) && Controller.Inv(d) && Inspected(inspected)
    requires d == c || d == Controller.Execute(c, order.command, r).0
    requires result.before == c.revision && result.after == d.revision
    requires b.flight.Some? ==> b.flight.value.request.body.Asked?
    ensures var e := CompletedBridge(b, d, order, result, inspected);
            && Plan(e) && Current(e, d) && Pipe(e) == Pipe(b) && |e.inbox| <= INBOX && Undisturbed(b, e)
            && e.flight == if AnswersFlight(b, order) then None else b.flight
  {
    hide BridgeOk, Plan, ShownAtEnd, PublishedAfter, Controller.Execute;
    BridgePlans(b);
    PublishedPlan(b, c, d, order.command, r, result, inspected);
    var p := PublishedAfter(b, d, order.command, result, inspected);
    if AnswersFlight(b, order) {
      var request := b.flight.value.request;
      FlightPlans(p, p.(flight := None));
      RepliedPlan(p.(flight := None), d, request, ReplyKind(request, result.status));
      CompletedPipe(b, p, CompletedBridge(b, d, order, result, inspected), true);
    } else {
      CompletedPipe(b, p, p, false);
    }
  }

  /** The oldest command is external exactly when it is the one in flight, and then no other is. */
  lemma HeadOfQueue(b: Bridge.State, queue: seq<Dispatcher.Entry>)
    requires queue != [] && External(queue) == (if b.flight.Some? then [b.flight.value.commandId] else [])
    ensures External(queue[1..]) ==
              if b.flight.Some? && !AnswersFlight(b, queue[0].order) then [b.flight.value.commandId] else []
  {
    var head := if queue[0].order.source.External? then [queue[0].order.requestId] else [];
    assert External(queue) == head + External(queue[1..]);
    if queue[0].order.source.External? { assert External(queue)[0] == queue[0].order.requestId; }
  }

  /** Completing a command: bridge and dispatcher fit together again. */
  lemma CompletedInv(w: World, d: Dispatcher.World, b: Bridge.State, e: World)
    requires BridgeOk(b) && Current(b, d.c) && Dispatcher.Inv(d)
    requires External(d.queue) == (if b.flight.Some? then [b.flight.value.commandId] else [])
    requires b.flight.Some? ==> b.flight.value.request.body.Asked?
    requires e == w.(d := d, b := b) || e == AbortArchive(w.(d := d, b := b))
    ensures Inv(e)
  {
    hide BridgeOk, ShownAtEnd, External;
    DiscardKeepsDispatcher(d);
  }

  lemma RunHeadKeeps(w: World, reply: Controller.StorageReply, inspected: seq<Byte>)
    requires Inv(w) && w.b.pending == [] && Dispatcher.HeadRuns(w.d) && Inspected(inspected)
    ensures Inv(RunHead(w, reply, inspected))
  {
    hide BridgeOk, Plan, ShownAtEnd, External, CompletedBridge, Dispatcher.ProcessOne, Dispatcher.Inv,
      Controller.Execute, Controller.Inv, AnswersFlight, AbortArchive;
    var order := w.d.queue[0].order;
    ProcessShape(w.d, reply);
    var d := Dispatcher.ProcessOne(w.d, reply);
    var result := d.applied[|d.applied| - 1].result;
    DispatcherHolds(w.d);
    DispatcherHolds(d);
    CompletedPlan(w.b, w.d.c, d.c, order, reply, result, inspected);
    var b := CompletedBridge(w.b, d.c, order, result, inspected);
    SamePipeKeeps(w.b, b);
    HeadOfQueue(w.b, w.d.queue);
    CompletedInv(w, d, b, RunHead(w, reply, inspected));
  }

  // ---------------------------------------------------------------------------------------
  // Whole runs

  lemma StepKeepsInv(w: World, step: Step)
    requires Inv(w) && Enabled(w, step)
    ensures Inv(Next(w, step))
  {
    hide BridgeOk, Http, Emit, Prepare, Serve, RunHead, Dispatcher.Submit, Dispatcher.Coherent, Transport.Apply,
      ShownAtEnd, Dispatcher.HeadRuns;
    match step
    case HttpWork(h) =>
      HttpKeeps(w.b, h);
      HttpIsBlind(w.b, h);
    case EmitNext =>
      EmitKeeps(w.b);
      EmitShows(w.b);
    case PrepareTurn(sender, blocked, now, news) => PrepareKeeps(w, sender, blocked, now, news);
    case ServeNext(turn) => ServeKeeps(w, turn);
    case SubmitLocal(order) =>
      SubmitShape(w.d, order);
      EmptyIsNeutral<nat>();
    case RunNext(reply, inspected) => RunHeadKeeps(w, reply, inspected);
    case SetSenderActive(active) => DispatcherModes(w.d, active, w.d.t);
    case TransportWork(t) => DispatcherModes(w.d, w.d.senderActive, Transport.Apply(w.d.t, t));
  }

  lemma DispatcherModes(d: Dispatcher.World, active: bool, t: Transport.State)
    requires Dispatcher.Inv(d)
    ensures Dispatcher.Inv(d.(senderActive := active)) && Dispatcher.Inv(d.(t := t))
  {
  }

  /** The HTTP task sees clients and the inbox, nothing of the owner's. */
  lemma HttpIsBlind(b: Bridge.State, h: HttpStep)
    ensures var e := Http(b, h);
            && e.pending == b.pending && e.flight == b.flight && e.shown == b.shown && e.bound == b.bound
            && e.sender == b.sender && e.presets == b.presets && e.sequence == b.sequence
  {
    hide FirstFree, Judged;
  }

  lemma EmitShows(b: Bridge.State)
    requires b.pending != []
    ensures var e := Emit(b);
            && e.pending == b.pending[1..] && e.flight == b.flight && e.inbox == b.inbox
            && e.sender == b.sender && e.presets == b.presets && e.sequence == b.sequence
            && ShownAtEnd(e.pending, e.shown) == ShownAtEnd(b.pending, b.shown)
  {
    hide BroadcastTo, Push, Delivered;
  }

  lemma {:induction false} RunKeepsInv(w: World, steps: seq<Step>)
    requires Inv(w)
    ensures Inv(Run(w, steps))
    decreases |steps|
  {
    hide Inv, Next, Enabled;
    if steps != [] {
      if Enabled(w, steps[0]) {
        StepKeepsInv(w, steps[0]);
        RunKeepsInv(Next(w, steps[0]), steps[1..]);
      } else {
        RunKeepsInv(w, steps[1..]);
      }
    }
  }

  lemma InitialInv(w: World)
    requires Initial(w)
    ensures Inv(w)
  {
    assert Pipe(w.b) == [];
  }

  /** The page of a client after every event queued for it, and after those it has taken so far. */
  function FullPage(c: Client): Page
  {
    Fold(c.sent)
  }

  function TakenPage(c: Client): Page
    requires |c.queue| <= |c.sent|
  {
    Fold(c.sent[..|c.sent| - |c.queue|])
  }

  /** One client in one reachable state. Its events taken and queued are one stream; no guard of the
      message handler fires anywhere along it; owner events in it are strictly increasing; once
      ready, the stream leads to exactly what was last published; and the ids granted to it are
      its answers so far, in order and each once, followed by the at most four still owed. */
  ghost predicate Served(w: World, slot: nat)
    requires slot < |w.b.clients|
  {
    var c := w.b.clients[slot];
    var t := Token(slot, c.generation);
    c.active ==>
      && |c.queue| <= OUTBOX && |c.queue| <= |c.sent| && c.queue == c.sent[|c.sent| - |c.queue|..]
      && !FullPage(c).fault && !TakenPage(c).fault
      && InSequence(c.sent, w.b.bound)
      && (c.ready ==> FullPage(c).content == Some(w.b.shown))
      && (c.ready && w.b.pending == [] ==> FullPage(c).content == Some(Actual(w)))
      && c.accepted == Answers(c.sent) + Ids(Pipe(w.b), t)
      && c.outstanding == |Ids(Pipe(w.b), t)| <= MAX_OUTSTANDING
      && Ascending(c.accepted, c.lastId)
  }

  lemma InvServes(w: World, slot: nat)
    requires Inv(w) && slot < MAX_CLIENTS
    ensures |w.b.clients| == MAX_CLIENTS && |w.b.inbox| <= INBOX && Served(w, slot)
  {
    hide Fold, Answers, Ids, Greetings, Owed, OutsOk, BoundAtEnd, Dispatcher.Inv;
    var c := w.b.clients[slot];
    assert ClientOk(c, Token(slot, c.generation), Pipe(w.b), w.b.shown, w.b.bound);
    if c.active {
      if !c.ready { UnheardPage(c.sent); }
      assert !Fold(c.sent).fault by { if !c.ready { assert Fold(c.sent) == Connected(); } }
      FaultStays(c.sent, |c.sent| - |c.queue|);
    }
  }

  /** The replica theorem. Start with no connections and let anything happen: every connected client is
      served as above; in particular, whenever the owner task is between turns, every
      synchronized browser that has received its queued events shows the device's 512 values,
      blackout, loaded preset, modified flag, sender mode and preset metadata exactly. */
  lemma EveryBrowserIsAReplica(w: World, steps: seq<Step>)
    requires Initial(w)
    ensures var e := Run(w, steps);
            |e.b.clients| == MAX_CLIENTS && |e.b.inbox| <= INBOX && forall slot :: 0 <= slot < MAX_CLIENTS ==>
                Served(e, slot)
  {
    hide Inv, Run, Served;
    InitialInv(w);
    RunKeepsInv(w, steps);
    var e := Run(w, steps);
    InvServes(e, 0);
    forall slot | 0 <= slot < MAX_CLIENTS ensures Served(e, slot) {
      InvServes(e, slot);
    }
  }

  /** A command in flight is the one external entry of the dispatcher's queue, so its completion, and only
      its completion, answers the request it came from. */
  lemma FlightIsQueued(w: World, steps: seq<Step>)
    requires Initial(w)
    ensures var e := Run(w, steps);
            External(e.d.queue) == (if e.b.flight.Some? then [e.b.flight.value.commandId] else [])
            && (e.d.queue != [] && e.d.queue[0].order.source.External? ==> AnswersFlight(e.b, e.d.queue[0].order))
  {
    hide BridgeOk, Run, ShownAtEnd, Dispatcher.Inv;
    InitialInv(w);
    RunKeepsInv(w, steps);
    var q := Run(w, steps).d.queue;
    if q != [] && q[0].order.source.External? { assert External(q)[0] == q[0].order.requestId; }
  }

  lemma {:induction false} RunAppend(w: World, a: seq<Step>, b: seq<Step>)
    ensures Run(w, a + b) == Run(Run(w, a), b)
    decreases |a|
  {
    hide Next, Enabled;
    if a == [] {
      assert a + b == b;
    } else {
      assert (a + b)[0] == a[0] && (a + b)[1..] == a[1..] + b;
      RunAppend(if Enabled(w, a[0]) then Next(w, a[0]) else w, a[1..], b);
    }
  }

  lemma SideNewsIsOwners(b: Bridge.State, news: seq<(Side, nat)>)
    ensures SideNews(b, news).inbox == b.inbox && SideNews(b, news).clients == b.clients
    decreases |news|
  {
    if news != [] {
      SideNewsIsOwners(SideTold(b, news[0].0, news[0].1), news[1..]);
    }
  }
}
