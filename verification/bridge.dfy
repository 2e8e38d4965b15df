/** The websocket bridge: clients with bounded event queues, one inbox, one command in flight. The
    owner task computes what to send and sends it in lock-protected blocks (`Out`); between any
    two blocks the HTTP task may open, close, take, receive or drop. */
module Bridge {
  import opened Types
  import opened Browser
  import ArchiveTransfer
  import Controller

  const MAX_CLIENTS: nat := 4
  const INBOX: nat := 16
  const OUTBOX: nat := 8
  const MAX_OUTSTANDING: nat := 4
  const MAX_RATE: nat := 20
  const MAX_GENERATION: nat := 0xFFFF_FFFF

  datatype Token = Token(slot: nat, generation: nat)

  /** What a client may ask for. A side request may subscribe the client to that side's updates. */
  datatype Ask =
    | StateAsk
    | ArchiveAsk(op: ArchiveTransfer.Op)
    | SideAsk(side: Side, subscribes: bool)
    | CommandAsk(command: Controller.Command)

  /** `Greeting` is the bridge's own request for a new client's first snapshot. */
  datatype Body = Greeting | Asked(ask: Ask)

  datatype Request = Request(token: Token, id: nat, body: Body)

  /** A received frame after decoding; a decoded request has a nonzero id. */
  datatype Message = Malformed(id: nat) | Decoded(request: nat, ask: Ask)

  /** Since the client opened, `heard` are the ids of the messages that reached it, `accepted` the ids it was
      granted, and `sent` every event queued for it, taken or not: a record, not program state. */
  datatype Client = Client(
    generation: nat, active: bool, ready: bool, lastId: nat, outstanding: nat, rate: nat, window: nat,
    subscribed: set<Side>, queue: seq<Event>, sent: seq<Event>, accepted: seq<nat>, heard: seq<nat>)

  /** One locked block of the owner task. */
  datatype Out =
    | Broadcast(event: Event, audience: Option<Side>)
    | Subscribe(token: Token, side: Side)
    | Deliver(request: Request, hello: Option<Event>, snapshot: Event)
    | Answer(request: Request, event: Event)

  datatype Flight = Flight(request: Request, commandId: nat)

  /** `pending` are the blocks the owner task still has to run this turn. `shown` is the content last
      published and `bound` the highest sequence published: a record, not program state. */
  datatype State = State(
    clients: seq<Client>, inbox: seq<Request>, flight: Option<Flight>, sender: bool,
    generation: nat, internalId: nat, sequence: nat, presets: seq<Byte>, presetsReady: bool,
    pending: seq<Out>, shown: Shown, bound: nat)

  predicate Alive(clients: seq<Client>, t: Token)
  {
    t.slot < |clients| && clients[t.slot].active && clients[t.slot].generation == t.generation
  }

  predicate HasGeneration(clients: seq<Client>, generation: nat)
  {
    exists i :: 0 <= i < |clients| && clients[i].active && clients[i].generation == generation
  }

  function Dropped(c: Client): Client
  {
    c.(active := false, queue := [], outstanding := 0)
  }

  /** A full queue costs the client its connection, never an event. */
  function Push(c: Client, e: Event): Client
  {
    if |c.queue| == OUTBOX then Dropped(c) else c.(queue := c.queue + [e], sent := c.sent + [e])
  }

  // ---------------------------------------------------------------------------------------
  // The HTTP task

  function FirstFree(clients: seq<Client>, from: nat): nat
    requires from <= |clients|
    decreases |clients| - from
  {
    if from == |clients| || !clients[from].active then from else FirstFree(clients, from + 1)
  }

  function Opened(generation: nat, now: nat): Client
  {
    Client(generation, true, false, 0, 0, 0, now, {}, [], [], [], [])
  }

  function Open(b: State, now: nat): (State, Option<Token>)
  {
    var slot := FirstFree(b.clients, 0);
    if |b.inbox| == INBOX || b.generation == MAX_GENERATION || slot == |b.clients| then (b, None)
    else
      var t := Token(slot, b.generation + 1);
      FirstFreeIsFree(b.clients, 0);
      (b.(generation := t.generation, clients := b.clients[slot := Opened(t.generation, now)],
          inbox := b.inbox + [Request(t, 0, Greeting)]), Some(t))
  }

  lemma FirstFreeIsFree(clients: seq<Client>, from: nat)
    requires from <= |clients|
    ensures from <= FirstFree(clients, from) <= |clients|
    ensures FirstFree(clients, from) < |clients| ==> !clients[FirstFree(clients, from)].active
    ensures forall i :: from <= i < FirstFree(clients, from) ==> clients[i].active
    decreases |clients| - from
  {
  }

  function Close(b: State, t: Token): State
  {
    if Alive(b.clients, t) then b.(clients := b.clients[t.slot := Dropped(b.clients[t.slot])]) else b
  }

  function Take(b: State, t: Token): (State, Option<Event>)
  {
    if !Alive(b.clients, t) || b.clients[t.slot].queue == [] then (b, None)
    else
      var c := b.clients[t.slot];
      (b.(clients := b.clients[t.slot := c.(queue := c.queue[1..])]), Some(c.queue[0]))
  }

  function Refusal(id: nat): Event
  {
    Event(Error, 0, 0, id, false, false, 0, false, 0, 0, [], [], Plain)
  }

  function MessageId(m: Message): nat
  {
    if m.Malformed? then m.id else m.request
  }

  /** The message enters the record and the rate window. */
  function Arrived(c: Client, m: Message, now: nat): Client
  {
    var w := if now < c.window || now - c.window >= 1000 then c.(window := now, rate := 0) else c;
    w.(rate := w.rate + 1, heard := w.heard + [MessageId(m)])
  }

  predicate Accepts(c: Client, m: Message, room: bool)
  {
    m.Decoded? && c.ready && m.request > c.lastId && c.outstanding < MAX_OUTSTANDING && room
  }

  /** A refused request still uses up its id. */
  function Noted(c: Client, m: Message): Client
  {
    if m.Decoded? && m.request > c.lastId then c.(lastId := m.request) else c
  }

  function Granted(c: Client, id: nat): Client
  {
    c.(lastId := id, outstanding := c.outstanding + 1, accepted := c.accepted + [id])
  }

  /** What a received message does to its client, given whether the inbox has room; true when it is granted. */
  function Judged(c: Client, m: Message, now: nat, room: bool): (Client, bool)
  {
    var w := Arrived(c, m, now);
    if w.rate > MAX_RATE then (Dropped(w), false)
    else if !Accepts(w, m, room) then (Push(Noted(w, m), Refusal(MessageId(m))), false)
    else (Granted(w, m.request), true)
  }

  function Receive(b: State, t: Token, m: Message, now: nat): State
  {
    if !Alive(b.clients, t) then b
    else
      var (c, granted) := Judged(b.clients[t.slot], m, now, |b.inbox| < INBOX);
      b.(clients := b.clients[t.slot := c],
         inbox := if granted then b.inbox + [Request(t, m.request, Asked(m.ask))] else b.inbox)
  }

  datatype HttpStep =
    | OpenStep(now: nat)
    | CloseStep(closing: Token)
    | TakeStep(taker: Token)
    | ReceiveStep(from: Token, message: Message, at: nat)

  function Http(b: State, step: HttpStep): State
  {
    match step
    case OpenStep(now) => Open(b, now).0
    case CloseStep(t) => Close(b, t)
    case TakeStep(t) => Take(b, t).0
    case ReceiveStep(t, m, now) => Receive(b, t, m, now)
  }

  // ---------------------------------------------------------------------------------------
  // The owner task's blocks

  predicate Hears(c: Client, audience: Option<Side>)
  {
    c.active && c.ready && (audience.Some? ==> audience.value in c.subscribed)
  }

  function BroadcastTo(clients: seq<Client>, e: Event, audience: Option<Side>): (after: seq<Client>)
    ensures |after| == |clients|
    ensures forall i :: 0 <= i < |clients| ==>
              after[i] == if Hears(clients[i], audience) then Push(clients[i], e) else clients[i]
  {
    seq(|clients|, i requires 0 <= i < |clients| => if Hears(clients[i], audience) then Push(clients[i], e)
                                                    else clients[i])
  }

  function Settled(c: Client): Client
  {
    if c.outstanding > 0 then c.(outstanding := c.outstanding - 1) else c
  }

  /** Hello when it is the first, then the snapshot, and from then on the client hears everything. */
  function Delivered(c: Client, hello: Option<Event>, snapshot: Event): Client
  {
    var g := if hello.Some? then Push(c, hello.value) else c;
    var s := if g.active then Push(g, snapshot) else g;
    if s.active then Settled(s.(ready := true)) else s
  }

  function ClientsAfter(clients: seq<Client>, o: Out): seq<Client>
  {
    match o
    case Broadcast(e, audience) => BroadcastTo(clients, e, audience)
    case Subscribe(t, side) =>
      if !Alive(clients, t) then clients
      else clients[t.slot := clients[t.slot].(subscribed := clients[t.slot].subscribed + {side})]
    case Deliver(r, hello, e) =>
      if !Alive(clients, r.token) then clients
      else clients[r.token.slot := Delivered(clients[r.token.slot], hello, e)]
    case Answer(r, e) =>
      if !Alive(clients, r.token) then clients
      else clients[r.token.slot := Push(Settled(clients[r.token.slot]), e)]
  }

  function ShownAfter(o: Out, shown: Shown): Shown
  {
    if o.Broadcast? && StateKind(o.event.kind) then Advance(shown, o.event) else shown
  }

  function BoundAfter(o: Out, bound: nat): nat
  {
    match o
    case Broadcast(e, _) => e.sequence
    case Subscribe(_, _) => bound
    case Deliver(_, _, e) => e.sequence
    case Answer(_, e) => e.sequence
  }

  /** Run the oldest scheduled block. */
  function Emit(b: State): State
    requires b.pending != []
  {
    var o := b.pending[0];
    b.(pending := b.pending[1..], clients := ClientsAfter(b.clients, o),
       shown := ShownAfter(o, b.shown), bound := BoundAfter(o, b.bound))
  }

  // ---------------------------------------------------------------------------------------
  // The owner task's computation

  /** `state()`: the next event of a kind. For a full state the preset metadata is read again when it is stale. */
  function Refreshed(b: State, inspected: seq<Byte>): State
  {
    if b.presetsReady then b else b.(presets := inspected, presetsReady := forall p :: p in inspected ==> p != 3)
  }

  function Made(b: State, c: Controller.State, kind: Kind, id: nat): Event
  {
    var full := FullState(kind);
    Event(kind, b.sequence + 1, c.revision, id, c.blackout, b.sender, c.loaded, c.modified, 0, 0,
          if full then c.working[1..] else [], if full then b.presets else [], Plain)
  }

  function Counted(b: State): State
  {
    b.(sequence := b.sequence + 1)
  }

  function Queued(b: State, out: Out): State
  {
    b.(pending := b.pending + [out])
  }

  function Announced(b: State, c: Controller.State, kind: Kind): State
  {
    Counted(Queued(b, Broadcast(Made(b, c, kind, 0), None)))
  }

  /** `reply()`: the answer to a request. */
  function Replied(b: State, c: Controller.State, r: Request, kind: Kind): State
  {
    Counted(Queued(b, Answer(r, Made(b, c, kind, r.id))))
  }

  /** A side event carries that side's own revision. */
  function SideEvent(b: State, side: Side, id: nat, revision: nat, outcome: Outcome): Event
  {
    Event(Sided(side), b.sequence + 1, revision, id, false, false, 0, false, 0, 0, [], [], outcome)
  }

  predicate Subscribed(clients: seq<Client>, t: Token, side: Side)
  {
    Alive(clients, t) && side in clients[t.slot].subscribed
  }

  /** A side service hears of a request only when its client subscribed before. */
  function Verdict(clients: seq<Client>, t: Token, side: Side, subscribes: bool, code: nat): Outcome
  {
    if subscribes then Plain else if Subscribed(clients, t, side) then Given(code) else NotSubscribed
  }

  function SideTold(b: State, side: Side, revision: nat): State
  {
    Counted(Queued(b, Broadcast(SideEvent(b, side, 0, revision, Plain), Some(side))))
  }

  function SideAnswered(b: State, r: Request, side: Side, revision: nat, outcome: Outcome): State
  {
    Counted(Queued(b, Answer(r, SideEvent(b, side, r.id, revision, outcome))))
  }

  /** The side updates an owner turn finds news for, in order. */
  function SideNews(b: State, news: seq<(Side, nat)>): State
    decreases |news|
  {
    if news == [] then b else SideNews(SideTold(b, news[0].0, news[0].1), news[1..])
  }

  /** A snapshot for one client. When reading the preset metadata finds it changed, the others are told first. */
  function Snapshotted(b: State, c: Controller.State, r: Request, inspected: seq<Byte>): State
  {
    var hello := if r.body.Greeting? then Some(Made(b, c, Hello, 0)) else None;
    var greeted := if r.body.Greeting? then Counted(b) else b;
    var current := Refreshed(greeted, inspected);
    var told := if current.presets != b.presets then Announced(current, c, Universe) else current;
    Counted(Queued(told, Deliver(r, hello, Made(told, c, Snapshot, r.id))))
  }

  /** Take the oldest request off the inbox; requests of clients that are gone are forgotten. */
  function Popped(b: State): State
    requires b.inbox != []
  {
    b.(inbox := b.inbox[1..])
  }

  function NextInternal(id: nat): nat
  {
    if id >= 0xFFFF_FFFF then 1 else id + 1
  }

  function ModeChanged(b: State, c: Controller.State, sender: bool): State
  {
    if b.sender == sender then b else Announced(b.(sender := sender), c, ModeUpdate)
  }

  // ---------------------------------------------------------------------------------------
  // What always holds

  /** The requests owed an answer, in the order they will get it. */
  function Owed(pending: seq<Out>): seq<Request>
  {
    if pending == [] then []
    else
      var head := pending[0];
      (if head.Deliver? || head.Answer? then [head.request] else []) + Owed(pending[1..])
  }

  function InFlight(flight: Option<Flight>): seq<Request>
  {
    if flight.Some? then [flight.value.request] else []
  }

  function Pipe(b: State): seq<Request>
  {
    Owed(b.pending) + InFlight(b.flight) + b.inbox
  }

  /** The granted ids of one client still owed an answer. */
  function Ids(pipe: seq<Request>, t: Token): seq<nat>
  {
    if pipe == [] then []
    else (if pipe[0].token == t && pipe[0].body.Asked? then [pipe[0].id] else []) + Ids(pipe[1..], t)
  }

  function Greetings(pipe: seq<Request>, t: Token): nat
  {
    if pipe == [] then 0
    else (if pipe[0].token == t && pipe[0].body.Greeting? then 1 else 0) + Greetings(pipe[1..], t)
  }

  /** The ids of the owner's answers in a stream. */
  function Answers(sent: seq<Event>): seq<nat>
  {
    if sent == [] then []
    else
      var last := sent[|sent| - 1];
      Answers(sent[..|sent| - 1]) + if last.sequence != 0 && last.id != 0 then [last.id] else []
  }

  /** Owner events carry strictly increasing sequences, none above `bound`. */
  ghost predicate InSequence(sent: seq<Event>, bound: nat)
  {
    && (forall i :: 0 <= i < |sent| ==> sent[i].sequence <= bound)
    && (forall i, j :: 0 <= i < j < |sent| && sent[i].sequence != 0 && sent[j].sequence != 0 ==>
        sent[i].sequence < sent[j].sequence)
  }

  /** Nothing but refusals. */
  ghost predicate Unheard(sent: seq<Event>)
  {
    forall i :: 0 <= i < |sent| ==> sent[i].sequence == 0 && sent[i].kind.Error?
  }

  ghost predicate Ascending(ids: seq<nat>, last: nat)
  {
    && (forall i, j :: 0 <= i < j < |ids| ==> ids[i] < ids[j])
    && (forall i :: 0 <= i < |ids| ==> 1 <= ids[i] <= last)
  }

  /** The page of a client that is ready shows what was last published; one that is not yet ready
      heard nothing but refusals. */
  ghost predicate Replicates(c: Client, shown: Shown, bound: nat)
  {
    && InSequence(c.sent, bound)
    && (if c.ready then Shows(Fold(c.sent), shown, bound) else Unheard(c.sent))
  }

  /** Granted ids are exactly the answered ones followed by the owed ones, in order; a client is
      ready exactly when its greeting is no longer owed. */
  ghost predicate Answering(c: Client, t: Token, pipe: seq<Request>)
  {
    && c.accepted == Answers(c.sent) + Ids(pipe, t)
    && c.outstanding == |Ids(pipe, t)| <= MAX_OUTSTANDING
    && Ascending(c.accepted, c.lastId)
    && (!c.ready ==> Ids(pipe, t) == [])
    && Greetings(pipe, t) == if c.ready then 0 else 1
  }

  ghost predicate QueueTail(c: Client)
  {
    |c.queue| <= OUTBOX && |c.queue| <= |c.sent| && c.queue == c.sent[|c.sent| - |c.queue|..]
  }

  ghost predicate ClientOk(c: Client, t: Token, pipe: seq<Request>, shown: Shown, bound: nat)
  {
    c.active ==> QueueTail(c) && Replicates(c, shown, bound) && Answering(c, t, pipe)
  }

  ghost predicate PipeOk(pipe: seq<Request>, generation: nat)
  {
    forall i :: 0 <= i < |pipe| ==>
      && pipe[i].token.slot < MAX_CLIENTS && pipe[i].token.generation <= generation
      && (if pipe[i].body.Asked? then pipe[i].id >= 1 else pipe[i].id == 0)
  }

  ghost predicate ClientsOk(clients: seq<Client>, pipe: seq<Request>, shown: Shown, bound: nat, generation: nat)
  {
    && |clients| == MAX_CLIENTS
    && forall i :: 0 <= i < MAX_CLIENTS ==>
         && (clients[i].active ==> clients[i].generation <= generation)
         && ClientOk(clients[i], Token(i, clients[i].generation), pipe, shown, bound)
  }

  /** One scheduled block may run when the published content is `shown` and the highest published sequence `bound`. */
  ghost predicate OutOk(o: Out, shown: Shown, bound: nat)
  {
    match o
    case Broadcast(e, audience) =>
      && bound < e.sequence && e.id == 0
      && (if audience.Some? then e.kind.Sided?
          else StateKind(e.kind) && !e.kind.Snapshot? && WellFormed(e) && shown.revision <= e.revision)
    case Subscribe(_, _) => true
    case Deliver(r, hello, e) =>
      && bound < e.sequence && e.kind.Snapshot? && WellFormed(e) && Content(e) == shown && e.id == r.id
      && (hello.Some? <==> r.body.Greeting?)
      && (hello.Some? ==>
            hello.value.kind.Hello? && 0 < hello.value.sequence < e.sequence && hello.value.id == 0
                && hello.value.revision <= e.revision)
    case Answer(r, e) =>
      && bound < e.sequence && e.id == r.id && r.body.Asked?
      && (e.kind.Ack? || e.kind.Error? || e.kind.Sided? || e.kind.ArchiveResult?)
      && (e.kind.Ack? ==> e.revision <= shown.revision)
  }

  ghost predicate OutsOk(pending: seq<Out>, shown: Shown, bound: nat)
  {
    pending == [] || (OutOk(pending[0], shown, bound)
                      && OutsOk(pending[1..], ShownAfter(pending[0], shown), BoundAfter(pending[0], bound)))
  }

  /** The content published once every scheduled block has run. */
  function ShownAtEnd(pending: seq<Out>, shown: Shown): Shown
  {
    if pending == [] then shown else ShownAtEnd(pending[1..], ShownAfter(pending[0], shown))
  }

  function BoundAtEnd(pending: seq<Out>, bound: nat): nat
  {
    if pending == [] then bound else BoundAtEnd(pending[1..], BoundAfter(pending[0], bound))
  }

  ghost predicate BridgeOk(b: State)
  {
    && |b.inbox| <= INBOX && Inspected(b.presets)
    && PipeOk(Pipe(b), b.generation)
    && ClientsOk(b.clients, Pipe(b), b.shown, b.bound, b.generation)
    && OutsOk(b.pending, b.shown, b.bound) && BoundAtEnd(b.pending, b.bound) <= b.sequence
  }

  // ---------------------------------------------------------------------------------------
  // Lists

  lemma IdsAppend(a: seq<Request>, b: seq<Request>, t: Token)
    ensures Ids(a + b, t) == Ids(a, t) + Ids(b, t) && Greetings(a + b, t) == Greetings(a, t) + Greetings(b, t)
  {
    if a == [] {
      assert a + b == b;
    } else {
      assert (a + b)[0] == a[0] && (a + b)[1..] == a[1..] + b;
      IdsAppend(a[1..], b, t);
    }
  }

  lemma NoIdsBeyond(pipe: seq<Request>, generation: nat, t: Token)
    requires PipeOk(pipe, generation) && t.generation > generation
    ensures Ids(pipe, t) == [] && Greetings(pipe, t) == 0
  {
    if pipe != [] { NoIdsBeyond(pipe[1..], generation, t); }
  }

  lemma IdsArePositive(pipe: seq<Request>, generation: nat, t: Token)
    requires PipeOk(pipe, generation)
    ensures forall i :: 0 <= i < |Ids(pipe, t)| ==> Ids(pipe, t)[i] >= 1
  {
    if pipe != [] { IdsArePositive(pipe[1..], generation, t); }
  }

  lemma AnswersAppend(sent: seq<Event>, e: Event)
    ensures Answers(sent + [e]) == Answers(sent) + if e.sequence != 0 && e.id != 0 then [e.id] else []
  {
    assert (sent + [e])[..|sent|] == sent;
  }

  lemma OwedAppend(a: seq<Out>, o: Out)
    ensures Owed(a + [o]) == Owed(a) + if o.Deliver? || o.Answer? then [o.request] else []
  {
    if a == [] {
      assert [] + [o] == [o];
    } else {
      assert (a + [o])[0] == a[0] && (a + [o])[1..] == a[1..] + [o];
      OwedAppend(a[1..], o);
    }
  }

  lemma OutsAppend(a: seq<Out>, o: Out, shown: Shown, bound: nat)
    ensures OutsOk(a + [o], shown, bound) <==>
            OutsOk(a, shown, bound) && OutOk(o, ShownAtEnd(a, shown), BoundAtEnd(a, bound))
    ensures ShownAtEnd(a + [o], shown) == ShownAfter(o, ShownAtEnd(a, shown))
    ensures BoundAtEnd(a + [o], bound) == BoundAfter(o, BoundAtEnd(a, bound))
    decreases |a|
  {
    if a == [] {
      assert [] + [o] == [o];
      assert [o][1..] == [];
    } else {
      assert (a + [o])[0] == a[0] && (a + [o])[1..] == a[1..] + [o];
      OutsAppend(a[1..], o, ShownAfter(a[0], shown), BoundAfter(a[0], bound));
    }
  }

  lemma UnheardPage(sent: seq<Event>)
    requires Unheard(sent)
    ensures Fold(sent) == Connected() && Answers(sent) == []
  {
    if sent != [] { UnheardPage(sent[..|sent| - 1]); }
  }

  // ---------------------------------------------------------------------------------------
  // One client, one event

  lemma PushedTail(c: Client, e: Event)
    requires c.active && QueueTail(c)
    ensures Push(c, e).active ==> QueueTail(Push(c, e)) && Push(c, e).sent == c.sent + [e]
  {
  }

  lemma SequenceGrows(sent: seq<Event>, e: Event, bound: nat, next: nat)
    requires InSequence(sent, bound) && bound <= next && e.sequence <= next && (e.sequence == 0 || bound < e.sequence)
    ensures InSequence(sent + [e], next)
  {
  }

  /** A refusal disturbs nothing. */
  lemma RefusalKeeps(c: Client, t: Token, pipe: seq<Request>, shown: Shown, bound: nat, id: nat)
    requires c.active && ClientOk(c, t, pipe, shown, bound)
    ensures ClientOk(Push(c, Refusal(id)), t, pipe, shown, bound)
  {
    hide Fold, Answers, Ids, Greetings;
    var e := Refusal(id);
    PushedTail(c, e);
    SequenceGrows(c.sent, e, bound, bound);
    FoldAppend(c.sent, e);
    AnswersAppend(c.sent, e);
  }

  /** A broadcast moves a listening client's page to the new content. */
  lemma BroadcastKeeps(c: Client, t: Token, pipe: seq<Request>, shown: Shown, bound: nat, e: Event,
                       audience: Option<Side>)
    requires ClientOk(c, t, pipe, shown, bound) && OutOk(Broadcast(e, audience), shown, bound)
    ensures ClientOk(if Hears(c, audience) then Push(c, e) else c, t, pipe, ShownAfter(Broadcast(e, audience), shown),
                     e.sequence)
  {
    hide Fold, Answers, Ids, Greetings;
    if Hears(c, audience) {
      PushedTail(c, e);
      SequenceGrows(c.sent, e, bound, e.sequence);
      FoldAppend(c.sent, e);
      AnswersAppend(c.sent, e);
    }
  }

  lemma HeadIds(pipe: seq<Request>, t: Token)
    requires pipe != []
    ensures pipe[0].token == t && pipe[0].body.Asked? ==>
              Ids(pipe, t) == [pipe[0].id] + Ids(pipe[1..], t) && Greetings(pipe, t) == Greetings(pipe[1..], t)
    ensures pipe[0].token != t ==> Ids(pipe, t) == Ids(pipe[1..], t) && Greetings(pipe, t) == Greetings(pipe[1..], t)
    ensures pipe[0].token == t && pipe[0].body.Greeting? ==>
              Ids(pipe, t) == Ids(pipe[1..], t) && Greetings(pipe, t) == 1 + Greetings(pipe[1..], t)
  {
  }

  lemma Shift(a: seq<nat>, id: nat, b: seq<nat>)
    ensures a + ([id] + b) == (a + [id]) + b
  {
  }

  /** An answer settles exactly the oldest owed request of its client. */
  lemma AnswerKeeps(c: Client, t: Token, pipe: seq<Request>, shown: Shown, bound: nat, e: Event)
    requires pipe != [] && OutOk(Answer(pipe[0], e), shown, bound) && pipe[0].id >= 1
    requires c.active && ClientOk(c, t, pipe, shown, bound) && pipe[0].token == t
    ensures ClientOk(Push(Settled(c), e), t, pipe[1..], shown, e.sequence)
  {
    hide Fold, Answers, Ids, Greetings;
    HeadIds(pipe, t);
    PushedTail(Settled(c), e);
    SequenceGrows(c.sent, e, bound, e.sequence);
    FoldAppend(c.sent, e);
    AnswersAppend(c.sent, e);
    Shift(Answers(c.sent), e.id, Ids(pipe[1..], t));
  }

  /** What another client's event, or one of a client that is gone, leaves alone. */
  lemma UntouchedKeeps(c: Client, t: Token, pipe: seq<Request>, shown: Shown, bound: nat, next: nat)
    requires ClientOk(c, t, pipe, shown, bound) && bound <= next
    requires pipe != [] && pipe[0].token != t
    ensures ClientOk(c, t, pipe[1..], shown, next)
  {
    hide Fold, Answers, Ids, Greetings;
    HeadIds(pipe, t);
  }

  lemma HelloIsFirst(sent: seq<Event>, hello: Event)
    requires Unheard(sent) && hello.sequence > 0
    ensures InSequence(sent + [hello], hello.sequence)
  {
  }

  /** The first snapshot brings a page that heard nothing but refusals, and then hello, to the published content. */
  lemma GreetedPage(sent: seq<Event>, shown: Shown, bound: nat, hello: Event, e: Event, r: Request)
    requires Unheard(sent) && OutOk(Deliver(r, Some(hello), e), shown, bound) && r.id == 0
    ensures var all := sent + [hello] + [e];
            InSequence(all, e.sequence) && Shows(Fold(all), shown, e.sequence) && Answers(all) == []
  {
    hide Answers, Fold, InSequence, Unheard;
    UnheardPage(sent);
    FoldAppend(sent, hello);
    AnswersAppend(sent, hello);
    FoldAppend(sent + [hello], e);
    AnswersAppend(sent + [hello], e);
    HelloIsFirst(sent, hello);
    SequenceGrows(sent + [hello], e, hello.sequence, e.sequence);
  }

  lemma GreetedKeeps(c: Client, t: Token, pipe: seq<Request>, shown: Shown, bound: nat, hello: Event, e: Event)
    requires pipe != [] && pipe[0].token == t
    requires OutOk(Deliver(pipe[0], Some(hello), e), shown, bound) && pipe[0].id == 0
    requires c.active && ClientOk(c, t, pipe, shown, bound)
    ensures ClientOk(Delivered(c, Some(hello), e), t, pipe[1..], shown, e.sequence)
  {
    hide Answers, Fold, Ids, Greetings, InSequence, Unheard, Shows;
    HeadIds(pipe, t);
    assert pipe[0].body.Greeting?;
    GreetingMeansUnheard(c, t, pipe, shown, bound);
    UnheardPage(c.sent);
    GreetedPage(c.sent, shown, bound, hello, e, pipe[0]);
    PushedTail(c, hello);
    var g := Push(c, hello);
    if g.active { PushedTail(g, e); }
  }

  lemma GreetingMeansUnheard(c: Client, t: Token, pipe: seq<Request>, shown: Shown, bound: nat)
    requires pipe != [] && pipe[0].token == t && pipe[0].body.Greeting?
    requires c.active && ClientOk(c, t, pipe, shown, bound)
    ensures !c.ready && Unheard(c.sent) && Ids(pipe, t) == [] && Greetings(pipe, t) == 1
  {
    hide Answers, Fold, Ids, InSequence, Unheard;
    HeadIds(pipe, t);
  }

  lemma SnapshotKeeps(c: Client, t: Token, pipe: seq<Request>, shown: Shown, bound: nat, e: Event)
    requires pipe != [] && pipe[0].token == t && OutOk(Deliver(pipe[0], None, e), shown, bound) && pipe[0].id >= 1
    requires c.active && ClientOk(c, t, pipe, shown, bound)
    ensures ClientOk(Delivered(c, None, e), t, pipe[1..], shown, e.sequence)
  {
    hide Fold, Answers, Ids, Greetings;
    HeadIds(pipe, t);
    PushedTail(c, e);
    SequenceGrows(c.sent, e, bound, e.sequence);
    FoldAppend(c.sent, e);
    AnswersAppend(c.sent, e);
    Shift(Answers(c.sent), e.id, Ids(pipe[1..], t));
  }

  // ---------------------------------------------------------------------------------------
  // All clients

  /** Growing the pipe at its end by a request of nobody in particular leaves other clients alone. */
  lemma OthersGrow(c: Client, t: Token, pipe: seq<Request>, r: Request, shown: Shown, bound: nat)
    requires ClientOk(c, t, pipe, shown, bound) && r.token != t
    ensures ClientOk(c, t, pipe + [r], shown, bound)
  {
    hide Fold, Answers;
    IdsAppend(pipe, [r], t);
    assert Ids([r], t) == [] && Greetings([r], t) == 0;
    assert Ids(pipe, t) + [] == Ids(pipe, t);
  }

  lemma OpenedOk(t: Token, pipe: seq<Request>, generation: nat, now: nat, shown: Shown, bound: nat)
    requires PipeOk(pipe, generation) && t.generation == generation + 1
    ensures ClientOk(Opened(t.generation, now), t, pipe + [Request(t, 0, Greeting)], shown, bound)
  {
    var r := Request(t, 0, Greeting);
    NoIdsBeyond(pipe, generation, t);
    IdsAppend(pipe, [r], t);
    assert Ids([r], t) == [] && Greetings([r], t) == 1;
  }

  lemma GrantedOk(c: Client, t: Token, pipe: seq<Request>, r: Request, shown: Shown, bound: nat)
    requires c.active && c.ready && ClientOk(c, t, pipe, shown, bound)
    requires r.token == t && r.body.Asked? && r.id > c.lastId && c.outstanding < MAX_OUTSTANDING
    ensures ClientOk(Granted(c, r.id), t, pipe + [r], shown, bound)
  {
    hide Fold, Answers;
    IdsAppend(pipe, [r], t);
    assert Ids([r], t) == [r.id] && Greetings([r], t) == 0;
    assert Answers(c.sent) + (Ids(pipe, t) + [r.id]) == (Answers(c.sent) + Ids(pipe, t)) + [r.id];
  }

  lemma PipeGrows(b: State, r: Request)
    ensures Owed(b.pending) + InFlight(b.flight) + (b.inbox + [r]) == Pipe(b) + [r]
  {
  }

  /** Every client but the one in `slot` is as it was. */
  ghost predicate OthersAlone(b: State, e: State, slot: nat)
  {
    |e.clients| == |b.clients| && forall i :: 0 <= i < |b.clients| && i != slot ==> e.clients[i] == b.clients[i]
  }

  /** The new client has a generation nobody had before and an empty record, and is owed its greeting alone. */
  ghost predicate FreshlyOpened(b: State, e: State, t: Token)
  {
    && t.slot < |b.clients| && !b.clients[t.slot].active && OthersAlone(b, e, t.slot) && Alive(e.clients, t)
    && (forall i :: 0 <= i < |b.clients| && b.clients[i].active ==> b.clients[i].generation < t.generation)
    && (forall i :: 0 <= i < |Pipe(b)| ==> Pipe(b)[i].token != t)
    && Pipe(e) == Pipe(b) + [Request(t, 0, Greeting)] && |e.inbox| <= INBOX
    && var c := e.clients[t.slot];
       !c.ready && c.queue == [] && c.sent == [] && c.accepted == [] && c.heard == []
  }

  lemma OpenTells(b: State, now: nat)
    requires BridgeOk(b)
    ensures var (e, t) := Open(b, now);
            && (t.None? ==> e == b)
            && (t.Some? ==> FreshlyOpened(b, e, t.value))
            && (t.None? <==> |b.inbox| == INBOX || b.generation == MAX_GENERATION
                             || forall i :: 0 <= i < MAX_CLIENTS ==> b.clients[i].active)
  {
    hide ClientOk, OutsOk, Owed, Answers, FirstFree;
    FirstFreeIsFree(b.clients, 0);
    var (e, t) := Open(b, now);
    if t.Some? { PipeGrows(b, Request(t.value, 0, Greeting)); }
  }

  lemma OpenKeeps(b: State, now: nat)
    requires BridgeOk(b)
    ensures BridgeOk(Open(b, now).0)
    ensures var (e, t) := Open(b, now);
            && (t.None? ==> e == b)
            && (t.Some? ==> FreshlyOpened(b, e, t.value))
            && (t.None? <==> |b.inbox| == INBOX || b.generation == MAX_GENERATION
                             || forall i :: 0 <= i < MAX_CLIENTS ==> b.clients[i].active)
  {
    OpenTells(b, now);
    OpenOk(b, now);
  }

  lemma OpenOk(b: State, now: nat)
    requires BridgeOk(b)
    ensures BridgeOk(Open(b, now).0)
  {
    hide ClientOk, OutsOk, Owed, Answers, FirstFree;
    FirstFreeIsFree(b.clients, 0);
    var slot := FirstFree(b.clients, 0);
    var after := Open(b, now).0;
    if after != b {
      var t := Token(slot, b.generation + 1);
      var r := Request(t, 0, Greeting);
      PipeGrows(b, r);
      OpenedOk(t, Pipe(b), b.generation, now, b.shown, b.bound);
      forall i | 0 <= i < MAX_CLIENTS
        ensures (after.clients[i].active ==> after.clients[i].generation <= after.generation)
                && ClientOk(after.clients[i], Token(i, after.clients[i].generation), Pipe(b) + [r], b.shown, b.bound)
      {
        if i != slot { OthersGrow(b.clients[i], Token(i, b.clients[i].generation), Pipe(b), r, b.shown, b.bound); }
      }
    }
  }

  lemma DroppedOk(c: Client, t: Token, pipe: seq<Request>, shown: Shown, bound: nat)
    ensures ClientOk(Dropped(c), t, pipe, shown, bound)
  {
  }

  /** Replacing one client by an acceptable one. */
  lemma OneClientChanges(b: State, slot: nat, c: Client)
    requires BridgeOk(b) && slot < MAX_CLIENTS && c.generation == b.clients[slot].generation
    requires c.active ==> b.clients[slot].active
    requires ClientOk(c, Token(slot, c.generation), Pipe(b), b.shown, b.bound)
    ensures BridgeOk(b.(clients := b.clients[slot := c]))
  {
    hide ClientOk, OutsOk, Owed;
    assert Pipe(b.(clients := b.clients[slot := c])) == Pipe(b);
  }

  lemma CloseKeeps(b: State, t: Token)
    requires BridgeOk(b)
    ensures BridgeOk(Close(b, t)) && Pipe(Close(b, t)) == Pipe(b)
    ensures OthersAlone(b, Close(b, t), t.slot) && !Alive(Close(b, t).clients, t)
    ensures !Alive(b.clients, t) ==> Close(b, t) == b
  {
    if Alive(b.clients, t) {
      hide BridgeOk, ClientOk;
      DroppedOk(b.clients[t.slot], t, Pipe(b), b.shown, b.bound);
      FourClients(b);
      OneClientChanges(b, t.slot, Dropped(b.clients[t.slot]));
    }
  }

  lemma FourClients(b: State)
    requires BridgeOk(b)
    ensures |b.clients| == MAX_CLIENTS
    ensures forall i :: 0 <= i < MAX_CLIENTS ==>
            ClientOk(b.clients[i], Token(i, b.clients[i].generation), Pipe(b), b.shown, b.bound)
  {
  }

  lemma TakenOk(c: Client, t: Token, pipe: seq<Request>, shown: Shown, bound: nat)
    requires ClientOk(c, t, pipe, shown, bound) && c.queue != []
    ensures ClientOk(c.(queue := c.queue[1..]), t, pipe, shown, bound)
  {
    hide Fold, Answers, Ids, Greetings;
  }

  lemma TakeKeeps(b: State, t: Token)
    requires BridgeOk(b)
    ensures BridgeOk(Take(b, t).0) && Pipe(Take(b, t).0) == Pipe(b) && OthersAlone(b, Take(b, t).0, t.slot)
    ensures var (e, taken) := Take(b, t);
            && (taken.None? <==> !Alive(b.clients, t) || b.clients[t.slot].queue == [])
            && (taken.None? ==> e == b)
            && (taken.Some? ==>
                  var c, d := b.clients[t.slot], e.clients[t.slot];
                  && c.queue == [taken.value] + d.queue && d == c.(queue := d.queue)
                  && |c.queue| <= |c.sent| && taken.value == c.sent[|c.sent| - |c.queue|])
  {
    if Alive(b.clients, t) && b.clients[t.slot].queue != [] {
      hide BridgeOk, ClientOk;
      FourClients(b);
      var c := b.clients[t.slot];
      TakenOk(c, t, Pipe(b), b.shown, b.bound);
      OneClientChanges(b, t.slot, c.(queue := c.queue[1..]));
    }
  }

  lemma ArrivedOk(c: Client, t: Token, pipe: seq<Request>, shown: Shown, bound: nat, m: Message, now: nat)
    requires ClientOk(c, t, pipe, shown, bound)
    ensures ClientOk(Arrived(c, m, now), t, pipe, shown, bound)
  {
    hide Fold, Answers, Ids, Greetings;
  }

  lemma NotedOk(c: Client, t: Token, pipe: seq<Request>, shown: Shown, bound: nat, m: Message)
    requires ClientOk(c, t, pipe, shown, bound)
    ensures ClientOk(Noted(c, m), t, pipe, shown, bound)
  {
    hide Fold, Answers, Ids, Greetings;
  }

  lemma RefuseKeeps(b: State, t: Token, m: Message, c: Client)
    requires BridgeOk(b) && Alive(b.clients, t) && c.active && c.generation == t.generation
    requires ClientOk(c, t, Pipe(b), b.shown, b.bound)
    ensures BridgeOk(b.(clients := b.clients[t.slot := Push(Noted(c, m), Refusal(MessageId(m)))]))
  {
    hide BridgeOk, ClientOk, Pipe;
    FourClients(b);
    var d := Noted(c, m);
    NotedOk(c, t, Pipe(b), b.shown, b.bound, m);
    RefusalKeeps(d, t, Pipe(b), b.shown, b.bound, MessageId(m));
    OneClientChanges(b, t.slot, Push(d, Refusal(MessageId(m))));
  }

  /** What one message does to its client `c`: it drops the client, or it is refused with one event carrying its id,
      or it is granted, is new, leaves the stream alone and adds its id to the granted ones. */
  ghost predicate Reacted(c: Client, d: Client, m: Message, granted: bool)
  {
    && (d.active ==> d.heard == c.heard + [MessageId(m)])
    && (granted ==>
          && m.Decoded? && c.lastId < m.request == d.lastId && d.accepted == c.accepted + [m.request]
          && d.active && d.sent == c.sent && d.queue == c.queue
             && d.outstanding == c.outstanding + 1 <= MAX_OUTSTANDING)
    && (!granted && d.active ==>
          && d.sent == c.sent + [Refusal(MessageId(m))] && d.queue == c.queue + [Refusal(MessageId(m))]
          && d.accepted == c.accepted && d.outstanding == c.outstanding && c.lastId <= d.lastId)
  }

  lemma JudgedReacts(c: Client, m: Message, now: nat, room: bool)
    requires c.active
    ensures var (d, granted) := Judged(c, m, now, room);
            Reacted(c, d, m, granted) && (Arrived(c, m, now).rate > MAX_RATE ==> !d.active) && (granted ==> room)
  {
  }

  lemma ReceiveKeeps(b: State, t: Token, m: Message, now: nat)
    requires BridgeOk(b)
    ensures var e := Receive(b, t, m, now);
            && BridgeOk(e) && OthersAlone(b, e, t.slot)
            && (!Alive(b.clients, t) ==> e == b)
            && (Alive(b.clients, t) ==>
                  var granted := e.inbox != b.inbox;
                  && Reacted(b.clients[t.slot], e.clients[t.slot], m, granted)
                  && (granted ==> e.inbox == b.inbox + [Request(t, m.request, Asked(m.ask))] && |e.inbox| <= INBOX)
                  && (Arrived(b.clients[t.slot], m, now).rate > MAX_RATE ==> !e.clients[t.slot].active))
  {
    hide BridgeOk, Reacted, Judged, Arrived;
    ReceiveOk(b, t, m, now);
    FourClients(b);
    if Alive(b.clients, t) { JudgedReacts(b.clients[t.slot], m, now, |b.inbox| < INBOX); }
  }

  lemma ReceiveOk(b: State, t: Token, m: Message, now: nat)
    requires BridgeOk(b)
    ensures BridgeOk(Receive(b, t, m, now))
  {
    if Alive(b.clients, t) {
      hide BridgeOk, ClientOk, Pipe, Noted, Push, Accepts, Granted;
      FourClients(b);
      var c0 := b.clients[t.slot];
      var c := Arrived(c0, m, now);
      ArrivedOk(c0, t, Pipe(b), b.shown, b.bound, m, now);
      if c.rate > MAX_RATE {
        DroppedOk(c, t, Pipe(b), b.shown, b.bound);
        OneClientChanges(b, t.slot, Dropped(c));
      } else if !Accepts(c, m, |b.inbox| < INBOX) {
        RefuseKeeps(b, t, m, c);
      } else {
        GrantKeeps(b, t, m, c);
      }
    }
  }

  lemma GrantKeeps(b: State, t: Token, m: Message, c: Client)
    requires BridgeOk(b) && Alive(b.clients, t) && Accepts(c, m, |b.inbox| < INBOX)
    requires c.active && c.generation == t.generation
    requires ClientOk(c, t, Pipe(b), b.shown, b.bound)
    ensures m.Decoded?
    ensures var r := Request(t, m.request, Asked(m.ask));
            BridgeOk(b.(clients := b.clients[t.slot := Granted(c, m.request)], inbox := b.inbox + [r]))
  {
    hide ClientOk, OutsOk, Owed;
    var r := Request(t, m.request, Asked(m.ask));
    var after := b.(clients := b.clients[t.slot := Granted(c, m.request)], inbox := b.inbox + [r]);
    PipeGrows(b, r);
    assert Pipe(after) == Pipe(b) + [r];
    GrantedOk(c, t, Pipe(b), r, b.shown, b.bound);
    forall i | 0 <= i < MAX_CLIENTS && i != t.slot
      ensures ClientOk(b.clients[i], Token(i, b.clients[i].generation), Pipe(b) + [r], b.shown, b.bound)
    {
      OthersGrow(b.clients[i], Token(i, b.clients[i].generation), Pipe(b), r, b.shown, b.bound);
    }
  }

  /** Whatever the HTTP task does, and whenever, keeps the bridge coherent. */
  lemma HttpKeeps(b: State, step: HttpStep)
    requires BridgeOk(b)
    ensures BridgeOk(Http(b, step))
  {
    hide BridgeOk, Open, Close, Take, Receive;
    match step
    case OpenStep(now) => OpenKeeps(b, now);
    case CloseStep(t) => CloseKeeps(b, t);
    case TakeStep(t) => TakeKeeps(b, t);
    case ReceiveStep(t, m, now) => ReceiveKeeps(b, t, m, now);
  }

  // ---------------------------------------------------------------------------------------
  // The owner's blocks keep it

  lemma BroadcastEmitted(b: State)
    requires BridgeOk(b) && b.pending != [] && b.pending[0].Broadcast?
    ensures BridgeOk(Emit(b))
  {
    hide ClientOk, Fold, Answers;
    var o := b.pending[0];
    var after := Emit(b);
    assert Pipe(after) == Pipe(b);
    forall i | 0 <= i < MAX_CLIENTS
      ensures ClientOk(after.clients[i], Token(i, b.clients[i].generation), Pipe(b), after.shown, after.bound)
    {
      BroadcastKeeps(b.clients[i], Token(i, b.clients[i].generation), Pipe(b), b.shown, b.bound, o.event, o.audience);
    }
  }

  lemma SubscribeEmitted(b: State)
    requires BridgeOk(b) && b.pending != [] && b.pending[0].Subscribe?
    ensures BridgeOk(Emit(b))
  {
    hide ClientOk, Fold, Answers;
    var t := b.pending[0].token;
    assert Pipe(Emit(b)) == Pipe(b);
    if Alive(b.clients, t) { SubscribedOk(b.clients[t.slot], t, Pipe(b), b.shown, b.bound, b.pending[0].side); }
  }

  lemma SubscribedOk(c: Client, t: Token, pipe: seq<Request>, shown: Shown, bound: nat, side: Side)
    requires ClientOk(c, t, pipe, shown, bound)
    ensures ClientOk(c.(subscribed := c.subscribed + {side}), t, pipe, shown, bound)
  {
    hide Fold, Answers, Ids, Greetings;
  }

  lemma EmitLeaves(b: State)
    requires b.pending != []
    ensures Emit(b).pending == b.pending[1..] && Emit(b).inbox == b.inbox && Emit(b).flight == b.flight
  {
    hide BroadcastTo, Push, Delivered, Settled, Advance;
  }

  /** The first owed request leaves the pipe when its block runs. */
  lemma PipeShrinks(b: State)
    requires b.pending != [] && (b.pending[0].Deliver? || b.pending[0].Answer?)
    ensures Pipe(b) != [] && Pipe(b)[0] == b.pending[0].request && Pipe(Emit(b)) == Pipe(b)[1..]
  {
    hide Emit;
    EmitLeaves(b);
    var rest := Owed(b.pending[1..]) + InFlight(b.flight) + b.inbox;
    assert Pipe(b) == [b.pending[0].request] + rest;
  }

  /** The client a block addresses, or none when it is gone: everybody else is untouched. */
  lemma OthersUntouched(b: State, next: nat)
    requires BridgeOk(b) && Pipe(b) != [] && b.bound <= next
    ensures forall i :: 0 <= i < MAX_CLIENTS && !(i == Pipe(b)[0].token.slot && Alive(b.clients, Pipe(b)[0].token)) ==>
              ClientOk(b.clients[i], Token(i, b.clients[i].generation), Pipe(b)[1..], b.shown, next)
  {
    hide ClientOk, OutsOk, Owed;
    forall i | 0 <= i < MAX_CLIENTS && !(i == Pipe(b)[0].token.slot && Alive(b.clients, Pipe(b)[0].token))
      ensures ClientOk(b.clients[i], Token(i, b.clients[i].generation), Pipe(b)[1..], b.shown, next)
    {
      var c := b.clients[i];
      if c.active {
        UntouchedKeeps(c, Token(i, c.generation), Pipe(b), b.shown, b.bound, next);
      } else {
        InactiveOk(c, Token(i, c.generation), Pipe(b)[1..], b.shown, next);
      }
    }
  }

  lemma InactiveOk(c: Client, t: Token, pipe: seq<Request>, shown: Shown, bound: nat)
    requires !c.active
    ensures ClientOk(c, t, pipe, shown, bound)
  {
  }

  lemma AnswerEmitted(b: State)
    requires BridgeOk(b) && b.pending != [] && b.pending[0].Answer?
    ensures BridgeOk(Emit(b))
  {
    hide ClientOk, Owed, Fold, Answers;
    var r, e := b.pending[0].request, b.pending[0].event;
    PipeShrinks(b);
    OthersUntouched(b, e.sequence);
    assert Pipe(b)[0].id >= 1;
    if Alive(b.clients, r.token) { AnswerKeeps(b.clients[r.token.slot], r.token, Pipe(b), b.shown, b.bound, e); }
  }

  lemma DeliverEmitted(b: State)
    requires BridgeOk(b) && b.pending != [] && b.pending[0].Deliver?
    ensures BridgeOk(Emit(b))
  {
    hide ClientOk, Owed, Fold, Answers, Delivered;
    var r, hello, e := b.pending[0].request, b.pending[0].hello, b.pending[0].snapshot;
    PipeShrinks(b);
    OthersUntouched(b, e.sequence);
    assert if Pipe(b)[0].body.Asked? then Pipe(b)[0].id >= 1 else Pipe(b)[0].id == 0;
    if Alive(b.clients, r.token) {
      var c := b.clients[r.token.slot];
      if hello.Some? {
        GreetedKeeps(c, r.token, Pipe(b), b.shown, b.bound, hello.value, e);
      } else {
        SnapshotKeeps(c, r.token, Pipe(b), b.shown, b.bound, e);
      }
      DeliveredSame(c, hello, e);
    }
  }

  lemma DeliveredSame(c: Client, hello: Option<Event>, e: Event)
    ensures Delivered(c, hello, e).generation == c.generation
  {
  }

  lemma EmitKeeps(b: State)
    requires BridgeOk(b) && b.pending != []
    ensures BridgeOk(Emit(b))
  {
    hide BridgeOk, Emit;
    match b.pending[0]
    case Broadcast(_, _) => BroadcastEmitted(b);
    case Subscribe(_, _) => SubscribeEmitted(b);
    case Deliver(_, _, _) => DeliverEmitted(b);
    case Answer(_, _) => AnswerEmitted(b);
  }

  // ---------------------------------------------------------------------------------------
  // Every message is accounted for

  /** The ids of the refusals in a stream. */
  function Refusals(sent: seq<Event>): seq<nat>
  {
    if sent == [] then []
    else
      var last := sent[|sent| - 1];
      Refusals(sent[..|sent| - 1]) + if last.sequence == 0 then [last.id] else []
  }

  /** Each message that reached the client was either granted or refused by one event with its id. */
  ghost predicate Accounted(c: Client)
  {
    c.active ==> multiset(c.heard) == multiset(c.accepted) + multiset(Refusals(c.sent))
  }

  ghost predicate AllAccounted(clients: seq<Client>)
  {
    forall i :: 0 <= i < |clients| ==> Accounted(clients[i])
  }

  lemma RefusalsAppend(sent: seq<Event>, e: Event)
    ensures Refusals(sent + [e]) == Refusals(sent) + if e.sequence == 0 then [e.id] else []
  {
    assert (sent + [e])[..|sent|] == sent;
  }

  /** An owner event is nobody's refusal. */
  lemma PushAccounts(c: Client, e: Event)
    requires Accounted(c) && e.sequence != 0
    ensures Accounted(Push(c, e))
  {
    hide Refusals;
    RefusalsAppend(c.sent, e);
    assert Refusals(c.sent) + [] == Refusals(c.sent);
  }

  lemma JudgedAccounts(c: Client, m: Message, now: nat, room: bool)
    requires c.active && Accounted(c)
    ensures Accounted(Judged(c, m, now, room).0)
  {
    hide Refusals, Judged;
    JudgedReacts(c, m, now, room);
    RefusalsAppend(c.sent, Refusal(MessageId(m)));
  }

  lemma HttpAccounts(b: State, step: HttpStep)
    requires AllAccounted(b.clients)
    ensures AllAccounted(Http(b, step).clients)
  {
    hide Judged, FirstFree;
    FirstFreeIsFree(b.clients, 0);
    if step.ReceiveStep? && Alive(b.clients, step.from) {
      JudgedAccounts(b.clients[step.from.slot], step.message, step.at, |b.inbox| < INBOX);
    }
  }

  lemma DeliveredAccounts(c: Client, hello: Option<Event>, e: Event)
    requires Accounted(c) && e.sequence != 0 && (hello.Some? ==> hello.value.sequence != 0)
    ensures Accounted(Delivered(c, hello, e))
  {
    hide Refusals, Push;
    if hello.Some? { PushAccounts(c, hello.value); }
    PushAccounts(if hello.Some? then Push(c, hello.value) else c, e);
  }

  lemma ClientsAfterAccounts(clients: seq<Client>, o: Out, shown: Shown, bound: nat)
    requires AllAccounted(clients) && OutOk(o, shown, bound)
    ensures AllAccounted(ClientsAfter(clients, o))
  {
    hide Refusals, Push, Delivered, Advance;
    forall i | 0 <= i < |clients| ensures Accounted(ClientsAfter(clients, o)[i]) {
      var c := clients[i];
      match o
      case Broadcast(e, _) => PushAccounts(c, e);
      case Subscribe(_, _) =>
      case Deliver(_, hello, e) => DeliveredAccounts(c, hello, e);
      case Answer(_, e) => PushAccounts(Settled(c), e);
    }
  }

  lemma EmitAccounts(b: State)
    requires BridgeOk(b) && b.pending != [] && AllAccounted(b.clients)
    ensures AllAccounted(Emit(b).clients)
  {
    hide AllAccounted, OutOk, ClientsAfter;
    ClientsAfterAccounts(b.clients, b.pending[0], b.shown, b.bound);
  }
}
