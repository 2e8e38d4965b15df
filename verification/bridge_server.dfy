/** The bridge object: four client slots with their event rings and the inbox ring, written in
    place. Every method that takes the lock is one step of the protocol. */
module BridgeServer {
  import opened Types
  import opened Rings
  import opened Browser
  import opened Bridge
  import Controller
  import Dispatcher
  import LiveState

  function Told(c: Client, e: Event, audience: Option<Side>): Client
  {
    if Hears(c, audience) then Push(c, e) else c
  }

  /** A slot nobody has used. */
  function Vacant(): Client
  {
    Client(0, false, false, 0, 0, 0, 0, {}, [], [], [], [])
  }

  class Slot {
    var generation: nat
    var active: bool
    var ready: bool
    var lastId: nat
    var outstanding: nat
    var rate: nat
    var window: nat
    var subscribed: set<Side>
    const events: Ring<Event>
    ghost var sent: seq<Event>
    ghost var accepted: seq<nat>
    ghost var heard: seq<nat>

    ghost predicate Valid()
      reads this, events
    {
      events.Valid() && events.data.Length == OUTBOX
    }

    ghost function View(): Client
      requires Valid()
      reads this, events, events.data
    {
      Client(generation, active, ready, lastId, outstanding, rate, window, subscribed, events.Contents(), sent,
             accepted, heard)
    }

    constructor ()
      ensures Valid() && View() == Vacant()
      ensures fresh(events) && fresh(events.data)
    {
      generation, active, ready, lastId, outstanding, rate, window, subscribed := 0, false, false, 0, 0, 0, 0, {};
      events := new Ring(OUTBOX);
      sent, accepted, heard := [], [], [];
    }

    method Reset(g: nat, now: nat)
      requires Valid()
      modifies this, events
      ensures Valid() && View() == Opened(g, now)
    {
      generation, active, ready, subscribed := g, true, false, {};
      events.Clear();
      lastId, outstanding, rate, window := 0, 0, 0, now;
      sent, accepted, heard := [], [], [];
    }

    method Drop()
      requires Valid()
      modifies this, events
      ensures Valid() && View() == Dropped(old(View()))
    {
      active, outstanding := false, 0;
      events.Clear();
    }

    method Add(e: Event)
      requires Valid()
      modifies this, events, events.data
      ensures Valid() && View() == Push(old(View()), e)
    {
      if events.count == OUTBOX { Drop(); return; }
      events.Push(e);
      sent := sent + [e];
    }

    method Remove() returns (e: Event)
      requires Valid() && View().queue != []
      modifies events
      ensures Valid() && e == old(View()).queue[0] && View() == old(View()).(queue := old(View()).queue[1..])
    {
      e := events.Pop();
    }

    method Arrive(m: Message, now: nat)
      requires Valid()
      modifies this`window, this`rate, this`heard
      ensures Valid() && View() == Arrived(old(View()), m, now)
    {
      if now < window || now - window >= 1000 { window, rate := now, 0; }
      rate := rate + 1;
      heard := heard + [MessageId(m)];
    }

    method Refuse(m: Message)
      requires Valid()
      modifies this, events, events.data
      ensures Valid() && View() == Push(Noted(old(View()), m), Refusal(MessageId(m)))
    {
      hide Push;
      if m.Decoded? && m.request > lastId { lastId := m.request; }
      Add(Refusal(MessageId(m)));
    }

    method Grant(id: nat)
      requires Valid()
      modifies this
      ensures Valid() && View() == Granted(old(View()), id)
    {
      lastId, outstanding, accepted := id, outstanding + 1, accepted + [id];
    }

    method Hear(e: Event, audience: Option<Side>)
      requires Valid()
      modifies this, events, events.data
      ensures Valid() && View() == Told(old(View()), e, audience)
    {
      hide Push;
      if active && ready && (audience.Some? ==> audience.value in subscribed) { Add(e); }
    }

    /** The client's part of `receive`. */
    method Judge(m: Message, now: nat, room: bool) returns (granted: bool)
      requires Valid()
      modifies this, events, events.data
      ensures Valid() && (View(), granted) == Judged(old(View()), m, now, room)
    {
      hide Push, Noted, Arrived, Granted;
      Arrive(m, now);
      if rate > MAX_RATE {
        Drop();
        return false;
      }
      if m.Malformed? || !ready || m.request <= lastId || outstanding >= MAX_OUTSTANDING || !room {
        Refuse(m);
        return false;
      }
      Grant(m.request);
      return true;
    }

    method Subscribe(side: Side)
      requires Valid()
      modifies this`subscribed
      ensures Valid() && View() == old(View()).(subscribed := old(View()).subscribed + {side})
    {
      subscribed := subscribed + {side};
    }

    method Settle()
      requires Valid()
      modifies this`outstanding
      ensures Valid() && View() == Settled(old(View()))
    {
      if outstanding > 0 { outstanding := outstanding - 1; }
    }

    method MarkReady()
      requires Valid()
      modifies this`ready
      ensures Valid() && View() == old(View()).(ready := true)
    {
      ready := true;
    }

    /** The answer to a request: one obligation less, one event more. */
    method Answer(e: Event)
      requires Valid()
      modifies this, events, events.data
      ensures Valid() && View() == Push(Settled(old(View())), e)
    {
      hide Push;
      Settle();
      Add(e);
    }

    /** Hello if it is the first, then the snapshot; a client that is still there is ready from now on. */
    method Deliver(hello: Option<Event>, snapshot: Event)
      requires Valid()
      modifies this, events, events.data
      ensures Valid() && View() == Delivered(old(View()), hello, snapshot)
    {
      hide Push, Settled;
      if hello.Some? { Add(hello.value); }
      if active { Add(snapshot); }
      if active {
        MarkReady();
        Settle();
      }
    }
  }

  lemma GrantedIsDecoded(c: Client, m: Message, now: nat, room: bool)
    ensures Judged(c, m, now, room).1 ==> m.Decoded? && room
  {
  }

  method MakeSlots() returns (s: seq<Slot>)
    ensures |s| == MAX_CLIENTS && fresh(s)
    ensures forall i :: 0 <= i < MAX_CLIENTS ==>
            s[i].Valid() && s[i].View() == Vacant() && fresh(s[i].events) && fresh(s[i].events.data)
    ensures forall i, j :: 0 <= i < j < MAX_CLIENTS ==>
              s[i] != s[j] && s[i].events != s[j].events && s[i].events.data != s[j].events.data
  {
    s := [];
    while |s| < MAX_CLIENTS
      invariant |s| <= MAX_CLIENTS && fresh(s)
      invariant forall i :: 0 <= i < |s| ==>
                s[i].Valid() && s[i].View() == Vacant() && fresh(s[i].events) && fresh(s[i].events.data)
      invariant forall i, j :: 0 <= i < j < |s| ==>
                  s[i] != s[j] && s[i].events != s[j].events && s[i].events.data != s[j].events.data
    {
      var c := new Slot();
      s := s + [c];
    }
  }

  function ToldUpTo(clients: seq<Client>, e: Event, audience: Option<Side>, n: nat): (t: seq<Client>)
    requires n <= |clients|
    ensures |t| == |clients|
    ensures forall i :: n <= i < |clients| ==> t[i] == clients[i]
  {
    if n == 0 then clients else ToldUpTo(clients, e, audience, n - 1)[n - 1 := Told(clients[n - 1], e, audience)]
  }

  lemma {:induction false} ToldEach(clients: seq<Client>, e: Event, audience: Option<Side>, n: nat)
    requires n <= |clients|
    ensures forall i :: 0 <= i < n ==> ToldUpTo(clients, e, audience, n)[i] == Told(clients[i], e, audience)
  {
    hide Told;
    if n > 0 { ToldEach(clients, e, audience, n - 1); }
  }

  lemma ToldAll(clients: seq<Client>, e: Event, audience: Option<Side>)
    ensures ToldUpTo(clients, e, audience, |clients|) == BroadcastTo(clients, e, audience)
  {
    hide Push, Hears;
    ToldEach(clients, e, audience, |clients|);
  }

  lemma OpenStarts(b: State, now: nat, slot: nat)
    requires |b.clients| == MAX_CLIENTS && slot == FirstFree(b.clients, 0) && slot <= MAX_CLIENTS
    ensures Open(b, now) ==
              if |b.inbox| == INBOX || b.generation == MAX_GENERATION || slot == MAX_CLIENTS then (b, None)
              else
                var g := b.generation + 1;
                (b.(generation := g, clients := b.clients[slot := Opened(g, now)],
                    inbox := b.inbox + [Request(Token(slot, g), 0, Greeting)]), Some(Token(slot, g)))
  {
    hide FirstFree, Opened;
  }

  /** The bridge at power-up, in front of a controller. */
  function Unconnected(c: Controller.State): State
  {
    var zeros: seq<Byte> := [0, 0, 0, 0, 0, 0, 0, 0];
    State([Vacant(), Vacant(), Vacant(), Vacant()], [], None, false, 0, 0, 0, zeros, false, [],
          Shown(c.working[1..], c.blackout, c.loaded, c.modified, false, zeros, c.revision), 0)
  }

  /** Run everything that is scheduled, one locked block after the other. */
  function Drain(b: State): State
    decreases |b.pending|
  {
    if b.pending == [] then b
    else
      assert Emit(b).pending == b.pending[1..];
      Drain(Emit(b))
  }

  /** What blocks change: clients and the record of what was published. */
  function WithBlocks(x: State, b: State): State
  {
    x.(pending := b.pending, clients := b.clients, shown := b.shown, bound := b.bound)
  }

  predicate SameBlocks(x: State, b: State)
  {
    x.pending == b.pending && x.clients == b.clients && x.shown == b.shown && x.bound == b.bound
  }

  /** The owner's bookkeeping and the blocks do not meet: a block neither looks at nor changes what is only the
      owner's. */
  lemma EmitIgnores(b: State, x: State)
    requires b.pending != [] && SameBlocks(x, b)
    ensures Emit(x) == WithBlocks(x, Emit(b))
  {
    hide ClientsAfter, ShownAfter, BoundAfter;
  }

  lemma EmitRest(b: State, more: seq<Out>)
    requires b.pending != []
    ensures Emit(b.(pending := b.pending + more)) == Emit(b).(pending := b.pending[1..] + more)
  {
    hide ClientsAfter, ShownAfter, BoundAfter;
    assert (b.pending + more)[0] == b.pending[0] && (b.pending + more)[1..] == b.pending[1..] + more;
  }

  lemma {:induction false} DrainIgnores(b: State, x: State)
    requires SameBlocks(x, b)
    ensures Drain(x) == WithBlocks(x, Drain(b)) && Drain(b).pending == []
    decreases |b.pending|
  {
    hide Emit;
    if b.pending != [] {
      EmitIgnores(b, x);
      EmitLeaves(b);
      DrainIgnores(Emit(b), Emit(x));
    }
  }

  /** A block scheduled last may be worked out and run after the others have run. */
  lemma {:induction false} DrainLast(b: State, o: Out)
    ensures Drain(b.(pending := b.pending + [o])) == Emit(Drain(b).(pending := [o]))
    decreases |b.pending|
  {
    hide Emit;
    var l := b.(pending := b.pending + [o]);
    if b.pending == [] {
      assert b.pending + [o] == [o];
      EmitLeaves(l);
    } else {
      EmitRest(b, [o]);
      EmitLeaves(b);
      DrainLast(Emit(b), o);
    }
  }

  lemma BroadcastEmits(b: State, e: Event, audience: Option<Side>)
    requires b.pending == []
    ensures Emit(b.(pending := [Broadcast(e, audience)])) ==
              b.(clients := BroadcastTo(b.clients, e, audience), shown := ShownAfter(Broadcast(e, audience), b.shown),
                 bound := e.sequence)
  {
    hide BroadcastTo, ShownAfter;
  }

  lemma NoneIs3(inspected: seq<Byte>)
    ensures (forall p :: p in inspected ==> p != 3) <==> (forall k :: 0 <= k < |inspected| ==> inspected[k] != 3)
  {
    if forall p :: p in inspected ==> p != 3 {
      forall k | 0 <= k < |inspected| ensures inspected[k] != 3 {
        assert inspected[k] in inspected;
      }
    }
  }

  /** Scheduling one more block and draining is draining first, and then running that block at once. */
  lemma DrainCounted(b: State, o: Out)
    ensures Drain(Counted(Queued(b, o))) == Emit(Counted(Drain(b)).(pending := [o]))
  {
    hide Emit, Drain;
    var q := b.(sequence := b.sequence + 1);
    DrainLast(q, o);
    DrainIgnores(b, q);
    DrainIgnores(b, b);
    assert Counted(Queued(b, o)) == q.(pending := q.pending + [o]);
    assert Counted(Drain(b)).(pending := [o]) == Drain(q).(pending := [o]);
  }

  lemma NothingToDrain(b: State)
    requires b.pending == []
    ensures Drain(b) == b
  {
  }

  /** What an event says does not depend on which blocks have run. */
  lemma MadeIgnores(b: State, x: State, c: Controller.State, kind: Kind, id: nat)
    requires x.sequence == b.sequence && x.sender == b.sender && x.presets == b.presets
    ensures Made(x, c, kind, id) == Made(b, c, kind, id)
  {
  }

  class Server {
    const slots: seq<Slot>
    const inbox: Ring<Request>
    var flight: Option<Flight>
    var sender: bool
    var generation: nat
    var internalId: nat
    var sequence: nat
    var presets: seq<Byte>
    var presetsReady: bool
    ghost var shown: Shown
    ghost var bound: nat

    /** No two slots share anything, and none shares anything with the inbox. */
    ghost predicate Apart()
    {
      && |slots| == MAX_CLIENTS
      && (forall i, j :: 0 <= i < j < MAX_CLIENTS ==>
            slots[i] != slots[j] && slots[i].events != slots[j].events && slots[i].events.data != slots[j].events.data)
      && (forall i :: 0 <= i < MAX_CLIENTS ==>
            slots[i].events as object != inbox && slots[i].events.data as object != inbox.data)
    }

    ghost function Rings(): set<object>
    {
      (set s | s in slots :: s.events as object) + {inbox}
    }

    ghost function Buffers(): set<object>
    {
      (set s | s in slots :: s.events.data as object) + {inbox.data}
    }

    ghost predicate Valid()
      reads this, slots, Rings()
    {
      Apart() && inbox.Valid() && inbox.data.Length == INBOX && |presets| == 8 && forall i :: 0 <= i < MAX_CLIENTS ==>
          slots[i].Valid()
    }

    ghost function Clients(): (c: seq<Client>)
      requires Valid()
      reads this, slots, Rings(), Buffers()
      ensures |c| == MAX_CLIENTS
    {
      [slots[0].View(), slots[1].View(), slots[2].View(), slots[3].View()]
    }

    ghost function View(): State
      requires Valid()
      reads this, slots, Rings(), Buffers()
    {
      State(Clients(), inbox.Contents(), flight, sender, generation, internalId, sequence, presets, presetsReady, [],
            shown, bound)
    }

    /** Nobody is connected; what counts as published is what the controller shows. */
    constructor (c: Controller.DmxController)
      requires c.Valid()
      ensures Valid() && View() == Unconnected(c.View())
      ensures fresh(slots) && fresh(Rings()) && fresh(Buffers())
    {
      hide Vacant;
      var made := MakeSlots();
      slots := made;
      inbox := new Ring(INBOX);
      flight, sender, generation, internalId, sequence := None, false, 0, 0, 0;
      presets, presetsReady, bound := [0, 0, 0, 0, 0, 0, 0, 0], false, 0;
      shown := Shown(c.working[1..], c.blackout, c.loaded, c.modified, false, [0, 0, 0, 0, 0, 0, 0, 0], c.revision);
      new;
      assert c.working[1..] == c.working[..][1..];
    }

    predicate Live(t: Token)
      requires Valid()
      reads this, slots, Rings(), Buffers()
      ensures Live(t) == Alive(View().clients, t)
    {
      t.slot < MAX_CLIENTS && slots[t.slot].active && slots[t.slot].generation == t.generation
    }

    /** When only one slot was touched, only that client changed. */
    twostate lemma OneSlot(i: nat)
      requires Apart() && old(Valid()) && Valid() && i < MAX_CLIENTS
      requires forall j :: 0 <= j < MAX_CLIENTS && j != i ==>
                 unchanged(slots[j]) && unchanged(slots[j].events) && unchanged(slots[j].events.data)
      ensures Clients() == old(Clients())[i := slots[i].View()]
    {
      forall j | 0 <= j < MAX_CLIENTS && j != i ensures slots[j].View() == old(slots[j].View()) {
      }
    }

    method TakeNow(t: Token) returns (e: Option<Event>)
      requires Valid()
      modifies set s | s in slots :: s.events
      ensures Valid() && (View(), e) == Take(old(View()), t)
    {
      if !Live(t) { return None; }
      var c := slots[t.slot];
      if c.events.count == 0 { return None; }
      var oldest := c.Remove();
      OneSlot(t.slot);
      e := Some(oldest);
    }

    method CloseNow(t: Token)
      requires Valid()
      modifies slots, Rings()
      ensures Valid() && View() == Close(old(View()), t)
    {
      if !Live(t) { return; }
      slots[t.slot].Drop();
      OneSlot(t.slot);
    }

    /** `hasGeneration`. */
    method Connected(generation: nat) returns (found: bool)
      requires Valid()
      ensures found == HasGeneration(View().clients, generation)
    {
      var i := 0;
      while i < MAX_CLIENTS
        invariant i <= MAX_CLIENTS
        invariant forall k :: 0 <= k < i ==> !(Clients()[k].active && Clients()[k].generation == generation)
      {
        if slots[i].active && slots[i].generation == generation {
          assert Clients()[i].active;
          return true;
        }
        i := i + 1;
      }
      return false;
    }

    method FindFree() returns (i: nat)
      requires Valid()
      ensures i == FirstFree(Clients(), 0) && i <= MAX_CLIENTS
    {
      i := 0;
      while i < MAX_CLIENTS && slots[i].active
        invariant i <= MAX_CLIENTS && FirstFree(Clients(), 0) == FirstFree(Clients(), i)
      {
        i := i + 1;
      }
    }

    method Ask(r: Request)
      requires Valid() && |View().inbox| < INBOX
      modifies inbox, inbox.data
      ensures Valid() && View() == old(View()).(inbox := old(View()).inbox + [r])
    {
      inbox.Push(r);
      assert forall j :: 0 <= j < MAX_CLIENTS ==> slots[j].View() == old(slots[j].View());
    }

    method NextGeneration()
      requires Valid()
      modifies this`generation
      ensures Valid() && View() == old(View()).(generation := old(View()).generation + 1)
    {
      generation := generation + 1;
    }

    method ResetSlot(i: nat, now: nat)
      requires Valid() && i < MAX_CLIENTS
      modifies slots, Rings()
      ensures Valid() && View() == old(View()).(clients := old(View()).clients[i := Opened(generation, now)])
    {
      slots[i].Reset(generation, now);
      OneSlot(i);
    }

    method JudgeSlot(i: nat, m: Message, now: nat, room: bool) returns (granted: bool)
      requires Valid() && i < MAX_CLIENTS
      modifies slots, Rings(), set s | s in slots :: s.events.data
      ensures Valid()
      ensures var (c, g) := Judged(old(View()).clients[i], m, now, room);
              granted == g && View() == old(View()).(clients := old(View()).clients[i := c])
    {
      hide Judged;
      granted := slots[i].Judge(m, now, room);
      OneSlot(i);
    }

    method OpenNow(now: nat) returns (t: Option<Token>)
      requires Valid()
      modifies this`generation, slots, Rings(), Buffers()
      ensures Valid() && (View(), t) == Open(old(View()), now)
    {
      hide Open, Opened, FirstFree;
      var i := FindFree();
      OpenStarts(View(), now, i);
      if inbox.count == INBOX || generation == MAX_GENERATION || i == MAX_CLIENTS { return None; }
      NextGeneration();
      ResetSlot(i, now);
      Ask(Request(Token(i, generation), 0, Greeting));
      t := Some(Token(i, generation));
    }

    method ReceiveNow(t: Token, m: Message, now: nat)
      requires Valid()
      modifies slots, Rings(), Buffers()
      ensures Valid() && View() == Bridge.Receive(old(View()), t, m, now)
    {
      if !Live(t) { return; }
      hide Judged, FirstFree;
      GrantedIsDecoded(slots[t.slot].View(), m, now, inbox.count < INBOX);
      var granted := JudgeSlot(t.slot, m, now, inbox.count < INBOX);
      if granted { Ask(Request(t, m.request, Asked(m.ask))); }
    }

    /** Any call of the HTTP task. */
    method HttpNow(step: HttpStep)
      requires Valid()
      modifies this`generation, slots, Rings(), Buffers()
      ensures Valid() && View() == Http(old(View()), step)
    {
      hide Server.View, Open, Close, Take, Bridge.Receive;
      match step {
        case OpenStep(now) => var t := OpenNow(now);
        case CloseStep(t) => CloseNow(t);
        case TakeStep(t) => var e := TakeNow(t);
        case ReceiveStep(t, m, now) => ReceiveNow(t, m, now);
      }
    }

    // The owner task's locked blocks

    method PopRequest() returns (r: Request)
      requires Valid() && View().inbox != []
      modifies inbox
      ensures Valid() && r == old(View()).inbox[0] && View() == Popped(old(View()))
    {
      r := inbox.Pop();
      assert forall j :: 0 <= j < MAX_CLIENTS ==> slots[j].View() == old(slots[j].View());
    }

    method TellOne(i: nat, e: Event, audience: Option<Side>)
      requires Valid() && i < MAX_CLIENTS
      modifies slots[i], slots[i].events, slots[i].events.data
      ensures Valid()
      ensures View() == old(View()).(clients := old(View()).clients[i := Told(old(View()).clients[i], e, audience)])
    {
      hide Told;
      slots[i].Hear(e, audience);
      OneSlot(i);
    }

    method TellAll(e: Event, audience: Option<Side>)
      requires Valid()
      modifies slots, Rings() - {inbox}, Buffers() - {inbox.data}
      ensures Valid() && View() == old(View()).(clients := BroadcastTo(old(View()).clients, e, audience))
    {
      hide Told, BroadcastTo;
      var i := 0;
      ghost var before := View();
      while i < MAX_CLIENTS
        invariant i <= MAX_CLIENTS && Valid()
        invariant View() == before.(clients := ToldUpTo(before.clients, e, audience, i))
      {
        TellOne(i, e, audience);
        i := i + 1;
      }
      ToldAll(before.clients, e, audience);
    }

    ghost method Publish(e: Event)
      requires Valid()
      modifies this`shown, this`bound
      ensures Valid()
      ensures View() == old(View()).(shown := if StateKind(e.kind) then Advance(old(View()).shown, e)
                                     else old(View()).shown, bound := e.sequence)
    {
      if StateKind(e.kind) { shown := Advance(shown, e); }
      bound := e.sequence;
    }

    ghost method Raise(sequence: nat)
      requires Valid()
      modifies this`bound
      ensures Valid() && View() == old(View()).(bound := sequence)
    {
      bound := sequence;
    }

    /** `broadcast`, and its three sides. */
    method BroadcastNow(e: Event, audience: Option<Side>)
      requires Valid()
      modifies this`shown, this`bound, slots, Rings() - {inbox}, Buffers() - {inbox.data}
      ensures Valid() && View() == Emit(old(View()).(pending := [Broadcast(e, audience)]))
    {
      hide BroadcastTo, Emit;
      BroadcastEmits(View(), e, audience);
      TellAll(e, audience);
      Publish(e);
    }

    method SubscribeSlot(i: nat, side: Side)
      requires Valid() && i < MAX_CLIENTS
      modifies slots
      ensures Valid()
      ensures var c := old(View()).clients[i];
              View() == old(View()).(clients := old(View()).clients[i := c.(subscribed := c.subscribed + {side})])
    {
      slots[i].Subscribe(side);
      OneSlot(i);
    }

    method SubscribeNow(t: Token, side: Side)
      requires Valid()
      modifies slots
      ensures Valid() && View() == Emit(old(View()).(pending := [Subscribe(t, side)]))
    {
      if !Live(t) { return; }
      SubscribeSlot(t.slot, side);
    }

    method DeliverSlot(i: nat, hello: Option<Event>, snapshot: Event)
      requires Valid() && i < MAX_CLIENTS
      modifies slots, Rings(), Buffers()
      ensures Valid()
      ensures View() == old(View()).(clients :=
                                     old(View()).clients[i := Delivered(old(View()).clients[i], hello, snapshot)])
    {
      hide Delivered;
      slots[i].Deliver(hello, snapshot);
      OneSlot(i);
    }

    method DeliverNow(r: Request, hello: Option<Event>, snapshot: Event)
      requires Valid()
      modifies this`bound, slots, Rings(), Buffers()
      ensures Valid() && View() == Emit(old(View()).(pending := [Deliver(r, hello, snapshot)]))
    {
      hide Delivered;
      Raise(snapshot.sequence);
      if !Live(r.token) { return; }
      DeliverSlot(r.token.slot, hello, snapshot);
    }

    method AnswerSlot(i: nat, e: Event)
      requires Valid() && i < MAX_CLIENTS
      modifies slots, Rings(), Buffers()
      ensures Valid()
      ensures View() == old(View()).(clients := old(View()).clients[i := Push(Settled(old(View()).clients[i]), e)])
    {
      hide Push, Settled;
      slots[i].Answer(e);
      OneSlot(i);
    }

    method AnswerNow(r: Request, e: Event)
      requires Valid()
      modifies this`bound, slots, Rings(), Buffers()
      ensures Valid() && View() == Emit(old(View()).(pending := [Answer(r, e)]))
    {
      hide Push, Settled;
      Raise(e.sequence);
      if !Live(r.token) { return; }
      AnswerSlot(r.token.slot, e);
    }

    // The owner task's turns, when nothing comes between their blocks

    method InspectPresets(inspected: seq<Byte>)
      requires Valid() && |inspected| == 8
      modifies this`presets, this`presetsReady
      ensures Valid() && View() == Refreshed(old(View()), inspected)
    {
      if presetsReady { return; }
      presetsReady := true;
      var i := 0;
      while i < 8
        invariant i <= 8 && |presets| == 8 && presets[..i] == inspected[..i]
        invariant presetsReady <==> forall k :: 0 <= k < i ==> inspected[k] != 3
      {
        presets := presets[i := inspected[i]];
        if presets[i] == 3 { presetsReady := false; }
        i := i + 1;
      }
      assert presets == presets[..8] == inspected[..8] == inspected;
      NoneIs3(inspected);
    }

    method MakeEvent(c: Controller.DmxController, kind: Kind, id: nat) returns (e: Event)
      requires Valid() && c.Valid()
      modifies this`sequence
      ensures Valid() && View() == Counted(old(View())) && e == Made(old(View()), old(c.View()), kind, id)
    {
      sequence := sequence + 1;
      var full := FullState(kind);
      e := Event(kind, sequence, c.revision, id, c.blackout, sender, c.loaded, c.modified, 0, 0,
                 if full then c.working[1..] else [], if full then presets else [], Plain);
      assert c.working[1..] == c.working[..][1..];
    }

    method AnnounceNow(c: Controller.DmxController, kind: Kind)
      requires Valid() && c.Valid()
      modifies this`sequence, this`shown, this`bound, slots, Rings() - {inbox}, Buffers() - {inbox.data}
      ensures Valid() && View() == Drain(Announced(old(View()), old(c.View()), kind))
    {
      hide Emit, Made, Drain;
      ghost var b := View();
      var e := MakeEvent(c, kind, 0);
      BroadcastNow(e, None);
      NothingToDrain(b);
      DrainCounted(b, Broadcast(e, None));
    }

    /** `reply`. */
    method ReplyNow(c: Controller.DmxController, r: Request, kind: Kind)
      requires Valid() && c.Valid()
      modifies this`sequence, this`bound, slots, Rings(), Buffers()
      ensures Valid() && View() == Drain(Replied(old(View()), old(c.View()), r, kind))
    {
      hide Emit, Made, Drain;
      ghost var b := View();
      var e := MakeEvent(c, kind, r.id);
      AnswerNow(r, e);
      NothingToDrain(b);
      DrainCounted(b, Answer(r, e));
    }

    method ModeNow(c: Controller.DmxController, wanted: bool)
      requires Valid() && c.Valid()
      modifies this`sender, this`sequence, this`shown, this`bound, slots, Rings() - {inbox}, Buffers() - {inbox.data}
      ensures Valid() && View() == Drain(ModeChanged(old(View()), old(c.View()), wanted))
    {
      hide Announced;
      if sender == wanted { return; }
      SwitchSender(wanted);
      AnnounceNow(c, ModeUpdate);
    }

    method SwitchSender(wanted: bool)
      requires Valid()
      modifies this`sender
      ensures Valid() && View() == old(View()).(sender := wanted)
    {
      sender := wanted;
    }

    method Number() returns (n: nat)
      requires Valid()
      modifies this`sequence
      ensures Valid() && View() == Counted(old(View())) && n == sequence
    {
      sequence := sequence + 1;
      return sequence;
    }

    method GreetNow(c: Controller.DmxController, r: Request) returns (hello: Option<Event>)
      requires Valid() && c.Valid()
      modifies this`sequence
      ensures Valid() && View() == if r.body.Greeting? then Counted(old(View())) else old(View())
      ensures hello == if r.body.Greeting? then Some(Made(old(View()), old(c.View()), Hello, 0)) else None
    {
      hide Made;
      if !r.body.Greeting? { return None; }
      var h := MakeEvent(c, Hello, 0);
      hello := Some(h);
    }

    /** Capture a snapshot; when the preset metadata turns out to have changed, tell everyone else first. */
    method CaptureNow(c: Controller.DmxController, id: nat, inspected: seq<Byte>) returns (e: Event)
      requires Valid() && c.Valid() && |inspected| == 8
      modifies this`presets, this`presetsReady, this`sequence, this`shown, this`bound, slots, Rings() - {inbox},
        Buffers() - {inbox.data}
      ensures Valid()
      ensures var told := NewsTold(old(View()), old(c.View()), inspected);
              View() == Counted(Drain(told)) && e == Made(told, old(c.View()), Snapshot, id)
    {
      hide Emit, Made, Drain, Refreshed;
      ghost var cv := c.View();
      var previous := presets;
      InspectPresets(inspected);
      ghost var current := View();
      e := MakeEvent(c, Snapshot, id);
      NothingToDrain(current);
      if presets != previous {
        var news := e.(kind := Universe, id := 0);
        SnapshotAsNews(current, cv, id);
        BroadcastNow(news, None);
        DrainCounted(current, Broadcast(news, None));
        SnapshotAgain(current, Announced(current, cv, Universe), cv, id);
        SequenceAfter(Announced(current, cv, Universe));
        var n := Number();
        e := e.(sequence := n);
      }
    }

    method SnapshotNow(c: Controller.DmxController, r: Request, inspected: seq<Byte>)
      requires Valid() && c.Valid() && |inspected| == 8
      modifies this`presets, this`presetsReady, this`sequence, this`shown, this`bound, slots, Rings(), Buffers()
      ensures Valid() && View() == Drain(Snapshotted(old(View()), old(c.View()), r, inspected))
    {
      hide Emit, Made, Drain, NewsTold;
      ghost var b := View();
      ghost var cv := c.View();
      var hello := GreetNow(c, r);
      ghost var greeted := View();
      var e := CaptureNow(c, r.id, inspected);
      DrainCounted(NewsTold(greeted, cv, inspected), Deliver(r, hello, e));
      SnapshotParts(b, cv, r, inspected);
      DeliverNow(r, hello, e);
    }

    method Doubt(command: Controller.Command)
      requires Valid()
      modifies this`presetsReady
      ensures Valid()
      ensures View() == if LiveState.PresetCommand(command) then old(View()).(presetsReady := false) else old(View())
    {
      if LiveState.PresetCommand(command) { presetsReady := false; }
    }

    method ChannelNow(c: Controller.DmxController, channel: int)
      requires Valid() && c.Valid()
      modifies this`sequence, this`shown, this`bound, slots, Rings() - {inbox}, Buffers() - {inbox.data}
      ensures Valid()
      ensures var b := old(View());
              View() == Drain(Counted(Queued(b, Broadcast(LiveState.ChannelEvent(b, old(c.View()), channel), None))))
    {
      hide Emit, Made, Drain;
      ghost var b := View();
      var e := MakeEvent(c, ChannelUpdate, 0);
      var ch := if 1 <= channel <= 512 then channel else 0;
      e := e.(channel := ch, value := c.working[ch]);
      NothingToDrain(b);
      DrainCounted(b, Broadcast(e, None));
      BroadcastNow(e, None);
    }

    method UniverseNow(c: Controller.DmxController, inspected: seq<Byte>)
      requires Valid() && c.Valid() && |inspected| == 8
      modifies this`presets, this`presetsReady, this`sequence, this`shown, this`bound, slots, Rings() - {inbox},
        Buffers() - {inbox.data}
      ensures Valid() && View() == Drain(Announced(Refreshed(old(View()), inspected), old(c.View()), Universe))
    {
      hide Announced, Refreshed;
      InspectPresets(inspected);
      AnnounceNow(c, Universe);
    }

    /** `completed`, publication half. */
    method PublishNow(c: Controller.DmxController, command: Controller.Command, result: Dispatcher.Result,
                      inspected: seq<Byte>)
      requires Valid() && c.Valid() && |inspected| == 8
      modifies this`presets, this`presetsReady, this`sequence, this`shown, this`bound, slots, Rings() - {inbox},
        Buffers() - {inbox.data}
      ensures Valid()
      ensures View() == Drain(LiveState.PublishedAfter(old(View()), old(c.View()), command, result, inspected))
    {
      hide Drain, Announced, Refreshed, LiveState.ChannelEvent, LiveState.Publishes;
      Doubt(command);
      NothingToDrain(View());
      if !LiveState.Publishes(command, result) { return; }
      if LiveState.ChannelCommand(command) { ChannelNow(c, command.channel); } else { UniverseNow(c, inspected); }
    }

    method LandFlight()
      requires Valid()
      modifies this`flight
      ensures Valid() && View() == old(View()).(flight := None)
    {
      flight := None;
    }

    /** The controller's storage is none of the bridge's. */
    lemma Foreign(c: Controller.DmxController)
      ensures c as object !in Rings() && c as object !in Buffers()
      ensures c.working as object !in Buffers() && c.restore as object !in Buffers()
      ensures c.working as object !in Rings() && c.restore as object !in Rings()
    {
    }

    method AnswerFlight(c: Controller.DmxController, order: Dispatcher.Order, status: Dispatcher.Status)
      requires Valid() && c.Valid()
      modifies this`flight, this`sequence, this`bound, slots, Rings(), Buffers()
      ensures Valid() && View() == FlightAnswered(old(View()), old(c.View()), order, status)
    {
      hide Drain, Replied;
      if flight.Some? && order.source.External? && order.requestId == flight.value.commandId {
        var r := flight.value.request;
        LandFlight();
        ReplyNow(c, r, LiveState.ReplyKind(r, status));
      }
    }

    /** `completed` as far as the bridge goes: publish, then answer the request whose command this was. */
    method CompletedNow(c: Controller.DmxController, order: Dispatcher.Order, result: Dispatcher.Result,
                        inspected: seq<Byte>)
      requires Valid() && c.Valid() && |inspected| == 8
      modifies this`flight, this`presets, this`presetsReady, this`sequence, this`shown, this`bound, slots, Rings(),
        Buffers()
      ensures Valid()
      ensures View() == Drain(LiveState.CompletedBridge(old(View()), old(c.View()), order, result, inspected))
    {
      hide Drain, FlightAnswered, LiveState.CompletedBridge, LiveState.PublishedAfter;
      CompletedInParts(View(), c.View(), order, result, inspected);
      Foreign(c);
      ghost var cv := c.View();
      PublishNow(c, order.command, result, inspected);
      assert c.View() == cv;
      AnswerFlight(c, order, result.status);
    }

    method TellSide(side: Side, revision: nat)
      requires Valid()
      modifies this`sequence, this`shown, this`bound, slots, Rings() - {inbox}, Buffers() - {inbox.data}
      ensures Valid() && View() == Drain(SideTold(old(View()), side, revision))
    {
      hide Emit, Drain;
      ghost var b := View();
      var n := Number();
      var e := Event(Sided(side), n, revision, 0, false, false, 0, false, 0, 0, [], [], Plain);
      NothingToDrain(b);
      DrainCounted(b, Broadcast(e, Some(side)));
      BroadcastNow(e, Some(side));
    }

    /** News of the side services, in order. */
    method TellNews(news: seq<(Side, nat)>)
      requires Valid()
      modifies this`sequence, this`shown, this`bound, slots, Rings() - {inbox}, Buffers() - {inbox.data}
      ensures Valid() && View() == Drain(SideNews(old(View()), news))
    {
      hide Drain, SideTold;
      NothingToDrain(View());
      var i := 0;
      while i < |news|
        invariant i <= |news| && Valid() && Drain(SideNews(View(), news[i..])) == Drain(SideNews(old(View()), news))
      {
        assert news[i..][0] == news[i] && news[i..][1..] == news[i + 1..];
        ghost var b := View();
        SideNewsFirst(b, news[i..]);
        TellSide(news[i].0, news[i].1);
        SideNewsAfterDrain(SideTold(b, news[i].0, news[i].1), news[i + 1..]);
        i := i + 1;
      }
      assert news[i..] == [];
      NothingToDrain(View());
    }

    method AnswerSide(r: Request, side: Side, revision: nat, outcome: Outcome)
      requires Valid()
      modifies this`sequence, this`bound, slots, Rings(), Buffers()
      ensures Valid() && View() == Drain(SideAnswered(old(View()), r, side, revision, outcome))
    {
      hide Emit, Drain;
      ghost var b := View();
      var n := Number();
      var e := Event(Sided(side), n, revision, r.id, false, false, 0, false, 0, 0, [], [], outcome);
      NothingToDrain(b);
      DrainCounted(b, Answer(r, e));
      AnswerNow(r, e);
    }

    lemma NothingScheduled()
      requires Valid()
      ensures View().pending == []
    {
    }

    method Judgment(t: Token, side: Side, subscribes: bool, code: nat) returns (outcome: Outcome)
      requires Valid()
      ensures outcome == Verdict(View().clients, t, side, subscribes, code)
    {
      if subscribes { return Plain; }
      if Live(t) && side in slots[t.slot].subscribed { return Given(code); }
      return NotSubscribed;
    }

    /** A request to one of the side services: subscribe if asked, or let the service answer a subscriber; pass on
        its news, answer. */
    method SideNow(r: Request, side: Side, subscribes: bool, news: seq<(Side, nat)>, revision: nat, code: nat)
      requires Valid()
      modifies this`sequence, this`shown, this`bound, slots, Rings(), Buffers()
      ensures Valid() && View() == Drain(SideServed(old(View()), r, side, subscribes, news, revision, code))
    {
      hide Emit, Drain, SideNews, SideAnswered, Verdict, Server.View;
      NothingScheduled();
      ghost var b := View();
      var outcome := Judgment(r.token, side, subscribes, code);
      ghost var s := if subscribes then Queued(b, Subscribe(r.token, side)) else b;
      if subscribes { SubscribeNow(r.token, side); }
      SubscribedDrains(b, Subscribe(r.token, side));
      NothingToDrain(b);
      SideNewsAfterDrain(s, news);
      TellNews(news);
      SideAnsweredAfterDrain(SideNews(s, news), r, side, revision, outcome);
      AnswerSide(r, side, revision, outcome);
    }
  }

  function SideServed(b: State, r: Request, side: Side, subscribes: bool, news: seq<(Side, nat)>, revision: nat,
                      code: nat): State
  {
    SideAnswered(SideNews(if subscribes then Queued(b, Subscribe(r.token, side)) else b, news), r, side, revision,
                 Verdict(b.clients, r.token, side, subscribes, code))
  }

  lemma SideNewsFirst(b: State, news: seq<(Side, nat)>)
    requires news != []
    ensures SideNews(b, news) == SideNews(SideTold(b, news[0].0, news[0].1), news[1..])
  {
  }

  lemma SideToldAfterDrain(p: State, side: Side, revision: nat)
    ensures Drain(SideTold(Drain(p), side, revision)) == Drain(SideTold(p, side, revision))
  {
    hide Drain, Emit;
    DrainIgnores(p, p);
    var o := Broadcast(SideEvent(p, side, 0, revision, Plain), Some(side));
    DrainCounted(p, o);
    DrainCounted(Drain(p), o);
    NothingToDrain(Drain(p));
  }

  lemma SideAnsweredAfterDrain(p: State, r: Request, side: Side, revision: nat, outcome: Outcome)
    ensures Drain(SideAnswered(Drain(p), r, side, revision, outcome)) ==
            Drain(SideAnswered(p, r, side, revision, outcome))
  {
    hide Drain, Emit;
    DrainIgnores(p, p);
    var o := Answer(r, SideEvent(p, side, r.id, revision, outcome));
    DrainCounted(p, o);
    DrainCounted(Drain(p), o);
    NothingToDrain(Drain(p));
  }

  lemma {:induction false} SideNewsAfterDrain(p: State, news: seq<(Side, nat)>)
    ensures Drain(SideNews(Drain(p), news)) == Drain(SideNews(p, news))
    decreases |news|
  {
    hide Drain, SideTold;
    DrainIgnores(p, p);
    NothingToDrain(Drain(p));
    if news != [] {
      var side, revision := news[0].0, news[0].1;
      SideNewsFirst(p, news);
      SideNewsFirst(Drain(p), news);
      SideToldAfterDrain(p, side, revision);
      SideNewsAfterDrain(SideTold(p, side, revision), news[1..]);
      SideNewsAfterDrain(SideTold(Drain(p), side, revision), news[1..]);
    }
  }

  lemma SubscribedDrains(b: State, o: Out)
    requires b.pending == []
    ensures Drain(Queued(b, o)) == Emit(b.(pending := [o]))
  {
    hide Drain, Emit;
    DrainLast(b, o);
    NothingToDrain(b);
    assert b.pending + [o] == [o];
  }

  function FlightAnswered(b: State, c: Controller.State, order: Dispatcher.Order, status: Dispatcher.Status): State
  {
    if !LiveState.AnswersFlight(b, order) then b
    else
      var r := b.flight.value.request;
      Drain(Replied(b.(flight := None), c, r, LiveState.ReplyKind(r, status)))
  }

  lemma CompletedInParts(b: State, c: Controller.State, order: Dispatcher.Order, result: Dispatcher.Result,
                         inspected: seq<Byte>)
    ensures Drain(LiveState.CompletedBridge(b, c, order, result, inspected)) ==
              FlightAnswered(Drain(LiveState.PublishedAfter(b, c, order.command, result, inspected)), c, order,
                             result.status)
  {
    hide Drain, Replied, LiveState.PublishedAfter;
    var p := LiveState.PublishedAfter(b, c, order.command, result, inspected);
    PublishedKeepsFlight(b, c, order.command, result, inspected);
    DrainIgnores(p, p);
    if LiveState.AnswersFlight(b, order) {
      var r := b.flight.value.request;
      DrainIgnores(p, p.(flight := None));
      ReplyAfterDrain(p.(flight := None), c, r, LiveState.ReplyKind(r, result.status));
    }
  }

  lemma PublishedKeepsFlight(b: State, c: Controller.State, command: Controller.Command, result: Dispatcher.Result,
                             inspected: seq<Byte>)
    ensures LiveState.PublishedAfter(b, c, command, result, inspected).flight == b.flight
  {
    hide Made, LiveState.Publishes, LiveState.ChannelEvent;
  }

  /** Replying after the blocks have run, or scheduling the reply behind them, comes to the same. */
  lemma ReplyAfterDrain(p: State, c: Controller.State, r: Request, kind: Kind)
    ensures Drain(Replied(Drain(p), c, r, kind)) == Drain(Replied(p, c, r, kind))
  {
    hide Drain, Emit;
    DrainIgnores(p, p);
    MadeIgnores(p, Drain(p), c, kind, r.id);
    var e := Made(p, c, kind, r.id);
    DrainCounted(p, Answer(r, e));
    DrainCounted(Drain(p), Answer(r, e));
    NothingToDrain(Drain(p));
  }

  /** What is scheduled before the snapshot itself. */
  function NewsTold(b: State, c: Controller.State, inspected: seq<Byte>): State
  {
    var current := Refreshed(b, inspected);
    if current.presets != b.presets then Announced(current, c, Universe) else current
  }

  lemma SnapshotParts(b: State, c: Controller.State, r: Request, inspected: seq<Byte>)
    ensures var hello := if r.body.Greeting? then Some(Made(b, c, Hello, 0)) else None;
            var told := NewsTold(if r.body.Greeting? then Counted(b) else b, c, inspected);
            Snapshotted(b, c, r, inspected) == Counted(Queued(told, Deliver(r, hello, Made(told, c, Snapshot, r.id))))
  {
    hide Made;
  }

  lemma SequenceAfter(b: State)
    ensures Drain(b).sequence == b.sequence
  {
    hide Drain;
    DrainIgnores(b, b);
  }

  lemma SnapshotAsNews(b: State, c: Controller.State, id: nat)
    ensures Made(b, c, Snapshot, id).(kind := Universe, id := 0) == Made(b, c, Universe, 0)
  {
  }

  lemma SnapshotAgain(b: State, told: State, c: Controller.State, id: nat)
    requires told.sequence == b.sequence + 1 && told.sender == b.sender && told.presets == b.presets
    ensures Made(told, c, Snapshot, id) == Made(b, c, Snapshot, id).(sequence := told.sequence + 1)
  {
  }
}