/** Ids in the live-state protocol: each message a client sends is answered by exactly one event with its
    id, so an id is carried as often as its client named it. */
module LiveAnswers {
  import opened Types
  import opened Browser
  import opened Bridge
  import opened LiveState
  import ArchiveTransfer
  import Controller
  import Dispatcher
  import Transport

  lemma ServeLeavesClients(w: World, turn: Turn)
    requires w.b.inbox != []
    ensures Serve(w, turn).b.clients == w.b.clients
  {
    hide Made, SideNews, ArchiveTransfer.Handle, ArchiveTransfer.Aborted, Dispatcher.Submit;
    var r := w.b.inbox[0];
    if r.body.Asked? && r.body.ask.SideAsk? {
      var popped := Popped(w.b);
      SideNewsIsOwners(if r.body.ask.subscribes then Queued(popped, Subscribe(r.token, r.body.ask.side)) else popped,
                       turn.news);
    }
  }

  lemma RunHeadLeavesClients(w: World, reply: Controller.StorageReply, inspected: seq<Byte>)
    requires w.d.queue != []
    ensures RunHead(w, reply, inspected).b.clients == w.b.clients
  {
    hide Made, ChannelEvent, Publishes, ArchiveTransfer.Aborted, Dispatcher.Apply, AnswersFlight;
  }

  /** Between its blocks the owner task leaves the clients alone. */
  lemma OwnerLeavesClients(w: World, step: Step)
    requires Enabled(w, step) && !step.HttpWork? && !step.EmitNext?
    ensures Next(w, step).b.clients == w.b.clients
  {
    hide Serve, RunHead, SideNews, Made, Dispatcher.Submit, Transport.Apply, ArchiveTransfer.Aborted, TransferOver;
    match step
    case PrepareTurn(_, _, _, news) => SideNewsIsOwners(w.b, news);
    case ServeNext(turn) => ServeLeavesClients(w, turn);
    case RunNext(reply, inspected) => RunHeadLeavesClients(w, reply, inspected);
    case _ =>
  }

  lemma {:induction false} RunAccounts(w: World, steps: seq<Step>)
    requires Inv(w) && AllAccounted(w.b.clients)
    ensures AllAccounted(Run(w, steps).b.clients)
    decreases |steps|
  {
    hide Inv, AllAccounted, Next, Enabled;
    if steps != [] {
      if Enabled(w, steps[0]) {
        StepKeepsInv(w, steps[0]);
        StepAccounts(w, steps[0]);
        RunAccounts(Next(w, steps[0]), steps[1..]);
      } else {
        RunAccounts(w, steps[1..]);
      }
    }
  }

  lemma StepAccounts(w: World, step: Step)
    requires Inv(w) && AllAccounted(w.b.clients) && Enabled(w, step)
    ensures AllAccounted(Next(w, step).b.clients)
  {
    hide BridgeOk, AllAccounted, Http, Emit;
    if step.HttpWork? {
      HttpAccounts(w.b, step.http);
    } else if step.EmitNext? {
      EmitAccounts(w.b);
    } else {
      OwnerLeavesClients(w, step);
    }
  }

  /** How many events of a stream carry an id. */
  function Carrying(sent: seq<Event>, id: nat): nat
  {
    if sent == [] then 0 else Carrying(sent[..|sent| - 1], id) + if sent[|sent| - 1].id == id then 1 else 0
  }

  lemma {:induction false} CarryingSplits(sent: seq<Event>, id: nat)
    requires id != 0
    ensures Carrying(sent, id) == multiset(Answers(sent))[id] + multiset(Refusals(sent))[id]
    decreases |sent|
  {
    if sent != [] { CarryingSplits(sent[..|sent| - 1], id); }
  }

  lemma {:induction false} OnceEach(ids: seq<nat>, id: nat)
    requires forall i, j :: 0 <= i < j < |ids| ==> ids[i] < ids[j]
    ensures multiset(ids)[id] == if id in ids then 1 else 0
    decreases |ids|
  {
    if ids != [] {
      var n := |ids| - 1;
      OnceEach(ids[..n], id);
      assert ids == ids[..n] + [ids[n]];
    }
  }

  /** Conservation of ids, over every run from power-up: however often a client has named an id, so many events
      of its stream carry it, but for a granted request still owed its answer. No message goes
      unanswered, and no event carries an id its client did not name. */
  lemma EveryMessageIsAnswered(w: World, steps: seq<Step>, slot: nat, id: nat)
    requires Initial(w) && slot < MAX_CLIENTS && id >= 1
    ensures var e := Run(w, steps);
            |e.b.clients| == MAX_CLIENTS &&
            var c := e.b.clients[slot];
            var owed := Ids(Pipe(e.b), Token(slot, c.generation));
            c.active ==> Carrying(c.sent, id) + multiset(owed)[id] == multiset(c.heard)[id]
  {
    hide Run, Fold, Ids, Pipe, Answers, Refusals, Dispatcher.Inv;
    EveryBrowserIsAReplica(w, steps);
    InitialInv(w);
    assert AllAccounted(w.b.clients);
    RunAccounts(w, steps);
    var c := Run(w, steps).b.clients[slot];
    if c.active {
      assert Served(Run(w, steps), slot) && Accounted(c);
      CarryingSplits(c.sent, id);
    }
  }

  /** An answered id is carried by exactly one event if and only if its client named it exactly once: in all its
      messages since it connected, malformed ones included. */
  lemma AnsweredOnce(w: World, steps: seq<Step>, slot: nat, id: nat)
    requires Initial(w) && slot < MAX_CLIENTS
    ensures var e := Run(w, steps);
            |e.b.clients| == MAX_CLIENTS &&
            var c := e.b.clients[slot];
            c.active && id in Answers(c.sent) ==> id >= 1 && (Carrying(c.sent, id) == 1 <==> multiset(c.heard)[id] == 1)
  {
    hide Run, Initial, Fold, Ids, Pipe, Answers;
    EveryBrowserIsAReplica(w, steps);
    var e := Run(w, steps);
    var c := e.b.clients[slot];
    if c.active && id in Answers(c.sent) {
      assert Served(e, slot);
      var answers := Answers(c.sent);
      assert forall i :: 0 <= i < |answers| ==> answers[i] == c.accepted[i];
      OnceEach(c.accepted, id);
      EveryMessageIsAnswered(w, steps, slot, id);
    }
  }

  /** An owner turn in which the outside has nothing to tell. */
  function QuietTurn(presets: seq<Byte>): Turn
  {
    Turn(presets, false, false, [], 0, 0, ArchiveTransfer.Env(0, true, None))
  }

  /** A client connects and is greeted. */
  function Greeted(presets: seq<Byte>): seq<Step>
  {
    [HttpWork(OpenStep(0)), ServeNext(QuietTurn(presets)), EmitNext]
  }

  /** It sends two messages, and the granted one is answered. */
  function Exchanged(t: Token, first: Message, second: Message, presets: seq<Byte>): seq<Step>
  {
    [HttpWork(ReceiveStep(t, first, 0)), HttpWork(ReceiveStep(t, second, 0)), ServeNext(QuietTurn(presets)), EmitNext]
  }

  lemma RunFirst(w: World, step: Step, rest: seq<Step>)
    requires Enabled(w, step)
    ensures Run(w, [step] + rest) == Run(Next(w, step), rest)
  {
    hide Next, Enabled;
    assert ([step] + rest)[0] == step && ([step] + rest)[1..] == rest;
  }

  /** A lone client in the first slot: connected, synchronized, with nothing under way. */
  ghost predicate Alone(w: World, generation: nat, presets: seq<Byte>)
  {
    && w.b.pending == [] && w.b.flight.None? && w.b.inbox == [] && w.b.presets == presets && Inspected(presets)
    && |w.b.clients| == MAX_CLIENTS && Alive(w.b.clients, Token(0, generation))
    && var c := w.b.clients[0];
       c.ready && c.lastId == 0 && c.outstanding == 0 && c.rate == 0 && c.window == 0 && |c.queue| <= 2
       && c.accepted == [] && c.heard == []
  }

  /** The snapshot for a lone greeting or request is the one block scheduled. */
  lemma QuietSnapshot(w: World, r: Bridge.Request)
    requires w.b.pending == [] && w.b.flight.None? && w.b.inbox == [r] && Inspected(w.b.presets)
    requires Alive(w.b.clients, r.token) && (r.body.Greeting? || r.body.ask.StateAsk?)
    ensures Enabled(w, ServeNext(QuietTurn(w.b.presets)))
    ensures var e := Next(w, ServeNext(QuietTurn(w.b.presets)));
            && e.b.clients == w.b.clients && e.b.inbox == [] && e.b.flight.None? && e.b.presets == w.b.presets
            && |e.b.pending| == 1 && e.b.pending[0].Deliver? && e.b.pending[0].request == r
            && (e.b.pending[0].hello.Some? <==> r.body.Greeting?)
  {
    hide Made;
  }

  /** A lone client that is still owed its greeting. */
  ghost predicate Ungreeted(w: World, generation: nat, presets: seq<Byte>)
  {
    && w.b.pending == [] && w.b.flight.None? && w.b.presets == presets && Inspected(presets)
    && |w.b.clients| == MAX_CLIENTS && w.b.clients[0] == Opened(generation, 0)
    && w.b.inbox == [Request(Token(0, generation), 0, Greeting)]
  }

  lemma FirstOpened(w: World)
    requires Initial(w) && w.b.generation < MAX_GENERATION
    ensures Ungreeted(Next(w, HttpWork(OpenStep(0))), w.b.generation + 1, w.b.presets)
  {
    hide Dispatcher.Inv, FirstFree;
    assert FirstFree(w.b.clients, 0) == 0 by {
      FirstFreeIsFree(w.b.clients, 0);
      assert !w.b.clients[0].active;
    }
  }

  lemma OneGreeted(w: World, generation: nat, presets: seq<Byte>)
    requires Ungreeted(w, generation, presets)
    ensures Alone(Run(w, [ServeNext(QuietTurn(presets)), EmitNext]), generation, presets)
  {
    hide Serve, Made;
    var s2 := ServeNext(QuietTurn(presets));
    QuietSnapshot(w, Request(Token(0, generation), 0, Greeting));
    var w2 := Next(w, s2);
    RunFirst(w, s2, [EmitNext]);
    RunFirst(w2, EmitNext, []);
    assert [s2, EmitNext] == [s2] + [EmitNext] && [EmitNext] == [EmitNext] + [];
  }

  lemma GreetedAlone(w: World)
    requires Initial(w) && w.b.generation < MAX_GENERATION
    ensures Alone(Run(w, Greeted(w.b.presets)), w.b.generation + 1, w.b.presets)
  {
    hide Initial, Alone, Ungreeted, Next, Run;
    var s1 := HttpWork(OpenStep(0));
    FirstOpened(w);
    OneGreeted(Next(w, s1), w.b.generation + 1, w.b.presets);
    RunFirst(w, s1, [ServeNext(QuietTurn(w.b.presets)), EmitNext]);
    assert Greeted(w.b.presets) == [s1] + [ServeNext(QuietTurn(w.b.presets)), EmitNext];
  }

  /** Two messages with one id, of which one is granted. */
  predicate SameIdTwice(first: Message, second: Message, id: nat)
  {
    second == Decoded(id, StateAsk) && (first == Malformed(id) || first == Decoded(id, StateAsk))
  }

  /** One of the two messages was granted: the client is owed one answer. */
  ghost predicate OwedOne(w: World, generation: nat, presets: seq<Byte>, id: nat)
  {
    && w.b.pending == [] && w.b.flight.None? && w.b.presets == presets && Inspected(presets)
    && |w.b.clients| == MAX_CLIENTS && Alive(w.b.clients, Token(0, generation))
    && w.b.inbox == [Request(Token(0, generation), id, Asked(StateAsk))]
    && var c := w.b.clients[0];
       c.ready && |c.queue| <= 3 && c.accepted == [id] && c.heard == [id, id]
  }

  lemma TwiceHeard(w: World, generation: nat, presets: seq<Byte>, first: Message, second: Message, id: nat)
    requires Alone(w, generation, presets) && id >= 1 && SameIdTwice(first, second, id)
    ensures var t := Token(0, generation);
            OwedOne(Run(w, [HttpWork(ReceiveStep(t, first, 0)), HttpWork(ReceiveStep(t, second, 0))]), generation,
                    presets, id)
  {
    var t := Token(0, generation);
    var s1, s2 := HttpWork(ReceiveStep(t, first, 0)), HttpWork(ReceiveStep(t, second, 0));
    var w1 := Next(w, s1);
    RunFirst(w, s1, [s2]);
    RunFirst(w1, s2, []);
    assert [s1, s2] == [s1] + [s2] && [s2] == [s2] + [];
  }

  lemma OneAnswered(w: World, generation: nat, presets: seq<Byte>, id: nat)
    requires OwedOne(w, generation, presets, id)
    ensures var e := Run(w, [ServeNext(QuietTurn(presets)), EmitNext]);
            && |e.b.clients| == MAX_CLIENTS && Pipe(e.b) == []
            && var c := e.b.clients[0];
               c.active && c.generation == generation && c.accepted == [id] && c.heard == [id, id]
  {
    hide Serve, Made;
    var s3 := ServeNext(QuietTurn(presets));
    QuietSnapshot(w, Request(Token(0, generation), id, Asked(StateAsk)));
    var w3 := Next(w, s3);
    RunFirst(w, s3, [EmitNext]);
    RunFirst(w3, EmitNext, []);
    assert [s3, EmitNext] == [s3] + [EmitNext] && [EmitNext] == [EmitNext] + [];
  }

  lemma ExchangedTwice(w: World, generation: nat, presets: seq<Byte>, first: Message, second: Message, id: nat)
    requires Alone(w, generation, presets) && id >= 1 && SameIdTwice(first, second, id)
    ensures var e := Run(w, Exchanged(Token(0, generation), first, second, presets));
            && |e.b.clients| == MAX_CLIENTS && Pipe(e.b) == []
            && var c := e.b.clients[0];
               c.active && c.generation == generation && c.accepted == [id] && c.heard == [id, id]
  {
    hide Run, Alone, OwedOne;
    var t := Token(0, generation);
    var messages := [HttpWork(ReceiveStep(t, first, 0)), HttpWork(ReceiveStep(t, second, 0))];
    TwiceHeard(w, generation, presets, first, second, id);
    OneAnswered(Run(w, messages), generation, presets, id);
    RunAppend(w, messages, [ServeNext(QuietTurn(presets)), EmitNext]);
    assert Exchanged(t, first, second, presets) == messages + [ServeNext(QuietTurn(presets)), EmitNext];
  }

  /** The promise of one event for each granted id fails: from any start, a client that sends a malformed message
      with some id and then a request with it, or the same request twice, is granted the id once,
      answered once, and sent two events that carry it. */
  lemma RefusalMayRepeatAnId(w: World, first: Message, second: Message, id: nat)
    requires Initial(w) && w.b.generation < MAX_GENERATION && id >= 1 && SameIdTwice(first, second, id)
    ensures var steps := Greeted(w.b.presets) + Exchanged(Token(0, w.b.generation + 1), first, second, w.b.presets);
            var e := Run(w, steps);
            |e.b.clients| == MAX_CLIENTS &&
            var c := e.b.clients[0];
            c.active && c.accepted == [id] && Answers(c.sent) == [id] && Carrying(c.sent, id) == 2
  {
    hide Initial, Alone, Run, Exchanged, Greeted;
    var steps := Greeted(w.b.presets) + Exchanged(Token(0, w.b.generation + 1), first, second, w.b.presets);
    RunAppend(w, Greeted(w.b.presets), Exchanged(Token(0, w.b.generation + 1), first, second, w.b.presets));
    GreetedAlone(w);
    ExchangedTwice(Run(w, Greeted(w.b.presets)), w.b.generation + 1, w.b.presets, first, second, id);
    EveryMessageIsAnswered(w, steps, 0, id);
    EveryBrowserIsAReplica(w, steps);
    assert Served(Run(w, steps), 0);
    assert multiset([id, id])[id] == 2;
  }
}
