/** CommandDispatcher: the bounded FIFO between the command sources and the controller, with the
    sender's admission test and output publisher installed on the DMX transport. */
module Dispatcher {
  import opened Rings
  import opened Types
  import Controller
  import Transport

  const CAPACITY: nat := 32
  const MAX_TICKET: nat := 0xFFFF_FFFF

  datatype Status =
    | Accepted | Applied | NoChange | Invalid | Busy | StorageError | UnsupportedMode | Rejected | TransportError

  datatype Source = Touch | External | System

  datatype Order = Order(command: Controller.Command, source: Source, requestId: nat)

  datatype Entry = Entry(order: Order, ticket: nat)

  datatype Result = Result(status: Status, domain: Controller.Outcome, ticket: nat, before: nat, after: nat,
                           published: bool)

  datatype Done = Done(entry: Entry, result: Result)

  /** The controller, the transport its output goes to, the queue, and the record of every entry
      ever queued and every one carried out. */
  datatype World = World(
    c: Controller.State, t: Transport.State, queue: seq<Entry>, nextTicket: nat, senderActive: bool, processing: bool,
    submitted: seq<Entry>, applied: seq<Done>)

  predicate ValidSlot(slot: int) { 0 <= slot < Controller.PRESETS }

  predicate WellFormed(c: Controller.State, order: Order)
  {
    match order.command
    case SetChannelCmd(channel, value) => Controller.ValidChannel(channel) && Controller.ValidValue(value)
    case AdjustChannelCmd(channel, _) => Controller.ValidChannel(channel)
    case SetChannelsCmd(patch) => 0 < |patch| <= Controller.MAX_PATCH
        && Controller.PatchFault(patch, 0) == Controller.Ok
    case BlackoutCmd(active) => active == 0 || active == 1
    case LoadCmd(slot) => ValidSlot(slot)
    case SaveCmd(slot) => ValidSlot(slot)
    case ClearCmd(slot) => ValidSlot(slot)
    case CopyCmd(slot, target) => ValidSlot(slot) && ValidSlot(target)
    case ReplaceCmd(token) => Controller.ArchiveValid(c, token)
    case ResetCmd => order.source.System?
    case InvalidCmd => false
  }

  function Validate(w: World, order: Order): Status
  {
    if !WellFormed(w.c, order) then Invalid
    else if w.senderActive then Accepted
    else UnsupportedMode
  }

  function NextTicket(ticket: nat): nat
  {
    if ticket >= MAX_TICKET then 1 else ticket + 1
  }

  function Submit(w: World, order: Order): (World, Status, nat)
  {
    if w.processing then (w, Busy, 0)
    else if Validate(w, order) != Accepted then (w, Validate(w, order), 0)
    else if |w.queue| == CAPACITY then (w, Busy, 0)
    else
      var ticket := NextTicket(w.nextTicket);
      var entry := Entry(order, ticket);
      (w.(nextTicket := ticket, queue := w.queue + [entry], submitted := w.submitted + [entry]), Accepted, ticket)
  }

  /** A blackout command that really switches must become an ordered barrier. */
  predicate BlackoutEdge(c: Controller.State, command: Controller.Command)
  {
    command.BlackoutCmd? && (command.active != 0) != c.blackout
  }

  predicate Publishes(command: Controller.Command)
  {
    command.BlackoutCmd? || command.SetChannelCmd? || command.AdjustChannelCmd? || command.SetChannelsCmd?
        || command.LoadCmd?
  }

  predicate Admitted(w: World, order: Order)
  {
    Publishes(order.command) ==> Transport.CanStage(w.t, BlackoutEdge(w.c, order.command))
  }

  function Verdict(domain: Controller.Outcome, changed: bool): Status
  {
    match domain
    case Ok => if changed then Applied else NoChange
    case Corrupt => StorageError
    case ReadFailed => StorageError
    case StorageFull => StorageError
    case WriteFailed => StorageError
    case MetadataFailed => StorageError
    case ArchiveUncertain => StorageError
    case _ => Rejected
  }

  /** Carry out one entry on the controller and publish the output when it may have changed. */
  function Apply(w: World, entry: Entry, r: Controller.StorageReply): (World, Result)
  {
    var command := entry.order.command;
    var before := w.c.revision;
    if Validate(w, entry.order) != Accepted then
      (w, Result(Validate(w, entry.order), Controller.Ok, entry.ticket, before, before, false))
    else
      var (c, domain) := Controller.Execute(w.c, command, r);
      var changed := c.revision != before;
      var publish := domain.Ok? && (command.LoadCmd? || (changed && Publishes(command)));
      var staged := Transport.StageAllowed(w.t, Controller.Output(c), command.BlackoutCmd?);
      (w.(c := c, t := if publish then Transport.Stage(w.t, Controller.Output(c), command.BlackoutCmd?) else w.t),
       Result(if publish && !staged then TransportError else Verdict(domain, changed), domain, entry.ticket, before,
              c.revision, publish))
  }

  function ProcessOne(w: World, r: Controller.StorageReply): World
    requires w.queue != []
  {
    var entry := w.queue[0];
    var (v, result) := Apply(w.(queue := w.queue[1..]), entry, r);
    v.(applied := v.applied + [Done(entry, result)])
  }

  /** The head may run: it will be refused by validation anyway, or the transport has room for it. */
  predicate HeadRuns(w: World)
  {
    w.queue != [] && (Validate(w, w.queue[0].order) == Accepted ==> Admitted(w, w.queue[0].order))
  }

  function ProcessFrom(w: World, done: nat, budget: nat, replies: nat -> Controller.StorageReply): (World, nat)
    decreases budget - done
  {
    if done >= budget || !HeadRuns(w) then (w, done)
    else ProcessFrom(ProcessOne(w, replies(done)), done + 1, budget, replies)
  }

  function Process(w: World, budget: nat, replies: nat -> Controller.StorageReply): (World, nat)
  {
    if w.processing then (w, 0)
    else
      var (v, done) := ProcessFrom(w.(processing := true), 0, if budget > CAPACITY then CAPACITY else budget, replies);
      (v.(processing := false), done)
  }

  function Refused(w: World, status: Status, before: nat): Result
  {
    Result(status, Controller.Ok, 0, before, w.c.revision, false)
  }

  /** The local command itself, once every older one is done. */
  function RunOwn(w: World, order: Order, before: nat, own: Controller.StorageReply): (World, Result)
  {
    var (u, status, ticket) := Submit(w, order);
    if status != Accepted then (u, Refused(u, status, before))
    else
      var e := ProcessOne(u.(processing := true), own);
      (e.(processing := false), e.applied[|e.applied| - 1].result)
  }

  function ExecuteLocal(w: World, order: Order, replies: nat -> Controller.StorageReply,
                        own: Controller.StorageReply): (World, Result)
  {
    var before := w.c.revision;
    if w.processing then (w, Refused(w, Busy, before))
    else if Validate(w, order) != Accepted then (w, Refused(w, Validate(w, order), before))
    else
      var v := Process(w, CAPACITY, replies).0;
      if v.queue != [] || !Admitted(v, order) then (v, Refused(v, Busy, before))
      else RunOwn(v, order, before, own)
  }

  // ---------------------------------------------------------------------------------------
  // Runs

  datatype Step =
    | SubmitStep(order: Order)
    | ProcessStep(budget: nat, replies: nat -> Controller.StorageReply)
    | LocalStep(local: Order, older: nat -> Controller.StorageReply, own: Controller.StorageReply)
    | ModeStep(active: bool)
    | TransportStep(step: Transport.Step)

  function Step1(w: World, step: Step): World
  {
    match step
    case SubmitStep(order) => Submit(w, order).0
    case ProcessStep(budget, replies) => Process(w, budget, replies).0
    case LocalStep(local, older, own) => ExecuteLocal(w, local, older, own).0
    case ModeStep(active) => w.(senderActive := active)
    case TransportStep(s) => w.(t := Transport.Apply(w.t, s))
  }

  ghost function Run(w: World, steps: seq<Step>): World
    decreases |steps|
  {
    if steps == [] then w else Run(Step1(w, steps[0]), steps[1..])
  }

  function Entries(applied: seq<Done>): (s: seq<Entry>)
    ensures |s| == |applied|
  {
    seq(|applied|, i requires 0 <= i < |applied| => applied[i].entry)
  }

  /** The queue is a FIFO with nothing lost or repeated: what was carried out, in order, followed by
      what still waits is exactly what was queued, in order; and no result is a transport error. */
  ghost predicate Coherent(w: World)
  {
    && Controller.Inv(w.c) && |w.queue| <= CAPACITY
    && w.submitted == Entries(w.applied) + w.queue
    && forall i :: 0 <= i < |w.applied| ==> !w.applied[i].result.status.TransportError?
  }

  ghost predicate Inv(w: World)
  {
    Coherent(w) && !w.processing
  }

  /** Admission makes publication infallible: an entry that runs after the admission test never
      fails to stage its output. */
  lemma AdmittedNeverFails(w: World, entry: Entry, r: Controller.StorageReply)
    requires Controller.Inv(w.c) && (Validate(w, entry.order) == Accepted ==> Admitted(w, entry.order))
    ensures !Apply(w, entry, r).1.status.TransportError? && Controller.Inv(Apply(w, entry, r).0.c)
  {
    Controller.ExecuteKeepsInv(w.c, entry.order.command, r);
    hide Controller.Reset, Controller.SetChannel, Controller.AdjustChannel, Controller.SetChannels,
      Controller.LoadPreset, Controller.SavePreset, Controller.CopyPreset, Controller.ClearPreset,
      Controller.ReplaceArchive, Controller.PatchFault, Transport.Stage;
  }

  lemma ProcessOneKeeps(w: World, r: Controller.StorageReply)
    requires Coherent(w) && HeadRuns(w)
    ensures Coherent(ProcessOne(w, r)) && ProcessOne(w, r).queue == w.queue[1..]
    ensures ProcessOne(w, r).submitted == w.submitted && |ProcessOne(w, r).applied| == |w.applied| + 1
  {
    hide Controller.Execute, Controller.Inv, Transport.Stage;
    AdmittedNeverFails(w.(queue := w.queue[1..]), w.queue[0], r);
    assert Entries(ProcessOne(w, r).applied) == Entries(w.applied) + [w.queue[0]];
  }

  lemma {:induction false} ProcessFromKeeps(w: World, done: nat, budget: nat, replies: nat -> Controller.StorageReply)
    requires Coherent(w)
    ensures Coherent(ProcessFrom(w, done, budget, replies).0)
    ensures ProcessFrom(w, done, budget, replies).0.submitted == w.submitted
    decreases budget - done
  {
    hide ProcessOne, Validate, Admitted, Coherent;
    if done < budget && HeadRuns(w) {
      ProcessOneKeeps(w, replies(done));
      ProcessFromKeeps(ProcessOne(w, replies(done)), done + 1, budget, replies);
    }
  }

  lemma ProcessKeepsInv(w: World, budget: nat, replies: nat -> Controller.StorageReply)
    requires Inv(w)
    ensures Inv(Process(w, budget, replies).0) && Process(w, budget, replies).0.submitted == w.submitted
  {
    ProcessFromKeeps(w.(processing := true), 0, if budget > CAPACITY then CAPACITY else budget, replies);
  }

  lemma SubmitKeepsInv(w: World, order: Order)
    requires Inv(w)
    ensures Inv(Submit(w, order).0)
  {
    hide Controller.Inv, WellFormed;
  }

  /** A local command runs only after every older queued command: when it gets a ticket, the carried-out
      record is everything queued before, in order, and then the local entry; the queue is empty. */
  lemma LocalRunsLast(w: World, order: Order, replies: nat -> Controller.StorageReply, own: Controller.StorageReply)
    requires Inv(w)
    ensures var (e, result) := ExecuteLocal(w, order, replies, own);
            && Inv(e)
            && (result.ticket != 0 ==>
                  e.queue == [] && Entries(e.applied) == w.submitted + [Entry(order, result.ticket)])
  {
    hide Process, ProcessOne, Controller.Inv, WellFormed, Transport.CanStage;
    if Validate(w, order) == Accepted {
      ProcessKeepsInv(w, CAPACITY, replies);
      var v := Process(w, CAPACITY, replies).0;
      if v.queue == [] && Admitted(v, order) {
        var (u, status, ticket) := Submit(v, order);
        SubmitKeepsInv(v, order);
        if status == Accepted {
          assert u.queue == [Entry(order, ticket)];
          ProcessOneKeeps(u.(processing := true), own);
          LastTicket(u.(processing := true), own);
        }
      }
    }
  }

  lemma LastTicket(w: World, r: Controller.StorageReply)
    requires w.queue != []
    ensures var e := ProcessOne(w, r);
            e.applied != [] && e.applied[|e.applied| - 1].result.ticket == w.queue[0].ticket
  {
    hide Controller.Execute;
  }

  lemma StepKeepsInv(w: World, step: Step)
    requires Inv(w)
    ensures Inv(Step1(w, step))
  {
    hide Submit, Process, ExecuteLocal, ProcessFrom, Transport.Apply;
    match step
    case SubmitStep(order) => SubmitKeepsInv(w, order);
    case ProcessStep(budget, replies) => ProcessKeepsInv(w, budget, replies);
    case LocalStep(local, older, own) => LocalRunsLast(w, local, older, own);
    case ModeStep(active) =>
    case TransportStep(s) =>
  }

  lemma {:induction false} RunKeepsInv(w: World, steps: seq<Step>)
    requires Inv(w)
    ensures Inv(Run(w, steps))
    decreases |steps|
  {
    hide Inv, Step1;
    if steps != [] {
      StepKeepsInv(w, steps[0]);
      RunKeepsInv(Step1(w, steps[0]), steps[1..]);
    }
  }

  // ---------------------------------------------------------------------------------------
  // The dispatcher object

  class CommandDispatcher {
    const queue: Ring<Entry>
    const controller: Controller.DmxController
    const transport: Transport.DmxTransport
    var nextTicket: nat
    var senderActive: bool
    var processing: bool
    ghost var submitted: seq<Entry>
    ghost var applied: seq<Done>

    ghost predicate Valid()
      reads this, queue, controller, transport, transport.ring
    {
      && queue.Valid() && queue.data.Length == CAPACITY
      && controller.Valid() && transport.Valid()
      && queue as object != transport.ring && queue.data as object != transport.ring.data
    }

    ghost function View(): World
      requires Valid()
      reads this, queue, queue.data, controller, controller.working, controller.restore,
        transport, transport.ring, transport.ring.data
    {
      World(controller.View(), transport.View(), queue.Contents(), nextTicket, senderActive, processing, submitted,
            applied)
    }

    constructor (c: Controller.DmxController, t: Transport.DmxTransport)
      requires c.Valid() && t.Valid()
      ensures Valid() && controller == c && transport == t
      ensures View() == World(c.View(), t.View(), [], 0, false, false, [], [])
    {
      queue := new Ring(CAPACITY);
      controller, transport := c, t;
      nextTicket, senderActive, processing := 0, false, false;
      submitted, applied := [], [];
    }

    method Check(order: Order) returns (status: Status)
      requires Valid()
      ensures status == Validate(View(), order)
    {
      var ok := true;
      match order.command {
        case SetChannelCmd(channel, value) => ok := 1 <= channel <= Controller.CHANNELS && 0 <= value <= 255;
        case AdjustChannelCmd(channel, _) => ok := 1 <= channel <= Controller.CHANNELS;
        case SetChannelsCmd(patch) =>
          ok := 0 < |patch| <= Controller.MAX_PATCH;
          if ok { ok := CheckPatch(patch); }
        case BlackoutCmd(active) => ok := active == 0 || active == 1;
        case LoadCmd(slot) => ok := 0 <= slot < Controller.PRESETS;
        case SaveCmd(slot) => ok := 0 <= slot < Controller.PRESETS;
        case ClearCmd(slot) => ok := 0 <= slot < Controller.PRESETS;
        case CopyCmd(slot, target) => ok := 0 <= slot < Controller.PRESETS && 0 <= target < Controller.PRESETS;
        case ReplaceCmd(token) => ok := token != 0 && token == controller.archiveToken;
        case ResetCmd => ok := order.source.System?;
        case InvalidCmd => ok := false;
      }
      return if !ok then Invalid else if senderActive then Accepted else UnsupportedMode;
    }

    method SubmitOrder(order: Order) returns (status: Status, ticket: nat)
      requires Valid()
      modifies this, queue, queue.data
      ensures Valid() && (View(), status, ticket) == Submit(old(View()), order)
      ensures status == Accepted ==> queue.Contents() != []
    {
      hide WellFormed;
      if processing { return Busy, 0; }
      var verdict := Check(order);
      if verdict != Accepted { return verdict, 0; }
      if queue.count == CAPACITY { return Busy, 0; }
      nextTicket := if nextTicket >= MAX_TICKET then 1 else nextTicket + 1;
      queue.Push(Entry(order, nextTicket));
      submitted := submitted + [Entry(order, nextTicket)];
      return Accepted, nextTicket;
    }

    method Admits(order: Order) returns (ok: bool)
      requires Valid()
      ensures ok == Admitted(View(), order)
    {
      var edge := order.command.BlackoutCmd? && (order.command.active != 0) != controller.blackout;
      if !Publishes(order.command) { return true; }
      return transport.wantSender && (!edge || transport.ring.count < Transport.BARRIER_CAPACITY)
          && (transport.counters.requested != Transport.MAX_COUNTER
              || (!transport.inflight && transport.ring.count == 0));
    }

    method ApplyEntry(entry: Entry, r: Controller.StorageReply) returns (result: Result)
      requires Valid()
      modifies controller, controller.working, controller.restore, transport, transport.ring, transport.ring.data
      ensures Valid() && (View(), result) == Apply(old(View()), entry, r)
    {
      hide Validate, Controller.Execute, Transport.Stage, Transport.StageAllowed, Verdict, Publishes;
      var command := entry.order.command;
      var before := controller.revision;
      var status := Check(entry.order);
      if status != Accepted { return Result(status, Controller.Ok, entry.ticket, before, before, false); }
      var domain := controller.Run(command, r);
      var changed := controller.revision != before;
      var publish := domain.Ok? && (command.LoadCmd? || (changed && Publishes(command)));
      var failed := false;
      if publish {
        var packet := if controller.blackout then ZeroPacket() else controller.working[..];
        var ok := transport.StagePacket(packet, command.BlackoutCmd?);
        failed := !ok;
      }
      return Result(if failed then TransportError else Verdict(domain, changed), domain, entry.ticket, before,
        controller.revision, publish);
    }

    method RunHead(r: Controller.StorageReply) returns (result: Result, order: Order)
      requires Valid() && queue.Contents() != []
      modifies this, queue, controller, controller.working, controller.restore,
        transport, transport.ring, transport.ring.data
      ensures Valid() && View() == ProcessOne(old(View()), r)
      ensures order == old(View()).queue[0].order
      ensures View().applied != [] && result == View().applied[|View().applied| - 1].result
    {
      hide Apply;
      var entry := queue.Pop();
      result := ApplyEntry(entry, r);
      applied := applied + [Done(entry, result)];
      order := entry.order;
    }

    method HeadMayRun() returns (ok: bool)
      requires Valid()
      ensures ok == HeadRuns(View()) && (ok ==> queue.Contents() != [])
    {
      hide Validate, Admitted;
      if queue.count == 0 { return false; }
      var head := queue.Front();
      var status := Check(head.order);
      var admits := Admits(head.order);
      return status != Accepted || admits;
    }

    method RunQueue(limit: nat, replies: nat -> Controller.StorageReply) returns (done: nat)
      requires Valid()
      modifies this, queue, controller, controller.working, controller.restore,
        transport, transport.ring, transport.ring.data
      ensures Valid() && (View(), done) == ProcessFrom(old(View()), 0, limit, replies)
    {
      hide HeadRuns, ProcessOne;
      done := 0;
      while done < limit
        invariant Valid() && done <= limit
        invariant ProcessFrom(View(), done, limit, replies) == ProcessFrom(old(View()), 0, limit, replies)
      {
        var go := HeadMayRun();
        if !go { break; }
        var result, run := RunHead(replies(done));
        done := done + 1;
      }
    }

    method ProcessQueue(budget: nat, replies: nat -> Controller.StorageReply) returns (done: nat)
      requires Valid()
      modifies this, queue, controller, controller.working, controller.restore,
        transport, transport.ring, transport.ring.data
      ensures Valid() && (View(), done) == Process(old(View()), budget, replies)
    {
      hide ProcessFrom;
      if processing { return 0; }
      processing := true;
      done := RunQueue(if budget > CAPACITY then CAPACITY else budget, replies);
      processing := false;
    }

    method RunOwnOrder(order: Order, before: nat, own: Controller.StorageReply) returns (result: Result)
      requires Valid()
      modifies this, queue, queue.data, controller, controller.working, controller.restore,
        transport, transport.ring, transport.ring.data
      ensures Valid() && (View(), result) == RunOwn(old(View()), order, before, own)
    {
      hide Submit, ProcessOne;
      var accepted, ticket := SubmitOrder(order);
      if accepted != Accepted { return Result(accepted, Controller.Ok, 0, before, controller.revision, false); }
      processing := true;
      var run;
      result, run := RunHead(own);
      processing := false;
    }

    method RunLocal(order: Order, replies: nat -> Controller.StorageReply, own: Controller.StorageReply)
        returns (result: Result)
      requires Valid()
      modifies this, queue, queue.data, controller, controller.working, controller.restore,
        transport, transport.ring, transport.ring.data
      ensures Valid() && (View(), result) == ExecuteLocal(old(View()), order, replies, own)
    {
      hide Process, RunOwn, Validate, Admitted;
      var before := controller.revision;
      if processing { return Result(Busy, Controller.Ok, 0, before, before, false); }
      var status := Check(order);
      if status != Accepted { return Result(status, Controller.Ok, 0, before, before, false); }
      var done := ProcessQueue(CAPACITY, replies);
      var admits := Admits(order);
      if queue.count > 0 || !admits { return Result(Busy, Controller.Ok, 0, before, controller.revision, false); }
      result := RunOwnOrder(order, before, own);
    }
  }

  /** The duplicate scan of a channel patch. */
  method CheckPatch(patch: seq<Controller.ChannelValue>) returns (ok: bool)
    requires |patch| <= Controller.MAX_PATCH
    ensures ok <==> Controller.PatchFault(patch, 0) == Controller.Ok
  {
    var i := 0;
    while i < |patch|
      invariant i <= |patch|
      invariant Controller.PatchFault(patch, 0) == Controller.PatchFault(patch, i)
    {
      var entry := patch[i];
      if !Controller.ValidChannel(entry.channel) || !Controller.ValidValue(entry.value) { return false; }
      var j := 0;
      while j < i
        invariant j <= i
        invariant forall k :: 0 <= k < j ==> patch[k].channel != entry.channel
      {
        if patch[j].channel == entry.channel { return false; }
        j := j + 1;
      }
      i := i + 1;
    }
    return true;
  }
}
