/** What the dispatcher's results mean, and that what goes to the wire is what the controller shows. */
module DispatcherEffects {
  import opened Types
  import opened Dispatcher
  import Controller
  import ControllerEffects
  import Transport
  import TxCore

  /** The commands whose effect is on the universe now. */
  predicate OnLights(command: Controller.Command)
  {
    command.SetChannelCmd? || command.AdjustChannelCmd? || command.SetChannelsCmd? || command.BlackoutCmd?
        || command.LoadCmd?
  }

  /** No command but these and a reset changes the output; without a change of revision none does. */
  lemma OutputMovesOnLights(c: Controller.State, command: Controller.Command, r: Controller.StorageReply)
    requires Controller.Inv(c)
    ensures var (d, outcome) := Controller.Execute(c, command, r);
            && (!OnLights(command) && !command.ResetCmd? ==> Controller.Output(d) == Controller.Output(c))
            && (OnLights(command) && outcome != Controller.Ok ==> d == c)
            && (d.revision == c.revision ==> Controller.Output(d) == Controller.Output(c))
  {
    hide Controller.Execute, Controller.Output, Controller.Inv;
    Controller.RevisionDetectsChange(c, command, r);
    match command
    case SetChannelCmd(channel, value) => ControllerEffects.SetSets(c, channel, value, r);
    case AdjustChannelCmd(channel, delta) => ControllerEffects.AdjustAdjusts(c, channel, delta, r);
    case SetChannelsCmd(patch) => ControllerEffects.PatchSets(c, patch, r);
    case BlackoutCmd(active) => ControllerEffects.BlackoutSwitches(c, active, r);
    case LoadCmd(slot) => ControllerEffects.LoadLoads(c, slot, r);
    case SaveCmd(slot) =>
      ControllerEffects.SaveStores(c, slot, r);
      SameOutput(c, Controller.Execute(c, command, r).0);
    case CopyCmd(slot, target) =>
      ControllerEffects.CopyStores(c, slot, target, r);
      SameOutput(c, Controller.Execute(c, command, r).0);
    case ClearCmd(slot) =>
      ControllerEffects.ClearErases(c, slot, r);
      SameOutput(c, Controller.Execute(c, command, r).0);
    case ReplaceCmd(token) =>
      ControllerEffects.ReplaceReplaces(c, token, r);
      SameOutput(c, Controller.Execute(c, command, r).0);
    case ResetCmd =>
    case InvalidCmd => InvalidDoesNothing(c, r);
  }

  lemma SameOutput(c: Controller.State, d: Controller.State)
    requires d.working == c.working && d.blackout == c.blackout
    ensures Controller.Output(d) == Controller.Output(c)
  {
  }

  lemma InvalidDoesNothing(c: Controller.State, r: Controller.StorageReply)
    ensures Controller.Execute(c, Controller.InvalidCmd, r) == (c, Controller.Ok)
  {
  }

  /** The transport's newest frame is this packet, staged just now, and an ordered obligation if asked to be. */
  ghost predicate NewestIs(t: Transport.State, e: Transport.State, packet: seq<Byte>, barrier: bool)
  {
    && e.havePacket && e.latest == packet
    && |e.past.staged| == |t.past.staged| + 1 && e.past.staged[|e.past.staged| - 1] == packet
    && (barrier ==>
          e.barriers != [] && e.barriers[|e.barriers| - 1] == Transport.Barrier(packet, e.counters.requested)
          && |e.barriers| == |t.barriers| + 1)
    && (!barrier ==> e.barriers == t.barriers)
  }

  lemma StageStages(t: Transport.State, packet: seq<Byte>, barrier: bool)
    ensures var e := Transport.Stage(t, packet, barrier);
            if Transport.StageAllowed(t, packet, barrier) then NewestIs(t, e, packet, barrier) else e == t
  {
  }

  /** What is published is the output after the command: staged as the newest frame, as an ordered barrier for a
      blackout. Whenever a command on the lights changes the output it is published, and so is every successful
      load; nothing else touches the transport. */
  lemma PublishedIsOutput(w: World, entry: Entry, r: Controller.StorageReply)
    requires Controller.Inv(w.c)
    ensures var command := entry.order.command;
            var (e, result) := Apply(w, entry, r);
            && (result.published && result.status != TransportError ==>
                  NewestIs(w.t, e.t, Controller.Output(e.c), command.BlackoutCmd?))
            && (!result.published || result.status == TransportError ==> e.t == w.t)
            && (OnLights(command) && Controller.Output(e.c) != Controller.Output(w.c) ==> result.published)
            && (command.LoadCmd? && Validate(w, entry.order) == Accepted && result.domain == Controller.Ok ==>
                  result.published)
            && (result.published ==>
                  OnLights(command) && result.domain == Controller.Ok
                  && (command.LoadCmd? || e.c.revision != w.c.revision))
  {
    hide Controller.Execute, Controller.Output, Controller.Inv, Transport.Stage, Transport.StageAllowed, WellFormed;
    var (c, domain) := Controller.Execute(w.c, entry.order.command, r);
    OutputMovesOnLights(w.c, entry.order.command, r);
    StageStages(w.t, Controller.Output(c), entry.order.command.BlackoutCmd?);
  }

  // ---------------------------------------------------------------------------------------
  // The wire follows the controller

  /** A frame the transport holds as its newest is the output of the moment. */
  predicate InStep(w: World)
  {
    w.t.havePacket ==> w.t.latest == Controller.Output(w.c)
  }

  predicate NoReset(queue: seq<Entry>)
  {
    forall i :: 0 <= i < |queue| ==> !queue[i].order.command.ResetCmd?
  }

  lemma ProcessOneKeepsStep(w: World, r: Controller.StorageReply)
    requires Coherent(w) && HeadRuns(w) && InStep(w) && NoReset(w.queue)
    ensures InStep(ProcessOne(w, r)) && NoReset(ProcessOne(w, r).queue)
  {
    hide Controller.Execute, Controller.Output, Controller.Inv, Transport.Stage, Transport.StageAllowed, WellFormed,
      NewestIs;
    var entry := w.queue[0];
    var v := w.(queue := w.queue[1..]);
    ControllerHolds(w);
    AdmittedNeverFails(v, entry, r);
    PublishedIsOutput(v, entry, r);
    OutputMovesOnLights(w.c, entry.order.command, r);
    var e := Apply(v, entry, r).0;
    NewestLatest(w.t, e.t, Controller.Output(e.c), entry.order.command.BlackoutCmd?);
    assert !entry.order.command.ResetCmd?;
  }

  /** A reset darkens the controller and is not published. */
  predicate FallsBehind(w: World, order: Order)
  {
    && order.command.ResetCmd? && Validate(w, order) == Accepted && w.t.havePacket
    && Controller.Output(w.c) != ZeroPacket()
  }

  /** One entry keeps the newest frame in step exactly when it is not a reset that is carried out while a frame is held
      and the lights are not all out already. */
  lemma OneEntryInStep(w: World, r: Controller.StorageReply)
    requires Coherent(w) && HeadRuns(w) && InStep(w)
    ensures InStep(ProcessOne(w, r)) <==> !FallsBehind(w, w.queue[0].order)
  {
    hide Controller.Execute, Controller.Output, Controller.Inv, Transport.Stage, Transport.StageAllowed, WellFormed,
      NewestIs;
    var entry := w.queue[0];
    var v := w.(queue := w.queue[1..]);
    ControllerHolds(w);
    AdmittedNeverFails(v, entry, r);
    PublishedIsOutput(v, entry, r);
    OutputMovesOnLights(w.c, entry.order.command, r);
    var e := Apply(v, entry, r).0;
    NewestLatest(w.t, e.t, Controller.Output(e.c), entry.order.command.BlackoutCmd?);
    if entry.order.command.ResetCmd? { ResetShowsZero(w.c, r); }
  }

  lemma ResetShowsZero(c: Controller.State, r: Controller.StorageReply)
    requires Controller.Inv(c)
    ensures Controller.Output(Controller.Execute(c, Controller.ResetCmd, r).0) == ZeroPacket()
  {
    hide Controller.HasNonZero;
    ControllerEffects.ResetClears(c, r);
  }

  lemma ControllerHolds(w: World)
    requires Coherent(w)
    ensures Controller.Inv(w.c)
  {
  }

  lemma NewestLatest(t: Transport.State, e: Transport.State, packet: seq<Byte>, barrier: bool)
    ensures NewestIs(t, e, packet, barrier) ==> e.latest == packet
  {
  }

  lemma {:induction false} ProcessFromKeepsStep(
    w: World, done: nat, budget: nat, replies: nat -> Controller.StorageReply)
    requires Coherent(w) && InStep(w) && NoReset(w.queue)
    ensures InStep(ProcessFrom(w, done, budget, replies).0) && NoReset(ProcessFrom(w, done, budget, replies).0.queue)
    decreases budget - done
  {
    hide ProcessOne, Coherent, InStep, NoReset, Validate, Admitted;
    if done < budget && HeadRuns(w) {
      ProcessOneKeeps(w, replies(done));
      ProcessOneKeepsStep(w, replies(done));
      ProcessFromKeepsStep(ProcessOne(w, replies(done)), done + 1, budget, replies);
    }
  }

  lemma ProcessKeepsStep(w: World, budget: nat, replies: nat -> Controller.StorageReply)
    requires Inv(w) && InStep(w) && NoReset(w.queue)
    ensures InStep(Process(w, budget, replies).0) && NoReset(Process(w, budget, replies).0.queue)
  {
    hide ProcessFrom;
    ProcessFromKeepsStep(w.(processing := true), 0, if budget > CAPACITY then CAPACITY else budget, replies);
  }

  lemma SubmitKeepsStep(w: World, order: Order)
    requires InStep(w) && NoReset(w.queue) && !order.command.ResetCmd?
    ensures InStep(Submit(w, order).0) && NoReset(Submit(w, order).0.queue)
  {
    hide WellFormed, Controller.Output;
  }

  lemma LocalKeepsStep(w: World, order: Order, replies: nat -> Controller.StorageReply, own: Controller.StorageReply)
    requires Inv(w) && InStep(w) && NoReset(w.queue) && !order.command.ResetCmd?
    ensures InStep(ExecuteLocal(w, order, replies, own).0) && NoReset(ExecuteLocal(w, order, replies, own).0.queue)
  {
    hide Process, ProcessOne, Controller.Inv, WellFormed, Transport.CanStage, Controller.Output;
    if Validate(w, order) == Accepted {
      ProcessKeepsInv(w, CAPACITY, replies);
      ProcessKeepsStep(w, CAPACITY, replies);
      var v := Process(w, CAPACITY, replies).0;
      if v.queue == [] && Admitted(v, order) {
        var (u, status, ticket) := Submit(v, order);
        SubmitKeepsInv(v, order);
        if status == Accepted { ProcessOneKeepsStep(u.(processing := true), own); }
      }
    }
  }

  /** Nobody else stages frames, and nobody resets the sender. */
  predicate Undisturbed(step: Step)
  {
    match step
    case SubmitStep(order) => !order.command.ResetCmd?
    case LocalStep(local, _, _) => !local.command.ResetCmd?
    case TransportStep(s) => !s.StageStep?
    case _ => true
  }

  predicate SameLatest(t: Transport.State, e: Transport.State)
  {
    e.latest == t.latest && (e.havePacket ==> t.havePacket)
  }

  lemma FailuresKeepLatest(t: Transport.State, now: int, result: TxCore.TxResult)
    ensures SameLatest(t, Transport.FailedForGood(t, result, now)) && SameLatest(t, Transport.Failed(t, result, now))
    ensures SameLatest(t, Transport.FaultAfter(t, result, now))
  {
  }

  lemma SettledKeepsLatest(t: Transport.State, now: int)
    ensures SameLatest(t, Transport.Settled(t, now))
  {
    hide Transport.Failed;
    FailuresKeepLatest(t.(inflight := false), now, t.status.tx.result);
  }

  lemma SteeredKeepsLatest(t: Transport.State, now: int, r: Transport.DriverReply)
    ensures SameLatest(t, Transport.Steered(t, now, r))
  {
    hide Transport.SteerCall, Transport.FaultAfter;
    FailuresKeepLatest(t, now, TxCore.Cancelled);
    FailuresKeepLatest(t, now, TxCore.StartFailed);
  }

  lemma PollKeepsLatest(t: Transport.State, now: int, r: Transport.DriverReply)
    ensures SameLatest(t, Transport.Poll(t, now, r))
  {
    hide Transport.Settled, Transport.Steered, Transport.FailedForGood;
    var seen := t.(status := r.status, health := t.health.(driverPhase := r.status.tx.phase));
    FailuresKeepLatest(t.(status := r.status), now, TxCore.StartFailed);
    FailuresKeepLatest(seen, now, TxCore.StartFailed);
    FailuresKeepLatest(Transport.Begun(seen), now, r.status.tx.result);
    SettledKeepsLatest(Transport.Begun(seen), now);
    SteeredKeepsLatest(Transport.Noticed(t, now, r), now, r);
  }

  lemma TransportKeepsLatest(t: Transport.State, step: Transport.Step)
    requires !step.StageStep?
    ensures SameLatest(t, Transport.Apply(t, step))
  {
    hide Transport.Poll, Transport.Failed, Transport.MayStart;
    match step
    case SenderStep(sender) =>
    case PollStep(now, r) => PollKeepsLatest(t, now, r);
    case ServiceStep(now, r) =>
      var p := Transport.Poll(t, now, r);
      PollKeepsLatest(t, now, r);
      FailuresKeepLatest(p, now, TxCore.StartFailed);
      var offered := p.(counters := p.counters.(published := Transport.NextGeneration(p)));
      FailuresKeepLatest(offered, now, TxCore.StartFailed);
  }

  /** Over every run, sender departures and driver polls included: the newest frame held for the wire is the output of
      the controller as it is now, never of an earlier moment. */
  lemma {:induction false} WireFollowsController(w: World, steps: seq<Step>)
    requires Inv(w) && InStep(w) && NoReset(w.queue) && forall s :: s in steps ==> Undisturbed(s)
    ensures InStep(Run(w, steps))
    decreases |steps|
  {
    if steps != [] {
      hide Submit, Process, ExecuteLocal, Transport.Apply, Inv, InStep, NoReset;
      assert steps[0] in steps && forall s :: s in steps[1..] ==> s in steps;
      StepKeepsInv(w, steps[0]);
      match steps[0] {
        case SubmitStep(order) => SubmitKeepsStep(w, order);
        case ProcessStep(budget, replies) => ProcessKeepsStep(w, budget, replies);
        case LocalStep(local, older, own) => LocalKeepsStep(w, local, older, own);
        case ModeStep(active) => ModeKeepsStep(w, active);
        case TransportStep(s) => TransportKeepsStep(w, s);
      }
      WireFollowsController(Step1(w, steps[0]), steps[1..]);
    }
  }

  lemma ModeKeepsStep(w: World, active: bool)
    requires InStep(w) && NoReset(w.queue)
    ensures InStep(w.(senderActive := active)) && NoReset(w.(senderActive := active).queue)
  {
  }

  lemma TransportKeepsStep(w: World, step: Transport.Step)
    requires InStep(w) && NoReset(w.queue) && !step.StageStep?
    ensures InStep(w.(t := Transport.Apply(w.t, step))) && NoReset(w.(t := Transport.Apply(w.t, step)).queue)
  {
    hide Transport.Apply;
    TransportKeepsLatest(w.t, step);
  }

  // ---------------------------------------------------------------------------------------
  // Validation and results

  /** Validation accepts exactly what the controller will not refuse as malformed: the two checks agree. */
  lemma ValidationAgrees(w: World, order: Order, r: Controller.StorageReply)
    requires order.command.SetChannelCmd? || order.command.AdjustChannelCmd? || order.command.SetChannelsCmd?
             || order.command.LoadCmd? || order.command.SaveCmd? || order.command.ClearCmd? || order.command.CopyCmd?
    ensures var outcome := Controller.Execute(w.c, order.command, r).1;
            Validate(w, order) == Invalid <==>
            outcome == Controller.InvalidChannel || outcome == Controller.InvalidValue
            || outcome == Controller.InvalidSlot || outcome == Controller.InvalidPatch
  {
    if order.command.SetChannelsCmd? {
      hide Controller.Patched;
      FaultKinds(order.command.patch, 0);
    }
  }

  lemma {:induction false} FaultKinds(patch: seq<Controller.ChannelValue>, from: nat)
    requires from <= |patch|
    ensures var fault := Controller.PatchFault(patch, from);
            fault == Controller.Ok || fault == Controller.InvalidChannel || fault == Controller.InvalidValue
            || fault == Controller.InvalidPatch
    decreases |patch| - from
  {
    if from < |patch| { FaultKinds(patch, from + 1); }
  }

  /** The other commands: a blackout names 0 or 1, a replace the staged token, a reset comes from the system, and
      nothing is accepted outside sender mode. */
  lemma ValidationTells(w: World, order: Order)
    ensures Validate(w, order) == Accepted ==> w.senderActive
    ensures Validate(w, order) == UnsupportedMode ==> !w.senderActive
    ensures order.command.BlackoutCmd? ==> (Validate(w, order) == Invalid <==> order.command.active !in {0, 1})
    ensures order.command.ReplaceCmd? ==>
              (Validate(w, order) == Invalid <==> order.command.token == 0 || order.command.token != w.c.archiveToken)
    ensures order.command.ResetCmd? ==> (Validate(w, order) == Invalid <==> order.source != System)
    ensures Validate(w, order) in {Accepted, UnsupportedMode, Invalid}
  {
    hide Controller.PatchFault;
  }

  /** A result tells what happened to the device: applied means the revision moved, no change that nothing visible
      did; a command that was not valid any more touched nothing; the other ends name what the storage or controller
      refused. */
  lemma ResultTells(w: World, entry: Entry, r: Controller.StorageReply)
    requires Controller.Inv(w.c)
    ensures var (e, result) := Apply(w, entry, r);
            && result.ticket == entry.ticket && result.before == w.c.revision && result.after == e.c.revision
            && (result.status == Applied ==> e.c.revision == w.c.revision + 1 && result.domain == Controller.Ok)
            && (result.status == NoChange ==>
                  Controller.View(e.c) == Controller.View(w.c) && Controller.Output(e.c) == Controller.Output(w.c)
                  && e.c.revision == w.c.revision && result.domain == Controller.Ok)
            && (result.status in {Invalid, UnsupportedMode} <==> Validate(w, entry.order) != Accepted)
            && (result.status in {Invalid, UnsupportedMode} ==> e == w)
            && (Validate(w, entry.order) == Accepted ==>
                  var (d, outcome) := Controller.Execute(w.c, entry.order.command, r);
                  && e.c == d && result.domain == outcome
                  && (outcome == Controller.Ok <==> result.status in {Applied, NoChange, TransportError})
                  && (result.status == StorageError <==>
                        outcome in {Controller.Corrupt, Controller.ReadFailed, Controller.WriteFailed,
                                    Controller.StorageFull, Controller.MetadataFailed, Controller.ArchiveUncertain}))
  {
    hide Controller.Execute, Controller.Output, Controller.Inv, Controller.View, Transport.Stage,
      Transport.StageAllowed, WellFormed;
    Controller.RevisionDetectsChange(w.c, entry.order.command, r);
    ValidationTells(w, entry.order);
  }

  /** Submission: a valid command is queued as the newest entry under a fresh ticket exactly when there is room. */
  lemma SubmitTells(w: World, order: Order)
    requires !w.processing && |w.queue| <= CAPACITY
    ensures var (e, status, ticket) := Submit(w, order);
            && (status == Accepted <==> Validate(w, order) == Accepted && |w.queue| < 32)
            && (status == Accepted ==>
                  && ticket != 0 && e.queue == w.queue + [Entry(order, ticket)] && e.nextTicket == ticket
                  && (w.nextTicket < 0xFFFF_FFFF ==> ticket == w.nextTicket + 1))
            && (status != Accepted ==> e == w && ticket == 0)
            && (status == Busy <==> Validate(w, order) == Accepted && |w.queue| == 32)
  {
    hide WellFormed;
  }

  /** Processing goes on until the budget is used up, the queue is empty, or its head waits for room in the
      transport. */
  lemma {:induction false} ProcessFromDrains(w: World, done: nat, budget: nat, replies: nat -> Controller.StorageReply)
    requires Coherent(w) && done <= budget
    ensures var (e, count) := ProcessFrom(w, done, budget, replies);
            && count <= budget && (count == budget || !HeadRuns(e))
            && |e.applied| == |w.applied| + (count - done)
    decreases budget - done
  {
    hide ProcessOne, Coherent, Validate, Admitted;
    if done < budget && HeadRuns(w) {
      ProcessOneKeeps(w, replies(done));
      ProcessFromDrains(ProcessOne(w, replies(done)), done + 1, budget, replies);
    }
  }

  lemma ProcessDrains(w: World, budget: nat, replies: nat -> Controller.StorageReply)
    requires Inv(w) && budget <= CAPACITY
    ensures var (e, count) := Process(w, budget, replies);
            && |e.applied| == |w.applied| + count && e.submitted == w.submitted
            && (count == budget || e.queue == []
                || (Validate(e, e.queue[0].order) == Accepted && !Admitted(e, e.queue[0].order)))
  {
    hide ProcessFrom, WellFormed, Transport.CanStage;
    ProcessKeepsInv(w, budget, replies);
    ProcessFromDrains(w.(processing := true), 0, budget, replies);
  }

  /** A local command runs exactly when it is valid, every older one could be carried out, and the transport then has
      room for it: otherwise it is refused without having done anything. */
  lemma LocalRunsWhenItCan(w: World, order: Order, replies: nat -> Controller.StorageReply,
                           own: Controller.StorageReply)
    requires Inv(w)
    ensures var v := Process(w, CAPACITY, replies).0;
            var (e, result) := ExecuteLocal(w, order, replies, own);
            && (result.ticket != 0 <==>
                  && Validate(w, order) == Accepted && v.queue == [] && Admitted(v, order)
                  && Validate(v, order) == Accepted)
            && (result.ticket == 0 ==> e.applied == if Validate(w, order) == Accepted then v.applied else w.applied)
            && (Validate(w, order) != Accepted ==> result.status == Validate(w, order) && e == w)
            && (Validate(w, order) == Accepted && (v.queue != [] || !Admitted(v, order)) ==>
                  result.status == Busy && e == v)
  {
    hide Process, ProcessOne, Controller.Inv, WellFormed, Transport.CanStage;
    if Validate(w, order) == Accepted {
      ProcessKeepsInv(w, CAPACITY, replies);
      var v := Process(w, CAPACITY, replies).0;
      if v.queue == [] && Admitted(v, order) {
        var (u, status, ticket) := Submit(v, order);
        SubmitTells(v, order);
        if status == Accepted { LastTicket(u.(processing := true), own); }
      }
    }
  }

  /** While a command is being carried out nothing else is: every call from within is refused as busy and changes
      nothing. */
  lemma BusyWithin(w: World, order: Order, budget: nat, replies: nat -> Controller.StorageReply,
                   own: Controller.StorageReply)
    requires w.processing
    ensures Submit(w, order) == (w, Busy, 0) && Process(w, budget, replies) == (w, 0)
    ensures var (e, result) := ExecuteLocal(w, order, replies, own);
            e == w && result.status == Busy && result.ticket == 0 && !result.published
  {
  }
}
