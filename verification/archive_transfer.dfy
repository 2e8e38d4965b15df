/** The one archive transfer of the bridge: an export read out in pieces, or an import uploaded
    in chunks, parsed, staged in the controller and applied by a queued command. */
module ArchiveTransfer {
  import opened Types
  import Controller
  import PresetArchive
  import PresetReader

  const EXPORT_CHUNK: nat := 512
  const IMPORT_CHUNK: nat := 96
  const IDLE_MS: nat := 10000
  const TOTAL_MS: nat := 120000
  const MAX_COUNTER: nat := 0xFFFF_FFFF

  datatype Mode = Idle | Exporting | Importing | Applying

  /** The transfer slot. `buffer` is the whole text buffer; `chunks` records the pieces accepted
      since the import began. */
  datatype State = State(
    mode: Mode, owner: nat, token: nat, counter: nat, total: nat, received: nat, count: nat,
    started: U32, touched: U32, base: nat, buffer: string, chunks: seq<string>)

  /** Requests as the decoder lets them through: an import names 1 to 32768 characters, a chunk holds 1 to 96. */
  datatype Op =
    | Export
    | Read(token: nat, offset: nat)
    | Import(bytes: nat)
    | Chunk(token: nat, offset: nat, data: string)
    | Apply(token: nat)
    | Cancel(token: nat)

  predicate Decodable(op: Op)
  {
    match op
    case Import(bytes) => 1 <= bytes <= PresetArchive.MAX_FILE
    case Chunk(_, _, data) => 1 <= |data| <= IMPORT_CHUNK
    case _ => true
  }

  /** What surrounds a request: the clock, whether the owner's connection still lives, and for an
      export the collection the storage yields. */
  datatype Env = Env(now: U32, ownerAlive: bool, captured: Option<PresetArchive.Collection>)

  datatype Answer =
    | Reply(status: string, token: nat, total: nat, offset: nat, count: nat, data: string)
    | Submit(archiveToken: nat)

  predicate Usable(a: State) { |a.buffer| >= PresetArchive.MAX_FILE }

  function CountPresent(present: seq<bool>): nat
  {
    if present == [] then 0 else (if present[0] then 1 else 0) + CountPresent(present[1..])
  }

  function Say(a: State, generation: nat, status: string): Answer
  {
    if a.owner == generation then Reply(status, a.token, a.total, a.received, a.count, [])
    else Reply(status, 0, 0, 0, 0, [])
  }

  function Erased(buffer: string, n: nat): (s: string)
    ensures |s| == |buffer|
  {
    seq(|buffer|, i requires 0 <= i < |buffer| => if i < n then 0 as char else buffer[i])
  }

  /** Forget the transfer and the staged collection, and wipe the text. */
  function Aborted(a: State): State
  {
    a.(mode := Idle, owner := 0, total := 0, received := 0, buffer := Erased(a.buffer, a.total), chunks := [])
  }

  /** A transfer goes on in sender mode, while its owner is connected and no other service is at work. */
  predicate Allowed(a: State, sender: bool, ownerAlive: bool, blocked: bool)
  {
    sender && !a.mode.Idle? && ownerAlive && !blocked
  }

  /** The owner turn drops a transfer whose owner, mode or time is gone; `wanted` is the sender mode this turn
      asks for, `sender` the one in force. */
  predicate Expired(a: State, wanted: bool, sender: bool, ownerAlive: bool, blocked: bool, now: U32)
  {
    && !a.mode.Idle?
    && (!wanted || !Allowed(a, sender, ownerAlive, blocked)
        || Elapsed(now, a.touched) >= IDLE_MS || Elapsed(now, a.started) >= TOTAL_MS)
  }

  function Begun(a: State, c: Controller.State, generation: nat, now: U32): State
  {
    a.(owner := generation, counter := a.counter + 1, token := a.counter + 1, started := now, touched := now,
       received := 0, count := 0, base := c.presetRevision, chunks := [])
  }

  function Overwrite(buffer: string, at: nat, data: string): (s: string)
    requires at + |data| <= |buffer|
    ensures |s| == |buffer|
  {
    buffer[..at] + data + buffer[at + |data|..]
  }

  function Start(a: State, c: Controller.State, op: Op, generation: nat, env: Env): (State, Controller.State, Answer)
    requires op.Export? || op.Import?
  {
    if !a.mode.Idle? then (a, c, Say(a, generation, "busy"))
    else if a.counter == MAX_COUNTER then (a, c, Say(a, generation, "unavailable"))
    else
      var b := Begun(a, c, generation, env.now);
      if op.Import? then
        var i := b.(mode := Importing, total := op.bytes);
        (i, c, Say(i, generation, "ready"))
      else if env.captured.None? || !PresetArchive.Shaped(env.captured.value) then
        (Aborted(b), Controller.Discarded(c), Say(b, generation, "storage_error"))
      else
        var text := PresetArchive.Print(env.captured.value);
        if |text| > |b.buffer| then
          (Aborted(b.(total := 0)), Controller.Discarded(c), Say(b.(total := 0), generation, "invalid"))
        else
          var e := b.(mode := Exporting, total := |text|, count := CountPresent(env.captured.value.present),
                      buffer := Overwrite(b.buffer, 0, text));
          (e, Controller.Discarded(c), Say(e, generation, "ready"))
  }

  /** The complete upload is parsed and staged with the controller, which then waits for the replace command. */
  function Staged(t: State, c: Controller.State, generation: nat, env: Env): (State, Controller.State, Answer)
    requires t.total <= |t.buffer|
  {
    var (d, outcome) := Controller.StageArchive(c, t.buffer[..t.total], t.base, env.ownerAlive);
    if outcome != Controller.Ok then
      (Aborted(t), Controller.Discarded(d),
       Say(t, generation, if outcome.ArchiveConflict? then "conflict" else "invalid"))
    else (t.(mode := Applying, count := CountPresent(d.archive.present)), d, Submit(d.archiveToken))
  }

  /** The next chunk of an upload goes behind what was received. */
  function Taken(t: State, data: string): State
    requires t.received + |data| <= |t.buffer|
  {
    t.(buffer := Overwrite(t.buffer, t.received, data), received := t.received + |data|, chunks := t.chunks + [data])
  }

  function Continue(a: State, c: Controller.State, op: Op, generation: nat, env: Env): (State, Controller.State, Answer)
    requires !op.Export? && !op.Import?
  {
    if a.mode.Idle? || a.owner != generation || a.token != op.token then (a, c, Say(a, generation, "unauthorized"))
    else
      var t := a.(touched := env.now);
      if op.Cancel? then (Aborted(t), Controller.Discarded(c), Say(t, generation, "cancelled"))
      else if op.Read? && t.mode.Exporting? && op.offset < t.total && t.total <= |t.buffer| then
        var length := if t.total - op.offset < EXPORT_CHUNK then t.total - op.offset else EXPORT_CHUNK;
        (t, c, Say(t, generation, "data").(offset := op.offset, data := t.buffer[op.offset..op.offset + length]))
      else if op.Chunk? && t.mode.Importing? && op.offset == t.received && op.data != []
          && t.received <= t.total <= |t.buffer|
              && |op.data| <= t.total - t.received then
        var s := Taken(t, op.data);
        (s, c, Say(s, generation, "staged"))
      else if op.Apply? && t.mode.Importing? && t.received == t.total <= |t.buffer| then Staged(t, c, generation, env)
      else (Aborted(t), Controller.Discarded(c), Say(t, generation, "invalid"))
  }

  function Handle(a: State, c: Controller.State, op: Op, generation: nat, env: Env): (State, Controller.State, Answer)
  {
    if !Usable(a) then (a, c, Say(a, generation, "unavailable"))
    else if op.Export? || op.Import? then Start(a, c, op, generation, env)
    else Continue(a, c, op, generation, env)
  }

  // ---------------------------------------------------------------------------------------
  // Runs: requests of any clients, controller commands, expiry

  datatype World = World(a: State, c: Controller.State)

  datatype Step =
    | HandleStep(op: Op, generation: nat, env: Env)
    | AbortStep
    | CommandStep(command: Controller.Command, reply: Controller.StorageReply)

  function Next(w: World, step: Step): World
  {
    match step
    case HandleStep(op, generation, env) =>
      var (a, c, _) := Handle(w.a, w.c, op, generation, env);
      World(a, c)
    case AbortStep => World(Aborted(w.a), Controller.Discarded(w.c))
    case CommandStep(command, r) => World(w.a, Controller.Execute(w.c, command, r).0)
  }

  function Run(w: World, steps: seq<Step>): World
    decreases |steps|
  {
    if steps == [] then w else Run(Next(w, steps[0]), steps[1..])
  }

  predicate AllDecodable(steps: seq<Step>)
  {
    forall s :: s in steps && s.HandleStep? ==> Decodable(s.op)
  }

  function Flatten(chunks: seq<string>): string
  {
    if chunks == [] then [] else Flatten(chunks[..|chunks| - 1]) + chunks[|chunks| - 1]
  }

  /** While importing, the buffer's received part is the owner's accepted chunks in order. While applying,
      a valid staged token stands for exactly the parse of all of them, based on the revision
      the import began at. No staged token outlives its transfer. */
  ghost predicate Inv(w: World)
  {
    && w.a.base <= w.c.presetRevision
    && (w.a.mode.Importing? || w.a.mode.Applying? ==>
          && Usable(w.a) && w.a.received <= w.a.total <= PresetArchive.MAX_FILE
          && w.a.buffer[..w.a.received] == Flatten(w.a.chunks))
    && (w.c.archiveToken != 0 ==>
          && w.a.mode.Applying? && w.c.archiveBase == w.a.base
          && PresetArchive.Parse(Flatten(w.a.chunks)) == Some(w.c.archive))
    && (w.a.mode.Exporting? ==> w.a.total <= |w.a.buffer|)
  }

  /** No import has touched the slot or the controller yet. */
  ghost predicate Unused(w: World)
  {
    w.a.mode.Idle? && w.a.base <= w.c.presetRevision && w.c.archiveToken == 0
  }

  lemma UnusedInv(w: World)
    requires Unused(w)
    ensures Inv(w)
  {
  }

  lemma OverwritePrefix(buffer: string, at: nat, data: string)
    requires at + |data| <= |buffer|
    ensures Overwrite(buffer, at, data)[..at + |data|] == buffer[..at] + data
  {
  }

  lemma StartKeepsInv(w: World, op: Op, generation: nat, env: Env)
    requires Inv(w) && Decodable(op) && Usable(w.a) && (op.Export? || op.Import?)
    ensures var (a, c, _) := Start(w.a, w.c, op, generation, env);
            Inv(World(a, c))
  {
    hide PresetArchive.Parse, PresetArchive.Print, Erased;
    if op.Import? { assert w.a.buffer[..0] == []; }
  }

  lemma ContinueKeepsInv(w: World, op: Op, generation: nat, env: Env)
    requires Inv(w) && Usable(w.a) && !op.Export? && !op.Import?
    ensures var (a, c, _) := Continue(w.a, w.c, op, generation, env);
            Inv(World(a, c))
  {
    hide PresetArchive.Parse, PresetArchive.Print, Erased;
    if op.Chunk? && w.a.received + |op.data| <= |w.a.buffer| {
      hide Overwrite;
      OverwritePrefix(w.a.buffer, w.a.received, op.data);
      assert (w.a.chunks + [op.data])[..|w.a.chunks|] == w.a.chunks;
    }
  }

  lemma HandleKeepsInv(w: World, op: Op, generation: nat, env: Env)
    requires Inv(w) && Decodable(op)
    ensures Inv(Next(w, HandleStep(op, generation, env)))
  {
    hide Start, Continue, Inv;
    if Usable(w.a) {
      if op.Export? || op.Import? {
        StartKeepsInv(w, op, generation, env);
      } else {
        ContinueKeepsInv(w, op, generation, env);
      }
    }
  }

  /** Commands never touch the staged text; whatever touches a preset moves the preset revision. */
  lemma CommandKeepsInv(w: World, command: Controller.Command, r: Controller.StorageReply)
    requires Inv(w)
    ensures Inv(Next(w, CommandStep(command, r)))
  {
    hide PresetArchive.Parse, Controller.Execute, Flatten;
    Controller.ExecuteKeepsArchive(w.c, command, r);
  }

  lemma {:induction false} RunKeepsInv(w: World, steps: seq<Step>)
    requires Inv(w) && AllDecodable(steps)
    ensures Inv(Run(w, steps))
    decreases |steps|
  {
    if steps != [] {
      hide Handle, Controller.Execute, Flatten, PresetArchive.Parse, Erased;
      assert steps[0] in steps;
      match steps[0] {
        case HandleStep(op, generation, env) => HandleKeepsInv(w, op, generation, env);
        case AbortStep =>
        case CommandStep(command, r) => CommandKeepsInv(w, command, r);
      }
      assert forall s :: s in steps[1..] ==> s in steps;
      RunKeepsInv(Next(w, steps[0]), steps[1..]);
    }
  }

  lemma ReplacesFromStage(c: Controller.State, command: Controller.Command, r: Controller.StorageReply)
    ensures var d := Controller.Execute(c, command, r).0;
            && (d.replacements == c.replacements || d.replacements == c.replacements + [c.archive])
            && (d.replacements != c.replacements ==>
                  c.archiveToken != 0 && c.archiveBase == c.presetRevision && d.archiveToken == 0
                  && d.working == c.working && d.restore == c.restore && d.blackout == c.blackout)
  {
    if command.ReplaceCmd? {
      hide Controller.LoadPreset, Controller.SavePreset, Controller.CopyPreset, Controller.ClearPreset;
    } else {
      hide Controller.Execute, Controller.Inv, Controller.ChangeShows, Controller.ArchiveKept;
      if Controller.OfPresets(command) {
        Controller.PresetCommandFacts(c, command, r);
      } else {
        Controller.LiveCommandFacts(c, command, r);
      }
    }
  }

  /** Import is reassembled and optimistic. In every reachable state, a command that hands a new content
      to the storage hands it the parse of exactly the accepted chunks in order, at the very
      preset revision the import began with, and uses its token up; live values, blackout and
      the saved blackout state stay as they were. */
  lemma ReplacementIsTheUpload(w: World, steps: seq<Step>, command: Controller.Command, r: Controller.StorageReply)
    requires Inv(w) && AllDecodable(steps)
    ensures var u := Run(w, steps);
            var d := Controller.Execute(u.c, command, r).0;
            && (d.replacements == u.c.replacements || d.replacements == u.c.replacements + [u.c.archive])
            && (d.replacements != u.c.replacements ==>
                  && PresetArchive.Parse(Flatten(u.a.chunks)) == Some(u.c.archive)
                  && u.c.presetRevision == u.a.base
                  && d.archiveToken == 0
                  && d.working == u.c.working && d.restore == u.c.restore && d.blackout == u.c.blackout)
  {
    hide PresetArchive.Parse, Controller.Execute, Flatten, Run;
    RunKeepsInv(w, steps);
    ReplacesFromStage(Run(w, steps).c, command, r);
  }

  /** What counts as touching a stored preset. */
  predicate TouchesPresets(command: Controller.Command)
  {
    command.SaveCmd? || command.CopyCmd? || command.ClearCmd? || command.ReplaceCmd?
  }

  /** The command had the storage write, clear or replace something, or try to. */
  predicate ReachedStorage(c: Controller.State, command: Controller.Command, r: Controller.StorageReply)
  {
    var (d, outcome) := Controller.Execute(c, command, r);
    || ((command.SaveCmd? || command.CopyCmd? || command.ClearCmd?)
        && (outcome.WriteFailed? || outcome.StorageFull? || d.revision != c.revision))
    || (command.ReplaceCmd? && (outcome.Ok? || outcome.ArchiveUncertain?))
  }

  /** A command that reaches the storage moves the preset revision, failed writes included; only commands
      that touch presets ever move it. */
  lemma WritesMovePresetRevision(c: Controller.State, command: Controller.Command, r: Controller.StorageReply)
    ensures var d := Controller.Execute(c, command, r).0;
            && c.presetRevision <= d.presetRevision <= c.presetRevision + 1
            && (d.presetRevision != c.presetRevision ==> TouchesPresets(command))
            && (ReachedStorage(c, command, r) ==> d.presetRevision == c.presetRevision + 1)
  {
    hide Controller.Execute, Controller.Inv, Controller.ChangeShows;
    if Controller.OfPresets(command) {
      Controller.PresetCommandFacts(c, command, r);
    } else {
      Controller.LiveCommandFacts(c, command, r);
    }
  }

  /** Transfers and preset revisions are numbered upwards, and a transfer keeps the revision it began with. */
  predicate Onward(w: World, e: World)
  {
    && w.a.counter <= e.a.counter && w.c.presetRevision <= e.c.presetRevision
    && (e.a.counter == w.a.counter ==> e.a.base == w.a.base)
  }

  lemma HandleIsOnward(w: World, op: Op, generation: nat, env: Env)
    ensures Onward(w, Next(w, HandleStep(op, generation, env)))
  {
    hide PresetArchive.Parse, PresetArchive.Print, Erased, Overwrite;
  }

  lemma StepIsOnward(w: World, step: Step)
    ensures Onward(w, Next(w, step))
  {
    hide Handle, Controller.Execute, Erased;
    match step
    case HandleStep(op, generation, env) => HandleIsOnward(w, op, generation, env);
    case AbortStep =>
    case CommandStep(command, r) => Controller.ExecuteKeepsArchive(w.c, command, r);
  }

  lemma {:induction false} RunIsOnward(w: World, steps: seq<Step>)
    ensures Onward(w, Run(w, steps))
    decreases |steps|
  {
    hide Next;
    if steps != [] {
      StepIsOnward(w, steps[0]);
      RunIsOnward(Next(w, steps[0]), steps[1..]);
    }
  }

  /** With the preset revision past the base of the transfer, nothing is replaced any more. */
  lemma StaleIsRefused(w: World, command: Controller.Command, r: Controller.StorageReply)
    requires Inv(w) && w.a.base < w.c.presetRevision
    ensures Controller.Execute(w.c, command, r).0.replacements == w.c.replacements
  {
    hide PresetArchive.Parse, Controller.Execute, Flatten;
    ReplacesFromStage(w.c, command, r);
  }

  /** Import is optimistic over whole runs: once a save, copy, clear or replace has reached the storage, then
      whatever happens next, the transfer open at that time replaces nothing. */
  lemma LaterWriteRefuses(w: World, command: Controller.Command, r: Controller.StorageReply, steps: seq<Step>,
                          last: Controller.Command, lastReply: Controller.StorageReply)
    requires Inv(w) && AllDecodable(steps) && ReachedStorage(w.c, command, r)
    ensures var u := Run(Next(w, CommandStep(command, r)), steps);
            u.a.counter == w.a.counter ==>
              Controller.Execute(u.c, last, lastReply).0.replacements == u.c.replacements
  {
    hide Inv, Run, Controller.Execute, ReachedStorage;
    var n := Next(w, CommandStep(command, r));
    WritesMovePresetRevision(w.c, command, r);
    BaseIsOld(w);
    CommandKeepsInv(w, command, r);
    RunKeepsInv(n, steps);
    RunIsOnward(n, steps);
    var u := Run(n, steps);
    if u.a.counter == w.a.counter { StaleIsRefused(u, last, lastReply); }
  }

  lemma BaseIsOld(w: World)
    requires Inv(w)
    ensures w.a.base <= w.c.presetRevision
  {
  }

  /** A client that does not own the transfer cannot alter it, whatever it sends. */
  lemma OthersCannotInterfere(a: State, c: Controller.State, op: Op, generation: nat, env: Env)
    requires !a.mode.Idle? && generation != a.owner
    ensures Handle(a, c, op, generation, env).0 == a && Handle(a, c, op, generation, env).1 == c
    ensures Handle(a, c, op, generation, env).2.Reply? && Handle(a, c, op, generation, env).2.data == []
  {
  }

  /** An export is the archive of the captured collection: reading it at successive offsets yields its text,
      and that text parses back to the collection. */
  lemma ExportReadsBack(a: State, c: Controller.State, generation: nat, env: Env, offset: nat, later: Env)
    requires Usable(a) && a.mode.Idle? && a.counter < MAX_COUNTER
    requires env.captured.Some? && PresetArchive.Shaped(env.captured.value)
    ensures var text := PresetArchive.Print(env.captured.value);
            var (e, d, ready) := Handle(a, c, Export, generation, env);
            && ready == Reply("ready", e.token, |text|, 0, e.count, [])
            && PresetArchive.Parse(text) == Some(PresetArchive.Normal(env.captured.value))
            && (offset < |text| ==>
                  var data := Handle(e, d, Read(e.token, offset), generation, later).2;
                  data.Reply? && data.data ==
                      text[offset..if |text| - offset < EXPORT_CHUNK then |text| else offset + EXPORT_CHUNK])
  {
    hide PresetArchive.Parse, PresetArchive.Print;
    var text := PresetArchive.Print(env.captured.value);
    PresetArchive.PrintFits(env.captured.value);
    PresetArchive.ParsePrinted(env.captured.value);
    var e := Handle(a, c, Export, generation, env).0;
    OverwritePrefix(a.buffer, 0, text);
    assert e.buffer[..|text|] == text;
    if offset < |text| {
      var end := if |text| - offset < EXPORT_CHUNK then |text| else offset + EXPORT_CHUNK;
      assert e.buffer[offset..end] == e.buffer[..|text|][offset..end];
    }
  }

  // ---------------------------------------------------------------------------------------
  // The transfer object

  class Transfer {
    const text: array<char>
    const controller: Controller.DmxController
    var mode: Mode
    var owner: nat
    var token: nat
    var counter: nat
    var total: nat
    var received: nat
    var count: nat
    var started: U32
    var touched: U32
    var base: nat
    ghost var chunks: seq<string>

    ghost predicate Valid()
      reads this, controller
    {
      controller.Valid()
    }

    ghost function View(): State
      reads this, text
    {
      State(mode, owner, token, counter, total, received, count, started, touched, base, text[..], chunks)
    }

    constructor (buffer: array<char>, c: Controller.DmxController)
      requires c.Valid()
      ensures Valid() && text == buffer && controller == c
      ensures View() == State(Idle, 0, 0, 0, 0, 0, 0, 0, 0, 0, buffer[..], [])
    {
      text, controller := buffer, c;
      mode, owner, token, counter, total, received, count := Idle, 0, 0, 0, 0, 0, 0;
      started, touched, base, chunks := 0, 0, 0, [];
    }

    method Abort()
      requires Valid()
      modifies this, text, controller`archiveToken
      ensures Valid() && View() == Aborted(old(View()))
      ensures controller.View() == Controller.Discarded(old(controller.View()))
    {
      controller.archiveToken := 0;
      forall i | 0 <= i < text.Length && i < total { text[i] := 0 as char; }
      assert text[..] == Erased(old(text[..]), total);
      mode, owner, total, received, chunks := Idle, 0, 0, 0, [];
    }

    method Answer(generation: nat, status: string) returns (answer: Answer)
      ensures answer == Say(View(), generation, status)
    {
      if owner == generation { return Reply(status, token, total, received, count, []); }
      return Reply(status, 0, 0, 0, 0, []);
    }

    method BeginTransfer(generation: nat, now: U32)
      requires Valid()
      modifies this
      ensures Valid() && View() == Begun(old(View()), controller.View(), generation, now)
    {
      owner := generation;
      counter := counter + 1;
      token := counter;
      started, touched := now, now;
      received, count := 0, 0;
      base := controller.presetRevision;
      chunks := [];
    }

    method Write(at: nat, data: string)
      requires at + |data| <= text.Length
      modifies text
      ensures text[..] == Overwrite(old(text[..]), at, data)
    {
      forall i | 0 <= i < |data| { text[at + i] := data[i]; }
      assert text[..] == Overwrite(old(text[..]), at, data);
    }

    method StartRequest(op: Op, generation: nat, env: Env) returns (answer: Answer)
      requires Valid() && (op.Export? || op.Import?) && text.Length >= PresetArchive.MAX_FILE
      modifies this, text, controller`archiveToken
      ensures Valid()
      ensures var (a, c, expected) := Start(old(View()), old(controller.View()), op, generation, env);
              View() == a && controller.View() == c && answer == expected
    {
      hide PresetArchive.Print, Erased;
      if !mode.Idle? { answer := Answer(generation, "busy"); return; }
      if counter == MAX_COUNTER { answer := Answer(generation, "unavailable"); return; }
      BeginTransfer(generation, env.now);
      if op.Import? {
        mode, total := Importing, op.bytes;
        answer := Answer(generation, "ready");
        return;
      }
      if env.captured.None? || !PresetArchive.Shaped(env.captured.value) {
        answer := Answer(generation, "storage_error");
        Abort();
        return;
      }
      PresetArchive.PrintFits(env.captured.value);
      ghost var before := text[..];
      var length := PresetReader.PrintArchive(env.captured.value, text);
      assert text[..length] == PresetArchive.Print(env.captured.value);
      assert text[..] == Overwrite(before, 0, PresetArchive.Print(env.captured.value)) by {
        PrintedOver(before, text[..], length);
      }
      total, count := length, CountPresent(env.captured.value.present);
      controller.archiveToken := 0;
      mode := Exporting;
      answer := Answer(generation, "ready");
    }

    method StageUpload(generation: nat, env: Env) returns (answer: Answer)
      requires Valid() && total <= text.Length
      modifies this, text, controller
      ensures Valid()
      ensures var (a, c, expected) := Staged(old(View()), old(controller.View()), generation, env);
              View() == a && controller.View() == c && answer == expected
    {
      hide Controller.StageArchive, Erased;
      assert text[..total] == text[..][..total];
      var outcome := controller.Stage(text[..total], base, env.ownerAlive);
      if outcome != Controller.Ok {
        answer := Answer(generation, if outcome.ArchiveConflict? then "conflict" else "invalid");
        Abort();
        return;
      }
      count := CountPresent(controller.archive.present);
      mode := Applying;
      return Submit(controller.archiveToken);
    }

    method TakeChunk(data: string)
      requires Valid() && received + |data| <= text.Length
      modifies this`received, this`chunks, text
      ensures Valid() && View() == Taken(old(View()), data)
    {
      Write(received, data);
      received := received + |data|;
      chunks := chunks + [data];
    }

    method Touch(now: U32)
      requires Valid()
      modifies this`touched
      ensures Valid() && View() == old(View()).(touched := now)
    {
      touched := now;
    }

    method ContinueRequest(op: Op, generation: nat, env: Env) returns (answer: Answer)
      requires Valid() && !op.Export? && !op.Import?
      modifies this, text, controller
      ensures Valid()
      ensures var (a, c, expected) := Continue(old(View()), old(controller.View()), op, generation, env);
              View() == a && controller.View() == c && answer == expected
    {
      hide Staged, Taken, Erased, Controller.DmxController.View;
      if mode.Idle? || owner != generation || token != op.token {
        answer := Answer(generation, "unauthorized");
        return;
      }
      Touch(env.now);
      if op.Cancel? {
        answer := Answer(generation, "cancelled");
        Abort();
        return;
      }
      if op.Read? && mode.Exporting? && op.offset < total && total <= text.Length {
        var length := if total - op.offset < EXPORT_CHUNK then total - op.offset else EXPORT_CHUNK;
        answer := Answer(generation, "data");
        answer := answer.(offset := op.offset, data := text[op.offset..op.offset + length]);
        assert text[op.offset..op.offset + length] == text[..][op.offset..op.offset + length];
        return;
      }
      if op.Chunk? && mode.Importing? && op.offset == received && |op.data| > 0 && received <= total
          && total <= text.Length
         && |op.data| <= total - received {
        TakeChunk(op.data);
        answer := Answer(generation, "staged");
        return;
      }
      if op.Apply? && mode.Importing? && received == total && total <= text.Length {
        answer := StageUpload(generation, env);
        return;
      }
      answer := Answer(generation, "invalid");
      Abort();
    }

    method HandleRequest(op: Op, generation: nat, env: Env) returns (answer: Answer)
      requires Valid()
      modifies this, text, controller
      ensures Valid()
      ensures var (a, c, expected) := Handle(old(View()), old(controller.View()), op, generation, env);
              View() == a && controller.View() == c && answer == expected
    {
      hide Start, Continue;
      if text.Length < PresetArchive.MAX_FILE {
        answer := Answer(generation, "unavailable");
      } else if op.Export? || op.Import? {
        answer := StartRequest(op, generation, env);
      } else {
        answer := ContinueRequest(op, generation, env);
      }
    }
  }

  lemma PrintedOver(before: string, after: string, length: nat)
    requires |before| == |after| && length <= |after| && after[length..] == before[length..]
    ensures after == Overwrite(before, 0, after[..length])
  {
  }
}
