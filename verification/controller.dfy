/** DmxController: the working universe, blackout with its saved entry state, preset provenance
    and the revision every visible change raises. Storage answers are parameters. */
module Controller {
  import opened Types
  import PresetArchive
  import PresetReader

  const CHANNELS: nat := 512
  const PRESETS: nat := 8
  const MAX_PATCH: nat := 8

  datatype Outcome =
    | Ok | InvalidChannel | InvalidValue | InvalidSlot | Empty | SameSlot | Occupied | Corrupt
    | ReadFailed | WriteFailed | MetadataFailed | InvalidPatch | ArchiveConflict | ArchiveUncertain | StorageFull

  datatype SlotState = Missing | Valid | CorruptSlot | ErrorSlot

  datatype Commit = Committed | CommitFailed | Uncertain

  /** What the preset storage answers during one command: the state of the slot (for a copy: of the
      source and the target), the packet a load yields, and the outcome of a write. */
  datatype StorageReply = StorageReply(
    slot: SlotState, target: SlotState, loaded: Option<Packet>, wrote: bool, noSpace: bool,
    replaced: Commit, gateOpen: bool)

  datatype ChannelValue = ChannelValue(channel: int, value: int)

  /** A slot handed to the storage to be written, or to be erased. */
  datatype SlotWrite = SlotWrite(slot: nat, packet: Option<Packet>)

  /** `archive` is the one staged collection; `replacements` records every collection ever handed to
      the storage as the new whole content, `written` every single slot. */
  datatype State = State(
    working: Packet, restore: Packet, blackout: bool,
    loaded: nat, modified: bool, restoreLoaded: nat, restoreModified: bool,
    revision: nat, presetRevision: nat,
    archive: PresetArchive.Collection, archiveToken: nat, archiveCounter: nat, archiveBase: nat,
    replacements: seq<PresetArchive.Collection>, written: seq<SlotWrite>)

  /** What a browser shows of the controller. */
  datatype Live = Live(values: seq<Byte>, blackout: bool, loaded: nat, modified: bool)

  function View(c: State): Live
  {
    Live(c.working[1..], c.blackout, c.loaded, c.modified)
  }

  function PowerUp(): State
  {
    State(ZeroPacket(), ZeroPacket(), false, 0, false, 0, false, 0, 0, PresetArchive.Nothing(), 0, 0, 0, [], [])
  }

  function Output(c: State): Packet
  {
    if c.blackout then ZeroPacket() else c.working
  }

  function Changed(c: State): State
  {
    c.(revision := c.revision + 1)
  }

  predicate HasNonZero(p: Packet)
  {
    exists i :: 0 <= i < |p| && p[i] != 0
  }

  function Reset(c: State): State
  {
    var r := c.(working := ZeroPacket(), restore := ZeroPacket(), blackout := false, loaded := 0, restoreLoaded := 0,
                modified := false, restoreModified := false);
    if c.blackout || c.loaded != 0 || c.restoreLoaded != 0 || HasNonZero(c.working) || HasNonZero(c.restore)
    then Changed(r) else r
  }

  predicate ValidChannel(channel: int) { 1 <= channel <= CHANNELS }

  predicate ValidValue(value: int) { 0 <= value <= 255 }

  function SetChannel(c: State, channel: int, value: int): (State, Outcome)
  {
    if !ValidChannel(channel) then (c, InvalidChannel)
    else if !ValidValue(value) then (c, InvalidValue)
    else if c.working[channel] == value then (c, Ok)
    else (Changed(c.(working := c.working[channel := value], modified := c.modified || c.loaded != 0)), Ok)
  }

  function Clamp(value: int): int
  {
    if value < 0 then 0 else if value > 255 then 255 else value
  }

  function AdjustChannel(c: State, channel: int, delta: int): (State, Outcome)
  {
    if !ValidChannel(channel) then (c, InvalidChannel)
    else SetChannel(c, channel, Clamp(c.working[channel] + delta))
  }

  /** The first thing wrong with a patch entry, given the entries before it. */
  function EntryFault(patch: seq<ChannelValue>, i: nat): Outcome
    requires i < |patch|
  {
    if !ValidChannel(patch[i].channel) then InvalidChannel
    else if !ValidValue(patch[i].value) then InvalidValue
    else if exists j :: 0 <= j < i && patch[j].channel == patch[i].channel then InvalidPatch
    else Ok
  }

  function PatchFault(patch: seq<ChannelValue>, from: nat): Outcome
    requires from <= |patch|
    decreases |patch| - from
  {
    if from == |patch| then Ok
    else if EntryFault(patch, from) != Ok then EntryFault(patch, from)
    else PatchFault(patch, from + 1)
  }

  predicate PatchFits(patch: seq<ChannelValue>)
  {
    forall i :: 0 <= i < |patch| ==> ValidChannel(patch[i].channel) && ValidValue(patch[i].value)
  }

  function Patched(working: Packet, patch: seq<ChannelValue>): Packet
    requires PatchFits(patch)
  {
    if patch == [] then working
    else
      var last := |patch| - 1;
      Patched(working, patch[..last])[patch[last].channel := patch[last].value]
  }

  function SetChannels(c: State, patch: seq<ChannelValue>): (State, Outcome)
  {
    if patch == [] || |patch| > MAX_PATCH then (c, InvalidPatch)
    else if PatchFault(patch, 0) != Ok then (c, PatchFault(patch, 0))
    else
      PatchOkFits(patch, 0);
      var working := Patched(c.working, patch);
      if working == c.working then (c, Ok)
      else (Changed(c.(working := working, modified := c.modified || c.loaded != 0)), Ok)
  }

  lemma PatchOkFits(patch: seq<ChannelValue>, from: nat)
    requires from <= |patch| && PatchFault(patch, from) == Ok
    ensures forall i :: from <= i < |patch| ==> EntryFault(patch, i) == Ok
    ensures from == 0 ==> PatchFits(patch)
    decreases |patch| - from
  {
    if from < |patch| { PatchOkFits(patch, from + 1); }
    forall i | from <= i < |patch| ensures ValidChannel(patch[i].channel) && ValidValue(patch[i].value) {
      assert EntryFault(patch, i) == Ok;
    }
  }

  function SetBlackout(c: State, active: bool): State
  {
    if active == c.blackout then c
    else if active then
      Changed(c.(restore := c.working, restoreLoaded := c.loaded, restoreModified := c.modified, blackout := true))
    else
      Changed(c.(working := c.restore[0 := 0], loaded := c.restoreLoaded, modified := c.restoreModified,
                 blackout := false))
  }

  function Readable(slot: int, state: SlotState): Outcome
  {
    if !(0 <= slot < PRESETS) then InvalidSlot
    else match state
      case Valid => Ok
      case Missing => Empty
      case CorruptSlot => Corrupt
      case ErrorSlot => ReadFailed
  }

  function LoadPreset(c: State, slot: int, r: StorageReply): (State, Outcome)
  {
    if Readable(slot, r.slot) != Ok then (c, Readable(slot, r.slot))
    else if r.loaded.None? then (c, ReadFailed)
    else
      var packet: Packet := r.loaded.value[0 := 0];
      var dirty := c.working != packet || c.loaded != slot + 1 || c.modified;
      var u := c.(loaded := slot + 1, modified := false);
      (if dirty then Changed(u.(working := packet)) else u, Ok)
  }

  /** A stored slot is about to change: provenance naming it is dropped, live and saved. */
  function Invalidated(c: State, slot: nat): State
  {
    var u := if c.loaded == slot + 1 then c.(loaded := 0, modified := false) else c;
    if u.restoreLoaded == slot + 1 then u.(restoreLoaded := 0, restoreModified := false) else u
  }

  predicate Names(c: State, slot: nat)
  {
    c.loaded == slot + 1 || c.restoreLoaded == slot + 1
  }

  function WriteFault(r: StorageReply): Outcome
  {
    if r.noSpace then StorageFull else WriteFailed
  }

  /** A stored slot was written or cleared, or was meant to be: what it held before is no longer named. */
  function SlotWritten(c: State, slot: nat, packet: Option<Packet>, r: StorageReply): (State, Outcome)
  {
    var written := c.written + [SlotWrite(slot, packet)];
    var u := Invalidated(c.(presetRevision := c.presetRevision + 1, written := written), slot);
    if !r.wrote then (if Names(c, slot) then Changed(u) else u, WriteFault(r)) else (Changed(u), Ok)
  }

  function SavePreset(c: State, slot: int, r: StorageReply): (State, Outcome)
  {
    if !(0 <= slot < PRESETS) then (c, InvalidSlot)
    else if r.slot.ErrorSlot? then (c, ReadFailed)
    else if r.slot.Valid? && r.loaded.None? then (c, ReadFailed)
    else if r.slot.Valid? && r.loaded.value == c.working then (c, Ok)
    else SlotWritten(c, slot, Some(c.working), r)
  }

  function CopyPreset(c: State, source: int, target: int, r: StorageReply): (State, Outcome)
  {
    if !(0 <= source < PRESETS) || !(0 <= target < PRESETS) then (c, InvalidSlot)
    else if Readable(source, r.slot) != Ok then (c, Readable(source, r.slot))
    else if source == target then (c, SameSlot)
    else match r.target
      case Valid => (c, Occupied)
      case ErrorSlot => (c, ReadFailed)
      case CorruptSlot => (c, Corrupt)
      case Missing =>
        if r.loaded.None? then (c, ReadFailed)
        else
          var copied := SlotWrite(target, Some(r.loaded.value[0 := 0]));
          var u := c.(presetRevision := c.presetRevision + 1, written := c.written + [copied]);
          if !r.wrote then (u, WriteFault(r)) else (Changed(u), Ok)
  }

  function ClearPreset(c: State, slot: int, r: StorageReply): (State, Outcome)
  {
    if Readable(slot, r.slot) != Ok then (c, Readable(slot, r.slot))
    else SlotWritten(c, slot, None, r)
  }

  predicate ArchiveValid(c: State, token: nat)
  {
    token != 0 && token == c.archiveToken
  }

  function Discarded(c: State): State
  {
    c.(archiveToken := 0)
  }

  function NextToken(counter: nat): nat
  {
    if counter >= 0xFFFF_FFFF then 1 else counter + 1
  }

  /** Parse an uploaded archive and give it a token; refused when a preset was touched since `base`.
      A refused text leaves no collection behind. */
  function StageArchive(c: State, data: string, base: nat, gateOpen: bool): (State, Outcome)
  {
    var d := Discarded(c);
    if base != d.presetRevision then (d, ArchiveConflict)
    else if !gateOpen then (d, InvalidPatch)
    else
      match PresetArchive.Parse(data)
      case None => (d.(archive := PresetArchive.Nothing()), InvalidPatch)
      case Some(parsed) =>
        var token := NextToken(d.archiveCounter);
        (d.(archive := parsed, archiveBase := base, archiveCounter := token, archiveToken := token), Ok)
  }

  function Replaced(d: State, r: StorageReply): (State, Outcome)
  {
    var w := d.(replacements := d.replacements + [d.archive]);
    if r.replaced.CommitFailed? then (w, WriteFault(r))
    else
      (Changed(w.(presetRevision := w.presetRevision + 1, loaded := 0, restoreLoaded := 0, modified := false,
                  restoreModified := false)),
       if r.replaced.Committed? then Ok else ArchiveUncertain)
  }

  /** Replace every stored preset by the staged archive. `gateOpen` is the staged gate's answer. */
  function ReplaceArchive(c: State, token: nat, r: StorageReply): (State, Outcome)
  {
    if !ArchiveValid(c, token) then (c, InvalidPatch)
    else
      var d := Discarded(c);
      if d.archiveBase != d.presetRevision then (d, ArchiveConflict)
      else if !r.gateOpen then (d, InvalidPatch)
      else Replaced(d, r)
  }

  // ---------------------------------------------------------------------------------------
  // Commands and what they keep

  datatype Command =
    | SetChannelCmd(channel: int, value: int)
    | AdjustChannelCmd(channel: int, delta: int)
    | SetChannelsCmd(patch: seq<ChannelValue>)
    | BlackoutCmd(active: int)
    | LoadCmd(slot: int)
    | SaveCmd(slot: int)
    | CopyCmd(slot: int, target: int)
    | ClearCmd(slot: int)
    | ResetCmd
    | ReplaceCmd(token: nat)
    | InvalidCmd

  function Execute(c: State, command: Command, r: StorageReply): (State, Outcome)
  {
    match command
    case SetChannelCmd(channel, value) => SetChannel(c, channel, value)
    case AdjustChannelCmd(channel, delta) => AdjustChannel(c, channel, delta)
    case SetChannelsCmd(patch) => SetChannels(c, patch)
    case BlackoutCmd(active) => (SetBlackout(c, active != 0), Ok)
    case LoadCmd(slot) => LoadPreset(c, slot, r)
    case SaveCmd(slot) => SavePreset(c, slot, r)
    case CopyCmd(slot, target) => CopyPreset(c, slot, target, r)
    case ClearCmd(slot) => ClearPreset(c, slot, r)
    case ResetCmd => (Reset(c), Ok)
    case ReplaceCmd(token) => ReplaceArchive(c, token, r)
    case InvalidCmd => (c, Ok)
  }

  /** The start code stays 0, and a modified flag always belongs to a loaded slot. */
  ghost predicate Inv(c: State)
  {
    && c.working[0] == 0 && c.restore[0] == 0
    && c.loaded <= PRESETS && c.restoreLoaded <= PRESETS
    && (c.modified ==> c.loaded != 0) && (c.restoreModified ==> c.restoreLoaded != 0)
  }

  lemma PatchedKeepsOthers(working: Packet, patch: seq<ChannelValue>)
    requires PatchFits(patch)
    ensures Patched(working, patch)[0] == working[0]
    ensures forall ch :: 0 <= ch < PACKET_SIZE && (forall i :: 0 <= i < |patch| ==> patch[i].channel != ch) ==>
              Patched(working, patch)[ch] == working[ch]
  {
    if patch != [] {
      PatchedKeepsOthers(working, patch[..|patch| - 1]);
    }
  }

  /** Commands that touch the stored presets or load one. */
  predicate OfPresets(command: Command)
  {
    command.LoadCmd? || command.SaveCmd? || command.CopyCmd? || command.ClearCmd? || command.ReplaceCmd?
  }

  /** What changed between two states shows in the revision, which moves by at most one. */
  predicate ChangeShows(c: State, d: State)
  {
    c.revision <= d.revision <= c.revision + 1
        && (d.revision == c.revision ==> View(d) == View(c) && Output(d) == Output(c))
  }

  /** The staged archive is as it was, or its token was used up. */
  predicate ArchiveKept(c: State, d: State, used: bool)
  {
    && d.archive == c.archive && d.archiveBase == c.archiveBase && d.archiveCounter == c.archiveCounter
    && (d.archiveToken == c.archiveToken || (used && d.archiveToken == 0))
    && c.presetRevision <= d.presetRevision
  }

  /** What a preset command keeps and how far it moves the revisions. */
  ghost predicate PresetFacts(c: State, command: Command, d: State, outcome: Outcome)
  {
    && (Inv(c) ==> Inv(d) && ChangeShows(c, d))
    && ArchiveKept(c, d, command.ReplaceCmd?) && d.presetRevision <= c.presetRevision + 1
    && (command.LoadCmd? ==> d.presetRevision == c.presetRevision)
    && (!command.ReplaceCmd? ==> d.replacements == c.replacements)
    && (!command.LoadCmd? && !command.ReplaceCmd?
        && (outcome.WriteFailed? || outcome.StorageFull? || d.revision != c.revision) ==>
          d.presetRevision == c.presetRevision + 1)
    && (command.ReplaceCmd? && (outcome.Ok? || outcome.ArchiveUncertain?) ==> d.presetRevision == c.presetRevision + 1)
  }

  lemma LoadFacts(c: State, slot: int, r: StorageReply)
    ensures var (d, outcome) := LoadPreset(c, slot, r);
            PresetFacts(c, LoadCmd(slot), d, outcome)
  {
  }

  lemma InvalidatedFacts(c: State, slot: nat)
    requires slot < PRESETS
    ensures var u := Invalidated(c, slot);
            && u == c.(loaded := u.loaded, modified := u.modified, restoreLoaded := u.restoreLoaded,
                       restoreModified := u.restoreModified)
            && (Inv(c) ==> Inv(u)) && (!Names(c, slot) ==> u == c)
  {
  }

  lemma SlotWrittenFacts(c: State, slot: nat, packet: Option<Packet>, r: StorageReply, command: Command)
    requires slot < PRESETS && (command.SaveCmd? || command.ClearCmd?)
    ensures PresetFacts(c, command, SlotWritten(c, slot, packet, r).0, SlotWritten(c, slot, packet, r).1)
  {
    hide Invalidated, Names;
    var m := c.(presetRevision := c.presetRevision + 1, written := c.written + [SlotWrite(slot, packet)]);
    InvalidatedFacts(m, slot);
    assert Names(m, slot) == Names(c, slot) by { SameNames(c, m, slot); }
  }

  lemma SameNames(c: State, m: State, slot: nat)
    requires m.loaded == c.loaded && m.restoreLoaded == c.restoreLoaded
    ensures Names(m, slot) == Names(c, slot)
  {
  }

  lemma SaveFacts(c: State, slot: int, r: StorageReply)
    ensures var (d, outcome) := SavePreset(c, slot, r);
            PresetFacts(c, SaveCmd(slot), d, outcome)
  {
    hide SlotWritten;
    if 0 <= slot < PRESETS { SlotWrittenFacts(c, slot, Some(c.working), r, SaveCmd(slot)); }
  }

  lemma CopyFacts(c: State, slot: int, target: int, r: StorageReply)
    ensures var (d, outcome) := CopyPreset(c, slot, target, r);
            PresetFacts(c, CopyCmd(slot, target), d, outcome)
  {
  }

  lemma ClearFacts(c: State, slot: int, r: StorageReply)
    ensures var (d, outcome) := ClearPreset(c, slot, r);
            PresetFacts(c, ClearCmd(slot), d, outcome)
  {
    hide SlotWritten;
    if 0 <= slot < PRESETS { SlotWrittenFacts(c, slot, None, r, ClearCmd(slot)); }
  }

  lemma ReplaceFacts(c: State, token: nat, r: StorageReply)
    ensures var (d, outcome) := ReplaceArchive(c, token, r);
            PresetFacts(c, ReplaceCmd(token), d, outcome)
  {
  }

  lemma PresetCommandFacts(c: State, command: Command, r: StorageReply)
    requires OfPresets(command)
    ensures PresetFacts(c, command, Execute(c, command, r).0, Execute(c, command, r).1)
  {
    hide LoadPreset, SavePreset, CopyPreset, ClearPreset, ReplaceArchive, PresetFacts;
    match command
    case LoadCmd(slot) => LoadFacts(c, slot, r);
    case SaveCmd(slot) => SaveFacts(c, slot, r);
    case CopyCmd(slot, target) => CopyFacts(c, slot, target, r);
    case ClearCmd(slot) => ClearFacts(c, slot, r);
    case ReplaceCmd(token) => ReplaceFacts(c, token, r);
    case _ =>
  }

  lemma ExecuteKeepsInv(c: State, command: Command, r: StorageReply)
    requires Inv(c)
    ensures Inv(Execute(c, command, r).0)
  {
    if OfPresets(command) {
      hide Execute, Inv, ChangeShows, ArchiveKept;
      PresetCommandFacts(c, command, r);
    } else {
      hide LoadPreset, SavePreset, CopyPreset, ClearPreset, ReplaceArchive, Patched;
      if command.SetChannelsCmd? && command.patch != [] && |command.patch| <= MAX_PATCH
          && PatchFault(command.patch, 0) == Ok {
        PatchOkFits(command.patch, 0);
        PatchedKeepsOthers(c.working, command.patch);
      }
    }
  }

  /** The revision is a change detector: a command raises it by at most one, and when it does not
      raise it the working values, blackout, loaded slot and modified flag are what they were. */
  lemma RevisionDetectsChange(c: State, command: Command, r: StorageReply)
    requires Inv(c)
    ensures var d := Execute(c, command, r).0;
            && c.revision <= d.revision <= c.revision + 1
            && (d.revision == c.revision ==> View(d) == View(c) && Output(d) == Output(c))
  {
    if OfPresets(command) {
      hide Execute, Inv, ArchiveKept;
      PresetCommandFacts(c, command, r);
    } else {
      hide LoadPreset, SavePreset, CopyPreset, ClearPreset, ReplaceArchive, Patched, PatchFault, PatchFits;
      if command.ResetCmd? && !HasNonZero(c.working) { assert c.working == ZeroPacket(); }
    }
  }

  /** Commands on live values leave everything about stored presets alone. */
  lemma LiveCommandFacts(c: State, command: Command, r: StorageReply)
    requires !OfPresets(command)
    ensures var d := Execute(c, command, r).0;
            ArchiveKept(c, d, false) && d.presetRevision == c.presetRevision && d.replacements == c.replacements
  {
    hide LoadPreset, SavePreset, CopyPreset, ClearPreset, ReplaceArchive, Patched, PatchFault, PatchFits, HasNonZero;
  }

  /** Only a replace command uses up the staged archive, nothing alters it, and the preset revision never goes back. */
  lemma ExecuteKeepsArchive(c: State, command: Command, r: StorageReply)
    ensures var d := Execute(c, command, r).0;
            && d.archive == c.archive && d.archiveBase == c.archiveBase && d.archiveCounter == c.archiveCounter
            && (d.archiveToken == c.archiveToken || (command.ReplaceCmd? && d.archiveToken == 0))
            && c.presetRevision <= d.presetRevision
  {
    hide Execute, Inv, ChangeShows;
    if OfPresets(command) { PresetCommandFacts(c, command, r); } else { LiveCommandFacts(c, command, r); }
  }

  /** A channel command changes the working values nowhere but in its own channel, and neither
      blackout nor the loaded slot. */
  lemma ChannelCommandIsLocal(c: State, command: Command, r: StorageReply)
    requires command.SetChannelCmd? || command.AdjustChannelCmd?
    ensures var d := Execute(c, command, r).0;
            && d.blackout == c.blackout && d.loaded == c.loaded
            && (d.revision != c.revision ==>
                  ValidChannel(command.channel)
                      && d.working == c.working[command.channel := d.working[command.channel]])
  {
  }

  /** The commands of a run, with the storage answers each met. */
  function Run(c: State, commands: seq<(Command, StorageReply)>): State
    decreases |commands|
  {
    if commands == [] then c else Run(Execute(c, commands[0].0, commands[0].1).0, commands[1..])
  }

  /** Neither a reset nor a blackout command with the given target. */
  predicate KeepsBlackout(command: Command)
  {
    !command.ResetCmd? && (command.BlackoutCmd? ==> command.active != 0)
  }

  lemma EntryStateStep(c: State, command: Command, r: StorageReply)
    requires Inv(c) && c.blackout && KeepsBlackout(command)
    ensures var d := Execute(c, command, r).0;
            Inv(d) && d.blackout && d.restore == c.restore
            && ((d.restoreLoaded == c.restoreLoaded && d.restoreModified == c.restoreModified) || d.restoreLoaded == 0)
  {
    hide Inv, Patched, PatchFault, PatchFits, HasNonZero;
    ExecuteKeepsInv(c, command, r);
  }

  lemma {:induction false} EntryStateSurvives(c: State, commands: seq<(Command, StorageReply)>)
    requires Inv(c) && c.blackout
    requires forall k :: 0 <= k < |commands| ==> KeepsBlackout(commands[k].0)
    ensures var e := Run(c, commands);
            Inv(e) && e.blackout && e.restore == c.restore
            && ((e.restoreLoaded == c.restoreLoaded && e.restoreModified == c.restoreModified) || e.restoreLoaded == 0)
    decreases |commands|
  {
    if commands != [] {
      hide Execute;
      EntryStateStep(c, commands[0].0, commands[0].1);
      EntryStateSurvives(Execute(c, commands[0].0, commands[0].1).0, commands[1..]);
    }
  }

  /** Entering blackout, any commands but a reset, and leaving it again gives back the universe of the
      moment of entry; its provenance comes back too unless its slot was rewritten meanwhile.
      While blackout lasts the output is all zero. */
  lemma BlackoutRestoresEntry(c: State, commands: seq<(Command, StorageReply)>)
    requires Inv(c) && !c.blackout
    requires forall k :: 0 <= k < |commands| ==> KeepsBlackout(commands[k].0)
    ensures var inside := Run(SetBlackout(c, true), commands);
            var after := SetBlackout(inside, false);
            && Output(inside) == ZeroPacket()
            && after.working == c.working && Output(after) == c.working
            && ((after.loaded == c.loaded && after.modified == c.modified) || after.loaded == 0)
  {
    var entered := SetBlackout(c, true);
    EntryStateSurvives(entered, commands);
  }

  // ---------------------------------------------------------------------------------------
  // The controller object

  class DmxController {
    const working: array<Byte>
    const restore: array<Byte>
    var blackout: bool
    var loaded: nat
    var modified: bool
    var restoreLoaded: nat
    var restoreModified: bool
    var revision: nat
    var presetRevision: nat
    var archive: PresetArchive.Collection
    var archiveToken: nat
    var archiveCounter: nat
    var archiveBase: nat
    ghost var replacements: seq<PresetArchive.Collection>
    ghost var written: seq<SlotWrite>

    ghost predicate Valid()
      reads this
    {
      working.Length == PACKET_SIZE && restore.Length == PACKET_SIZE && working != restore
    }

    ghost function View(): State
      requires Valid()
      reads this, working, restore
    {
      State(working[..], restore[..], blackout, loaded, modified, restoreLoaded, restoreModified,
            revision, presetRevision, archive, archiveToken, archiveCounter, archiveBase, replacements, written)
    }

    constructor ()
      ensures Valid() && Inv(View()) && View() == PowerUp() && fresh(working) && fresh(restore)
    {
      working := new Byte[PACKET_SIZE](_ => 0);
      restore := new Byte[PACKET_SIZE](_ => 0);
      blackout, loaded, modified, restoreLoaded, restoreModified := false, 0, false, 0, false;
      revision, presetRevision, archiveToken, archiveCounter, archiveBase := 0, 0, 0, 0, 0;
      archive := PresetArchive.Nothing();
      replacements, written := [], [];
    }

    method NoteChange()
      modifies this`revision
      ensures revision == old(revision) + 1
    {
      revision := revision + 1;
    }

    method ResetAll()
      requires Valid()
      modifies this, working, restore
      ensures Valid() && View() == Reset(old(View()))
    {
      var dirty := blackout || loaded != 0 || restoreLoaded != 0;
      var i := 0;
      while i < PACKET_SIZE
        invariant i <= PACKET_SIZE
        invariant dirty <==> (blackout || loaded != 0 || restoreLoaded != 0
                              || (exists k :: 0 <= k < i && working[k] != 0)
                                  || (exists k :: 0 <= k < i && restore[k] != 0))
      {
        dirty := dirty || working[i] != 0 || restore[i] != 0;
        i := i + 1;
      }
      forall k | 0 <= k < PACKET_SIZE { working[k] := 0; }
      forall k | 0 <= k < PACKET_SIZE { restore[k] := 0; }
      assert working[..] == ZeroPacket() && restore[..] == ZeroPacket();
      blackout, loaded, restoreLoaded := false, 0, 0;
      modified, restoreModified := false, false;
      if dirty { NoteChange(); }
    }

    method Set(channel: int, value: int) returns (outcome: Outcome)
      requires Valid()
      modifies this`modified, this`revision, working
      ensures Valid() && (View(), outcome) == SetChannel(old(View()), channel, value)
    {
      if channel < 1 || channel > CHANNELS { return InvalidChannel; }
      if value < 0 || value > 255 { return InvalidValue; }
      if working[channel] != value {
        working[channel] := value;
        if loaded != 0 { modified := true; }
        NoteChange();
      }
      return Ok;
    }

    method Adjust(channel: int, delta: int) returns (outcome: Outcome)
      requires Valid()
      modifies this`modified, this`revision, working
      ensures Valid() && (View(), outcome) == AdjustChannel(old(View()), channel, delta)
    {
      if channel < 1 || channel > CHANNELS { return InvalidChannel; }
      var value := working[channel] + delta;
      if value < 0 { value := 0; }
      if value > 255 { value := 255; }
      outcome := Set(channel, value);
    }

    static method ScanPatch(patch: seq<ChannelValue>) returns (outcome: Outcome)
      ensures outcome == PatchFault(patch, 0)
    {
      var i := 0;
      while i < |patch|
        invariant i <= |patch|
        invariant PatchFault(patch, 0) == PatchFault(patch, i)
      {
        if patch[i].channel < 1 || patch[i].channel > CHANNELS { return InvalidChannel; }
        if patch[i].value < 0 || patch[i].value > 255 { return InvalidValue; }
        var j := 0;
        while j < i
          invariant j <= i
          invariant forall k :: 0 <= k < j ==> patch[k].channel != patch[i].channel
        {
          if patch[j].channel == patch[i].channel { return InvalidPatch; }
          j := j + 1;
        }
        i := i + 1;
      }
      return Ok;
    }

    method WritePatch(patch: seq<ChannelValue>) returns (dirty: bool)
      requires Valid() && PatchFits(patch) && forall i :: 0 <= i < |patch| ==> EntryFault(patch, i) == Ok
      modifies working
      ensures Valid() && working[..] == Patched(old(working[..]), patch)
      ensures dirty <==> working[..] != old(working[..])
    {
      dirty := false;
      var i := 0;
      while i < |patch|
        invariant i <= |patch|
        invariant working[..] == Patched(old(working[..]), patch[..i])
        invariant dirty <==> exists k :: 0 <= k < i && old(working[..])[patch[k].channel] != patch[k].value
      {
        assert patch[..i + 1][..i] == patch[..i];
        PatchedKeepsOthers(old(working[..]), patch[..i]);
        assert EntryFault(patch, i) == Ok;
        dirty := dirty || working[patch[i].channel] != patch[i].value;
        working[patch[i].channel] := patch[i].value;
        i := i + 1;
      }
      assert patch[..|patch|] == patch;
      PatchTouches(old(working[..]), patch);
    }

    method SetMany(patch: seq<ChannelValue>) returns (outcome: Outcome)
      requires Valid()
      modifies this`modified, this`revision, working
      ensures Valid() && (View(), outcome) == SetChannels(old(View()), patch)
    {
      if |patch| == 0 || |patch| > MAX_PATCH { return InvalidPatch; }
      outcome := ScanPatch(patch);
      if outcome != Ok { return; }
      PatchOkFits(patch, 0);
      var dirty := WritePatch(patch);
      if dirty {
        if loaded != 0 { modified := true; }
        NoteChange();
      }
    }

    method Blackout(active: bool)
      requires Valid()
      modifies this, working, restore
      ensures Valid() && View() == SetBlackout(old(View()), active)
    {
      if active == blackout { return; }
      if active {
        forall i | 0 <= i < PACKET_SIZE { restore[i] := working[i]; }
        assert restore[..] == working[..] == old(working[..]);
        restoreLoaded, restoreModified := loaded, modified;
      } else {
        forall i | 0 <= i < PACKET_SIZE { working[i] := restore[i]; }
        working[0] := 0;
        assert working[..] == old(restore[..])[0 := 0] && restore[..] == old(restore[..]);
        loaded, modified := restoreLoaded, restoreModified;
      }
      blackout := active;
      NoteChange();
    }

    method Load(slot: int, r: StorageReply) returns (outcome: Outcome)
      requires Valid()
      modifies this, working
      ensures Valid() && (View(), outcome) == LoadPreset(old(View()), slot, r)
    {
      if Readable(slot, r.slot) != Ok { return Readable(slot, r.slot); }
      if r.loaded.None? { return ReadFailed; }
      var packet: Packet := r.loaded.value[0 := 0];
      var dirty := working[..] != packet || loaded != slot + 1 || modified;
      loaded := slot + 1;
      modified := false;
      if dirty {
        forall i | 0 <= i < PACKET_SIZE { working[i] := packet[i]; }
        assert working[..] == packet;
        NoteChange();
      }
      assert working[..] == packet && restore[..] == old(restore[..]);
      assert View() == LoadPreset(old(View()), slot, r).0;
      return Ok;
    }

    method Invalidate(slot: nat) returns (dirty: bool)
      requires Valid()
      modifies this
      ensures Valid() && View() == Invalidated(old(View()), slot) && dirty == Names(old(View()), slot)
    {
      dirty := false;
      if loaded == slot + 1 { loaded, modified, dirty := 0, false, true; }
      if restoreLoaded == slot + 1 { restoreLoaded, restoreModified, dirty := 0, false, true; }
    }

    method Save(slot: int, r: StorageReply) returns (outcome: Outcome)
      requires Valid()
      modifies this
      ensures Valid() && (View(), outcome) == SavePreset(old(View()), slot, r)
    {
      if slot < 0 || slot >= PRESETS { return InvalidSlot; }
      if r.slot.ErrorSlot? { return ReadFailed; }
      if r.slot.Valid? {
        if r.loaded.None? { return ReadFailed; }
        if r.loaded.value == working[..] { return Ok; }
      }
      presetRevision := presetRevision + 1;
      written := written + [SlotWrite(slot, Some(working[..]))];
      var invalidated := Invalidate(slot);
      if !r.wrote {
        if invalidated { NoteChange(); }
        return WriteFault(r);
      }
      NoteChange();
      return Ok;
    }

    method Copy(source: int, target: int, r: StorageReply) returns (outcome: Outcome)
      requires Valid()
      modifies this
      ensures Valid() && (View(), outcome) == CopyPreset(old(View()), source, target, r)
    {
      if source < 0 || source >= PRESETS || target < 0 || target >= PRESETS { return InvalidSlot; }
      if Readable(source, r.slot) != Ok { return Readable(source, r.slot); }
      if source == target { return SameSlot; }
      if r.target.Valid? { return Occupied; }
      if r.target.ErrorSlot? { return ReadFailed; }
      if r.target.CorruptSlot? { return Corrupt; }
      if r.loaded.None? { return ReadFailed; }
      presetRevision := presetRevision + 1;
      written := written + [SlotWrite(target, Some(r.loaded.value[0 := 0]))];
      if !r.wrote { return WriteFault(r); }
      NoteChange();
      return Ok;
    }

    method Clear(slot: int, r: StorageReply) returns (outcome: Outcome)
      requires Valid()
      modifies this
      ensures Valid() && (View(), outcome) == ClearPreset(old(View()), slot, r)
    {
      if Readable(slot, r.slot) != Ok { return Readable(slot, r.slot); }
      presetRevision := presetRevision + 1;
      written := written + [SlotWrite(slot, None)];
      var invalidated := Invalidate(slot);
      if !r.wrote {
        if invalidated { NoteChange(); }
        return WriteFault(r);
      }
      NoteChange();
      return Ok;
    }

    method Stage(data: string, base: nat, gateOpen: bool) returns (outcome: Outcome)
      requires Valid()
      modifies this
      ensures Valid() && (View(), outcome) == StageArchive(old(View()), data, base, gateOpen)
    {
      archiveToken := 0;
      if base != presetRevision { return ArchiveConflict; }
      if !gateOpen { return InvalidPatch; }
      var parsed := PresetReader.ParseArchive(data);
      if parsed.None? {
        archive := PresetArchive.Nothing();
        return InvalidPatch;
      }
      archive := parsed.value;
      archiveBase := base;
      archiveCounter := NextToken(archiveCounter);
      archiveToken := archiveCounter;
      return Ok;
    }

    method ReplaceStored(r: StorageReply) returns (outcome: Outcome)
      requires Valid()
      modifies this
      ensures Valid() && (View(), outcome) == Replaced(old(View()), r)
    {
      replacements := replacements + [archive];
      if r.replaced.CommitFailed? { return WriteFault(r); }
      presetRevision := presetRevision + 1;
      loaded, restoreLoaded := 0, 0;
      modified, restoreModified := false, false;
      NoteChange();
      return if r.replaced.Committed? then Ok else ArchiveUncertain;
    }

    method Replace(token: nat, r: StorageReply) returns (outcome: Outcome)
      requires Valid()
      modifies this
      ensures Valid() && (View(), outcome) == ReplaceArchive(old(View()), token, r)
    {
      if token == 0 || token != archiveToken { return InvalidPatch; }
      archiveToken := 0;
      if archiveBase != presetRevision { return ArchiveConflict; }
      if !r.gateOpen { return InvalidPatch; }
      hide Replaced;
      outcome := ReplaceStored(r);
    }

    method Run(command: Command, r: StorageReply) returns (outcome: Outcome)
      requires Valid()
      modifies this, working, restore
      ensures Valid() && (View(), outcome) == Execute(old(View()), command, r)
    {
      match command {
        case SetChannelCmd(channel, value) => outcome := Set(channel, value);
        case AdjustChannelCmd(channel, delta) => outcome := Adjust(channel, delta);
        case SetChannelsCmd(patch) => outcome := SetMany(patch);
        case BlackoutCmd(active) => Blackout(active != 0); outcome := Ok;
        case LoadCmd(slot) => outcome := Load(slot, r);
        case SaveCmd(slot) => outcome := Save(slot, r);
        case CopyCmd(slot, target) => outcome := Copy(slot, target, r);
        case ClearCmd(slot) => outcome := Clear(slot, r);
        case ResetCmd => ResetAll(); outcome := Ok;
        case ReplaceCmd(token) => outcome := Replace(token, r);
        case InvalidCmd => outcome := Ok;
      }
    }
  }

  /** With distinct channels, a patch leaves the universe as it was exactly when every entry already matched. */
  lemma PatchTouches(working: Packet, patch: seq<ChannelValue>)
    requires PatchFits(patch)
    requires forall i :: 0 <= i < |patch| ==> EntryFault(patch, i) == Ok
    ensures Patched(working, patch) == working <==> forall k :: 0 <= k < |patch| ==>
            working[patch[k].channel] == patch[k].value
  {
    PatchedGives(working, patch);
    if forall k :: 0 <= k < |patch| ==> working[patch[k].channel] == patch[k].value {
      PatchIdentity(working, patch);
    }
  }

  lemma PatchIdentity(working: Packet, patch: seq<ChannelValue>)
    requires PatchFits(patch) && forall k :: 0 <= k < |patch| ==> working[patch[k].channel] == patch[k].value
    ensures Patched(working, patch) == working
  {
    if patch != [] { PatchIdentity(working, patch[..|patch| - 1]); }
  }

  lemma PatchedGives(working: Packet, patch: seq<ChannelValue>)
    requires PatchFits(patch) && forall i :: 0 <= i < |patch| ==> EntryFault(patch, i) == Ok
    ensures forall k :: 0 <= k < |patch| ==> Patched(working, patch)[patch[k].channel] == patch[k].value
  {
    if patch != [] {
      var last := |patch| - 1;
      forall i | 0 <= i < last ensures EntryFault(patch[..last], i) == Ok && patch[i].channel != patch[last].channel {
        assert EntryFault(patch, i) == Ok && EntryFault(patch, last) == Ok;
      }
      PatchedGives(working, patch[..last]);
    }
  }
}
