/** What each controller command does, said of the values a user sees and of what reaches the storage. */
module ControllerEffects {
  import opened Types
  import opened Controller
  import PresetArchive

  // ---------------------------------------------------------------------------------------
  // Live values

  /** The universe moved, and nothing else but the modified flag of a loaded preset and the revision. */
  predicate OnlyUniverse(c: State, d: State)
  {
    && d == c.(working := d.working, modified := d.modified, revision := d.revision)
    && d.modified == (c.modified || (c.loaded != 0 && d.working != c.working))
    && (d.revision == c.revision <==> d.working == c.working)
  }

  /** Every channel but this one is as it was. */
  predicate OnlyChannel(c: State, d: State, channel: int)
  {
    OnlyUniverse(c, d) && forall k :: 0 <= k < PACKET_SIZE && k != channel ==> d.working[k] == c.working[k]
  }

  /** A set leaves exactly the asked value in its channel; a channel or value out of range changes nothing and gets its
      own refusal, the channel first. */
  lemma SetSets(c: State, channel: int, value: int, r: StorageReply)
    ensures var (d, outcome) := Execute(c, SetChannelCmd(channel, value), r);
            && (outcome == Ok <==> 1 <= channel <= 512 && 0 <= value <= 255)
            && (outcome == InvalidChannel <==> !(1 <= channel <= 512))
            && (outcome == Ok || outcome == InvalidChannel || outcome == InvalidValue)
            && (outcome != Ok ==> d == c)
            && (outcome == Ok ==> OnlyChannel(c, d, channel) && d.working[channel] == value)
  {
  }

  /** An adjust moves its channel by delta, as far as 0 and 255 allow. */
  lemma AdjustAdjusts(c: State, channel: int, delta: int, r: StorageReply)
    ensures var (d, outcome) := Execute(c, AdjustChannelCmd(channel, delta), r);
            && (outcome == Ok <==> 1 <= channel <= 512) && (outcome == Ok || outcome == InvalidChannel)
            && (outcome != Ok ==> d == c)
            && (outcome == Ok ==>
                  && OnlyChannel(c, d, channel)
                  && var sum := c.working[channel] + delta;
                     && (0 <= sum <= 255 ==> d.working[channel] == sum)
                     && (sum < 0 ==> d.working[channel] == 0) && (sum > 255 ==> d.working[channel] == 255))
  {
  }

  /** A patch of 1 to 8 entries, all in range, no channel twice. */
  predicate PatchIsSound(patch: seq<ChannelValue>)
  {
    && 1 <= |patch| <= 8
    && (forall i :: 0 <= i < |patch| ==> 1 <= patch[i].channel <= 512 && 0 <= patch[i].value <= 255)
    && forall i, j :: 0 <= i < j < |patch| ==> patch[i].channel != patch[j].channel
  }

  lemma {:induction false} SoundPatchPasses(patch: seq<ChannelValue>, from: nat)
    requires PatchIsSound(patch) && from <= |patch|
    ensures PatchFault(patch, from) == Ok
    decreases |patch| - from
  {
    if from < |patch| { SoundPatchPasses(patch, from + 1); }
  }

  lemma PassedPatchIsSound(patch: seq<ChannelValue>)
    requires 1 <= |patch| <= 8 && PatchFault(patch, 0) == Ok
    ensures PatchIsSound(patch)
  {
    PatchOkFits(patch, 0);
    forall i, j | 0 <= i < j < |patch| ensures patch[i].channel != patch[j].channel {
      assert EntryFault(patch, j) == Ok;
    }
  }

  /** What is wrong with entry `i`, if anything: its channel, its value, or a channel that came before. */
  predicate Wrong(patch: seq<ChannelValue>, i: nat, outcome: Outcome)
    requires i < |patch|
  {
    if !(1 <= patch[i].channel <= 512) then outcome == InvalidChannel
    else if !(0 <= patch[i].value <= 255) then outcome == InvalidValue
    else outcome == InvalidPatch && exists j :: 0 <= j < i && patch[j].channel == patch[i].channel
  }

  /** A refused patch names what is wrong with the first entry that is not right. */
  lemma {:induction false} FaultIsFirst(patch: seq<ChannelValue>, from: nat) returns (i: nat)
    requires from <= |patch| && PatchFault(patch, from) != Ok
    ensures from <= i < |patch| && Wrong(patch, i, PatchFault(patch, from))
    ensures forall k, outcome :: from <= k < i ==> !Wrong(patch, k, outcome)
    decreases |patch| - from
  {
    if EntryFault(patch, from) != Ok {
      i := from;
    } else {
      i := FaultIsFirst(patch, from + 1);
    }
  }

  /** A sound patch leaves each entry's value in its channel and every other channel alone, all at once; any other
      patch changes nothing at all. */
  lemma PatchSets(c: State, patch: seq<ChannelValue>, r: StorageReply)
    ensures var (d, outcome) := Execute(c, SetChannelsCmd(patch), r);
            && (outcome == Ok <==> PatchIsSound(patch))
            && (outcome != Ok ==> d == c)
            && (patch == [] || |patch| > 8 ==> outcome == InvalidPatch)
            && (1 <= |patch| <= 8 ==> outcome == PatchFault(patch, 0))
            && (outcome == Ok ==>
                  && OnlyUniverse(c, d)
                  && (forall i :: 0 <= i < |patch| ==> d.working[patch[i].channel] == patch[i].value)
                  && forall k :: 0 <= k < PACKET_SIZE && (forall i :: 0 <= i < |patch| ==> patch[i].channel != k) ==>
                       d.working[k] == c.working[k])
  {
    hide Patched, PatchFault, PatchIsSound;
    if PatchIsSound(patch) {
      SoundPatchPasses(patch, 0);
      assert 1 <= |patch| <= 8 by { assert PatchIsSound(patch); PatchSize(patch); }
    }
    if 1 <= |patch| <= 8 && PatchFault(patch, 0) == Ok {
      PassedPatchIsSound(patch);
      PatchOkFits(patch, 0);
      PatchedKeepsOthers(c.working, patch);
      PatchedGives(c.working, patch);
    }
  }

  lemma PatchSize(patch: seq<ChannelValue>)
    requires PatchIsSound(patch)
    ensures 1 <= |patch| <= 8
  {
  }

  /** A blackout command puts the lights out or back on, whichever it names; the universe of the moment of entry
      is what comes back. */
  lemma BlackoutSwitches(c: State, active: int, r: StorageReply)
    requires Inv(c)
    ensures var (d, outcome) := Execute(c, BlackoutCmd(active), r);
            && outcome == Ok
            && (active != 0 ==> d.blackout && Output(d) == ZeroPacket() && d.working == c.working)
            && (active == 0 ==> !d.blackout && Output(d) == d.working)
            && (active == 0 ==> d.working == if c.blackout then c.restore else c.working)
            && (d.revision != c.revision <==> (active != 0) != c.blackout)
  {
    assert c.restore[0 := 0] == c.restore;
  }

  lemma ResetClears(c: State, r: StorageReply)
    ensures var (d, outcome) := Execute(c, ResetCmd, r);
            && outcome == Ok && d.working == ZeroPacket() == d.restore && !d.blackout
            && d.loaded == 0 && !d.modified && d.restoreLoaded == 0 && !d.restoreModified
            && d.written == c.written && d.presetRevision == c.presetRevision
            && (d.revision == c.revision <==>
                  && !c.blackout && c.loaded == 0 && c.restoreLoaded == 0
                  && forall i :: 0 <= i < PACKET_SIZE ==> c.working[i] == 0 && c.restore[i] == 0)
  {
  }

  // ---------------------------------------------------------------------------------------
  // Presets

  /** Whether a slot can be read, and the refusal if not. */
  predicate Refuses(slot: int, state: SlotState, outcome: Outcome)
  {
    && (outcome == InvalidSlot <==> !(0 <= slot < 8))
    && (0 <= slot < 8 ==>
          && (state == Missing <==> outcome == Empty) && (state == CorruptSlot <==> outcome == Corrupt)
          && (state == ErrorSlot ==> outcome == ReadFailed))
  }

  /** A load succeeds exactly when its slot is valid and readable; then the universe is the stored one with start
      code 0, unmodified, and blackout and the saved entry are as they were. */
  lemma LoadLoads(c: State, slot: int, r: StorageReply)
    ensures var (d, outcome) := Execute(c, LoadCmd(slot), r);
            && (outcome == Ok <==> 0 <= slot < 8 && r.slot == Valid && r.loaded.Some?)
            && (outcome != Ok ==> d == c && Refuses(slot, r.slot, outcome))
            && (outcome == Ok ==>
                  && d.working[0] == 0 && (forall k :: 1 <= k < PACKET_SIZE ==> d.working[k] == r.loaded.value[k])
                  && d.loaded == slot + 1 && !d.modified
                  && d == c.(working := d.working, loaded := d.loaded, modified := false, revision := d.revision))
  {
  }

  /** The storage's own refusal of a write. */
  predicate WriteRefused(outcome: Outcome, r: StorageReply)
  {
    outcome == if r.noSpace then StorageFull else WriteFailed
  }

  /** No packet but those that name the slot is affected, live values never. */
  predicate OnlyProvenance(c: State, d: State)
  {
    && d.working == c.working && d.restore == c.restore && d.blackout == c.blackout && d.replacements == c.replacements
  }

  predicate Forgotten(c: State, d: State, slot: int)
  {
    && d.loaded == (if c.loaded == slot + 1 then 0 else c.loaded)
    && d.restoreLoaded == (if c.restoreLoaded == slot + 1 then 0 else c.restoreLoaded)
  }

  /** A save hands the working universe to the storage unless the slot already holds it; it fails exactly when the slot
      cannot be read or the write fails, and a write always ends what was known of the slot. */
  lemma SaveStores(c: State, slot: int, r: StorageReply)
    ensures var (d, outcome) := Execute(c, SaveCmd(slot), r);
            var readable := 0 <= slot < 8 && r.slot != ErrorSlot && (r.slot == Valid ==> r.loaded.Some?);
            var same := readable && r.slot == Valid && r.loaded.value == c.working;
            && OnlyProvenance(c, d)
            && (outcome == InvalidSlot <==> !(0 <= slot < 8)) && (outcome == ReadFailed <==> 0 <= slot < 8 && !readable)
            && (!readable || same ==> d == c) && (same ==> outcome == Ok)
            && (readable && !same ==>
                  && d.written == c.written + [SlotWrite(slot, Some(c.working))] && Forgotten(c, d, slot)
                  && (if r.wrote then outcome == Ok else WriteRefused(outcome, r)))
  {
  }

  /** A copy goes from a readable slot to a different, empty one, and hands over the source's values with start code
      0. */
  lemma CopyStores(c: State, slot: int, target: int, r: StorageReply)
    ensures var (d, outcome) := Execute(c, CopyCmd(slot, target), r);
            var inRange := 0 <= slot < 8 && 0 <= target < 8;
            var able := inRange && slot != target && r.slot == Valid && r.target == Missing && r.loaded.Some?;
            && OnlyProvenance(c, d) && d.loaded == c.loaded && d.restoreLoaded == c.restoreLoaded
            && (!able ==> d == c && outcome != Ok)
            && (outcome == SameSlot <==> inRange && slot == target && r.slot == Valid)
            && (outcome == InvalidSlot <==> !inRange)
            && (inRange && r.slot != Valid ==> Refuses(slot, r.slot, outcome))
            && (outcome == Occupied <==> inRange && slot != target && r.slot == Valid && r.target == Valid)
            && (inRange && slot != target && r.slot == Valid ==>
                  && (r.target == CorruptSlot ==> outcome == Corrupt)
                  && (r.target == ErrorSlot ==> outcome == ReadFailed)
                  && (r.target == Missing && r.loaded.None? ==> outcome == ReadFailed))
            && (able ==>
                  && d.written == c.written + [SlotWrite(target, Some(r.loaded.value[0 := 0]))]
                  && (if r.wrote then outcome == Ok else WriteRefused(outcome, r)))
  {
  }

  /** A clear has the storage erase a readable slot. */
  lemma ClearErases(c: State, slot: int, r: StorageReply)
    ensures var (d, outcome) := Execute(c, ClearCmd(slot), r);
            && OnlyProvenance(c, d)
            && (!(0 <= slot < 8 && r.slot == Valid) ==> d == c && Refuses(slot, r.slot, outcome) && outcome != Ok)
            && (0 <= slot < 8 && r.slot == Valid ==>
                  && d.written == c.written + [SlotWrite(slot, None)] && Forgotten(c, d, slot)
                  && (if r.wrote then outcome == Ok else WriteRefused(outcome, r)))
  {
  }

  /** Only the three slot commands hand slots to the storage. */
  lemma OthersWriteNoSlot(c: State, command: Command, r: StorageReply)
    ensures !command.SaveCmd? && !command.CopyCmd? && !command.ClearCmd? ==>
              Execute(c, command, r).0.written == c.written
  {
    hide SavePreset, CopyPreset, ClearPreset, Patched, PatchFault, PatchFits, HasNonZero;
  }

  /** Staging a text succeeds exactly when the presets are as they were, the gate is open and the text reads as an
      archive; what it says then waits under the next nonzero token. Otherwise nothing is staged any more. */
  lemma StageStages(c: State, text: string, base: nat, gateOpen: bool)
    ensures var (d, outcome) := StageArchive(c, text, base, gateOpen);
            var parsed := PresetArchive.Parse(text);
            && (outcome == ArchiveConflict <==> base != c.presetRevision)
            && (outcome == Ok <==> base == c.presetRevision && gateOpen && parsed.Some?)
            && (outcome == Ok || outcome == ArchiveConflict || outcome == InvalidPatch)
            && (outcome != Ok ==> d == c.(archiveToken := 0, archive := d.archive))
            && (outcome == Ok ==>
                  && d.archiveToken == (if c.archiveCounter >= 0xFFFF_FFFF then 1 else c.archiveCounter + 1)
                  && d == c.(archiveToken := d.archiveToken, archiveCounter := d.archiveToken, archiveBase := base,
                             archive := parsed.value))
  {
    hide PresetArchive.Parse;
  }

  /** A replace hands the staged collection over exactly when its token is the valid one, no preset was touched since
      it was staged and the gate is open; it tells how the storage ended. */
  lemma ReplaceReplaces(c: State, token: nat, r: StorageReply)
    ensures var (d, outcome) := Execute(c, ReplaceCmd(token), r);
            var able := token != 0 && token == c.archiveToken && c.archiveBase == c.presetRevision && r.gateOpen;
            && d.working == c.working && d.restore == c.restore && d.blackout == c.blackout
            && d.replacements == (if able then c.replacements + [c.archive] else c.replacements)
            && (outcome == Ok <==> able && r.replaced == Committed)
            && (outcome == ArchiveUncertain <==> able && r.replaced == Uncertain)
            && (able && r.replaced == CommitFailed ==>
                  WriteRefused(outcome, r) && d.loaded == c.loaded && d.presetRevision == c.presetRevision)
            && (able && r.replaced != CommitFailed ==>
                  && d.loaded == 0 && !d.modified && d.restoreLoaded == 0 && !d.restoreModified
                  && d.presetRevision == c.presetRevision + 1 && d.revision == c.revision + 1)
            && (outcome == ArchiveConflict <==>
                  token != 0 && token == c.archiveToken && c.archiveBase != c.presetRevision)
            && (token != 0 && token == c.archiveToken ==> d.archiveToken == 0)
            && (token == 0 || token != c.archiveToken ==> d == c && outcome == InvalidPatch)
            && (token != 0 && token == c.archiveToken && c.archiveBase == c.presetRevision && !r.gateOpen ==>
                  outcome == InvalidPatch)
  {
  }
}
