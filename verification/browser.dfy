/** What the bridge sends and what the browser makes of it: the event record, the browser's store,
    and the guards of its message handler. */
module Browser {
  import opened Types

  datatype Side = Settings | Maintenance | Wifi

  datatype Kind =
    Hello | Snapshot | ChannelUpdate | Universe | ModeUpdate | Ack | Error | Sided(side: Side) | ArchiveResult

  /** How a side request ended: it only subscribed, its client had not subscribed, or the service answered. */
  datatype Outcome = Plain | NotSubscribed | Given(code: nat)

  /** Events the owner task produces carry a sequence of at least 1; a refusal made on the HTTP task
      carries sequence 0 and revision 0. `values` and `presets` are empty unless the event is a full state. */
  datatype Event = Event(
    kind: Kind, sequence: nat, revision: nat, id: nat,
    blackout: bool, sender: bool, loaded: nat, modified: bool,
    channel: nat, value: Byte, values: seq<Byte>, presets: seq<Byte>, outcome: Outcome)

  /** Everything a browser shows, with the revision it belongs to. */
  datatype Shown = Shown(
    values: seq<Byte>, blackout: bool, loaded: nat, modified: bool, sender: bool, presets: seq<Byte>, revision: nat)

  datatype Page = Page(hello: bool, waiting: bool, fault: bool, sequence: Option<nat>, content: Option<Shown>,
                       revision: Option<nat>)

  function Connected(): Page
  {
    Page(false, true, false, None, None, None)
  }

  datatype Ordering = Stale | Resync | Ordered

  function Order(p: Page, e: Event): Ordering
  {
    if p.sequence.Some? && e.sequence <= p.sequence.value then Stale
    else if p.revision.Some? && e.revision < p.revision.value then Resync
    else Ordered
  }

  predicate FullState(k: Kind) { k.Snapshot? || k.Universe? }

  predicate StateKind(k: Kind) { k.Snapshot? || k.Universe? || k.ChannelUpdate? || k.ModeUpdate? }

  /** Preset metadata: eight slot states, 0 to 3. */
  predicate Inspected(presets: seq<Byte>)
  {
    |presets| == 8 && forall p :: p in presets ==> p <= 3
  }

  /** The schema checks on state messages. */
  predicate WellFormed(e: Event)
  {
    && e.sequence != 0 && e.loaded <= 8 && (e.loaded == 0 ==> !e.modified)
    && (FullState(e.kind) ==> |e.values| == 512 && Inspected(e.presets))
    && (e.kind.ChannelUpdate? ==> 1 <= e.channel <= 512)
    && (!e.kind.Snapshot? ==> e.id == 0)
  }

  /** The page content after a state message, given the content before. */
  function Advance(s: Shown, e: Event): Shown
  {
    Shown(if FullState(e.kind) then e.values
          else if e.kind.ChannelUpdate? && 1 <= e.channel <= |s.values| then s.values[e.channel - 1 := e.value]
          else s.values,
          e.blackout, e.loaded, e.modified, e.sender, if FullState(e.kind) then e.presets else s.presets, e.revision)
  }

  function Content(e: Event): Shown
  {
    Shown(e.values, e.blackout, e.loaded, e.modified, e.sender, e.presets, e.revision)
  }

  function Faulted(p: Page): Page
  {
    p.(fault := true)
  }

  /** The message handler. Every guard that drops a connection, asks for a new snapshot or ignores a
      stale state message is a fault here. */
  function Receive(p: Page, e: Event): Page
  {
    if p.fault then p
    else match e.kind
      case Sided(_) => p
      case ArchiveResult => p
      case Error => p
      case Ack => if p.revision.None? || e.revision > p.revision.value then Faulted(p) else p
      case Hello =>
        if p.hello || Order(p, e) != Ordered || e.sequence == 0 then Faulted(p)
        else p.(hello := true, sequence := Some(e.sequence), revision := Some(e.revision))
      case _ =>
        if !p.hello || !WellFormed(e) || Order(p, e) != Ordered then Faulted(p)
        else if e.kind.Snapshot? then
          p.(waiting := false, sequence := Some(e.sequence), content := Some(Content(e)), revision := Some(e.revision))
        else if p.waiting || p.content.None? then Faulted(p)
        else p.(sequence := Some(e.sequence), content := Some(Advance(p.content.value, e)),
                revision := Some(e.revision))
  }

  /** The page after a whole stream of events, oldest first. */
  function Fold(events: seq<Event>): Page
  {
    if events == [] then Connected() else Receive(Fold(events[..|events| - 1]), events[|events| - 1])
  }

  lemma FoldAppend(events: seq<Event>, e: Event)
    ensures Fold(events + [e]) == Receive(Fold(events), e)
  {
    assert (events + [e])[..|events|] == events;
  }

  /** A fault is never forgotten, so a stream without one has none in any prefix. */
  lemma {:induction false} FaultStays(events: seq<Event>, n: nat)
    requires n <= |events| && !Fold(events).fault
    ensures !Fold(events[..n]).fault
  {
    if n == |events| {
      assert events[..n] == events;
    } else {
      var shorter := events[..|events| - 1];
      FaultStays(shorter, n);
      assert shorter[..n] == events[..n];
    }
  }

  /** Out of order: not newer than the last message seen, or of an older revision. */
  predicate Late(p: Page, e: Event)
  {
    || (p.sequence.Some? && e.sequence <= p.sequence.value)
    || (p.revision.Some? && e.revision < p.revision.value)
  }

  predicate Unfit(p: Page, e: Event)
  {
    !p.hello || Late(p, e) || e.sequence == 0 || e.loaded > 8 || (e.loaded == 0 && e.modified)
  }

  predicate NotAState(e: Event)
  {
    |e.values| != 512 || |e.presets| != 8 || (exists x :: x in e.presets && x > 3)
  }

  predicate Unexpected(p: Page, e: Event)
  {
    p.waiting || p.content.None? || e.id != 0
  }

  /** Exactly when a guard fires. An acknowledgement ahead of the state seen, a second hello, a state message before
      hello, late or ill-formed, an update before the first snapshot. */
  lemma GuardsFire(p: Page, e: Event)
    requires !p.fault
    ensures Receive(p, e).fault <==>
              match e.kind
              case Ack => p.revision.None? || e.revision > p.revision.value
              case Hello => p.hello || Late(p, e) || e.sequence == 0
              case Sided(_) => false
              case ArchiveResult => false
              case Error => false
              case Snapshot => Unfit(p, e) || NotAState(e)
              case Universe => Unfit(p, e) || NotAState(e) || Unexpected(p, e)
              case ChannelUpdate => Unfit(p, e) || e.channel < 1 || e.channel > 512 || Unexpected(p, e)
              case ModeUpdate => Unfit(p, e) || Unexpected(p, e)
  {
  }

  /** What an accepted message leaves on the page: a full state all of it, an update what it names, an answer
      nothing. */
  lemma AcceptedTells(p: Page, e: Event)
    requires !p.fault && !Receive(p, e).fault
    ensures var q := Receive(p, e);
            && (!StateKind(e.kind) && e.kind != Hello ==> q == p)
            && (e.kind == Hello ==> q == p.(hello := true, sequence := Some(e.sequence), revision := Some(e.revision)))
            && (StateKind(e.kind) ==>
                  && q.hello && !q.waiting && q.sequence == Some(e.sequence) && q.revision == Some(e.revision)
                  && q.content.Some?
                  && var s := q.content.value;
                  && s.blackout == e.blackout && s.loaded == e.loaded && s.modified == e.modified
                  && s.sender == e.sender && s.revision == e.revision
                  && (FullState(e.kind) ==> s.values == e.values && s.presets == e.presets)
                  && (!FullState(e.kind) ==>
                        && p.content.Some? && s.presets == p.content.value.presets
                        && |s.values| == |p.content.value.values|
                        && forall k :: 0 <= k < |s.values| ==>
                             s.values[k] == if e.kind == ChannelUpdate && k == e.channel - 1 then e.value
                                            else p.content.value.values[k]))
  {
  }

  /** The page shows exactly `s`: synchronized, nothing refused, nothing missed. */
  ghost predicate Shows(p: Page, s: Shown, bound: nat)
  {
    && !p.fault && p.hello && !p.waiting
    && p.content == Some(s) && p.revision == Some(s.revision)
    && p.sequence.Some? && p.sequence.value <= bound
  }

  /** The browser's store together with the message handler's flags. A full state replaces the values by a new
      array; a channel update writes one of them in place. */
  class Store {
    var hello: bool
    var waiting: bool
    var fault: bool
    var sequence: Option<nat>
    var revision: Option<nat>
    var ready: bool
    var values: array<Byte>
    var presets: seq<Byte>
    var blackout: bool
    var sender: bool
    var loaded: nat
    var modified: bool
    ghost var shownRevision: nat

    ghost predicate Valid()
      reads this
    {
      values.Length == 512
    }

    ghost function View(): Page
      requires Valid()
      reads this, values
    {
      Page(hello, waiting, fault, sequence,
           if ready then Some(Shown(values[..], blackout, loaded, modified, sender, presets, shownRevision))
           else None, revision)
    }

    constructor ()
      ensures Valid() && View() == Connected()
    {
      hello, waiting, fault, sequence, revision, ready := false, true, false, None, None, false;
      values := new Byte[512](_ => 0);
      presets, blackout, sender, loaded, modified, shownRevision := [], false, false, 0, false, 0;
    }

    method InOrder(e: Event) returns (ordering: Ordering)
      requires Valid()
      ensures ordering == Order(View(), e)
    {
      if sequence.Some? && e.sequence <= sequence.value { return Stale; }
      if revision.Some? && e.revision < revision.value { return Resync; }
      return Ordered;
    }

    method Draw(e: Event)
      requires Valid() && StateKind(e.kind) && WellFormed(e)
      modifies this`values, this`presets, values
      ensures Valid() && presets == if FullState(e.kind) then e.presets else old(presets)
      ensures values[..] == if FullState(e.kind) then e.values
                            else if e.kind.ChannelUpdate? then old(values[..])[e.channel - 1 := e.value]
                            else old(values[..])
    {
      if FullState(e.kind) {
        values := new Byte[512](i requires 0 <= i < 512 => e.values[i]);
        assert values[..] == e.values;
        presets := e.presets;
      } else if e.kind.ChannelUpdate? {
        values[e.channel - 1] := e.value;
      }
    }

    /** `apply` on a state message that is in order. */
    method Apply(e: Event)
      requires Valid() && StateKind(e.kind) && WellFormed(e) && (e.kind.Snapshot? || ready)
      modifies this, values
      ensures Valid() && fault == old(fault) && hello == old(hello) && waiting == old(waiting) && ready
      ensures sequence == Some(e.sequence) && revision == Some(e.revision)
      ensures Some(if e.kind.Snapshot? then Content(e) else Advance(old(View()).content.value, e)) == View().content
    {
      hide WellFormed;
      Draw(e);
      blackout, sender, loaded, modified := e.blackout, e.sender, e.loaded, e.modified;
      if e.kind.Snapshot? { ready := true; }
      revision, sequence, shownRevision := Some(e.revision), Some(e.sequence), e.revision;
      ChannelInRange(e);
    }

    static lemma ChannelInRange(e: Event)
      requires StateKind(e.kind) && WellFormed(e)
      ensures e.kind.ChannelUpdate? ==> 1 <= e.channel <= 512
    {
    }

    method Handle(e: Event)
      requires Valid()
      modifies this, values
      ensures Valid() && View() == Receive(old(View()), e)
    {
      if fault || e.kind.Sided? || e.kind.ArchiveResult? || e.kind.Error? { return; }
      if e.kind.Ack? {
        if revision.None? || e.revision > revision.value { fault := true; }
        return;
      }
      var ordering := InOrder(e);
      if e.kind.Hello? {
        if hello || ordering != Ordered || e.sequence == 0 { fault := true; return; }
        hello, sequence, revision := true, Some(e.sequence), Some(e.revision);
        return;
      }
      if !hello || !WellFormed(e) || ordering != Ordered { fault := true; return; }
      if !e.kind.Snapshot? && (waiting || !ready) { fault := true; return; }
      Apply(e);
      if e.kind.Snapshot? { waiting := false; }
    }
  }
}
