/** Device settings: three values applied to the hardware at once, stored when asked to, and
    previewed by one remote gesture at a time. */
module DeviceSettings {
  import opened Types

  const KEYS: nat := 3
  const BRIGHTNESS: nat := 0
  const VOLUME: nat := 2
  const IDLE_MS: nat := 10000
  const GESTURE_MS: nat := 30000

  datatype Preview = Preview(owner: nat, gesture: nat, started: U32, touched: U32, key: nat, value: Byte, saved: bool)

  /** What a client is told apart from the revision. */
  datatype Visible = Visible(values: seq<Byte>, persisted: set<nat>)

  /** What storage really holds and what each hardware setting was last given. */
  datatype Device = Device(stored: seq<Option<Byte>>, applied: seq<Byte>)

  /** `entry` is history: what was visible when the gesture in progress began. */
  datatype State = State(revision: nat, values: seq<Byte>, persisted: set<nat>, durable: seq<Byte>, known: set<nat>,
                         pending: set<nat>, preview: Preview, device: Device, entry: Visible)

  datatype Outcome = Applied | NoChange | StorageError | Invalid | Conflict

  /** What befalls a write: a write that reports failure may have taken effect. */
  datatype WriteFault = WriteFault(ok: bool, effect: bool)

  predicate Fits(key: nat, value: nat)
  {
    key < KEYS && value <= (if key == BRIGHTNESS then 5 else 4) && (key == BRIGHTNESS ==> value >= 1)
  }

  predicate Shaped(s: State)
  {
    |s.values| == KEYS && |s.durable| == KEYS && |s.device.stored| == KEYS && |s.device.applied| == KEYS
  }

  function Look(s: State): Visible
  {
    Visible(s.values, s.persisted)
  }

  function Idle(): Preview
  {
    Preview(0, 0, 0, 0, 0, 0, false)
  }

  function PowerUp(stored: seq<Option<Byte>>, applied: seq<Byte>): State
  {
    State(1, [3, 3, 2], {}, [0, 0, 0], {}, {}, Idle(), Device(stored, applied), Visible([3, 3, 2], {}))
  }

  function Given(device: Device, key: nat, value: Byte): Device
    requires key < |device.applied|
  {
    device.(applied := device.applied[key := value])
  }

  function Written(device: Device, key: nat, value: Byte, f: WriteFault): Device
    requires key < |device.stored|
  {
    if f.ok || f.effect then device.(stored := device.stored[key := Some(value)]) else device
  }

  /** A stored value out of range is replaced, an old volume of more than 4 by 4. */
  function Loaded(key: nat, value: Byte): Byte
  {
    if Fits(key, value) then value else if key == VOLUME then 4 else 3
  }

  /** One key of `begin`; `readable` says whether the storage answered. */
  function BeginKey(s: State, key: nat, readable: bool): (e: State)
    requires Shaped(s) && key < KEYS
    ensures Shaped(e)
  {
    if readable && s.device.stored[key].Some? then
      var value := s.device.stored[key].value;
      var u := if Fits(key, value)
               then s.(durable := s.durable[key := value], known := s.known + {key}, persisted := s.persisted + {key})
               else s;
      u.(values := u.values[key := Loaded(key, value)], device := Given(u.device, key, Loaded(key, value)))
    else s.(device := Given(s.device, key, s.values[key]))
  }

  function BeginUpTo(s: State, n: nat, readable: nat -> bool): (e: State)
    requires Shaped(s) && n <= KEYS
    ensures Shaped(e)
  {
    if n == 0 then s else BeginKey(BeginUpTo(s, n - 1, readable), n - 1, readable(n - 1))
  }

  function Begin(s: State, readable: nat -> bool): (e: State)
    requires Shaped(s)
    ensures Shaped(e)
  {
    BeginUpTo(s, KEYS, readable)
  }

  function Cancelled(s: State): (e: State)
    requires Shaped(s) && (s.preview.owner != 0 ==> s.preview.key < KEYS)
    ensures Shaped(e)
  {
    if s.preview.owner == 0 then s
    else
      var key := s.preview.key;
      s.(preview := s.preview.(owner := 0),
         device := if s.values[key] != s.preview.value then Given(s.device, key, s.preview.value) else s.device,
         values := s.values[key := s.preview.value],
         persisted := if s.preview.saved then s.persisted + {key} else s.persisted - {key},
         revision := s.revision + 1)
  }

  /** A value known to be stored is not written again. */
  function Commit(s: State, key: nat, f: WriteFault): (r: (State, Outcome))
    requires Shaped(s) && key < KEYS
    ensures Shaped(r.0)
  {
    var u := s.(pending := s.pending - {key});
    if key in u.known && u.durable[key] == u.values[key] then
      (u.(persisted := u.persisted + {key}, revision := u.revision + 1), Applied)
    else
      var w := u.(device := Written(u.device, key, u.values[key], f));
      if f.ok then
        (w.(durable := w.durable[key := w.values[key]], known := w.known + {key},
            persisted := w.persisted + {key}, revision := w.revision + 1), Applied)
      else (w.(known := w.known - {key}), StorageError)
  }

  function Moved(s: State, key: nat, value: Byte): (e: State)
    requires Shaped(s) && key < KEYS
    ensures Shaped(e)
  {
    s.(values := s.values[key := value], persisted := s.persisted - {key}, revision := s.revision + 1,
       device := Given(s.device, key, value))
  }

  function Set(s: State, key: nat, value: nat, persist: bool, f: WriteFault): (r: (State, Outcome))
    requires Inv(s)
    ensures Shaped(r.0)
  {
    if !Fits(key, value) then (s, Invalid)
    else
      var c := Cancelled(s);
      if c.values[key] == value then (c, NoChange)
      else
        var m := Moved(c, key, value).(pending := c.pending + {key});
        if persist then Commit(m, key, f) else (m, Applied)
  }

  function CommitIfPending(s: State, key: nat, f: WriteFault): (e: State)
    requires Shaped(s) && key < KEYS
    ensures Shaped(e)
  {
    if key in s.pending then Commit(s, key, f).0 else s
  }

  function CommitUpTo(s: State, n: nat, f: nat -> WriteFault): (e: State)
    requires Shaped(s) && n <= KEYS
    ensures Shaped(e)
  {
    if n == 0 then s else CommitIfPending(CommitUpTo(s, n - 1, f), n - 1, f(n - 1))
  }

  function CommitPending(s: State, f: nat -> WriteFault): (e: State)
    requires Shaped(s)
    ensures Shaped(e)
  {
    CommitUpTo(s, KEYS, f)
  }

  predicate Expired(p: Preview, now: U32, alive: bool)
  {
    p.owner != 0 && (!alive || Elapsed(now, p.touched) >= IDLE_MS || Elapsed(now, p.started) >= GESTURE_MS)
  }

  function Serviced(s: State, now: U32, alive: bool): (e: State)
    requires Inv(s)
    ensures Shaped(e)
  {
    if Expired(s.preview, now, alive) then Cancelled(s) else s
  }

  datatype Operation = NoEdit | PreviewEdit | CommitEdit | CancelEdit

  datatype Request = Request(operation: Operation, owner: nat, gesture: nat, key: nat, value: nat, base: nat,
                             first: bool)

  predicate WellMade(r: Request)
  {
    && r.owner != 0 && r.gesture != 0 && r.key < KEYS && !r.operation.NoEdit?
    && (r.operation.PreviewEdit? ==> Fits(r.key, r.value))
  }

  predicate Owns(p: Preview, r: Request)
  {
    p.owner == r.owner && p.gesture == r.gesture && p.key == r.key
  }

  /** A first preview opens a gesture and remembers what it will have to put back. */
  function Opened(s: State, r: Request, now: U32): (e: State)
    requires Inv(s) && r.key < KEYS
    ensures Shaped(e)
  {
    var c := Cancelled(s);
    c.(preview := Preview(r.owner, r.gesture, now, now, r.key, c.values[r.key], r.key in c.persisted), entry := Look(c))
  }

  function Carried(s: State, r: Request, now: U32, f: WriteFault): (p: (State, Outcome))
    requires Shaped(s) && WellMade(r) && (s.preview.owner != 0 ==> s.preview.key < KEYS)
    ensures Shaped(p.0)
  {
    if r.operation.CancelEdit? then (Cancelled(s), Applied)
    else if r.operation.CommitEdit? then Commit(s.(preview := s.preview.(owner := 0)), r.key, f)
    else
      var t := s.(preview := s.preview.(touched := now));
      if t.values[r.key] == r.value then (t, NoChange)
      else (Moved(t, r.key, r.value), Applied)
  }

  function Edit(s: State, r: Request, now: U32, f: WriteFault): (p: (State, Outcome))
    requires Inv(s)
    ensures Shaped(p.0)
  {
    if !WellMade(r) then (s, Invalid)
    else
      ServicedKeepsInv(s, now, true);
      var t := Serviced(s, now, true);
      if r.operation.PreviewEdit? && r.first then
        if r.base != t.revision || t.pending != {} then (t, Conflict) else Carried(Opened(t, r, now), r, now, f)
      else if !Owns(t.preview, r) || (!r.operation.CancelEdit? && r.base != t.revision) then (t, Conflict)
      else Carried(t, r, now, f)
  }

  // ---------------------------------------------------------------------------------------
  // What always holds

  /** The hardware shows what is reported, and a persisted bit tells the truth about storage. */
  ghost predicate Coherent(s: State)
  {
    && Shaped(s) && s.device.applied == s.values
    && (forall k :: 0 <= k < KEYS ==> Fits(k, s.values[k]))
    && (forall k :: k in s.persisted || k in s.pending || k in s.known ==> 0 <= k < KEYS)
    && (forall k :: 0 <= k < KEYS && k in s.known ==> s.device.stored[k] == Some(s.durable[k]))
    && (forall k :: 0 <= k < KEYS && k in s.persisted ==> k in s.known && s.durable[k] == s.values[k])
  }

  /** A gesture excludes pending writes and has moved nothing but its own key. */
  ghost predicate Gesture(s: State)
    requires Shaped(s)
  {
    s.preview.owner != 0 ==>
      var key := s.preview.key;
      && key < KEYS && s.pending == {} && Fits(key, s.preview.value)
      && |s.entry.values| == KEYS && s.preview.value == s.entry.values[key]
      && s.entry.values == s.values[key := s.preview.value]
      && s.entry.persisted == (if s.preview.saved then s.persisted + {key} else s.persisted - {key})
      && (s.preview.saved ==> key in s.known && s.durable[key] == s.preview.value)
  }

  ghost predicate Inv(s: State)
  {
    Coherent(s) && Gesture(s)
  }

  /** `begin` has dealt with the keys below `n`. */
  ghost predicate BegunTo(s: State, n: nat)
  {
    && Shaped(s) && s.preview.owner == 0 && s.pending == {}
    && (forall k :: 0 <= k < KEYS ==> Fits(k, s.values[k]) && (k < n ==> s.device.applied[k] == s.values[k]))
    && (forall k :: k in s.persisted ==> k in s.known)
    && (forall k :: k in s.known ==>
        0 <= k < n && k < KEYS && s.device.stored[k] == Some(s.durable[k]) && s.durable[k] == s.values[k])
  }

  lemma BeginKeyKeeps(s: State, key: nat, readable: bool)
    requires BegunTo(s, key) && key < KEYS
    ensures BegunTo(BeginKey(s, key, readable), key + 1)
  {
  }

  lemma BegunAll(s: State)
    requires BegunTo(s, KEYS)
    ensures Inv(s)
  {
    assert s.device.applied == s.values;
  }

  lemma {:induction false} BeginUpToKeeps(s: State, n: nat, readable: nat -> bool)
    requires BegunTo(s, 0) && n <= KEYS
    ensures BegunTo(BeginUpTo(s, n, readable), n)
  {
    hide BeginKey;
    if n > 0 {
      BeginUpToKeeps(s, n - 1, readable);
      BeginKeyKeeps(BeginUpTo(s, n - 1, readable), n - 1, readable(n - 1));
    }
  }

  lemma BeginKeepsInv(stored: seq<Option<Byte>>, applied: seq<Byte>, readable: nat -> bool)
    requires |stored| == |applied| == KEYS
    ensures Inv(Begin(PowerUp(stored, applied), readable))
  {
    hide BeginUpTo, Inv;
    BeginUpToKeeps(PowerUp(stored, applied), KEYS, readable);
    BegunAll(Begin(PowerUp(stored, applied), readable));
  }

  /** Cancelling puts back exactly what was visible when the gesture began: values, bits and hardware. */
  lemma CancelRestores(s: State)
    requires Inv(s)
    ensures var e := Cancelled(s);
            Inv(e) && e.preview.owner == 0
                && (s.preview.owner != 0 ==> Look(e) == s.entry && e.device.applied == s.entry.values)
  {
  }

  lemma ServicedKeepsInv(s: State, now: U32, alive: bool)
    requires Inv(s)
    ensures Inv(Serviced(s, now, alive))
  {
    CancelRestores(s);
  }

  lemma CommitKeepsInv(s: State, key: nat, f: WriteFault)
    requires Coherent(s) && s.preview.owner == 0 && key < KEYS
    ensures Inv(Commit(s, key, f).0) && Commit(s, key, f).0.preview.owner == 0
  {
  }

  lemma MovedKeepsCoherent(s: State, key: nat, value: Byte)
    requires Coherent(s) && Fits(key, value)
    ensures Coherent(Moved(s, key, value))
  {
  }

  lemma SetKeepsInv(s: State, key: nat, value: nat, persist: bool, f: WriteFault)
    requires Inv(s)
    ensures Inv(Set(s, key, value, persist, f).0)
  {
    hide Commit;
    if Fits(key, value) {
      var c := Cancelled(s);
      CancelRestores(s);
      if c.values[key] != value {
        var m := Moved(c, key, value);
        MovedKeepsCoherent(c, key, value);
        PendingKeepsCoherent(c, m, key);
        CommitKeepsInv(m.(pending := c.pending + {key}), key, f);
      }
    }
  }

  lemma PendingKeepsCoherent(c: State, m: State, key: nat)
    requires Coherent(c) && Coherent(m) && key < KEYS
    ensures Coherent(m.(pending := c.pending + {key}))
  {
  }

  lemma {:induction false} CommitUpToKeepsInv(s: State, n: nat, f: nat -> WriteFault)
    requires Inv(s) && n <= KEYS
    ensures var e := CommitUpTo(s, n, f);
            if s.preview.owner == 0 then Inv(e) && e.preview.owner == 0 else e == s
  {
    hide Commit;
    if n > 0 {
      CommitUpToKeepsInv(s, n - 1, f);
      if s.preview.owner == 0 { CommitOneKeepsInv(CommitUpTo(s, n - 1, f), n - 1, f(n - 1)); }
    }
  }

  lemma CommitPendingKeepsInv(s: State, f: nat -> WriteFault)
    requires Inv(s)
    ensures Inv(CommitPending(s, f))
  {
    hide Inv;
    CommitUpToKeepsInv(s, KEYS, f);
  }

  lemma CommitOneKeepsInv(s: State, key: nat, f: WriteFault)
    requires Inv(s) && s.preview.owner == 0 && key < KEYS
    ensures Inv(CommitIfPending(s, key, f)) && CommitIfPending(s, key, f).preview.owner == 0
  {
    hide Commit;
    CommitKeepsInv(s, key, f);
  }

  lemma OpenedKeepsInv(s: State, r: Request, now: U32)
    requires Inv(s) && r.key < KEYS && s.pending == {}
    ensures Inv(Opened(s, r, now))
  {
    CancelRestores(s);
    var c := Cancelled(s);
    assert c.values[r.key := c.values[r.key]] == c.values;
  }

  lemma CarriedKeepsInv(s: State, r: Request, now: U32, f: WriteFault)
    requires Inv(s) && WellMade(r) && Owns(s.preview, r)
    ensures Inv(Carried(s, r, now, f).0)
  {
    CancelRestores(s);
    if r.operation.CommitEdit? {
      CommitKeepsInv(s.(preview := s.preview.(owner := 0)), r.key, f);
    } else if r.operation.PreviewEdit? {
      PreviewedKeepsInv(s.(preview := s.preview.(touched := now)), r);
    }
  }

  lemma PreviewedKeepsInv(t: State, r: Request)
    requires Inv(t) && WellMade(r) && Owns(t.preview, r) && r.operation.PreviewEdit?
    ensures Inv(Moved(t, r.key, r.value))
  {
    MovedKeepsCoherent(t, r.key, r.value);
    var m := Moved(t, r.key, r.value);
    assert m.values[r.key := t.preview.value] == t.values[r.key := t.preview.value];
  }

  lemma EditKeepsInv(s: State, r: Request, now: U32, f: WriteFault)
    requires Inv(s)
    ensures Inv(Edit(s, r, now, f).0)
  {
    hide Inv, Carried, Opened, Serviced;
    if WellMade(r) {
      ServicedKeepsInv(s, now, true);
      var t := Serviced(s, now, true);
      if r.operation.PreviewEdit? && r.first {
        if r.base == t.revision && t.pending == {} {
          OpenedKeepsInv(t, r, now);
          OpenedOwns(t, r, now);
          CarriedKeepsInv(Opened(t, r, now), r, now, f);
        }
      } else if Owns(t.preview, r) {
        CarriedKeepsInv(t, r, now, f);
      }
    }
  }

  lemma OpenedOwns(s: State, r: Request, now: U32)
    requires Inv(s) && r.key < KEYS
    ensures Owns(Opened(s, r, now).preview, r)
  {
  }

  // ---------------------------------------------------------------------------------------
  // Whole runs

  datatype Step =
    | SetStep(key: nat, value: nat, persist: bool, fault: WriteFault)
    | CommitPendingStep(faults: nat -> WriteFault)
    | ServiceStep(now: U32, alive: bool)
    | EditStep(request: Request, at: U32, editFault: WriteFault)
    | MaintenanceStep

  function Next(s: State, step: Step): (e: State)
    requires Inv(s)
    ensures Inv(e)
  {
    StepKeepsInv(s, step);
    match step
    case SetStep(key, value, persist, f) => Set(s, key, value, persist, f).0
    case CommitPendingStep(f) => CommitPending(s, f)
    case ServiceStep(now, alive) => Serviced(s, now, alive)
    case EditStep(r, now, f) => Edit(s, r, now, f).0
    case MaintenanceStep => Cancelled(s)
  }

  lemma StepKeepsInv(s: State, step: Step)
    requires Inv(s)
    ensures match step
            case SetStep(key, value, persist, f) => Inv(Set(s, key, value, persist, f).0)
            case CommitPendingStep(f) => Inv(CommitPending(s, f))
            case ServiceStep(now, alive) => Inv(Serviced(s, now, alive))
            case EditStep(r, now, f) => Inv(Edit(s, r, now, f).0)
            case MaintenanceStep => Inv(Cancelled(s))
  {
    hide Inv, Set, CommitPending, Serviced, Edit, Cancelled;
    match step
    case SetStep(key, value, persist, f) => SetKeepsInv(s, key, value, persist, f);
    case CommitPendingStep(f) => CommitPendingKeepsInv(s, f);
    case ServiceStep(now, alive) => ServicedKeepsInv(s, now, alive);
    case EditStep(r, now, f) => EditKeepsInv(s, r, now, f);
    case MaintenanceStep => CancelRestores(s);
  }

  function Run(s: State, steps: seq<Step>): (e: State)
    requires Inv(s)
    ensures Inv(e)
    decreases |steps|
  {
    if steps == [] then s else Run(Next(s, steps[0]), steps[1..])
  }

  /** After any run the hardware shows what is reported, and a persisted bit means storage holds just that value. */
  lemma PersistedIsStored(s: State, steps: seq<Step>, key: nat)
    requires Inv(s) && key < KEYS
    ensures var e := Run(s, steps);
            && e.device.applied == e.values && Fits(key, e.values[key])
            && (key in e.persisted ==> e.device.stored[key] == Some(e.values[key]))
            && (e.preview.owner != 0 ==> e.pending == {})
  {
    assert Inv(Run(s, steps));
  }

  /** The revision is a change detector. */
  predicate ChangeShows(s: State, e: State)
  {
    s.revision <= e.revision && (e.revision == s.revision ==> Look(e) == Look(s))
  }

  lemma {:induction false} CommitUpToShows(s: State, n: nat, f: nat -> WriteFault)
    requires Shaped(s) && n <= KEYS
    ensures ChangeShows(s, CommitUpTo(s, n, f)) && CommitUpTo(s, n, f).entry == s.entry
  {
    hide Commit;
    if n > 0 {
      CommitUpToShows(s, n - 1, f);
      CommitShows(CommitUpTo(s, n - 1, f), n - 1, f(n - 1));
    }
  }

  lemma CommitShows(s: State, key: nat, f: WriteFault)
    requires Shaped(s) && key < KEYS
    ensures ChangeShows(s, Commit(s, key, f).0) && Commit(s, key, f).0.entry == s.entry
  {
  }

  lemma SetShows(s: State, key: nat, value: nat, persist: bool, f: WriteFault)
    requires Inv(s)
    ensures ChangeShows(s, Set(s, key, value, persist, f).0)
  {
    hide Commit;
    if Fits(key, value) {
      var c := Cancelled(s);
      if c.values[key] != value { CommitShows(Moved(c, key, value).(pending := c.pending + {key}), key, f); }
    }
  }

  lemma EditShows(s: State, r: Request, now: U32, f: WriteFault)
    requires Inv(s)
    ensures ChangeShows(s, Edit(s, r, now, f).0)
  {
    hide Commit, Inv;
    if WellMade(r) {
      ServicedKeepsInv(s, now, true);
      var t := Serviced(s, now, true);
      CommitShows(t.(preview := t.preview.(owner := 0)), r.key, f);
    }
  }

  lemma InvShaped(s: State)
    requires Inv(s)
    ensures Shaped(s)
  {
  }

  lemma {:induction false} RevisionDetectsChange(s: State, steps: seq<Step>)
    requires Inv(s)
    ensures ChangeShows(s, Run(s, steps))
    decreases |steps|
  {
    hide Inv, Set, CommitUpTo, Edit;
    if steps != [] {
      match steps[0] {
        case SetStep(key, value, persist, f) => SetShows(s, key, value, persist, f);
        case CommitPendingStep(f) => InvShaped(s); CommitUpToShows(s, KEYS, f);
        case ServiceStep(now, alive) =>
        case EditStep(r, now, f) => EditShows(s, r, now, f);
        case MaintenanceStep =>
      }
      RevisionDetectsChange(Next(s, steps[0]), steps[1..]);
    }
  }

  // ---------------------------------------------------------------------------------------
  // What results mean

  /** Applied with persistence means stored; a storage error leaves the new value in effect, not marked as
      stored, and sure to be written again. */
  lemma SetTells(s: State, key: nat, value: nat, persist: bool, f: WriteFault)
    requires Inv(s)
    ensures var (e, outcome) := Set(s, key, value, persist, f);
            && (outcome.Invalid? <==> !Fits(key, value)) && (outcome.Invalid? ==> e == s)
            && (!outcome.Invalid? ==> e.preview.owner == 0 && e.values[key] == value && e.device.applied[key] == value)
            && (outcome.Applied? ==> if persist then key in e.persisted && e.device.stored[key] == Some(value)
                                     else key in e.pending && key !in e.persisted)
            && (outcome.NoChange? <==>
                  Fits(key, value) && (if s.preview.owner != 0 then s.entry.values else s.values)[key] == value)
            && !outcome.Conflict?
            && (outcome.StorageError? ==> persist && key !in e.persisted && key !in e.known && key !in e.pending)
  {
    SetKeepsInv(s, key, value, persist, f);
    CancelRestores(s);
  }

  /** Only the gesture's owner can go on with it; anyone else changes nothing, beyond the expiry that was due. */
  lemma OthersChangeNothing(s: State, r: Request, now: U32, f: WriteFault)
    requires Inv(s) && !Owns(Serviced(s, now, true).preview, r) && !(r.operation.PreviewEdit? && r.first)
    ensures var (e, outcome) := Edit(s, r, now, f);
            (outcome.Invalid? && e == s) || (outcome.Conflict? && e == Serviced(s, now, true))
  {
  }

  /** A gesture that is still open after servicing is alive, was touched in the last 10 s and is less than 30 s old. */
  lemma ServiceExpires(s: State, now: U32, alive: bool)
    requires Inv(s) && Serviced(s, now, alive).preview.owner != 0
    ensures alive && Elapsed(now, s.preview.touched) < IDLE_MS && Elapsed(now, s.preview.started) < GESTURE_MS
  {
  }

  // ---------------------------------------------------------------------------------------
  // What the operations are for

  predicate InRange(key: nat, value: int)
  {
    match key
    case 0 => 1 <= value <= 5
    case 1 => 0 <= value <= 4
    case 2 => 0 <= value <= 4
    case _ => false
  }

  /** What key `key` shows after `begin` with `stored` in storage. */
  predicate StartsWith(e: State, key: nat, stored: Option<Byte>)
    requires Shaped(e) && key < KEYS
  {
    var starts: nat := match stored
                       case None => [3, 3, 2][key]
                       case Some(value) => if InRange(key, value) then value else [3, 3, 4][key];
    && e.values[key] == starts && e.device.applied[key] == starts
    && (key in e.persisted <==> stored.Some? && InRange(key, stored.value))
  }

  function Readable(stored: seq<Option<Byte>>, key: nat, readable: nat -> bool): Option<Byte>
    requires key < |stored|
  {
    if readable(key) then stored[key] else None
  }

  lemma BeginKeyTells(s: State, key: nat, k: nat, readable: bool)
    requires BegunTo(s, key) && key < KEYS && k < KEYS
    ensures var e := BeginKey(s, key, readable);
            && e.device.stored == s.device.stored && e.revision == s.revision
            && (if k == key then s.values[key] == [3, 3, 2][key] && key !in s.persisted ==>
                               StartsWith(e, key, if readable then s.device.stored[key] else None)
                else e.values[k] == s.values[k] && e.device.applied[k] == s.device.applied[k]
                     && (k in e.persisted <==> k in s.persisted))
  {
  }

  lemma {:induction false} BeginUpToTells(s: State, n: nat, k: nat, readable: nat -> bool)
    requires BegunTo(s, 0) && s.values == [3, 3, 2] && s.persisted == {} && n <= KEYS && k < KEYS
    ensures var e := BeginUpTo(s, n, readable);
            && e.device.stored == s.device.stored && e.revision == s.revision
            && (if k < n then StartsWith(e, k, Readable(s.device.stored, k, readable))
                else e.values[k] == s.values[k] && k !in e.persisted)
  {
    hide BeginKey, StartsWith, InRange;
    if n > 0 {
      BeginUpToTells(s, n - 1, k, readable);
      BeginUpToKeeps(s, n - 1, readable);
      var u := BeginUpTo(s, n - 1, readable);
      BeginKeyTells(u, n - 1, k, readable(n - 1));
      if k < n - 1 { StartsAlike(u, BeginUpTo(s, n, readable), k, Readable(s.device.stored, k, readable)); }
    }
  }

  lemma StartsAlike(s: State, e: State, key: nat, stored: Option<Byte>)
    requires Shaped(s) && Shaped(e) && key < KEYS && StartsWith(s, key, stored)
    requires e.values[key] == s.values[key] && e.device.applied[key] == s.device.applied[key]
    requires key in e.persisted <==> key in s.persisted
    ensures StartsWith(e, key, stored)
  {
  }

  /** `begin` puts a stored value that can be read and is in range into effect, as persisted; out of range it is
      replaced, and without one the default is applied. Nothing is written. */
  lemma BeginTells(stored: seq<Option<Byte>>, applied: seq<Byte>, readable: nat -> bool, key: nat)
    requires |stored| == |applied| == KEYS && key < KEYS
    ensures var e := Begin(PowerUp(stored, applied), readable);
            && StartsWith(e, key, Readable(stored, key, readable))
            && e.device.stored == stored && e.pending == {} && e.preview.owner == 0 && e.revision == 1
  {
    hide BeginUpTo, StartsWith;
    BeginUpToTells(PowerUp(stored, applied), KEYS, key, readable);
    BeginUpToKeeps(PowerUp(stored, applied), KEYS, readable);
  }

  /** Every pending key is written once, and no key is pending any more. */
  lemma {:induction false} CommitUpToTells(s: State, n: nat, k: nat, f: nat -> WriteFault)
    requires Inv(s) && s.preview.owner == 0 && n <= KEYS && k < KEYS
    ensures var e := CommitUpTo(s, n, f);
            && e.values == s.values
            && (k in e.pending <==> k in s.pending && k >= n)
            && (k in s.pending && k < n && f(k).ok ==> k in e.persisted && e.device.stored[k] == Some(s.values[k]))
            && (k !in s.pending || k >= n ==>
                (k in e.persisted <==> k in s.persisted) && e.device.stored[k] == s.device.stored[k])
  {
    hide Commit, Inv;
    InvShaped(s);
    if n > 0 {
      CommitUpToTells(s, n - 1, k, f);
      CommitUpToKeepsInv(s, n - 1, f);
      var u := CommitUpTo(s, n - 1, f);
      CommitOneKeepsInv(u, n - 1, f(n - 1));
      CommitTells(u, n - 1, k, f(n - 1));
    }
  }

  lemma CommitTells(s: State, key: nat, k: nat, f: WriteFault)
    requires Inv(s) && key < KEYS && k < KEYS
    ensures var (e, outcome) := Commit(s, key, f);
            && e.values == s.values && e.device.applied == s.device.applied && e.pending == s.pending - {key}
            && (outcome.Applied? || outcome.StorageError?) && (f.ok ==> outcome.Applied?)
            && e.revision == s.revision + (if outcome.Applied? then 1 else 0)
            && (outcome.Applied? ==> key in e.persisted && e.device.stored[key] == Some(s.values[key]))
            && (k != key ==> e.device.stored[k] == s.device.stored[k] && (k in e.persisted <==> k in s.persisted))
            && (outcome.StorageError? ==> e.persisted == s.persisted && key !in e.known)
  {
  }

  lemma PendingIsWritten(s: State, k: nat, f: nat -> WriteFault)
    requires Inv(s) && k < KEYS
    ensures var e := CommitPending(s, f);
            && e.values == s.values && k !in e.pending
            && (k in s.pending && f(k).ok ==> k in e.persisted && e.device.stored[k] == Some(s.values[k]))
            && (k !in s.pending ==> e.device.stored[k] == s.device.stored[k])
  {
    hide Commit, CommitUpTo;
    CommitUpToKeepsInv(s, KEYS, f);
    if s.preview.owner == 0 { CommitUpToTells(s, KEYS, k, f); } else { GestureOnly(s, KEYS, f); }
  }

  lemma GestureOnly(s: State, n: nat, f: nat -> WriteFault)
    requires Inv(s) && s.preview.owner != 0 && n <= KEYS
    ensures CommitUpTo(s, n, f) == s && s.pending == {}
  {
    CommitUpToKeepsInv(s, n, f);
  }

  /** Exactly when an edit is refused, and how. */
  lemma EditRefuses(s: State, r: Request, now: U32, f: WriteFault)
    requires Inv(s)
    ensures var t, outcome := Serviced(s, now, true), Edit(s, r, now, f).1;
            && (outcome.Invalid? <==> r.owner == 0 || r.gesture == 0 || r.key >= 3 || r.operation.NoEdit?
                                      || (r.operation.PreviewEdit? && !InRange(r.key, r.value)))
            && (!outcome.Invalid? ==>
                (outcome.Conflict? <==>
                 if r.operation.PreviewEdit? && r.first then r.base != t.revision || t.pending != {}
                 else t.preview.owner != r.owner || t.preview.gesture != r.gesture || t.preview.key != r.key
                      || (r.base != t.revision && !r.operation.CancelEdit?)))
            && (outcome.Invalid? ==> Edit(s, r, now, f).0 == s)
            && (outcome.Conflict? ==> Edit(s, r, now, f).0 == t)
  {
    ServicedKeepsInv(s, now, true);
  }

  /** An accepted preview shows the value asked for, on the hardware too, and writes nothing. A first one ends the
      gesture before it and moves nothing but its own key. */
  lemma PreviewTells(s: State, r: Request, now: U32, f: WriteFault)
    requires Inv(s) && r.operation.PreviewEdit?
    ensures var t, (e, outcome) := Serviced(s, now, true), Edit(s, r, now, f);
            outcome.Applied? || outcome.NoChange? ==>
              var before := if r.first then Cancelled(t) else t;
              && r.key < KEYS && e.values[r.key] == r.value && e.device.applied[r.key] == r.value
              && e.values == before.values[r.key := r.value]
              && e.device.stored == s.device.stored && Owns(e.preview, r) && e.preview.touched == now
              && (r.first ==> e.preview.started == now && e.entry == Look(before))
              && (!r.first ==> e.preview.started == t.preview.started && e.entry == t.entry)
              && (outcome.NoChange? <==> before.values[r.key] == r.value)
              && e.persisted == (if outcome.NoChange? then before.persisted else before.persisted - {r.key})
              && (outcome.Applied? ==> e.revision == before.revision + 1)
  {
    ServicedKeepsInv(s, now, true);
    CancelRestores(Serviced(s, now, true));
    EditKeepsInv(s, r, now, f);
  }

  /** An accepted commit keeps what the preview showed and, unless the write fails, stores it; an accepted cancel
      brings back what was visible before the gesture. Both end it. */
  lemma CloseTells(s: State, r: Request, now: U32, f: WriteFault)
    requires Inv(s) && (r.operation.CommitEdit? || r.operation.CancelEdit?)
    ensures var t, (e, outcome) := Serviced(s, now, true), Edit(s, r, now, f);
            && !outcome.NoChange?
            && (outcome.Applied? || outcome.StorageError? ==>
                e.preview.owner == 0 && e.revision == t.revision + (if outcome.Applied? then 1 else 0))
            && (r.operation.CommitEdit? && (outcome.Applied? || outcome.StorageError?) ==>
                && r.key < KEYS && e.values == t.values && e.device.applied == t.device.applied
                && (f.ok ==> outcome.Applied?)
                && (outcome.Applied? ==> r.key in e.persisted && e.device.stored[r.key] == Some(t.values[r.key])))
            && (r.operation.CancelEdit? ==> !outcome.StorageError?)
            && (r.operation.CancelEdit? && outcome.Applied? ==>
                Look(e) == t.entry && e.device.stored == s.device.stored)
  {
    ServicedKeepsInv(s, now, true);
    CancelRestores(Serviced(s, now, true));
  }

  /** A gesture ends exactly when its owner is gone, or 10 s after the last touch, or 30 s after it began; it then
      leaves what was visible before it. */
  lemma ServiceTells(s: State, now: U32, alive: bool)
    requires Inv(s)
    ensures var e := Serviced(s, now, alive);
            if s.preview.owner != 0
               && (!alive || Elapsed(now, s.preview.touched) >= 10000 || Elapsed(now, s.preview.started) >= 30000)
            then e.preview.owner == 0 && Look(e) == s.entry && e.device.applied == s.entry.values
                 && e.revision == s.revision + 1
            else e == s
  {
    CancelRestores(s);
  }

  predicate Opens(s: State, step: Step)
    requires Inv(s)
  {
    && step.EditStep? && WellMade(step.request) && step.request.operation.PreviewEdit? && step.request.first
    && step.request.base == Serviced(s, step.at, true).revision && Serviced(s, step.at, true).pending == {}
  }

  predicate NoneOpens(s: State, steps: seq<Step>)
    requires Inv(s)
    decreases |steps|
  {
    steps == [] || (!Opens(s, steps[0]) && NoneOpens(Next(s, steps[0]), steps[1..]))
  }

  lemma StepKeepsEntry(s: State, step: Step)
    requires Inv(s) && !Opens(s, step)
    ensures Next(s, step).entry == s.entry
  {
    hide Inv, CommitUpTo;
    if step.CommitPendingStep? {
      InvShaped(s);
      CommitUpToShows(s, KEYS, step.faults);
    }
  }

  lemma {:induction false} RunKeepsEntry(s: State, steps: seq<Step>)
    requires Inv(s) && NoneOpens(s, steps)
    ensures Run(s, steps).entry == s.entry
    decreases |steps|
  {
    hide Inv, Next;
    if steps != [] {
      StepKeepsEntry(s, steps[0]);
      RunKeepsEntry(Next(s, steps[0]), steps[1..]);
    }
  }

  /** Whatever happens between the first preview of a gesture and its cancellation or expiry, the values and the
      persisted bits return to what they were when it began. */
  lemma GestureIsUndone(s: State, r: Request, now: U32, f: WriteFault, steps: seq<Step>)
    requires Inv(s) && Opens(s, EditStep(r, now, f))
    requires NoneOpens(Next(s, EditStep(r, now, f)), steps)
    ensures var e := Run(Next(s, EditStep(r, now, f)), steps);
            e.preview.owner != 0 ==> Look(Cancelled(e)) == Look(Cancelled(Serviced(s, now, true)))
  {
    hide Inv, Run;
    var a := Next(s, EditStep(r, now, f));
    RunKeepsEntry(a, steps);
    ServicedKeepsInv(s, now, true);
    OpeningEntry(s, r, now, f);
    CancelRestores(Run(a, steps));
  }

  lemma OpeningEntry(s: State, r: Request, now: U32, f: WriteFault)
    requires Inv(s) && Opens(s, EditStep(r, now, f))
    ensures Edit(s, r, now, f).0.entry == Look(Cancelled(Serviced(s, now, true)))
  {
    hide Inv;
    ServicedKeepsInv(s, now, true);
  }

  // ---------------------------------------------------------------------------------------
  // The settings object

  /** Storage and hardware behind one interface. */
  class Backend {
    var stored: seq<Option<Byte>>
    var applied: seq<Byte>

    constructor (initial: seq<Option<Byte>>, hardware: seq<Byte>)
      ensures stored == initial && applied == hardware
    {
      stored, applied := initial, hardware;
    }

    method Read(key: nat, readable: bool) returns (value: Option<Byte>)
      requires key < |stored|
      ensures value == if readable then stored[key] else None
    {
      value := if readable then stored[key] else None;
    }

    method Write(key: nat, value: Byte, f: WriteFault) returns (ok: bool)
      requires key < |stored| && key < |applied|
      modifies this`stored
      ensures ok == f.ok && Device(stored, applied) == Written(old(Device(stored, applied)), key, value, f)
    {
      if f.ok || f.effect { stored := stored[key := Some(value)]; }
      return f.ok;
    }

    method Apply(key: nat, value: Byte)
      requires key < |applied|
      modifies this`applied
      ensures Device(stored, applied) == Given(old(Device(stored, applied)), key, value)
    {
      applied := applied[key := value];
    }
  }

  class Settings {
    const backend: Backend
    const values: array<Byte>
    const durable: array<Byte>
    var revision: nat
    var persisted: set<nat>
    var known: set<nat>
    var pending: set<nat>
    var preview: Preview
    ghost var entry: Visible

    ghost predicate Valid()
      reads this, backend
    {
      && values.Length == KEYS && durable.Length == KEYS && values != durable
      && |backend.stored| == KEYS && |backend.applied| == KEYS
    }

    ghost function View(): (s: State)
      requires Valid()
      reads this, backend, values, durable
      ensures Shaped(s)
    {
      State(revision, values[..], persisted, durable[..], known, pending, preview,
            Device(backend.stored, backend.applied), entry)
    }

    constructor (b: Backend)
      requires |b.stored| == KEYS && |b.applied| == KEYS
      ensures Valid() && backend == b && fresh(values) && fresh(durable)
      ensures View() == PowerUp(b.stored, b.applied)
    {
      backend := b;
      values := new Byte[3] [3, 3, 2];
      durable := new Byte[3](_ => 0);
      revision, persisted, known, pending, preview, entry := 1, {}, {}, {}, Idle(), Visible([3, 3, 2], {});
      new;
      assert values[..] == [3, 3, 2] && durable[..] == [0, 0, 0];
    }

    method LoadKey(key: nat, readable: bool)
      requires Valid() && key < KEYS
      modifies this, backend, values, durable
      ensures Valid() && View() == BeginKey(old(View()), key, readable)
    {
      var value := values[key];
      var read := backend.Read(key, readable);
      if read.Some? {
        value := read.value;
        if Fits(key, value) {
          durable[key] := value;
          known := known + {key};
          persisted := persisted + {key};
        }
        if key != VOLUME && !Fits(key, value) { value := 3; }
        if key == VOLUME && value > 4 { value := 4; }
        values[key] := value;
      }
      backend.Apply(key, value);
    }

    method Start(readable: nat -> bool)
      requires Valid() && View().preview.owner == 0
      modifies this, backend, values, durable
      ensures Valid() && View() == Begin(old(View()), readable)
    {
      hide BeginKey;
      var i := 0;
      while i < KEYS
        invariant i <= KEYS && Valid() && View() == BeginUpTo(old(View()), i, readable)
      {
        LoadKey(i, readable(i));
        i := i + 1;
      }
    }

    method Cancel()
      requires Valid() && (preview.owner != 0 ==> preview.key < KEYS)
      modifies this, backend, values
      ensures Valid() && View() == Cancelled(old(View()))
    {
      if preview.owner == 0 { return; }
      var key := preview.key;
      preview := preview.(owner := 0);
      if values[key] != preview.value { backend.Apply(key, preview.value); }
      values[key] := preview.value;
      persisted := if preview.saved then persisted + {key} else persisted - {key};
      revision := revision + 1;
    }

    method CommitKey(key: nat, f: WriteFault) returns (outcome: Outcome)
      requires Valid() && key < KEYS
      modifies this, backend, durable
      ensures Valid() && (View(), outcome) == Commit(old(View()), key, f)
    {
      pending := pending - {key};
      var saved := key in known && durable[key] == values[key];
      if !saved { saved := backend.Write(key, values[key], f); }
      if saved {
        durable[key] := values[key];
        known := known + {key};
        persisted := persisted + {key};
        revision := revision + 1;
        if key in old(known) && old(durable[key]) == values[key] {
          assert durable[..] == old(durable[..]) && known == old(known);
        }
        return Applied;
      }
      known := known - {key};
      return StorageError;
    }

    method MoveTo(key: nat, value: Byte)
      requires Valid() && key < KEYS
      modifies this, backend, values
      ensures Valid() && View() == Moved(old(View()), key, value)
    {
      values[key] := value;
      persisted := persisted - {key};
      revision := revision + 1;
      backend.Apply(key, value);
    }

    method SetValue(key: nat, value: nat, persist: bool, f: WriteFault) returns (outcome: Outcome)
      requires Valid() && Inv(View())
      modifies this, backend, values, durable
      ensures Valid() && (View(), outcome) == Set(old(View()), key, value, persist, f)
    {
      hide Cancelled, Commit;
      if !Fits(key, value) { return Invalid; }
      Cancel();
      if values[key] == value { return NoChange; }
      MoveTo(key, value);
      pending := pending + {key};
      if !persist { return Applied; }
      outcome := CommitKey(key, f);
    }

    method CommitAll(f: nat -> WriteFault)
      requires Valid()
      modifies this, backend, durable
      ensures Valid() && View() == CommitPending(old(View()), f)
    {
      hide Commit;
      var i := 0;
      while i < KEYS
        invariant i <= KEYS && Valid() && View() == CommitUpTo(old(View()), i, f)
      {
        if i in pending { var _ := CommitKey(i, f(i)); }
        i := i + 1;
      }
    }

    method Service(now: U32, alive: bool)
      requires Valid() && Inv(View())
      modifies this, backend, values
      ensures Valid() && View() == Serviced(old(View()), now, alive)
    {
      if preview.owner != 0
          && (!alive || Elapsed(now, preview.touched) >= IDLE_MS || Elapsed(now, preview.started) >= GESTURE_MS) {
        Cancel();
      }
    }

    method Carry(r: Request, now: U32, f: WriteFault) returns (outcome: Outcome)
      requires Valid() && WellMade(r) && (preview.owner != 0 ==> preview.key < KEYS)
      modifies this, backend, values, durable
      ensures Valid() && (View(), outcome) == Carried(old(View()), r, now, f)
    {
      hide Cancelled, Commit;
      if r.operation.CancelEdit? { Cancel(); return Applied; }
      if r.operation.CommitEdit? {
        preview := preview.(owner := 0);
        outcome := CommitKey(r.key, f);
        return;
      }
      preview := preview.(touched := now);
      if values[r.key] == r.value { return NoChange; }
      MoveTo(r.key, r.value);
      return Applied;
    }

    method Open(r: Request, now: U32)
      requires Valid() && Inv(View()) && r.key < KEYS
      modifies this, backend, values
      ensures Valid() && View() == Opened(old(View()), r, now)
    {
      hide Cancelled;
      Cancel();
      preview := Preview(r.owner, r.gesture, now, now, r.key, values[r.key], r.key in persisted);
      entry := Visible(values[..], persisted);
    }

    method EditValue(r: Request, now: U32, f: WriteFault) returns (outcome: Outcome)
      requires Valid() && Inv(View())
      modifies this, backend, values, durable
      ensures Valid() && (View(), outcome) == Edit(old(View()), r, now, f)
    {
      hide Inv, Serviced, Opened, Carried;
      if !WellMade(r) { return Invalid; }
      ServicedKeepsInv(View(), now, true);
      Service(now, true);
      ghost var t := View();
      if r.operation.PreviewEdit? && r.first {
        if r.base != revision || pending != {} { return Conflict; }
        OpenedKeepsInv(View(), r, now);
        Open(r, now);
      } else if !Owns(preview, r) || (!r.operation.CancelEdit? && r.base != revision) {
        return Conflict;
      }
      KeyInRange(View());
      outcome := Carry(r, now, f);
    }

    static lemma KeyInRange(s: State)
      requires Inv(s)
      ensures s.preview.owner != 0 ==> s.preview.key < KEYS
    {
    }
  }
}
