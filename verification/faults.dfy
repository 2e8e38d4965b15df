/** Faults of key-value storage calls, shared by the two crash-safe stores. */
module Faults {
  datatype Io = IoOk | IoMissing | IoError

  /** What befalls one call: what it reports, whether a call that reports failure took effect all the same,
      and whether power is cut at it (before its effect, or after when `effect` holds). */
  datatype Fault = Fault(ok: bool, effect: bool, cut: bool)

  /** Whether a write or an erase changes the storage; once power is off nothing does. */
  predicate Happens(off: bool, f: Fault)
  {
    !off && (if f.cut then f.effect else f.ok || f.effect)
  }
}
