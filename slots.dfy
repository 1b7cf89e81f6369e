/**
 * Actor slot references as the report page reads them from the serialized
 * event list, and the roster index each one names.
 */
module Slots {

  datatype Option<+T> = None | Some(value: T)

  /**
   * A JSON field after `Number(...)`: a finite number or a non-finite one
   * (NaN from a missing or non-numeric field, or an infinity).
   */
  datatype Numeric = Finite(value: int) | NonFinite

  /**
   * normalizeSlot: slot reference 1..playersLen names roster index
   * slot - 1; 0, non-finite values and everything out of range name nobody.
   */
  function NormalizeSlot(raw: Numeric, playersLen: nat): (r: Option<nat>)
    ensures r.Some? <==> raw.Finite? && 1 <= raw.value <= playersLen
    ensures r.Some? ==> r.value < playersLen && r.value + 1 == raw.value
  {
    if raw.NonFinite? then None
    else if 1 <= raw.value <= playersLen then Some(raw.value - 1)
    else if raw.value == 0 then None
    else None
  }

  /** The slot reference that the event feed writes for roster index idx. */
  function SlotOf(idx: nat): Numeric {
    Finite(idx + 1)
  }

  /** Every roster index is reached by exactly one slot reference. */
  lemma SlotRoundTrip(idx: nat, playersLen: nat, raw: Numeric)
    ensures idx < playersLen ==> NormalizeSlot(SlotOf(idx), playersLen) == Some(idx)
    ensures NormalizeSlot(raw, playersLen) == Some(idx) ==> raw == SlotOf(idx)
  {
  }

  /** Slot 0 is the team-only reference: it never names a player. */
  lemma TeamOnlySlot(playersLen: nat)
    ensures NormalizeSlot(Finite(0), playersLen) == None
  {
  }
}
