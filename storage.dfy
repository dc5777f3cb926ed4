/** What `saveDataToStorage` writes under the 'agriTraceData' key and how
    `loadDataFromStorage` reads it back, with JSON text replaced by a value. */
module Persistence {
  import opened Records

  /** The three in-memory arrays. */
  datatype Data = Data(
    produceData: seq<ProduceRecord>,
    supplyChainEvents: seq<SupplyChainEvent>,
    retailerInventory: seq<InventoryListing>)

  const NoData := Data([], [], [])

  /** The stored entry: an object whose three fields may each be missing, or
      text that `JSON.parse` rejects (or the empty string, which the loader
      treats the same way: it leaves memory alone). */
  datatype Stored =
    | Snapshot(produceData: Option<seq<ProduceRecord>>,
               supplyChainEvents: Option<seq<SupplyChainEvent>>,
               retailerInventory: Option<seq<InventoryListing>>)
    | Unreadable

  /** `field || []` for a field that holds an array when present. */
  function OrEmpty<T>(field: Option<seq<T>>): seq<T>
  {
    match field
    case Some(s) => s
    case None => []
  }

  /** The arrays after `loadDataFromStorage`, given what is stored (`None`
      when the key is absent) and what memory held before. */
  function Restore(saved: Option<Stored>, current: Data): (d: Data)
    ensures saved.Some? && saved.value.Snapshot? ==>
              (saved.value.produceData.Some? ==> d.produceData == saved.value.produceData.value) &&
              (saved.value.supplyChainEvents.Some? ==> d.supplyChainEvents == saved.value.supplyChainEvents.value) &&
              (saved.value.retailerInventory.Some? ==> d.retailerInventory == saved.value.retailerInventory.value)
    ensures d != current ==> saved.Some? && saved.value.Snapshot?
  {
    match saved
    case Some(Snapshot(p, e, r)) => Data(OrEmpty(p), OrEmpty(e), OrEmpty(r))
    case _ => current
  }

  /** The entry `saveDataToStorage` writes: all three arrays, as one unit.
      Loading it back gives exactly those arrays, whatever memory held. */
  function Encode(d: Data): (s: Stored)
    ensures s.Snapshot?
    ensures forall current :: Restore(Some(s), current) == d
  {
    Snapshot(Some(d.produceData), Some(d.supplyChainEvents), Some(d.retailerInventory))
  }

  /** Loading only replaces memory when a parsable entry is present; each
      array missing from it comes back empty. */
  lemma RestoreCases(saved: Option<Stored>, current: Data)
    ensures saved.None? || saved == Some(Unreadable) ==> Restore(saved, current) == current
    ensures saved.Some? && saved.value.Snapshot? ==>
              (saved.value.produceData.None? ==> Restore(saved, current).produceData == []) &&
              (saved.value.supplyChainEvents.None? ==> Restore(saved, current).supplyChainEvents == []) &&
              (saved.value.retailerInventory.None? ==> Restore(saved, current).retailerInventory == [])
  {
  }
}
