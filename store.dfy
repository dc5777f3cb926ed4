/** The page's global state and the handlers that change it: the session
    (`currentUser`), the three append-only arrays, and the stored snapshot
    that stands for `localStorage`. */
module AgriTrace {
  import opened Records
  import opened Search
  import opened History
  import opened Persistence

  class Store {
    var currentUser: Option<User>
    var produceData: seq<ProduceRecord>
    var supplyChainEvents: seq<SupplyChainEvent>
    var retailerInventory: seq<InventoryListing>
    /** The 'agriTraceData' entry of local storage; `None` when absent. */
    var storage: Option<Stored>

    ghost function Contents(): Data
      reads this
    {
      Data(produceData, supplyChainEvents, retailerInventory)
    }

    /** A logged-in user always has a non-empty name and role. */
    ghost predicate Valid()
      reads this
    {
      currentUser.Some? ==> currentUser.value.username != "" && currentUser.value.role != ""
    }

    /** Local storage holds exactly the in-memory arrays. */
    ghost predicate Saved()
      reads this
    {
      storage == Some(Encode(Contents()))
    }

    /** The globals as the script declares them, next to whatever an earlier
        visit left in local storage. */
    constructor (persisted: Option<Stored>)
      ensures Valid()
      ensures currentUser.None? && Contents() == NoData && storage == persisted
    {
      currentUser := None;
      produceData, supplyChainEvents, retailerInventory := [], [], [];
      storage := persisted;
    }

    /** `loadDataFromStorage`: a parsable entry replaces all three arrays (a
        missing field becoming empty); an absent or unparsable one changes
        nothing. */
    method LoadDataFromStorage()
      requires Valid()
      modifies this`produceData, this`supplyChainEvents, this`retailerInventory
      ensures Valid()
      ensures Contents() == Restore(old(storage), old(Contents()))
      ensures old(storage).None? || old(storage) == Some(Unreadable) ==> Contents() == old(Contents())
    {
      match storage {
        case Some(Snapshot(p, e, r)) =>
          produceData := OrEmpty(p);
          supplyChainEvents := OrEmpty(e);
          retailerInventory := OrEmpty(r);
        case _ =>
      }
    }

    /** `saveDataToStorage`: overwrite the entry with all three arrays. */
    method SaveDataToStorage()
      modifies this`storage
      ensures Saved()
    {
      storage := Some(Encode(Data(produceData, supplyChainEvents, retailerInventory)));
    }

    /** `handleLogin`: any non-empty name, password and role log in (the
        password is not checked); otherwise the session is left as it was. */
    method HandleLogin(username: string, password: string, role: string) returns (ok: bool)
      requires Valid()
      modifies this`currentUser
      ensures Valid()
      ensures ok <==> username != "" && password != "" && role != ""
      ensures currentUser == if ok then Some(User(username, role)) else old(currentUser)
    {
      ok := username != "" && password != "" && role != "";
      if ok {
        currentUser := Some(User(username, role));
      }
    }

    /** `logout`: always ends the session. */
    method Logout()
      modifies this`currentUser
      ensures Valid()
      ensures currentUser.None?
    {
      currentUser := None;
    }

    /** `handleProduceRegistration`: append a record under a freshly generated
        batch ID, stamped with the user's name, and save. With no user logged
        in, reading `currentUser.username` throws before anything changes.
        `raw` is the text of `Math.random().toString(36)`, `date` today's date. */
    method HandleProduceRegistration(raw: string, name: string, origin: string, harvestDate: string,
                                     quantity: string, details: string, date: string)
      returns (batchId: Option<string>)
      requires Valid()
      modifies this`produceData, this`storage
      ensures Valid()
      ensures old(currentUser).None? ==> batchId.None? && produceData == old(produceData) && storage == old(storage)
      ensures old(currentUser).Some? ==>
                batchId == Some(GenerateBatchId(raw)) &&
                produceData == old(produceData) + [ProduceRecord(GenerateBatchId(raw), name, origin, harvestDate,
                                                                 quantity, details, date, currentUser.value.username)] &&
                produceData[|produceData| - 1].farmer != "" &&
                Saved()
      ensures supplyChainEvents == old(supplyChainEvents) && retailerInventory == old(retailerInventory)
    {
      if currentUser.None? {
        return None;
      }
      var id := GenerateBatchId(raw);
      var record := ProduceRecord(id, name, origin, harvestDate, quantity, details, date, currentUser.value.username);
      produceData := produceData + [record];
      SaveDataToStorage();
      batchId := Some(id);
    }

    /** `handleSupplyChainUpdate`: append an event for the batch ID as typed
        (not checked against the produce records), stamped with the user's
        name, and save. */
    method HandleSupplyChainUpdate(batchId: string, eventType: string, location: string, details: string,
                                   date: string)
      returns (ok: bool)
      requires Valid()
      modifies this`supplyChainEvents, this`storage
      ensures Valid()
      ensures ok <==> old(currentUser).Some?
      ensures !ok ==> supplyChainEvents == old(supplyChainEvents) && storage == old(storage)
      ensures ok ==>
                supplyChainEvents == old(supplyChainEvents) + [SupplyChainEvent(batchId, eventType, location, details,
                                                                                date, currentUser.value.username)] &&
                supplyChainEvents[|supplyChainEvents| - 1].distributor != "" &&
                Saved()
      ensures produceData == old(produceData) && retailerInventory == old(retailerInventory)
    {
      ok := currentUser.Some?;
      if !ok {
        return;
      }
      var event := SupplyChainEvent(batchId, eventType, location, details, date, currentUser.value.username);
      supplyChainEvents := supplyChainEvents + [event];
      SaveDataToStorage();
    }

    /** `handleMarkAvailable`: append a store listing for the batch ID as typed,
        stamped with the user's name, and save. */
    method HandleMarkAvailable(batchId: string, storeName: string, shelfLocation: string, price: string,
                               expiryDate: string, date: string)
      returns (ok: bool)
      requires Valid()
      modifies this`retailerInventory, this`storage
      ensures Valid()
      ensures ok <==> old(currentUser).Some?
      ensures !ok ==> retailerInventory == old(retailerInventory) && storage == old(storage)
      ensures ok ==>
                retailerInventory == old(retailerInventory) + [InventoryListing(batchId, storeName, shelfLocation, price,
                                                                                expiryDate, date, currentUser.value.username)] &&
                retailerInventory[|retailerInventory| - 1].retailer != "" &&
                Saved()
      ensures produceData == old(produceData) && supplyChainEvents == old(supplyChainEvents)
    {
      ok := currentUser.Some?;
      if !ok {
        return;
      }
      var listing := InventoryListing(batchId, storeName, shelfLocation, price, expiryDate, date,
                                      currentUser.value.username);
      retailerInventory := retailerInventory + [listing];
      SaveDataToStorage();
    }

    /** `clearAllData`: empty all three arrays and save that. */
    method ClearAllData()
      requires Valid()
      modifies this`produceData, this`supplyChainEvents, this`retailerInventory, this`storage
      ensures Valid()
      ensures Contents() == NoData && Saved()
    {
      produceData, supplyChainEvents, retailerInventory := [], [], [];
      SaveDataToStorage();
    }

    /** `handleProductScan` up to the HTML: look the upper-cased ID up in the
        three arrays and build the history, the events appended one by one.
        The three lookups are the ones `Scan` makes; what this method adds is
        the `forEach` accumulation (`AppendEvents`), and it is proved to give
        `Scan`'s result. It has no `modifies` clause, so it changes no field. */
    method HandleProductScan(query: string) returns (outcome: ScanOutcome)
      ensures outcome == Scan(produceData, supplyChainEvents, retailerInventory, query)
    {
      var id := ToUpper(query);
      var produce := FirstMatch(produceData, ProduceBatch, id);
      var events := Matching(supplyChainEvents, EventBatch, id);
      var retail := FirstMatch(retailerInventory, ListingBatch, id);
      if produce.None? && |events| == 0 && retail.None? {
        return NotFound;
      }
      var history: seq<Entry> := [];
      if produce.Some? {
        history := history + [Origin(produce.value)];
      }
      history := AppendEvents(history, events);
      if retail.Some? {
        history := history + [Shelf(retail.value)];
      }
      assert history == Timeline(produce, events, retail);
      if history == [] {
        return RegisteredWithoutEvents;
      }
      return Trace(history);
    }
  }

  /** The `events.forEach(... historyHTML += ...)` loop of `handleProductScan`:
      one entry per event, appended in order. */
  method AppendEvents(history: seq<Entry>, events: seq<SupplyChainEvent>) returns (extended: seq<Entry>)
    ensures extended == history + Transits(events)
  {
    extended := history;
    var i := 0;
    while i < |events|
      invariant 0 <= i <= |events|
      invariant extended == history + Transits(events[..i])
    {
      assert events[..i + 1][..i] == events[..i];
      extended := extended + [Transit(events[i])];
      i := i + 1;
    }
    assert events[..i] == events;
  }
}
