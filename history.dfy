/** The consumer's batch-history query (`handleProductScan` without its HTML):
    a pure join of the three collections on the upper-cased batch ID, assembled
    farm origin -> supply-chain events -> store listing. */
module History {
  import opened Records
  import opened Search

  /** One item of a displayed history. */
  datatype Entry = Origin(produce: ProduceRecord) | Transit(event: SupplyChainEvent) | Shelf(listing: InventoryListing)
  {
    function Batch(): string {
      match this
      case Origin(p) => p.batchId
      case Transit(e) => e.batchId
      case Shelf(r) => r.batchId
    }

    /** Position in the physical flow farm -> transit -> shelf. */
    function Stage(): nat {
      match this
      case Origin(_) => 0
      case Transit(_) => 1
      case Shelf(_) => 2
    }
  }

  /** What the scan shows: "no product found", the fallback "registered but no
      supply chain events recorded yet" message, or a history. */
  datatype ScanOutcome = NotFound | RegisteredWithoutEvents | Trace(entries: seq<Entry>)

  /** One `Transit` entry per event, in the order of the events. */
  function Transits(events: seq<SupplyChainEvent>): (r: seq<Entry>)
    ensures |r| == |events|
    ensures forall k :: 0 <= k < |r| ==> r[k].Transit? && r[k].event == events[k]
  {
    if events == [] then []
    else Transits(events[..|events| - 1]) + [Transit(events[|events| - 1])]
  }

  /** The assembled history: origin if present, every event, listing if present. */
  function Timeline(produce: Option<ProduceRecord>, events: seq<SupplyChainEvent>,
                    retail: Option<InventoryListing>): seq<Entry>
  {
    (if produce.Some? then [Origin(produce.value)] else []) +
    Transits(events) +
    (if retail.Some? then [Shelf(retail.value)] else [])
  }

  /** Where each part sits in an assembled history: the origin first, then
      one entry per event in order, then the listing last. */
  lemma TimelineLayout(produce: Option<ProduceRecord>, events: seq<SupplyChainEvent>,
                       retail: Option<InventoryListing>)
    ensures var h := Timeline(produce, events, retail);
            var o := if produce.Some? then 1 else 0;
            |h| == o + |events| + (if retail.Some? then 1 else 0) &&
            (produce.Some? ==> h[0] == Origin(produce.value)) &&
            (retail.Some? ==> h[|h| - 1] == Shelf(retail.value)) &&
            (forall k :: 0 <= k < |events| ==> h[o + k] == Transit(events[k]))
  {
  }

  /** `handleProductScan`: upper-case the query, look it up in the three
      collections and assemble the result. */
  function Scan(produceData: seq<ProduceRecord>, supplyChainEvents: seq<SupplyChainEvent>,
                retailerInventory: seq<InventoryListing>, query: string): (r: ScanOutcome)
    ensures r != RegisteredWithoutEvents
    ensures r.Trace? ==> r.entries != []
  {
    var id := ToUpper(query);
    var produce := FirstMatch(produceData, ProduceBatch, id);
    var events := Matching(supplyChainEvents, EventBatch, id);
    var retail := FirstMatch(retailerInventory, ListingBatch, id);
    if produce.None? && |events| == 0 && retail.None? then NotFound
    else
      var history := Timeline(produce, events, retail);
      if history == [] then RegisteredWithoutEvents else Trace(history)
  }

  /** The events shown by a history, in display order. */
  function TransitsOf(entries: seq<Entry>): seq<SupplyChainEvent>
  {
    if entries == [] then [] else EventShown(entries[0]) + TransitsOf(entries[1..])
  }

  function EventShown(x: Entry): seq<SupplyChainEvent>
  {
    if x.Transit? then [x.event] else []
  }

  lemma {:induction false} TransitsOfConcat(a: seq<Entry>, b: seq<Entry>)
    ensures TransitsOf(a + b) == TransitsOf(a) + TransitsOf(b)
  {
    if a == [] {
      assert a + b == b;
    } else {
      assert (a + b)[0] == a[0];
      assert (a + b)[1..] == a[1..] + b;
      calc {
        TransitsOf(a + b);
        EventShown(a[0]) + TransitsOf(a[1..] + b);
        { TransitsOfConcat(a[1..], b); }
        EventShown(a[0]) + (TransitsOf(a[1..]) + TransitsOf(b));
      }
    }
  }

  lemma {:induction false} TransitsOfTransits(events: seq<SupplyChainEvent>)
    ensures TransitsOf(Transits(events)) == events
  {
    if events != [] {
      var init, last := events[..|events| - 1], events[|events| - 1];
      TransitsOfConcat(Transits(init), [Transit(last)]);
      TransitsOfTransits(init);
      assert [Transit(last)][1..] == [];
      assert init + [last] == events;
    }
  }

  /** True when some record of some collection carries batch ID `id`. */
  predicate AnyRecordWith(produceData: seq<ProduceRecord>, supplyChainEvents: seq<SupplyChainEvent>,
                          retailerInventory: seq<InventoryListing>, id: string)
  {
    (exists i :: 0 <= i < |produceData| && ProduceBatch(produceData[i]) == id) ||
    (exists i :: 0 <= i < |supplyChainEvents| && EventBatch(supplyChainEvents[i]) == id) ||
    (exists i :: 0 <= i < |retailerInventory| && ListingBatch(retailerInventory[i]) == id)
  }

  // ---------------------------------------------------------------------------
  // Properties of the scan
  // ---------------------------------------------------------------------------

  /** "Not found" is reported exactly when no record of any collection has the
      upper-cased ID, and the "registered but no events" fallback is never
      reached: a found batch always yields a non-empty history. */
  lemma ScanFoundIff(ps: seq<ProduceRecord>, es: seq<SupplyChainEvent>, rs: seq<InventoryListing>, query: string)
    ensures Scan(ps, es, rs, query) == NotFound <==> !AnyRecordWith(ps, es, rs, ToUpper(query))
    ensures Scan(ps, es, rs, query) != RegisteredWithoutEvents
    ensures Scan(ps, es, rs, query).Trace? ==> Scan(ps, es, rs, query).entries != []
  {
    var id := ToUpper(query);
    var produce := FirstMatch(ps, ProduceBatch, id);
    var events := Matching(es, EventBatch, id);
    var retail := FirstMatch(rs, ListingBatch, id);
    var history := Timeline(produce, events, retail);
    assert produce.Some? ==> history[0] == Origin(produce.value);
    assert |history| >= |events|;
    assert retail.Some? ==> history[|history| - 1] == Shelf(retail.value);
  }

  /** Every entry shown belongs to the queried batch, and since the query is
      upper-cased, no record stored under an ID with a lower-case letter is
      ever shown. */
  lemma ScanShowsOnlyQueriedBatch(ps: seq<ProduceRecord>, es: seq<SupplyChainEvent>, rs: seq<InventoryListing>, query: string)
    ensures Scan(ps, es, rs, query).Trace? ==>
              forall k :: 0 <= k < |Scan(ps, es, rs, query).entries| ==>
                Scan(ps, es, rs, query).entries[k].Batch() == ToUpper(query) &&
                NoLower(Scan(ps, es, rs, query).entries[k].Batch())
  {
    var id := ToUpper(query);
    var m := Matching(es, EventBatch, id);
    assert forall k :: 0 <= k < |m| ==> m[k].batchId == id by {
      forall k | 0 <= k < |m| ensures m[k].batchId == id {
        assert EventBatch(m[k]) == id;
      }
    }
  }

  /** The history runs farm -> transit -> shelf: stages never go backwards, and
      there is at most one origin (first) and at most one listing (last). */
  lemma ScanStageOrder(ps: seq<ProduceRecord>, es: seq<SupplyChainEvent>, rs: seq<InventoryListing>, query: string)
    ensures Scan(ps, es, rs, query).Trace? ==>
              var h := Scan(ps, es, rs, query).entries;
              (forall j, k :: 0 <= j < k < |h| ==> h[j].Stage() <= h[k].Stage()) &&
              (forall k :: 0 < k < |h| ==> !h[k].Origin?) &&
              (forall k :: 0 <= k < |h| - 1 ==> !h[k].Shelf?)
  {
    var id := ToUpper(query);
    var produce := FirstMatch(ps, ProduceBatch, id);
    var events := Matching(es, EventBatch, id);
    var retail := FirstMatch(rs, ListingBatch, id);
    var o: seq<Entry> := if produce.Some? then [Origin(produce.value)] else [];
    var t := Transits(events);
    var s: seq<Entry> := if retail.Some? then [Shelf(retail.value)] else [];
    var h := o + t + s;
    assert Timeline(produce, events, retail) == h;
    assert forall k :: 0 <= k < |h| ==> h[k].Stage() == if k < |o| then 0 else if k < |o| + |t| then 1 else 2;
  }

  /** The origin shown is the first produce record with the upper-cased ID,
      and it is shown exactly when there is one: later duplicates never appear. */
  lemma ScanOrigin(ps: seq<ProduceRecord>, es: seq<SupplyChainEvent>, rs: seq<InventoryListing>, query: string,
                   p: ProduceRecord)
    ensures (Scan(ps, es, rs, query).Trace? && Origin(p) in Scan(ps, es, rs, query).entries) <==>
            FirstMatch(ps, ProduceBatch, ToUpper(query)) == Some(p)
  {
    var id := ToUpper(query);
    var produce := FirstMatch(ps, ProduceBatch, id);
    var events := Matching(es, EventBatch, id);
    var retail := FirstMatch(rs, ListingBatch, id);
    var o: seq<Entry> := if produce.Some? then [Origin(produce.value)] else [];
    var t := Transits(events);
    var s: seq<Entry> := if retail.Some? then [Shelf(retail.value)] else [];
    assert Timeline(produce, events, retail) == o + t + s;
    if Origin(p) in o + t + s {
      var k :| 0 <= k < |o + t + s| && (o + t + s)[k] == Origin(p);
      assert k < |o|;
    }
    if produce == Some(p) {
      assert (o + t + s)[0] == Origin(p);
    }
  }

  /** The listing shown is the first inventory listing with the upper-cased ID,
      and it is shown exactly when there is one. */
  lemma ScanShelf(ps: seq<ProduceRecord>, es: seq<SupplyChainEvent>, rs: seq<InventoryListing>, query: string,
                  r: InventoryListing)
    ensures (Scan(ps, es, rs, query).Trace? && Shelf(r) in Scan(ps, es, rs, query).entries) <==>
            FirstMatch(rs, ListingBatch, ToUpper(query)) == Some(r)
  {
    var id := ToUpper(query);
    var produce := FirstMatch(ps, ProduceBatch, id);
    var events := Matching(es, EventBatch, id);
    var retail := FirstMatch(rs, ListingBatch, id);
    var o: seq<Entry> := if produce.Some? then [Origin(produce.value)] else [];
    var t := Transits(events);
    var s: seq<Entry> := if retail.Some? then [Shelf(retail.value)] else [];
    var h := o + t + s;
    assert Timeline(produce, events, retail) == h;
    if Shelf(r) in h {
      var k :| 0 <= k < |h| && h[k] == Shelf(r);
      assert k >= |o| + |t|;
    }
    if retail == Some(r) {
      assert h[|h| - 1] == Shelf(r);
    }
  }

  /** The events read back from an assembled history are the events put in. */
  lemma TimelineTransits(produce: Option<ProduceRecord>, events: seq<SupplyChainEvent>,
                         retail: Option<InventoryListing>)
    ensures TransitsOf(Timeline(produce, events, retail)) == events
  {
    var o: seq<Entry> := if produce.Some? then [Origin(produce.value)] else [];
    var s: seq<Entry> := if retail.Some? then [Shelf(retail.value)] else [];
    TransitsOfConcat(o + Transits(events), s);
    TransitsOfConcat(o, Transits(events));
    TransitsOfTransits(events);
    assert TransitsOf(o) == [] by {
      if o != [] { assert o[1..] == []; }
    }
    assert TransitsOf(s) == [] by {
      if s != [] { assert s[1..] == []; }
    }
  }

  /** The events shown are exactly the supply-chain events with the
      upper-cased ID, in the order they were recorded. */
  lemma ScanEvents(ps: seq<ProduceRecord>, es: seq<SupplyChainEvent>, rs: seq<InventoryListing>, query: string)
    ensures Scan(ps, es, rs, query).Trace? ==>
              TransitsOf(Scan(ps, es, rs, query).entries) == Matching(es, EventBatch, ToUpper(query))
    ensures !Scan(ps, es, rs, query).Trace? ==> Matching(es, EventBatch, ToUpper(query)) == []
  {
    var id := ToUpper(query);
    TimelineTransits(FirstMatch(ps, ProduceBatch, id), Matching(es, EventBatch, id), FirstMatch(rs, ListingBatch, id));
  }

  /** The query is upper-cased first, so its case does not matter. */
  lemma ScanIgnoresQueryCase(ps: seq<ProduceRecord>, es: seq<SupplyChainEvent>, rs: seq<InventoryListing>, query: string)
    ensures Scan(ps, es, rs, query) == Scan(ps, es, rs, ToUpper(query))
  {
    ToUpperIdempotent(query);
  }

  // ---------------------------------------------------------------------------
  // How the registrations change the history
  // ---------------------------------------------------------------------------

  /** Registering produce shows up in the history of its batch only if no
      earlier produce record carries the same ID (no collision check is made);
      other batches are unaffected. */
  lemma ScanAfterProduce(ps: seq<ProduceRecord>, es: seq<SupplyChainEvent>, rs: seq<InventoryListing>, query: string,
                         p: ProduceRecord)
    ensures p.batchId != ToUpper(query) || FirstMatch(ps, ProduceBatch, ToUpper(query)).Some? ==>
              Scan(ps + [p], es, rs, query) == Scan(ps, es, rs, query)
    ensures p.batchId == ToUpper(query) && FirstMatch(ps, ProduceBatch, ToUpper(query)).None? ==>
              Scan(ps + [p], es, rs, query) ==
                Trace([Origin(p)] + Transits(Matching(es, EventBatch, ToUpper(query))) +
                      (if FirstMatch(rs, ListingBatch, ToUpper(query)).Some?
                       then [Shelf(FirstMatch(rs, ListingBatch, ToUpper(query)).value)] else []))
  {
    FirstMatchAppend(ps, p, ProduceBatch, ToUpper(query));
  }

  /** Recording an event for a batch adds it to that batch's history after the
      events already recorded and before the store listing; other batches are
      unaffected. */
  lemma ScanAfterEvent(ps: seq<ProduceRecord>, es: seq<SupplyChainEvent>, rs: seq<InventoryListing>, query: string,
                       e: SupplyChainEvent)
    ensures e.batchId != ToUpper(query) ==> Scan(ps, es + [e], rs, query) == Scan(ps, es, rs, query)
    ensures e.batchId == ToUpper(query) ==>
              Scan(ps, es + [e], rs, query) ==
                Trace(Timeline(FirstMatch(ps, ProduceBatch, ToUpper(query)),
                               Matching(es, EventBatch, ToUpper(query)) + [e],
                               FirstMatch(rs, ListingBatch, ToUpper(query))))
  {
    MatchingAppend(es, e, EventBatch, ToUpper(query));
  }

  /** Listing a batch in a store shows up in its history only if it has not
      been listed before; other batches are unaffected. */
  lemma ScanAfterListing(ps: seq<ProduceRecord>, es: seq<SupplyChainEvent>, rs: seq<InventoryListing>, query: string,
                         r: InventoryListing)
    ensures r.batchId != ToUpper(query) || FirstMatch(rs, ListingBatch, ToUpper(query)).Some? ==>
              Scan(ps, es, rs + [r], query) == Scan(ps, es, rs, query)
    ensures r.batchId == ToUpper(query) && FirstMatch(rs, ListingBatch, ToUpper(query)).None? ==>
              Scan(ps, es, rs + [r], query) ==
                Trace(Timeline(FirstMatch(ps, ProduceBatch, ToUpper(query)),
                               Matching(es, EventBatch, ToUpper(query)), Some(r)))
  {
    FirstMatchAppend(rs, r, ListingBatch, ToUpper(query));
  }

  // ---------------------------------------------------------------------------
  // Worked scenarios
  // ---------------------------------------------------------------------------

  /** A lone event with no produce record or listing is still shown (for
      example an event for "BATCH-ABC123" scanned as "batch-abc123"). */
  lemma PartialTraceScenario(e: SupplyChainEvent, query: string)
    requires e.batchId == ToUpper(query)
    ensures Scan([], [e], [], query) == Trace([Transit(e)])
  {
    assert [e][1..] == [];
    assert Matching([e], EventBatch, ToUpper(query)) == [e];
    assert Transits([e]) == [Transit(e)];
  }

  /** Origin, two events in recording order, then the store listing; an
      event of another batch recorded in between is skipped. */
  lemma FullTraceScenario(p: ProduceRecord, shipped: SupplyChainEvent, other: SupplyChainEvent,
                          delivered: SupplyChainEvent, r: InventoryListing, query: string)
    requires p.batchId == shipped.batchId == delivered.batchId == r.batchId == ToUpper(query)
    requires other.batchId != ToUpper(query)
    ensures Scan([p], [shipped, other, delivered], [r], query) ==
            Trace([Origin(p), Transit(shipped), Transit(delivered), Shelf(r)])
  {
    var id := ToUpper(query);
    var es := [shipped, other, delivered];
    assert es[1..] == [other, delivered] && es[1..][1..] == [delivered] && [delivered][1..] == [];
    assert Matching([delivered], EventBatch, id) == [delivered];
    assert Matching([other, delivered], EventBatch, id) == [delivered];
    assert Matching(es, EventBatch, id) == [shipped, delivered];
    assert FirstMatch([p], ProduceBatch, id) == Some(p);
    assert FirstMatch([r], ListingBatch, id) == Some(r);
    assert [shipped, delivered][..1] == [shipped];
    assert Transits([shipped]) == [Transit(shipped)];
    assert Transits([shipped, delivered]) == [Transit(shipped), Transit(delivered)];
  }
}
