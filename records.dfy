/** The records that AgriTrace keeps, the session user, and the batch-ID rules
    (upper-casing and the "BATCH-" prefix). All values: the source builds each
    record once as an object literal and never changes it afterwards. */
module Records {

  datatype Option<T> = None | Some(value: T)

  /** The logged-in user: `{username, role}`. */
  datatype User = User(username: string, role: string)

  /** A farmer's produce registration. `quantity` is kept as the form's string. */
  datatype ProduceRecord = ProduceRecord(
    batchId: string,
    name: string,
    origin: string,
    harvestDate: string,
    quantity: string,
    details: string,
    date: string,
    farmer: string)

  /** A distributor's supply-chain event for some batch. */
  datatype SupplyChainEvent = SupplyChainEvent(
    batchId: string,
    eventType: string,
    location: string,
    details: string,
    date: string,
    distributor: string)

  /** A retailer's listing of a batch as available in a store. */
  datatype InventoryListing = InventoryListing(
    batchId: string,
    storeName: string,
    shelfLocation: string,
    price: string,
    expiryDate: string,
    date: string,
    retailer: string)

  /** The key each kind of record is joined on. */
  function ProduceBatch(p: ProduceRecord): string { p.batchId }
  function EventBatch(e: SupplyChainEvent): string { e.batchId }
  function ListingBatch(r: InventoryListing): string { r.batchId }

  // ---------------------------------------------------------------------------
  // Upper-casing (`String.prototype.toUpperCase`, on the ASCII letters)
  // ---------------------------------------------------------------------------

  predicate IsLower(c: char) { 'a' <= c <= 'z' }

  function UpperChar(c: char): (u: char)
    ensures !IsLower(u)
    ensures IsLower(c) ==> u as int == c as int - 32
    ensures !IsLower(c) ==> u == c
  {
    if IsLower(c) then (c as int - 32) as char else c
  }

  /** A string with no lower-case letter in it. */
  predicate NoLower(s: string) { forall i :: 0 <= i < |s| ==> !IsLower(s[i]) }

  function ToUpper(s: string): (r: string)
    ensures |r| == |s|
    ensures forall i :: 0 <= i < |s| ==> r[i] == UpperChar(s[i])
    ensures NoLower(r)
  {
    if s == [] then [] else [UpperChar(s[0])] + ToUpper(s[1..])
  }

  /** Upper-casing changes a string exactly when it holds a lower-case letter,
      so it is idempotent. */
  lemma ToUpperFixedIff(s: string)
    ensures ToUpper(s) == s <==> NoLower(s)
  {
    if NoLower(s) {
      assert forall i :: 0 <= i < |s| ==> ToUpper(s)[i] == s[i];
    } else {
      var i :| 0 <= i < |s| && IsLower(s[i]);
      assert ToUpper(s)[i] != s[i];
    }
  }

  lemma ToUpperIdempotent(s: string)
    ensures ToUpper(ToUpper(s)) == ToUpper(s)
  {
    ToUpperFixedIff(ToUpper(s));
  }

  /** No upper-cased query equals an ID that holds a lower-case letter. */
  lemma UpperNeverMatchesLower(query: string, id: string)
    requires !NoLower(id)
    ensures ToUpper(query) != id
  {
  }

  // ---------------------------------------------------------------------------
  // Generated batch IDs
  // ---------------------------------------------------------------------------

  const BatchPrefix: string := "BATCH-"

  /** `s.substr(start, length)` for a start inside or past the end of `s`. */
  function Substr(s: string, start: nat, length: nat): (r: string)
    ensures |r| == if start >= |s| then 0 else if start + length <= |s| then length else |s| - start
    ensures forall i :: 0 <= i < |r| ==> start + i < |s| && r[i] == s[start + i]
  {
    if start >= |s| then []
    else if start + length <= |s| then s[start..start + length]
    else s[start..]
  }

  /** `'BATCH-' + raw.substr(2, 6).toUpperCase()`, where `raw` is the text of
      `Math.random().toString(36)` (for example "0.k3j9x2a1"). */
  function GenerateBatchId(raw: string): (id: string)
    ensures |id| == |BatchPrefix| + (if |raw| <= 2 then 0 else if |raw| >= 8 then 6 else |raw| - 2)
    ensures id[..|BatchPrefix|] == BatchPrefix
    ensures forall i :: |BatchPrefix| <= i < |id| ==> i - 4 < |raw| && id[i] == UpperChar(raw[i - 4])
    ensures NoLower(id)
  {
    BatchPrefix + ToUpper(Substr(raw, 2, 6))
  }

  /** Whatever the random text, a generated ID is left unchanged by the scan's
      upper-casing, so the scan can find it. */
  lemma GeneratedIdIsScannable(raw: string)
    ensures ToUpper(GenerateBatchId(raw)) == GenerateBatchId(raw)
  {
    ToUpperFixedIff(GenerateBatchId(raw));
  }

  /** The token is not always six characters: `(0.5).toString(36)` is "0.i". */
  lemma ShortTokenExample()
    ensures GenerateBatchId("0.i") == "BATCH-I"
    ensures |GenerateBatchId("0.i")| == |BatchPrefix| + 1
  {
    assert Substr("0.i", 2, 6) == "i";
    assert ToUpper("i") == "I";
  }
}
