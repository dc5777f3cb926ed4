# AgriTrace record store and batch-history query, in Dafny

AgriTrace is a browser demo that follows a batch of produce from farmer to
distributor to retailer to consumer. This project models the part of its
`script.js` that has behaviour worth stating:

- the session (`currentUser`), with login and logout;
- the three append-only arrays `produceData`, `supplyChainEvents` and
  `retailerInventory`, with their registration handlers, `clearAllData`, and
  the whole-snapshot save and load through local storage;
- the consumer's scan (`handleProductScan`). It upper-cases the typed batch ID,
  takes the first matching produce record, every matching supply-chain event
  in recording order, and the first matching store listing. It then shows them
  as origin, events, listing, or reports "not found".

Files and modules:

- `records.dfy` (`Records`): the record datatypes, ASCII upper-casing, and the
  `"BATCH-"` ID rule.
- `search.dfy` (`Search`): `FirstMatch` and `Matching`, the models of
  `Array.prototype.find` and `filter` keyed on a batch ID, with their lemmas.
- `history.dfy` (`History`): the scan as a pure function `Scan`, with lemmas
  on what it shows and how each registration changes it.
- `storage.dfy` (`Persistence`): the stored snapshot as a value (`Encode`,
  `Restore`).
- `store.dfy` (`AgriTrace`): class `Store`. It holds the page's global state
  as fields, and its handlers are methods with `modifies` clauses.

The class keeps one invariant, `Valid()`: a logged-in user has a non-empty
name and role. Each registration that succeeds, and `clearAllData`, ends in
`Saved()`, which says the stored snapshot equals the in-memory arrays. `Encode` says that loading that
snapshot gives back exactly those arrays. `HandleProductScan` has no
`modifies` clause, so the verifier checks that it changes no field.

Points where the code does less than one might expect; the model follows the code:

- When the stored entry is absent or cannot be parsed (the `if (savedData)`
  and the `catch` at script.js:47 and 54), `loadDataFromStorage` leaves the
  arrays as they were. It does not reset them to empty.
- A generated ID is `"BATCH-"` plus at most six characters, not always six,
  and despite the comment "Generate unique batch ID" at script.js:213 it is
  not checked against the IDs already stored.
  `ShortTokenExample` shows `"0.i"`, the base-36 text of 0.5, giving `"BATCH-I"`.
- A registration with nobody logged in throws at `currentUser.username`
  before it pushes or saves anything. The model returns a failure and leaves
  the state unchanged.
- The role is not checked. Any logged-in user can call any registration handler.

## Model

| member | source | states |
|---|---|---|
| Records.ToUpper | script.js:419 | the query is upper-cased character by character; the result has the same length and no lower-case letter |
| Records.UpperChar | script.js:419 | a lower-case ASCII letter becomes its upper-case letter (code minus 32); every other character is kept; the result is never lower-case |
| Records.ToUpperFixedIff | script.js:419 | upper-casing leaves a string unchanged exactly when it has no lower-case letter |
| Records.ToUpperIdempotent | script.js:419 | upper-casing twice is the same as upper-casing once |
| Records.UpperNeverMatchesLower | script.js:419-425 | an ID typed with a lower-case letter into the distributor or retailer form is never equal to an upper-cased query |
| Records.Substr | script.js:214 | `substr(start, length)` gives the characters of `s` from `start` on: `length` of them when `s` is long enough, all the remaining ones when it is shorter, none when `start` is past the end |
| Records.GenerateBatchId | script.js:214 | a produce ID is "BATCH-" followed by the upper-cased characters 2..7 of the random text; its length is 6 plus the number of characters the text has after its first two, capped at 6 (12 when the text has at least 8 characters), and it has no lower-case letter |
| Records.GeneratedIdIsScannable | script.js:399 | a generated ID, as also shown by the sample-QR generator, is unchanged by the scan's upper-casing |
| Records.ShortTokenExample | script.js:214 | the token can be shorter than six characters: "0.i" gives "BATCH-I" |
| Search.FirstMatch | script.js:423 | `find` returns nothing exactly when no element has the ID; otherwise it returns an element with the ID that no earlier element shares |
| Search.Matching | script.js:424 | `filter` keeps only elements with the ID, and is empty exactly when no element has it |
| Search.MatchingMembers | script.js:424 | an element is kept exactly when it is in the array and has the ID |
| Search.MatchingConcat | script.js:424 | the filter of a concatenation is the concatenation of the filters, so recording order is kept |
| Search.MatchingAppend | script.js:424 | pushing an element adds it to the end of the filtered events exactly when it has the ID |
| Search.FirstMatchAppend | script.js:423 | pushing an element changes `find`'s answer only when there was no match before; a later duplicate never wins |
| Search.FirstMatchIsHeadOfMatching | script.js:423-425 | `find` returns the first element of `filter`'s result |
| History.TimelineLayout | script.js:437-475 | the assembled history holds the origin first when there is one, then one entry per event in order, then the listing last when there is one, and nothing else |
| History.Scan | script.js:419-480 | the scan never yields the "registered but no events" fallback, and a found history is non-empty; the lemmas ScanFoundIff, ScanOrigin, ScanEvents, ScanShelf and ScanStageOrder state the rest |
| History.Transits | script.js:452-461 | the event entries are one per event, in the events' order |
| History.TimelineTransits | script.js:437-475 | the events read back from an assembled history are exactly the events put into it |
| History.TransitsOfTransits | script.js:452-461 | the events read back from the event entries are the events given |
| History.ScanFoundIff | script.js:430-480 | "not found" is reported exactly when no record of any array has the upper-cased ID; the "registered but no events" fallback is never reached |
| History.ScanShowsOnlyQueriedBatch | script.js:419-425 | every entry shown has the upper-cased query as its ID, so it has no lower-case letter |
| History.ScanStageOrder | script.js:437-475 | the history runs origin, then events, then listing; at most one origin (first) and one listing (last) |
| History.ScanOrigin | script.js:423-449 | the origin shown is exactly the first produce record with the ID, and it is shown whenever one exists |
| History.ScanShelf | script.js:425-475 | the listing shown is exactly the first store listing with the ID, and it is shown whenever one exists |
| History.ScanEvents | script.js:424-461 | the events shown, in order, are exactly the events with the ID in recording order |
| History.ScanIgnoresQueryCase | script.js:419 | scanning a query and its upper-cased form give the same result |
| History.ScanAfterProduce | script.js:229 | a new produce record shows up in its batch's history only when no earlier record has its ID; other batches are unaffected |
| History.ScanAfterEvent | script.js:294 | a new event is appended to its batch's events, before the listing; other batches are unaffected |
| History.ScanAfterListing | script.js:360 | a new listing shows up only when its batch had none; other batches are unaffected |
| History.PartialTraceScenario | script.js:430-461 | a lone event with no produce record and no listing is still found and shown on its own |
| History.FullTraceScenario | script.js:437-475 | origin, two events in order, and the listing give exactly four entries in that order; an event of another batch is skipped |
| Persistence.Encode | script.js:60-67 | the saved entry holds all three arrays, and loading it restores exactly them whatever memory held |
| Persistence.Restore | script.js:47-51 | each array present in a readable snapshot is loaded exactly as stored, and memory changes only when a readable snapshot is present |
| Persistence.RestoreCases | script.js:44-56 | loading an absent or unparsable entry changes nothing; a missing array field loads as empty |
| AgriTrace.Store.constructor | script.js:3-6 | the session starts empty and the three arrays start empty |
| AgriTrace.Store.LoadDataFromStorage | script.js:44-57 | the arrays become what the stored entry restores; the session and storage are unchanged |
| AgriTrace.Store.SaveDataToStorage | script.js:60-72 | the stored entry becomes the snapshot of the three arrays |
| AgriTrace.Store.HandleLogin | script.js:97-117 | login succeeds exactly when name, password and role are all non-empty, and then sets the user to the name and role; otherwise the session is kept |
| AgriTrace.Store.Logout | script.js:152-154 | the session is always cleared |
| AgriTrace.Store.HandleProduceRegistration | script.js:210-230 | with a user logged in, exactly one record with the generated ID and the user's name is appended and saved, and the ID is returned; otherwise nothing changes; the other arrays never change |
| AgriTrace.Store.HandleSupplyChainUpdate | script.js:280-295 | with a user logged in, exactly one event with the typed ID and the user's name is appended and saved; otherwise nothing changes; the other arrays never change |
| AgriTrace.Store.HandleMarkAvailable | script.js:345-361 | with a user logged in, exactly one listing with the typed ID and the user's name is appended and saved; otherwise nothing changes; the other arrays never change |
| AgriTrace.Store.ClearAllData | script.js:510-516 | all three arrays become empty and that empty state is saved |
| AgriTrace.Store.HandleProductScan | script.js:416-487 | the result is `Scan` of the current arrays, and no field changes |
| AgriTrace.AppendEvents | script.js:452-461 | the loop over the matching events appends one entry per event, in order |

## Left out

- The page's user interface is not modelled. This covers dashboards, show/hide, form resets, success messages, timers, the submission lists and the floating-particle animation. None of it changes the data.
- The HTML of the history is not modelled. A history is a sequence of tagged entries holding the records. The `|| 'No additional details'` display default is left out too.
- Local storage and JSON are not modelled as such. The stored entry is a value: a snapshot whose three fields may each be missing, or unreadable text. The empty string falls in the unreadable case, because the loader skips it the same way. An array field that holds something other than an array is not modelled.
- SaveDataToStorage: a failed write, such as a full quota, is not modelled. In the source it is only logged and memory is not rolled back. Here the save always succeeds.
- Randomness, the clock and form input are parameters. `Math.random().toString(36)` is the `raw` text, today's date is the `date` string, and form values are the method arguments.
- Records.ToUpper: only the ASCII letters a-z are mapped. JavaScript's `toUpperCase` also maps other Unicode letters, some to several characters.
- Console logging and `showAllData` are left out. They are debug output only.
