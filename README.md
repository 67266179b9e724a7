# MemStorage, modelled in Dafny

The travel-planning server keeps its domain data in `MemStorage` (server/storage.ts). This is an in-memory store of nine collections: users, trips, itinerary items, expenses, bookings, alerts, hidden gems, community posts and local experts. Each collection is a JavaScript `Map` from a numeric id to a record, paired with its own id counter.

This project models that store and proves what its operations promise.

Each collection is one generic `Tables.Table<R>`, a value with three parts:
- the map from id to record;
- the keys in iteration (insertion) order, because a Dafny `map` has no order and a JavaScript `Map` does;
- the counter.

`Tables.Valid` is the invariant that every operation keeps:
- the counter is at least 1;
- every key lies in `[1, counter)`;
- the order lists exactly the keys, strictly ascending, so insertion order is ascending-id order.

The pure table operations are:
- `Insert` for `counter++` followed by `Map.set`;
- `Get` for `Map.get`;
- `Put` for `Map.set` on a present key, which keeps the key's position;
- `Remove` for `Map.delete`;
- `Values` for `Array.from(map.values())`;
- `Where` for `.filter`;
- `Find` for `.find`.

`Insert`, `Get`, `Put` and `Remove` are specified key by key, through `Get` and `Valid`. The three read operations are proved against a reference predicate:
- `Values` (through `ValuesSelectsAll`) and `Where` against `Selects`: exactly the matching records, in ascending-key order;
- `Find` against `IsEarliest`: the match under the smallest key.

`Storage.MemStorage` is a class with the nine tables as fields:
- Each `create*`, `update*`, `delete*` and `markAlertAsRead` method reassigns one field. Its postcondition states the new table and that the other eight are unchanged.
- The read operations (`get*`, `get*By*`, the location finders and `getUserByUsername`) are functions of the current state.

`Schema` holds the records of shared/schema.ts:
- the stored record;
- the record a create takes;
- for the five updatable entities, the partial record an update merges in, with an `Option` per field.

`Text` holds `toLowerCase` (ASCII letters) and `String.prototype.includes`, which the location finders use.

The table declarations in shared/schema.ts promise more than the store does, and the model follows the store:
- `status` is declared with the default "planned" and `travelers` with the default 1 (shared/schema.ts:48, 51). `createTrip` (server/storage.ts:511-517) applies neither default, so a trip created without them has none, and both fields are `Option`s.
- `username` is declared unique (shared/schema.ts:18). `createUser` (server/storage.ts:488-494) does not check it. `Storage.DuplicateUsernamesAllowed` shows two users with one username side by side.
- The insert schema for local experts omits `rating`, `reviewCount` and `isVerified` (shared/schema.ts:217-223). Yet `createLocalExpert` keeps a truthy value the caller sends, through `x || 0` and `x || false` (server/storage.ts:753-755).
- The insert schema for alerts omits `isRead` (shared/schema.ts:158-162), and `createAlert` stores it as false. Yet `updateAlert` takes any partial alert (server/storage.ts:661-671), so it can set `isRead` back to false.

## Model

| member | source | states |
|---|---|---|
| Tables.Empty | server/storage.ts:114-133 | a fresh collection holds no key and its counter is 1, and it satisfies the table invariant |
| Tables.Get | server/storage.ts:478-480 | the lookup yields a record exactly when the id is a key, and then the record stored under it; an id outside [1, counter) always yields nothing |
| Tables.Values | server/storage.ts:497-499 | the listing has one record per key, the record under the i-th key in insertion order |
| Tables.ValuesSelectsAll | server/storage.ts:497-499 | the listing is every record in ascending-id order |
| Tables.Insert | server/storage.ts:488-494 | the new id is the counter, which was not a key; the counter rises by one; the id goes last in iteration order; only that key gains a record; the invariant is kept |
| Tables.InsertAppends | server/storage.ts:488-494 | after a create the listing is the old listing with the new record appended |
| Tables.Put | server/storage.ts:519-526 | setting a present key changes only that key's record; the counter and iteration order are unchanged |
| Tables.PutKeepsPosition | server/storage.ts:519-526 | an updated record stays at its position in the listing and every other record keeps its value |
| Tables.Remove | server/storage.ts:528-530 | delete removes only the given key; the counter is unchanged; deleting an absent key changes nothing |
| Tables.RemoveTwice | server/storage.ts:528-530 | after a delete the id is absent, and deleting it again changes nothing |
| Tables.InsertThenRemove | server/storage.ts:528-530 | deleting the record just created restores the collection, except that the counter stays advanced |
| Tables.SelectsUnique | server/storage.ts:501-505 | a query has only one answer that satisfies the reference predicate |
| Tables.Where | server/storage.ts:501-505 | the filter returns exactly the records satisfying the predicate, in ascending-id order |
| Tables.WhereAgree | server/storage.ts:695-699 | two predicates that agree on every stored record give the same query result |
| Tables.WhereEverything | server/storage.ts:695-699 | a predicate every stored record satisfies returns the whole listing |
| Tables.Find | server/storage.ts:482-486 | find returns nothing exactly when no record matches, and otherwise the matching record under the smallest key |
| Tables.FindKeepsFirst | server/storage.ts:482-486 | once a record satisfying the predicate is inserted first, find keeps returning it after one further insert of any record |
| Tables.Run | server/storage.ts:488-530 | any sequence of creates, updates and deletes keeps the table invariant |
| Tables.RunIssuesFreshIds | server/storage.ts:488-494 | over any sequence of operations the counter rises by exactly the number of creates, and every new key is at least the old counter |
| Tables.NeverReused | server/storage.ts:528-530 | an id below the counter that is not a key never becomes a key again, whatever operations follow |
| Tables.RunCreatesOrder | server/storage.ts:488-494 | n creates assign the ids counter, counter+1, ..., counter+n-1, in that order |
| Tables.RunCreatesValues | server/storage.ts:488-494 | after n creates, the listing is the old listing followed by the created records in order |
| Tables.FreshCreates | server/storage.ts:125-133 | n creates on a fresh collection assign the ids 1..n and list the records in creation order |
| Sequences.Without | server/storage.ts:528-530 | removing a key from the iteration order keeps every other key and drops that one |
| Sequences.WithoutIncreasing | server/storage.ts:528-530 | removing a key keeps the order strictly ascending |
| Sequences.IncreasingUnique | server/storage.ts:501-505 | two strictly ascending key sequences with the same keys are equal |
| Sequences.Filter | server/storage.ts:501-505 | the filter keeps only elements satisfying the predicate and is no longer than its input |
| Sequences.FilterProject | server/storage.ts:501-505 | filtering the records read in key order equals reading the keys whose record passes |
| Sequences.First | server/storage.ts:482-486 | find returns an element satisfying the predicate, or nothing exactly when no element does |
| Sequences.FirstIsHeadOfFilter | server/storage.ts:482-486 | find returns the first element of what filter returns |
| Text.Lower | server/storage.ts:695-699 | lower-casing keeps the length and maps each character through the ASCII lower-case map |
| Text.Includes | server/storage.ts:697 | the empty query is included in every text, and an included query is no longer than the text |
| Text.IncludesAt | server/storage.ts:695-699 | includes holds exactly when the query occurs in the text at some offset |
| Text.MatchesAt | server/storage.ts:695-699 | the empty query matches every location; a query matches exactly when its lower-cased form occurs in the lower-cased location |
| Text.LowerIdempotent | server/storage.ts:695-699 | lower-casing twice equals lower-casing once |
| Text.MatchIgnoresQueryCase | server/storage.ts:695-699 | a query and its lower-cased form match the same locations |
| Schema.MakeUser | server/storage.ts:491 | a created user carries the new id and timestamp, and stripping those gives back exactly the insert it was made from |
| Schema.MakeTrip | server/storage.ts:514 | a created trip carries the new id and timestamp, and stripping those gives back exactly the insert it was made from |
| Schema.MakeItineraryItem | server/storage.ts:545 | a created item carries the new id (no timestamp), and stripping those gives back exactly the insert it was made from |
| Schema.MakeExpense | server/storage.ts:580 | a created expense carries the new id and timestamp, and stripping those gives back exactly the insert it was made from |
| Schema.MakeBooking | server/storage.ts:615 | a created booking carries the new id and timestamp, and stripping those gives back exactly the insert it was made from |
| Schema.MakeHiddenGem | server/storage.ts:704 | a created gem carries the new id and timestamp, and stripping those gives back exactly the insert it was made from |
| Schema.OrNumber | server/storage.ts:753-754 | a logical or of a number sent and a fallback is the fallback or the value sent; with fallback 0 it is the value sent, or 0 when none was sent |
| Schema.OrBool | server/storage.ts:755 | a logical or of a boolean sent and a fallback is the fallback or the value sent; with fallback false it is the value sent, or false when none was sent |
| Schema.MakeAlert | server/storage.ts:653-659 | a created alert carries the new id and timestamp and is unread whatever the caller sent; the other fields are the insert's |
| Schema.MarkReadIsMerge | server/storage.ts:677-684 | marking an alert read is the update whose patch carries only isRead true |
| Schema.MergeTrip | server/storage.ts:523 | the spread merge: a patch with no keys leaves the trip unchanged |
| Schema.MergeTripReplaces | server/storage.ts:523 | a patch carrying every field replaces the trip with the patch's values, so each key the patch holds overwrites the stored field |
| Schema.MergeTripSetsUserId | server/storage.ts:523 | a patch holding only userId overwrites that field of the trip and keeps every other field |
| Schema.MergeTripIdempotent | server/storage.ts:523 | applying the same patch twice equals applying it once |
| Schema.MergeItineraryItem | server/storage.ts:557 | the spread merge: a patch with no keys leaves the item unchanged |
| Schema.MergeItineraryItemReplaces | server/storage.ts:557 | a patch carrying every field replaces the item with the patch's values, so each key the patch holds overwrites the stored field |
| Schema.MergeItineraryItemSetsTripId | server/storage.ts:557 | a patch holding only tripId overwrites that field of the item and keeps every other field |
| Schema.MergeItineraryItemIdempotent | server/storage.ts:557 | applying the same patch twice equals applying it once |
| Schema.MergeExpense | server/storage.ts:592 | the spread merge: a patch with no keys leaves the expense unchanged |
| Schema.MergeExpenseReplaces | server/storage.ts:592 | a patch carrying every field replaces the expense with the patch's values, so each key the patch holds overwrites the stored field |
| Schema.MergeExpenseSetsTripId | server/storage.ts:592 | a patch holding only tripId overwrites that field of the expense and keeps every other field |
| Schema.MergeExpenseIdempotent | server/storage.ts:592 | applying the same patch twice equals applying it once |
| Schema.MergeBooking | server/storage.ts:627 | the spread merge: a patch with no keys leaves the booking unchanged |
| Schema.MergeBookingReplaces | server/storage.ts:627 | a patch carrying every field replaces the booking with the patch's values, so each key the patch holds overwrites the stored field |
| Schema.MergeBookingSetsTripId | server/storage.ts:627 | a patch holding only tripId overwrites that field of the booking and keeps every other field |
| Schema.MergeBookingIdempotent | server/storage.ts:627 | applying the same patch twice equals applying it once |
| Schema.MergeAlert | server/storage.ts:668 | the spread merge: a patch with no keys leaves the alert unchanged |
| Schema.MergeAlertReplaces | server/storage.ts:668 | a patch carrying every field replaces the alert with the patch's values, so each key the patch holds overwrites the stored field |
| Schema.MergeAlertSetsTripId | server/storage.ts:668 | a patch holding only tripId overwrites that field of the alert and keeps every other field |
| Schema.MergeAlertIdempotent | server/storage.ts:668 | applying the same patch twice equals applying it once |
| Schema.MakeCommunityPost | server/storage.ts:718-730 | a created post carries the new id and timestamp, and its like and reply counts are 0 whatever the caller sent; the other fields are the insert's |
| Schema.MakeLocalExpert | server/storage.ts:747-760 | a created expert carries the new id and timestamp; rating and review count are the values sent or 0, and isVerified is the value sent or false; the other fields are the insert's |
| Storage.MemStorage.constructor | server/storage.ts:114-133 | all nine collections start empty with their counters at 1 |
| Storage.MemStorage.GetUser | server/storage.ts:478-480 | the user stored under the id, or nothing exactly when the id is not a key |
| Storage.MemStorage.UserByUsername | server/storage.ts:482-486 | nothing exactly when no user has that username; otherwise a user with that username, the earliest created one |
| Storage.MemStorage.CreateUser | server/storage.ts:488-494 | the user gets the counter as id and the given timestamp; the users collection is the old one with it inserted; nothing else changes |
| Storage.MemStorage.Trips | server/storage.ts:497-499 | every trip in ascending-id order |
| Storage.MemStorage.TripsByUserId | server/storage.ts:501-505 | exactly the trips of that user, in ascending-id order |
| Storage.MemStorage.GetTrip | server/storage.ts:507-509 | the trip stored under the id, or nothing exactly when the id is not a key |
| Storage.MemStorage.CreateTrip | server/storage.ts:511-517 | the trip gets the counter as id and the given timestamp; the trips collection is the old one with it inserted; nothing else changes |
| Storage.MemStorage.UpdateTrip | server/storage.ts:519-526 | a missing id returns nothing and changes nothing; otherwise the stored trip becomes the old one merged with the patch, which may overwrite its id field but not its key; only that trip changes |
| Storage.MemStorage.DeleteTrip | server/storage.ts:528-530 | returns true exactly when the id was a key; only that key goes; the trip's items, expenses, bookings and alerts remain and their queries by this trip id return the same as before |
| Storage.MemStorage.ItineraryItemsByTripId | server/storage.ts:533-537 | exactly the items of that trip, in ascending-id order |
| Storage.MemStorage.GetItineraryItem | server/storage.ts:539-541 | the item stored under the id, or nothing exactly when the id is not a key |
| Storage.MemStorage.CreateItineraryItem | server/storage.ts:543-548 | the item gets the counter as id and no timestamp; the items collection is the old one with it inserted; nothing else changes |
| Storage.MemStorage.UpdateItineraryItem | server/storage.ts:550-560 | a missing id returns nothing and changes nothing; otherwise only that item changes, to the old one merged with the patch |
| Storage.MemStorage.DeleteItineraryItem | server/storage.ts:562-564 | returns true exactly when the id was a key; only that key goes |
| Storage.MemStorage.ExpensesByTripId | server/storage.ts:567-571 | exactly the expenses of that trip, in ascending-id order |
| Storage.MemStorage.GetExpense | server/storage.ts:573-575 | the expense stored under the id, or nothing exactly when the id is not a key |
| Storage.MemStorage.CreateExpense | server/storage.ts:577-583 | the expense gets the counter as id and the given timestamp; the expenses collection is the old one with it inserted; nothing else changes |
| Storage.MemStorage.UpdateExpense | server/storage.ts:585-595 | a missing id returns nothing and changes nothing; otherwise only that expense changes, to the old one merged with the patch |
| Storage.MemStorage.DeleteExpense | server/storage.ts:597-599 | returns true exactly when the id was a key; only that key goes |
| Storage.MemStorage.BookingsByTripId | server/storage.ts:602-606 | exactly the bookings of that trip, in ascending-id order |
| Storage.MemStorage.GetBooking | server/storage.ts:608-610 | the booking stored under the id, or nothing exactly when the id is not a key |
| Storage.MemStorage.CreateBooking | server/storage.ts:612-618 | the booking gets the counter as id and the given timestamp; the bookings collection is the old one with it inserted; nothing else changes |
| Storage.MemStorage.UpdateBooking | server/storage.ts:620-630 | a missing id returns nothing and changes nothing; otherwise only that booking changes, to the old one merged with the patch |
| Storage.MemStorage.DeleteBooking | server/storage.ts:632-634 | returns true exactly when the id was a key; only that key goes |
| Storage.MemStorage.AlertsByUserId | server/storage.ts:637-641 | exactly the alerts of that user, in ascending-id order |
| Storage.MemStorage.AlertsByTripId | server/storage.ts:643-647 | exactly the alerts whose trip is that trip, in ascending-id order; alerts without a trip never match |
| Storage.MemStorage.GetAlert | server/storage.ts:649-651 | the alert stored under the id, or nothing exactly when the id is not a key |
| Storage.MemStorage.CreateAlert | server/storage.ts:653-659 | the alert gets the counter as id and the given timestamp and is stored unread; nothing else changes |
| Storage.MemStorage.UpdateAlert | server/storage.ts:661-671 | a missing id returns nothing and changes nothing; otherwise only that alert changes, to the old one merged with the patch |
| Storage.MemStorage.DeleteAlert | server/storage.ts:673-675 | returns true exactly when the id was a key; only that key goes |
| Storage.MemStorage.MarkAlertAsRead | server/storage.ts:677-684 | a missing id returns nothing and changes nothing; otherwise only isRead of that alert becomes true; on an alert already read nothing changes, so the operation is idempotent |
| Storage.MemStorage.HiddenGems | server/storage.ts:687-689 | every hidden gem in ascending-id order |
| Storage.MemStorage.GetHiddenGem | server/storage.ts:691-693 | the gem stored under the id, or nothing exactly when the id is not a key |
| Storage.MemStorage.HiddenGemsByLocation | server/storage.ts:695-699 | exactly the gems whose location contains the query, ignoring ASCII case, in ascending-id order |
| Storage.MemStorage.CreateHiddenGem | server/storage.ts:701-707 | the gem gets the counter as id and the given timestamp; the gems collection is the old one with it inserted; nothing else changes |
| Storage.MemStorage.CommunityPosts | server/storage.ts:710-712 | every community post in ascending-id order |
| Storage.MemStorage.GetCommunityPost | server/storage.ts:714-716 | the post stored under the id, or nothing exactly when the id is not a key |
| Storage.MemStorage.CreateCommunityPost | server/storage.ts:718-730 | the post gets the counter as id and the given timestamp, with like and reply counts 0; nothing else changes |
| Storage.MemStorage.LocalExperts | server/storage.ts:733-735 | every local expert in ascending-id order |
| Storage.MemStorage.LocalExpertsByLocation | server/storage.ts:737-741 | exactly the experts whose location contains the query, ignoring ASCII case, in ascending-id order |
| Storage.MemStorage.GetLocalExpert | server/storage.ts:743-745 | the expert stored under the id, or nothing exactly when the id is not a key |
| Storage.MemStorage.CreateLocalExpert | server/storage.ts:747-760 | the expert gets the counter as id and the given timestamp; rating and review count are the values sent or 0, and isVerified is the value sent or false; nothing else changes |
| Storage.EmptyLocationFindsAll | server/storage.ts:737-741 | an empty location query returns every hidden gem and every local expert |
| Storage.LocationQueryIgnoresCase | server/storage.ts:695-699 | both location finders return the same records for a query and its lower-cased form |
| Storage.DuplicateUsernamesAllowed | server/storage.ts:482-494 | a second user with a taken username is stored beside the first, and the lookup by that username still returns the first |

## Left out

- `initializeData`, the sample data the constructor loads, is not modelled. It is built from promise chains, and its ids depend on their scheduling. The constructor is modelled as if it ended after setting the counters.
- `createdAt` is a wall-clock `new Date()`. Each create takes the timestamp as a parameter `now`.
- The store's methods are `async` but await nothing. They are modelled as synchronous, and concurrent callers are not modelled.
- server/routes.ts (HTTP dispatch, validation, status codes) is not part of this model. Neither are the client files.
- Text.Lower: only the ASCII letters A-Z are lower-cased. The full Unicode case mapping of `toLowerCase` is not modelled.
- A patch cannot hold a key whose value is explicitly `undefined`, which the spread would copy. The exception is the four columns that are not nullable but have a database default: `status` and `travelers` of a trip, `isCustom` of an itinerary item and `urgency` of an alert (shared/schema.ts:48, 51, 79, 152). On those, `Some(None)` in a patch stands for exactly that explicit `undefined`. A patch also cannot hold keys outside the record type. A patch is one `Option` per field of the record.
- Numbers are unbounded integers. The 2^53 limit of JavaScript numbers, fractional amounts, and `NaN` or negative-zero ids are not modelled. The counters never reach the limit in practice.
- Records are compared by value. Map values are JavaScript objects, and a caller that mutates a returned record would also mutate the stored one. This aliasing is not modelled.
