/** `MemStorage` of server/storage.ts: nine collections, each a `Map` from id to
    record with its own id counter, and the operations of `IStorage` over them. */
module Storage {
  import opened Wrappers
  import opened Sequences
  import opened Tables
  import opened Schema
  import opened Text

  /** The nine collections at one moment. */
  datatype Collections = Collections(
    users: Table<User>, trips: Table<Trip>, itineraryItems: Table<ItineraryItem>,
    expenses: Table<Expense>, bookings: Table<Booking>, alerts: Table<Alert>,
    hiddenGems: Table<HiddenGem>, communityPosts: Table<CommunityPost>,
    localExperts: Table<LocalExpert>)

  // The filters the queries apply.

  function HasUsername(username: string): User -> bool {
    (u: User) => u.username == username
  }

  function TripOfUser(userId: int): Trip -> bool {
    (t: Trip) => t.userId == userId
  }

  function ItemOfTrip(tripId: int): ItineraryItem -> bool {
    (i: ItineraryItem) => i.tripId == tripId
  }

  function ExpenseOfTrip(tripId: int): Expense -> bool {
    (e: Expense) => e.tripId == tripId
  }

  function BookingOfTrip(tripId: int): Booking -> bool {
    (b: Booking) => b.tripId == tripId
  }

  function AlertOfUser(userId: int): Alert -> bool {
    (a: Alert) => a.userId == userId
  }

  /** An alert without a trip (`tripId` null) belongs to no trip. */
  function AlertOfTrip(tripId: int): Alert -> bool {
    (a: Alert) => a.tripId == Some(tripId)
  }

  function GemAt(location: string): HiddenGem -> bool {
    (g: HiddenGem) => LocationMatches(g.location, location)
  }

  function ExpertAt(location: string): LocalExpert -> bool {
    (e: LocalExpert) => LocationMatches(e.location, location)
  }

  class MemStorage {
    var users: Table<User>
    var trips: Table<Trip>
    var itineraryItems: Table<ItineraryItem>
    var expenses: Table<Expense>
    var bookings: Table<Booking>
    var alerts: Table<Alert>
    var hiddenGems: Table<HiddenGem>
    var communityPosts: Table<CommunityPost>
    var localExperts: Table<LocalExpert>

    ghost predicate Valid()
      reads this
    {
      && Tables.Valid(users) && Tables.Valid(trips) && Tables.Valid(itineraryItems)
      && Tables.Valid(expenses) && Tables.Valid(bookings) && Tables.Valid(alerts)
      && Tables.Valid(hiddenGems) && Tables.Valid(communityPosts) && Tables.Valid(localExperts)
    }

    function Snapshot(): Collections
      reads this
    {
      Collections(users, trips, itineraryItems, expenses, bookings, alerts,
                  hiddenGems, communityPosts, localExperts)
    }

    /** Every map empty, every counter at 1. */
    constructor ()
      ensures Valid()
      ensures Snapshot() == Collections(Empty(), Empty(), Empty(), Empty(), Empty(),
                                        Empty(), Empty(), Empty(), Empty())
    {
      users, trips, itineraryItems := Empty(), Empty(), Empty();
      expenses, bookings, alerts := Empty(), Empty(), Empty();
      hiddenGems, communityPosts, localExperts := Empty(), Empty(), Empty();
    }

    // ----- User operations -----

    function GetUser(id: int): (r: Option<User>)
      reads this
      ensures r.Some? <==> id in users.rows
      ensures r.Some? ==> r.value == users.rows[id]
    {
      Get(users, id)
    }

    /** The earliest-created user with exactly this username; usernames are not
        unique, so later ones are never returned. */
    function UserByUsername(username: string): (r: Option<User>)
      reads this
      requires Valid()
      ensures r.None? <==> forall k :: k in users.rows ==> users.rows[k].username != username
      ensures r.Some? ==> r.value.username == username
      ensures r.Some? ==> IsEarliest(users, HasUsername(username), r.value)
    {
      Find(users, HasUsername(username))
    }

    method CreateUser(user: NewUser, now: Timestamp) returns (r: User)
      requires Valid()
      modifies this
      ensures Valid()
      ensures r == MakeUser(user, old(users.next), now)
      ensures old(users.next) !in old(users.rows) && users.next == old(users.next) + 1
      ensures users == Insert(old(users), r)
      ensures Snapshot() == old(Snapshot()).(users := users)
    {
      var id := users.next;
      r := MakeUser(user, id, now);
      users := Insert(users, r);
    }

    // ----- Trip operations -----

    function Trips(): (r: seq<Trip>)
      reads this
      requires Valid()
      ensures Selects(trips, Everything(), r)
    {
      ValuesSelectsAll(trips);
      Values(trips)
    }

    function TripsByUserId(userId: int): (r: seq<Trip>)
      reads this
      requires Valid()
      ensures Selects(trips, TripOfUser(userId), r)
    {
      Where(trips, TripOfUser(userId))
    }

    function GetTrip(id: int): (r: Option<Trip>)
      reads this
      ensures r.Some? <==> id in trips.rows
      ensures r.Some? ==> r.value == trips.rows[id]
    {
      Get(trips, id)
    }

    method CreateTrip(trip: NewTrip, now: Timestamp) returns (r: Trip)
      requires Valid()
      modifies this
      ensures Valid()
      ensures r == MakeTrip(trip, old(trips.next), now)
      ensures old(trips.next) !in old(trips.rows) && trips.next == old(trips.next) + 1
      ensures trips == Insert(old(trips), r)
      ensures Snapshot() == old(Snapshot()).(trips := trips)
    {
      var id := trips.next;
      r := MakeTrip(trip, id, now);
      trips := Insert(trips, r);
    }

    /** A patch that carries `id` changes the record's `id` field; the key it is
        stored under stays `id`. */
    method UpdateTrip(id: int, trip: TripPatch) returns (r: Option<Trip>)
      requires Valid()
      modifies this
      ensures Valid()
      ensures id !in old(trips.rows) ==> r.None? && Snapshot() == old(Snapshot())
      ensures id in old(trips.rows) ==>
        && r == Some(MergeTrip(old(trips.rows[id]), trip))
        && trips == Put(old(trips), id, r.value)
        && Snapshot() == old(Snapshot()).(trips := trips)
    {
      var existing := Get(trips, id);
      if existing.None? {
        return None;
      }
      var updated := MergeTrip(existing.value, trip);
      trips := Put(trips, id, updated);
      r := Some(updated);
    }

    /** No cascade: the trip's itinerary items, expenses, bookings and alerts
        stay, and the queries by this trip id still return them. */
    method DeleteTrip(id: int) returns (deleted: bool)
      requires Valid()
      modifies this
      ensures Valid()
      ensures deleted <==> id in old(trips.rows)
      ensures trips == Remove(old(trips), id)
      ensures Snapshot() == old(Snapshot()).(trips := trips)
      ensures ItineraryItemsByTripId(id) == old(ItineraryItemsByTripId(id))
      ensures ExpensesByTripId(id) == old(ExpensesByTripId(id))
      ensures BookingsByTripId(id) == old(BookingsByTripId(id))
      ensures AlertsByTripId(id) == old(AlertsByTripId(id))
    {
      deleted := id in trips.rows;
      trips := Remove(trips, id);
    }

    // ----- Itinerary operations -----

    function ItineraryItemsByTripId(tripId: int): (r: seq<ItineraryItem>)
      reads this
      requires Valid()
      ensures Selects(itineraryItems, ItemOfTrip(tripId), r)
    {
      Where(itineraryItems, ItemOfTrip(tripId))
    }

    function GetItineraryItem(id: int): (r: Option<ItineraryItem>)
      reads this
      ensures r.Some? <==> id in itineraryItems.rows
      ensures r.Some? ==> r.value == itineraryItems.rows[id]
    {
      Get(itineraryItems, id)
    }

    method CreateItineraryItem(item: NewItineraryItem) returns (r: ItineraryItem)
      requires Valid()
      modifies this
      ensures Valid()
      ensures r == MakeItineraryItem(item, old(itineraryItems.next))
      ensures old(itineraryItems.next) !in old(itineraryItems.rows)
      ensures itineraryItems.next == old(itineraryItems.next) + 1
      ensures itineraryItems == Insert(old(itineraryItems), r)
      ensures Snapshot() == old(Snapshot()).(itineraryItems := itineraryItems)
    {
      var id := itineraryItems.next;
      r := MakeItineraryItem(item, id);
      itineraryItems := Insert(itineraryItems, r);
    }

    method UpdateItineraryItem(id: int, item: ItineraryItemPatch) returns (r: Option<ItineraryItem>)
      requires Valid()
      modifies this
      ensures Valid()
      ensures id !in old(itineraryItems.rows) ==> r.None? && Snapshot() == old(Snapshot())
      ensures id in old(itineraryItems.rows) ==>
        && r == Some(MergeItineraryItem(old(itineraryItems.rows[id]), item))
        && itineraryItems == Put(old(itineraryItems), id, r.value)
        && Snapshot() == old(Snapshot()).(itineraryItems := itineraryItems)
    {
      var existing := Get(itineraryItems, id);
      if existing.None? {
        return None;
      }
      var updated := MergeItineraryItem(existing.value, item);
      itineraryItems := Put(itineraryItems, id, updated);
      r := Some(updated);
    }

    method DeleteItineraryItem(id: int) returns (deleted: bool)
      requires Valid()
      modifies this
      ensures Valid()
      ensures deleted <==> id in old(itineraryItems.rows)
      ensures itineraryItems == Remove(old(itineraryItems), id)
      ensures Snapshot() == old(Snapshot()).(itineraryItems := itineraryItems)
    {
      deleted := id in itineraryItems.rows;
      itineraryItems := Remove(itineraryItems, id);
    }

    // ----- Expense operations -----

    function ExpensesByTripId(tripId: int): (r: seq<Expense>)
      reads this
      requires Valid()
      ensures Selects(expenses, ExpenseOfTrip(tripId), r)
    {
      Where(expenses, ExpenseOfTrip(tripId))
    }

    function GetExpense(id: int): (r: Option<Expense>)
      reads this
      ensures r.Some? <==> id in expenses.rows
      ensures r.Some? ==> r.value == expenses.rows[id]
    {
      Get(expenses, id)
    }

    method CreateExpense(expense: NewExpense, now: Timestamp) returns (r: Expense)
      requires Valid()
      modifies this
      ensures Valid()
      ensures r == MakeExpense(expense, old(expenses.next), now)
      ensures old(expenses.next) !in old(expenses.rows) && expenses.next == old(expenses.next) + 1
      ensures expenses == Insert(old(expenses), r)
      ensures Snapshot() == old(Snapshot()).(expenses := expenses)
    {
      var id := expenses.next;
      r := MakeExpense(expense, id, now);
      expenses := Insert(expenses, r);
    }

    method UpdateExpense(id: int, expense: ExpensePatch) returns (r: Option<Expense>)
      requires Valid()
      modifies this
      ensures Valid()
      ensures id !in old(expenses.rows) ==> r.None? && Snapshot() == old(Snapshot())
      ensures id in old(expenses.rows) ==>
        && r == Some(MergeExpense(old(expenses.rows[id]), expense))
        && expenses == Put(old(expenses), id, r.value)
        && Snapshot() == old(Snapshot()).(expenses := expenses)
    {
      var existing := Get(expenses, id);
      if existing.None? {
        return None;
      }
      var updated := MergeExpense(existing.value, expense);
      expenses := Put(expenses, id, updated);
      r := Some(updated);
    }

    method DeleteExpense(id: int) returns (deleted: bool)
      requires Valid()
      modifies this
      ensures Valid()
      ensures deleted <==> id in old(expenses.rows)
      ensures expenses == Remove(old(expenses), id)
      ensures Snapshot() == old(Snapshot()).(expenses := expenses)
    {
      deleted := id in expenses.rows;
      expenses := Remove(expenses, id);
    }

    // ----- Booking operations -----

    function BookingsByTripId(tripId: int): (r: seq<Booking>)
      reads this
      requires Valid()
      ensures Selects(bookings, BookingOfTrip(tripId), r)
    {
      Where(bookings, BookingOfTrip(tripId))
    }

    function GetBooking(id: int): (r: Option<Booking>)
      reads this
      ensures r.Some? <==> id in bookings.rows
      ensures r.Some? ==> r.value == bookings.rows[id]
    {
      Get(bookings, id)
    }

    method CreateBooking(booking: NewBooking, now: Timestamp) returns (r: Booking)
      requires Valid()
      modifies this
      ensures Valid()
      ensures r == MakeBooking(booking, old(bookings.next), now)
      ensures old(bookings.next) !in old(bookings.rows) && bookings.next == old(bookings.next) + 1
      ensures bookings == Insert(old(bookings), r)
      ensures Snapshot() == old(Snapshot()).(bookings := bookings)
    {
      var id := bookings.next;
      r := MakeBooking(booking, id, now);
      bookings := Insert(bookings, r);
    }

    method UpdateBooking(id: int, booking: BookingPatch) returns (r: Option<Booking>)
      requires Valid()
      modifies this
      ensures Valid()
      ensures id !in old(bookings.rows) ==> r.None? && Snapshot() == old(Snapshot())
      ensures id in old(bookings.rows) ==>
        && r == Some(MergeBooking(old(bookings.rows[id]), booking))
        && bookings == Put(old(bookings), id, r.value)
        && Snapshot() == old(Snapshot()).(bookings := bookings)
    {
      var existing := Get(bookings, id);
      if existing.None? {
        return None;
      }
      var updated := MergeBooking(existing.value, booking);
      bookings := Put(bookings, id, updated);
      r := Some(updated);
    }

    method DeleteBooking(id: int) returns (deleted: bool)
      requires Valid()
      modifies this
      ensures Valid()
      ensures deleted <==> id in old(bookings.rows)
      ensures bookings == Remove(old(bookings), id)
      ensures Snapshot() == old(Snapshot()).(bookings := bookings)
    {
      deleted := id in bookings.rows;
      bookings := Remove(bookings, id);
    }

    // ----- Alert operations -----

    function AlertsByUserId(userId: int): (r: seq<Alert>)
      reads this
      requires Valid()
      ensures Selects(alerts, AlertOfUser(userId), r)
    {
      Where(alerts, AlertOfUser(userId))
    }

    function AlertsByTripId(tripId: int): (r: seq<Alert>)
      reads this
      requires Valid()
      ensures Selects(alerts, AlertOfTrip(tripId), r)
    {
      Where(alerts, AlertOfTrip(tripId))
    }

    function GetAlert(id: int): (r: Option<Alert>)
      reads this
      ensures r.Some? <==> id in alerts.rows
      ensures r.Some? ==> r.value == alerts.rows[id]
    {
      Get(alerts, id)
    }

    method CreateAlert(alert: NewAlert, now: Timestamp) returns (r: Alert)
      requires Valid()
      modifies this
      ensures Valid()
      ensures r == MakeAlert(alert, old(alerts.next), now) && !r.isRead
      ensures old(alerts.next) !in old(alerts.rows) && alerts.next == old(alerts.next) + 1
      ensures alerts == Insert(old(alerts), r)
      ensures Snapshot() == old(Snapshot()).(alerts := alerts)
    {
      var id := alerts.next;
      r := MakeAlert(alert, id, now);
      alerts := Insert(alerts, r);
    }

    method UpdateAlert(id: int, alert: AlertPatch) returns (r: Option<Alert>)
      requires Valid()
      modifies this
      ensures Valid()
      ensures id !in old(alerts.rows) ==> r.None? && Snapshot() == old(Snapshot())
      ensures id in old(alerts.rows) ==>
        && r == Some(MergeAlert(old(alerts.rows[id]), alert))
        && alerts == Put(old(alerts), id, r.value)
        && Snapshot() == old(Snapshot()).(alerts := alerts)
    {
      var existing := Get(alerts, id);
      if existing.None? {
        return None;
      }
      var updated := MergeAlert(existing.value, alert);
      alerts := Put(alerts, id, updated);
      r := Some(updated);
    }

    method DeleteAlert(id: int) returns (deleted: bool)
      requires Valid()
      modifies this
      ensures Valid()
      ensures deleted <==> id in old(alerts.rows)
      ensures alerts == Remove(old(alerts), id)
      ensures Snapshot() == old(Snapshot()).(alerts := alerts)
    {
      deleted := id in alerts.rows;
      alerts := Remove(alerts, id);
    }

    /** Sets `isRead` and nothing else. On an alert already read it changes
        nothing, so a second call is a no-op. */
    method MarkAlertAsRead(id: int) returns (r: Option<Alert>)
      requires Valid()
      modifies this
      ensures Valid()
      ensures id !in old(alerts.rows) ==> r.None? && Snapshot() == old(Snapshot())
      ensures id in old(alerts.rows) ==>
        && r == Some(old(alerts.rows[id]).(isRead := true))
        && alerts == Put(old(alerts), id, r.value)
        && Snapshot() == old(Snapshot()).(alerts := alerts)
      ensures id in old(alerts.rows) && old(alerts.rows[id]).isRead ==>
        Snapshot() == old(Snapshot())
    {
      var existing := Get(alerts, id);
      if existing.None? {
        return None;
      }
      var updated := existing.value.(isRead := true);
      alerts := Put(alerts, id, updated);
      r := Some(updated);
    }

    // ----- HiddenGem operations -----

    function HiddenGems(): (r: seq<HiddenGem>)
      reads this
      requires Valid()
      ensures Selects(hiddenGems, Everything(), r)
    {
      ValuesSelectsAll(hiddenGems);
      Values(hiddenGems)
    }

    function GetHiddenGem(id: int): (r: Option<HiddenGem>)
      reads this
      ensures r.Some? <==> id in hiddenGems.rows
      ensures r.Some? ==> r.value == hiddenGems.rows[id]
    {
      Get(hiddenGems, id)
    }

    function HiddenGemsByLocation(location: string): (r: seq<HiddenGem>)
      reads this
      requires Valid()
      ensures Selects(hiddenGems, GemAt(location), r)
    {
      Where(hiddenGems, GemAt(location))
    }

    method CreateHiddenGem(gem: NewHiddenGem, now: Timestamp) returns (r: HiddenGem)
      requires Valid()
      modifies this
      ensures Valid()
      ensures r == MakeHiddenGem(gem, old(hiddenGems.next), now)
      ensures old(hiddenGems.next) !in old(hiddenGems.rows)
      ensures hiddenGems.next == old(hiddenGems.next) + 1
      ensures hiddenGems == Insert(old(hiddenGems), r)
      ensures Snapshot() == old(Snapshot()).(hiddenGems := hiddenGems)
    {
      var id := hiddenGems.next;
      r := MakeHiddenGem(gem, id, now);
      hiddenGems := Insert(hiddenGems, r);
    }

    // ----- Community operations -----

    function CommunityPosts(): (r: seq<CommunityPost>)
      reads this
      requires Valid()
      ensures Selects(communityPosts, Everything(), r)
    {
      ValuesSelectsAll(communityPosts);
      Values(communityPosts)
    }

    function GetCommunityPost(id: int): (r: Option<CommunityPost>)
      reads this
      ensures r.Some? <==> id in communityPosts.rows
      ensures r.Some? ==> r.value == communityPosts.rows[id]
    {
      Get(communityPosts, id)
    }

    method CreateCommunityPost(post: NewCommunityPost, now: Timestamp) returns (r: CommunityPost)
      requires Valid()
      modifies this
      ensures Valid()
      ensures r == MakeCommunityPost(post, old(communityPosts.next), now)
      ensures r.likeCount == 0 && r.replyCount == 0
      ensures old(communityPosts.next) !in old(communityPosts.rows)
      ensures communityPosts.next == old(communityPosts.next) + 1
      ensures communityPosts == Insert(old(communityPosts), r)
      ensures Snapshot() == old(Snapshot()).(communityPosts := communityPosts)
    {
      var id := communityPosts.next;
      r := MakeCommunityPost(post, id, now);
      communityPosts := Insert(communityPosts, r);
    }

    // ----- LocalExpert operations -----

    function LocalExperts(): (r: seq<LocalExpert>)
      reads this
      requires Valid()
      ensures Selects(localExperts, Everything(), r)
    {
      ValuesSelectsAll(localExperts);
      Values(localExperts)
    }

    function LocalExpertsByLocation(location: string): (r: seq<LocalExpert>)
      reads this
      requires Valid()
      ensures Selects(localExperts, ExpertAt(location), r)
    {
      Where(localExperts, ExpertAt(location))
    }

    function GetLocalExpert(id: int): (r: Option<LocalExpert>)
      reads this
      ensures r.Some? <==> id in localExperts.rows
      ensures r.Some? ==> r.value == localExperts.rows[id]
    {
      Get(localExperts, id)
    }

    method CreateLocalExpert(expert: NewLocalExpert, now: Timestamp) returns (r: LocalExpert)
      requires Valid()
      modifies this
      ensures Valid()
      ensures r == MakeLocalExpert(expert, old(localExperts.next), now)
      ensures r.rating == expert.rating.GetOr(0) && r.reviewCount == expert.reviewCount.GetOr(0)
      ensures r.isVerified == expert.isVerified.GetOr(false)
      ensures old(localExperts.next) !in old(localExperts.rows)
      ensures localExperts.next == old(localExperts.next) + 1
      ensures localExperts == Insert(old(localExperts), r)
      ensures Snapshot() == old(Snapshot()).(localExperts := localExperts)
    {
      var id := localExperts.next;
      r := MakeLocalExpert(expert, id, now);
      localExperts := Insert(localExperts, r);
    }
  }

  /** An empty location query finds every hidden gem and every local expert. */
  lemma EmptyLocationFindsAll(s: MemStorage)
    requires s.Valid()
    ensures s.HiddenGemsByLocation("") == s.HiddenGems()
    ensures s.LocalExpertsByLocation("") == s.LocalExperts()
  {
    forall k | k in s.hiddenGems.rows
      ensures GemAt("")(s.hiddenGems.rows[k])
    {
      MatchesAt(s.hiddenGems.rows[k].location, "");
    }
    forall k | k in s.localExperts.rows
      ensures ExpertAt("")(s.localExperts.rows[k])
    {
      MatchesAt(s.localExperts.rows[k].location, "");
    }
    WhereEverything(s.hiddenGems, GemAt(""));
    WhereEverything(s.localExperts, ExpertAt(""));
  }

  /** The location finders give the same answer for a query and its lower-cased
      form. */
  lemma LocationQueryIgnoresCase(s: MemStorage, location: string)
    requires s.Valid()
    ensures s.HiddenGemsByLocation(Lower(location)) == s.HiddenGemsByLocation(location)
    ensures s.LocalExpertsByLocation(Lower(location)) == s.LocalExpertsByLocation(location)
  {
    forall k | k in s.hiddenGems.rows
      ensures GemAt(Lower(location))(s.hiddenGems.rows[k]) == GemAt(location)(s.hiddenGems.rows[k])
    {
      MatchIgnoresQueryCase(s.hiddenGems.rows[k].location, location);
    }
    forall k | k in s.localExperts.rows
      ensures ExpertAt(Lower(location))(s.localExperts.rows[k]) == ExpertAt(location)(s.localExperts.rows[k])
    {
      MatchIgnoresQueryCase(s.localExperts.rows[k].location, location);
    }
    WhereAgree(s.hiddenGems, GemAt(Lower(location)), GemAt(location));
    WhereAgree(s.localExperts, ExpertAt(Lower(location)), ExpertAt(location));
  }

  /** Usernames are not unique: a second user with a taken username is stored
      beside the first, and the lookup by username keeps returning the first. */
  lemma DuplicateUsernamesAllowed(users: Table<User>, a: User, b: User)
    requires Valid(users)
    requires forall k :: k in users.rows ==> users.rows[k].username != a.username
    requires b.username == a.username
    ensures var t := Insert(Insert(users, a), b);
      && users.next in t.rows && users.next + 1 in t.rows
      && t.rows[users.next] == a && t.rows[users.next + 1] == b
      && Find(t, HasUsername(a.username)) == Some(a)
  {
    var t := Insert(Insert(users, a), b);
    assert Get(t, users.next) == Some(a);
    assert Get(t, users.next + 1) == Some(b);
    FindKeepsFirst(users, a, b, HasUsername(a.username));
  }
}
