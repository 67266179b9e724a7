/** The nine record shapes of shared/schema.ts as the in-memory store sees them:
    the stored record, the insertable record a create takes, and, for the five
    entities that can be updated, the `Partial<T>` an update merges in.

    A nullable column is an `Option`. A column with a database default
    (`status`, `travelers`, `isCustom`, `urgency`) is an `Option` as well: the
    store applies no defaults, so a record created without the field keeps none.
    A patch holds an `Option` per field of the record: `None` when the key is
    absent, `Some(v)` when it carries `v`; for an `Option` field, `Some(None)`
    clears it. */
module Schema {
  import opened Wrappers

  /** A wall-clock instant; the store only copies these. */
  type Timestamp = int
  /** The text of a JSON document (a booking's free-form `details`). */
  type JsonText = string

  datatype TripStatus = Planned | Ongoing | Completed | Cancelled
  datatype ItineraryItemType = Activity | Transport | Accommodation | Food
  datatype ExpenseCategory = Accommodation | Transport | Food | Activities | Shopping | Other
  datatype AlertType = Flight | Weather | Deal | Transport | Safety

  /** `{...current, ...patch}` for one field: the patch's value when it has the key. */
  function Spread<T>(patch: Option<T>, current: T): T {
    patch.GetOr(current)
  }

  /** `x || fallback` on a number: a non-zero value is kept. */
  function OrNumber(x: Option<int>, fallback: int): (r: int)
    ensures r == fallback || (x.Some? && r == x.value)
    ensures fallback == 0 ==> r == x.GetOr(0)
  {
    if x.Some? && x.value != 0 then x.value else fallback
  }

  /** `x || fallback` on a boolean: `true` is kept. */
  function OrBool(x: Option<bool>, fallback: bool): (r: bool)
    ensures r == fallback || (x.Some? && r == x.value)
    ensures !fallback ==> r == x.GetOr(false)
  {
    if x.Some? && x.value then true else fallback
  }

  // ----- User -----

  datatype User = User(
    id: int, username: string, password: string, email: string, fullName: string,
    bio: Option<string>, profileImage: Option<string>, createdAt: Timestamp)

  datatype NewUser = NewUser(
    username: string, password: string, email: string, fullName: string,
    bio: Option<string>, profileImage: Option<string>)

  /** The fields of a stored user that a create takes. */
  function NewUserOf(r: User): NewUser {
    NewUser(r.username, r.password, r.email, r.fullName, r.bio, r.profileImage)
  }

  /** `{ ...user, id, createdAt: now }`. */
  function MakeUser(u: NewUser, id: int, now: Timestamp): (r: User)
    ensures r.id == id && r.createdAt == now
    ensures NewUserOf(r) == u
  {
    User(id, u.username, u.password, u.email, u.fullName, u.bio, u.profileImage, now)
  }

  // ----- Trip -----

  datatype Trip = Trip(
    id: int, userId: int, destination: string, title: string,
    startDate: Timestamp, endDate: Timestamp, status: Option<TripStatus>,
    budget: int, createdAt: Timestamp, travelers: Option<int>)

  datatype NewTrip = NewTrip(
    userId: int, destination: string, title: string,
    startDate: Timestamp, endDate: Timestamp, status: Option<TripStatus>,
    budget: int, travelers: Option<int>)

  datatype TripPatch = TripPatch(
    id: Option<int>, userId: Option<int>, destination: Option<string>, title: Option<string>,
    startDate: Option<Timestamp>, endDate: Option<Timestamp>, status: Option<Option<TripStatus>>,
    budget: Option<int>, createdAt: Option<Timestamp>, travelers: Option<Option<int>>)

  /** The fields of a stored trip that a create takes. */
  function NewTripOf(r: Trip): NewTrip {
    NewTrip(r.userId, r.destination, r.title, r.startDate, r.endDate, r.status, r.budget, r.travelers)
  }

  /** `{ ...trip, id, createdAt: now }`. */
  function MakeTrip(t: NewTrip, id: int, now: Timestamp): (r: Trip)
    ensures r.id == id && r.createdAt == now
    ensures NewTripOf(r) == t
  {
    Trip(id, t.userId, t.destination, t.title, t.startDate, t.endDate, t.status,
         t.budget, now, t.travelers)
  }

  /** `{ ...existingTrip, ...trip }`. */
  function MergeTrip(t: Trip, p: TripPatch): (r: Trip)
    ensures p == NoTripChange() ==> r == t
  {
    Trip(Spread(p.id, t.id), Spread(p.userId, t.userId), Spread(p.destination, t.destination),
         Spread(p.title, t.title), Spread(p.startDate, t.startDate), Spread(p.endDate, t.endDate),
         Spread(p.status, t.status), Spread(p.budget, t.budget), Spread(p.createdAt, t.createdAt),
         Spread(p.travelers, t.travelers))
  }

  /** The patch with no keys. */
  function NoTripChange(): TripPatch {
    TripPatch(None, None, None, None, None, None, None, None, None, None)
  }

  /** The patch that carries every field of `u`. */
  function TripPatchOf(u: Trip): TripPatch {
    TripPatch(Some(u.id), Some(u.userId), Some(u.destination), Some(u.title), Some(u.startDate), Some(u.endDate), Some(u.status), Some(u.budget), Some(u.createdAt), Some(u.travelers))
  }

  /** A patch carrying every field replaces the stored trip outright. */
  lemma MergeTripReplaces(t: Trip, u: Trip)
    ensures MergeTrip(t, TripPatchOf(u)) == u
  {
  }

  /** A patch holding only `userId` overwrites that field and keeps every other. */
  lemma MergeTripSetsUserId(t: Trip, x: int)
    ensures MergeTrip(t, NoTripChange().(userId := Some(x))) == t.(userId := x)
  {
  }

  /** Merging the same patch twice is merging it once. */
  lemma MergeTripIdempotent(t: Trip, p: TripPatch)
    ensures MergeTrip(MergeTrip(t, p), p) == MergeTrip(t, p)
  {
  }

  // ----- ItineraryItem (no createdAt column) -----

  datatype ItineraryItem = ItineraryItem(
    id: int, tripId: int, title: string, description: Option<string>,
    itemType: ItineraryItemType, startTime: Timestamp, endTime: Option<Timestamp>,
    location: Option<string>, cost: Option<int>, day: int, isCustom: Option<bool>)

  datatype NewItineraryItem = NewItineraryItem(
    tripId: int, title: string, description: Option<string>,
    itemType: ItineraryItemType, startTime: Timestamp, endTime: Option<Timestamp>,
    location: Option<string>, cost: Option<int>, day: int, isCustom: Option<bool>)

  datatype ItineraryItemPatch = ItineraryItemPatch(
    id: Option<int>, tripId: Option<int>, title: Option<string>, description: Option<Option<string>>,
    itemType: Option<ItineraryItemType>, startTime: Option<Timestamp>, endTime: Option<Option<Timestamp>>,
    location: Option<Option<string>>, cost: Option<Option<int>>, day: Option<int>,
    isCustom: Option<Option<bool>>)

  /** The fields of a stored itineraryItem that a create takes. */
  function NewItineraryItemOf(r: ItineraryItem): NewItineraryItem {
    NewItineraryItem(r.tripId, r.title, r.description, r.itemType, r.startTime, r.endTime, r.location, r.cost, r.day, r.isCustom)
  }

  /** `{ ...item, id }`: an itinerary item gets no timestamp. */
  function MakeItineraryItem(n: NewItineraryItem, id: int): (r: ItineraryItem)
    ensures r.id == id
    ensures NewItineraryItemOf(r) == n
  {
    ItineraryItem(id, n.tripId, n.title, n.description, n.itemType, n.startTime, n.endTime,
                  n.location, n.cost, n.day, n.isCustom)
  }

  /** `{ ...existingItem, ...item }`. */
  function MergeItineraryItem(t: ItineraryItem, p: ItineraryItemPatch): (r: ItineraryItem)
    ensures p == NoItineraryItemChange() ==> r == t
  {
    ItineraryItem(Spread(p.id, t.id), Spread(p.tripId, t.tripId), Spread(p.title, t.title),
                  Spread(p.description, t.description), Spread(p.itemType, t.itemType),
                  Spread(p.startTime, t.startTime), Spread(p.endTime, t.endTime),
                  Spread(p.location, t.location), Spread(p.cost, t.cost), Spread(p.day, t.day),
                  Spread(p.isCustom, t.isCustom))
  }

  /** The patch with no keys. */
  function NoItineraryItemChange(): ItineraryItemPatch {
    ItineraryItemPatch(None, None, None, None, None, None, None, None, None, None, None)
  }

  /** The patch that carries every field of `u`. */
  function ItineraryItemPatchOf(u: ItineraryItem): ItineraryItemPatch {
    ItineraryItemPatch(Some(u.id), Some(u.tripId), Some(u.title), Some(u.description), Some(u.itemType), Some(u.startTime), Some(u.endTime), Some(u.location), Some(u.cost), Some(u.day), Some(u.isCustom))
  }

  /** A patch carrying every field replaces the stored item outright. */
  lemma MergeItineraryItemReplaces(t: ItineraryItem, u: ItineraryItem)
    ensures MergeItineraryItem(t, ItineraryItemPatchOf(u)) == u
  {
  }

  /** A patch holding only `tripId` overwrites that field and keeps every other. */
  lemma MergeItineraryItemSetsTripId(t: ItineraryItem, x: int)
    ensures MergeItineraryItem(t, NoItineraryItemChange().(tripId := Some(x))) == t.(tripId := x)
  {
  }

  /** Merging the same patch twice is merging it once. */
  lemma MergeItineraryItemIdempotent(t: ItineraryItem, p: ItineraryItemPatch)
    ensures MergeItineraryItem(MergeItineraryItem(t, p), p) == MergeItineraryItem(t, p)
  {
  }

  // ----- Expense -----

  datatype Expense = Expense(
    id: int, tripId: int, title: string, amount: int, category: ExpenseCategory,
    date: Timestamp, notes: Option<string>, createdAt: Timestamp)

  datatype NewExpense = NewExpense(
    tripId: int, title: string, amount: int, category: ExpenseCategory,
    date: Timestamp, notes: Option<string>)

  datatype ExpensePatch = ExpensePatch(
    id: Option<int>, tripId: Option<int>, title: Option<string>, amount: Option<int>,
    category: Option<ExpenseCategory>, date: Option<Timestamp>, notes: Option<Option<string>>,
    createdAt: Option<Timestamp>)

  /** The fields of a stored expense that a create takes. */
  function NewExpenseOf(r: Expense): NewExpense {
    NewExpense(r.tripId, r.title, r.amount, r.category, r.date, r.notes)
  }

  /** `{ ...expense, id, createdAt: now }`. */
  function MakeExpense(n: NewExpense, id: int, now: Timestamp): (r: Expense)
    ensures r.id == id && r.createdAt == now
    ensures NewExpenseOf(r) == n
  {
    Expense(id, n.tripId, n.title, n.amount, n.category, n.date, n.notes, now)
  }

  /** `{ ...existingExpense, ...expense }`. */
  function MergeExpense(t: Expense, p: ExpensePatch): (r: Expense)
    ensures p == NoExpenseChange() ==> r == t
  {
    Expense(Spread(p.id, t.id), Spread(p.tripId, t.tripId), Spread(p.title, t.title),
            Spread(p.amount, t.amount), Spread(p.category, t.category), Spread(p.date, t.date),
            Spread(p.notes, t.notes), Spread(p.createdAt, t.createdAt))
  }

  /** The patch with no keys. */
  function NoExpenseChange(): ExpensePatch {
    ExpensePatch(None, None, None, None, None, None, None, None)
  }

  /** The patch that carries every field of `u`. */
  function ExpensePatchOf(u: Expense): ExpensePatch {
    ExpensePatch(Some(u.id), Some(u.tripId), Some(u.title), Some(u.amount), Some(u.category), Some(u.date), Some(u.notes), Some(u.createdAt))
  }

  /** A patch carrying every field replaces the stored expense outright. */
  lemma MergeExpenseReplaces(t: Expense, u: Expense)
    ensures MergeExpense(t, ExpensePatchOf(u)) == u
  {
  }

  /** A patch holding only `tripId` overwrites that field and keeps every other. */
  lemma MergeExpenseSetsTripId(t: Expense, x: int)
    ensures MergeExpense(t, NoExpenseChange().(tripId := Some(x))) == t.(tripId := x)
  {
  }

  /** Merging the same patch twice is merging it once. */
  lemma MergeExpenseIdempotent(t: Expense, p: ExpensePatch)
    ensures MergeExpense(MergeExpense(t, p), p) == MergeExpense(t, p)
  {
  }

  // ----- Booking -----

  datatype Booking = Booking(
    id: int, tripId: int, bookingType: string, title: string, provider: Option<string>,
    confirmationCode: Option<string>, startDate: Timestamp, endDate: Timestamp,
    location: Option<string>, cost: int, details: Option<JsonText>, createdAt: Timestamp)

  datatype NewBooking = NewBooking(
    tripId: int, bookingType: string, title: string, provider: Option<string>,
    confirmationCode: Option<string>, startDate: Timestamp, endDate: Timestamp,
    location: Option<string>, cost: int, details: Option<JsonText>)

  datatype BookingPatch = BookingPatch(
    id: Option<int>, tripId: Option<int>, bookingType: Option<string>, title: Option<string>,
    provider: Option<Option<string>>, confirmationCode: Option<Option<string>>,
    startDate: Option<Timestamp>, endDate: Option<Timestamp>, location: Option<Option<string>>,
    cost: Option<int>, details: Option<Option<JsonText>>, createdAt: Option<Timestamp>)

  /** The fields of a stored booking that a create takes. */
  function NewBookingOf(r: Booking): NewBooking {
    NewBooking(r.tripId, r.bookingType, r.title, r.provider, r.confirmationCode, r.startDate, r.endDate, r.location, r.cost, r.details)
  }

  /** `{ ...booking, id, createdAt: now }`. */
  function MakeBooking(n: NewBooking, id: int, now: Timestamp): (r: Booking)
    ensures r.id == id && r.createdAt == now
    ensures NewBookingOf(r) == n
  {
    Booking(id, n.tripId, n.bookingType, n.title, n.provider, n.confirmationCode,
            n.startDate, n.endDate, n.location, n.cost, n.details, now)
  }

  /** `{ ...existingBooking, ...booking }`. */
  function MergeBooking(t: Booking, p: BookingPatch): (r: Booking)
    ensures p == NoBookingChange() ==> r == t
  {
    Booking(Spread(p.id, t.id), Spread(p.tripId, t.tripId), Spread(p.bookingType, t.bookingType),
            Spread(p.title, t.title), Spread(p.provider, t.provider),
            Spread(p.confirmationCode, t.confirmationCode), Spread(p.startDate, t.startDate),
            Spread(p.endDate, t.endDate), Spread(p.location, t.location), Spread(p.cost, t.cost),
            Spread(p.details, t.details), Spread(p.createdAt, t.createdAt))
  }

  /** The patch with no keys. */
  function NoBookingChange(): BookingPatch {
    BookingPatch(None, None, None, None, None, None, None, None, None, None, None, None)
  }

  /** The patch that carries every field of `u`. */
  function BookingPatchOf(u: Booking): BookingPatch {
    BookingPatch(Some(u.id), Some(u.tripId), Some(u.bookingType), Some(u.title), Some(u.provider), Some(u.confirmationCode), Some(u.startDate), Some(u.endDate), Some(u.location), Some(u.cost), Some(u.details), Some(u.createdAt))
  }

  /** A patch carrying every field replaces the stored booking outright. */
  lemma MergeBookingReplaces(t: Booking, u: Booking)
    ensures MergeBooking(t, BookingPatchOf(u)) == u
  {
  }

  /** A patch holding only `tripId` overwrites that field and keeps every other. */
  lemma MergeBookingSetsTripId(t: Booking, x: int)
    ensures MergeBooking(t, NoBookingChange().(tripId := Some(x))) == t.(tripId := x)
  {
  }

  /** Merging the same patch twice is merging it once. */
  lemma MergeBookingIdempotent(t: Booking, p: BookingPatch)
    ensures MergeBooking(MergeBooking(t, p), p) == MergeBooking(t, p)
  {
  }

  // ----- Alert -----

  datatype Alert = Alert(
    id: int, userId: int, tripId: Option<int>, title: string, message: string,
    alertType: AlertType, urgency: Option<string>, isRead: bool, createdAt: Timestamp,
    expiresAt: Option<Timestamp>)

  /** The insertable alert has no `isRead`, but a caller may still send one:
      `isRead` is what the caller sent, if anything. */
  datatype NewAlert = NewAlert(
    userId: int, tripId: Option<int>, title: string, message: string,
    alertType: AlertType, urgency: Option<string>, expiresAt: Option<Timestamp>,
    isRead: Option<bool>)

  datatype AlertPatch = AlertPatch(
    id: Option<int>, userId: Option<int>, tripId: Option<Option<int>>, title: Option<string>,
    message: Option<string>, alertType: Option<AlertType>, urgency: Option<Option<string>>,
    isRead: Option<bool>, createdAt: Option<Timestamp>, expiresAt: Option<Option<Timestamp>>)

  /** `{ ...alert, id, isRead: false, createdAt: now }`: a new alert is unread
      whatever the caller sent. */
  function MakeAlert(n: NewAlert, id: int, now: Timestamp): (r: Alert)
    ensures r.id == id && r.createdAt == now && !r.isRead
    ensures (r.userId, r.tripId, r.title, r.message, r.alertType, r.urgency, r.expiresAt) ==
            (n.userId, n.tripId, n.title, n.message, n.alertType, n.urgency, n.expiresAt)
  {
    Alert(id, n.userId, n.tripId, n.title, n.message, n.alertType, n.urgency, false, now,
          n.expiresAt)
  }

  /** `{ ...existingAlert, ...alert }`. */
  function MergeAlert(t: Alert, p: AlertPatch): (r: Alert)
    ensures p == NoAlertChange() ==> r == t
  {
    Alert(Spread(p.id, t.id), Spread(p.userId, t.userId), Spread(p.tripId, t.tripId),
          Spread(p.title, t.title), Spread(p.message, t.message),
          Spread(p.alertType, t.alertType), Spread(p.urgency, t.urgency),
          Spread(p.isRead, t.isRead), Spread(p.createdAt, t.createdAt),
          Spread(p.expiresAt, t.expiresAt))
  }

  /** The patch with no keys. */
  function NoAlertChange(): AlertPatch {
    AlertPatch(None, None, None, None, None, None, None, None, None, None)
  }

  /** The patch that carries every field of `u`. */
  function AlertPatchOf(u: Alert): AlertPatch {
    AlertPatch(Some(u.id), Some(u.userId), Some(u.tripId), Some(u.title), Some(u.message), Some(u.alertType), Some(u.urgency), Some(u.isRead), Some(u.createdAt), Some(u.expiresAt))
  }

  /** A patch carrying every field replaces the stored alert outright. */
  lemma MergeAlertReplaces(t: Alert, u: Alert)
    ensures MergeAlert(t, AlertPatchOf(u)) == u
  {
  }

  /** A patch holding only `tripId` overwrites that field and keeps every other. */
  lemma MergeAlertSetsTripId(t: Alert, o: Option<int>)
    ensures MergeAlert(t, NoAlertChange().(tripId := Some(o))) == t.(tripId := o)
  {
  }

  /** Merging the same patch twice is merging it once. */
  lemma MergeAlertIdempotent(t: Alert, p: AlertPatch)
    ensures MergeAlert(MergeAlert(t, p), p) == MergeAlert(t, p)
  {
  }

  /** `markAlertAsRead` is the update whose patch carries only `isRead: true`. */
  lemma MarkReadIsMerge(a: Alert)
    ensures a.(isRead := true) ==
      MergeAlert(a, NoAlertChange().(isRead := Some(true)))
  {
  }

  // ----- HiddenGem -----

  datatype HiddenGem = HiddenGem(
    id: int, title: string, description: string, location: string,
    imageUrl: Option<string>, rating: Option<int>, reviewCount: Option<int>,
    reviewerType: Option<string>, tags: Option<seq<string>>, createdAt: Timestamp)

  datatype NewHiddenGem = NewHiddenGem(
    title: string, description: string, location: string,
    imageUrl: Option<string>, rating: Option<int>, reviewCount: Option<int>,
    reviewerType: Option<string>, tags: Option<seq<string>>)

  /** The fields of a stored hiddenGem that a create takes. */
  function NewHiddenGemOf(r: HiddenGem): NewHiddenGem {
    NewHiddenGem(r.title, r.description, r.location, r.imageUrl, r.rating, r.reviewCount, r.reviewerType, r.tags)
  }

  /** `{ ...gem, id, createdAt: now }`. */
  function MakeHiddenGem(n: NewHiddenGem, id: int, now: Timestamp): (r: HiddenGem)
    ensures r.id == id && r.createdAt == now
    ensures NewHiddenGemOf(r) == n
  {
    HiddenGem(id, n.title, n.description, n.location, n.imageUrl, n.rating, n.reviewCount,
              n.reviewerType, n.tags, now)
  }

  // ----- CommunityPost -----

  datatype CommunityPost = CommunityPost(
    id: int, userId: int, title: string, content: string, location: Option<string>,
    likeCount: int, replyCount: int, createdAt: Timestamp)

  /** The insertable post has no counts, but a caller may still send them (the
      sample data does): `likeCount` and `replyCount` are what it sent. */
  datatype NewCommunityPost = NewCommunityPost(
    userId: int, title: string, content: string, location: Option<string>,
    likeCount: Option<int>, replyCount: Option<int>)

  /** `{ ...post, id, likeCount: 0, replyCount: 0, createdAt: now }`: both
      counts start at zero whatever the caller sent. */
  function MakeCommunityPost(n: NewCommunityPost, id: int, now: Timestamp): (r: CommunityPost)
    ensures r.id == id && r.createdAt == now && r.likeCount == 0 && r.replyCount == 0
    ensures (r.userId, r.title, r.content, r.location) == (n.userId, n.title, n.content, n.location)
  {
    CommunityPost(id, n.userId, n.title, n.content, n.location, 0, 0, now)
  }

  // ----- LocalExpert -----

  datatype LocalExpert = LocalExpert(
    id: int, userId: int, location: string, specialties: Option<seq<string>>, bio: string,
    rating: int, reviewCount: int, isVerified: bool, createdAt: Timestamp)

  /** The insertable expert has no rating, review count or verification flag,
      but a caller may still send them: these fields are what it sent. */
  datatype NewLocalExpert = NewLocalExpert(
    userId: int, location: string, specialties: Option<seq<string>>, bio: string,
    rating: Option<int>, reviewCount: Option<int>, isVerified: Option<bool>)

  /** `{ ...expert, id, rating: expert.rating || 0, reviewCount:
      expert.reviewCount || 0, isVerified: expert.isVerified || false,
      createdAt: now }`. Because `0 || 0` and `false || false` give back the
      value itself, a value the caller sent is kept as it is and a missing one
      becomes 0, 0 or false. */
  function MakeLocalExpert(n: NewLocalExpert, id: int, now: Timestamp): (r: LocalExpert)
    ensures r.id == id && r.createdAt == now
    ensures (r.userId, r.location, r.specialties, r.bio) == (n.userId, n.location, n.specialties, n.bio)
    ensures r.rating == n.rating.GetOr(0) && r.reviewCount == n.reviewCount.GetOr(0)
    ensures r.isVerified == n.isVerified.GetOr(false)
  {
    LocalExpert(id, n.userId, n.location, n.specialties, n.bio,
                OrNumber(n.rating, 0), OrNumber(n.reviewCount, 0), OrBool(n.isVerified, false), now)
  }
}
