/**
 * TravelPlannerApp/src/store/tripStore.ts: the planner's trip list with
 * nested activity, accommodation and transportation lists, the `currentTrip`
 * selection, and the persisted copy of the list. Every change computes the
 * new list first, writes it to storage, and only then replaces `trips`;
 * when the write fails (`writeOk` false) the list stays and `error` is set.
 * Ids and timestamps (`Date.now()`, `new Date()`) are parameters; dates are
 * whole numbers.
 */
module PlannerTripStore {
  import opened Wrappers
  import opened Seqs

  datatype ActivityCategory = Sightseeing | Food | Adventure | Relaxation | Culture | Shopping | OtherActivity
  datatype AccommodationType = Hotel | Hostel | Airbnb | Resort | OtherAccommodation
  datatype TransportationType = Flight | Train | Bus | Car | Ferry | OtherTransportation

  datatype Destination = Destination(
    id: string,
    name: string,
    country: string,
    latitude: real,
    longitude: real,
    description: Option<string>,
    imageUrl: Option<string>)

  datatype Activity = Activity(
    id: string,
    tripId: string,
    title: string,
    description: string,
    date: int,
    time: Option<string>,
    location: string,
    cost: Option<real>,
    category: ActivityCategory,
    notes: Option<string>)

  datatype Accommodation = Accommodation(
    id: string,
    tripId: string,
    name: string,
    kind: AccommodationType,
    address: string,
    checkIn: int,
    checkOut: int,
    cost: real,
    confirmationNumber: Option<string>,
    notes: Option<string>)

  datatype Transportation = Transportation(
    id: string,
    tripId: string,
    kind: TransportationType,
    departureLocation: string,
    arrivalLocation: string,
    departureTime: int,
    arrivalTime: int,
    cost: real,
    confirmationNumber: Option<string>,
    notes: Option<string>)

  datatype Trip = Trip(
    id: string,
    title: string,
    description: string,
    destination: Destination,
    startDate: int,
    endDate: int,
    budget: real,
    currency: string,
    imageUrl: Option<string>,
    activities: seq<Activity>,
    accommodations: seq<Accommodation>,
    transportations: seq<Transportation>,
    participants: seq<string>,
    createdAt: int,
    updatedAt: int)

  /** The fields `addTrip` receives: a trip without `id`, `createdAt` and `updatedAt`. */
  datatype NewTrip = NewTrip(
    title: string,
    description: string,
    destination: Destination,
    startDate: int,
    endDate: int,
    budget: real,
    currency: string,
    imageUrl: Option<string>,
    activities: seq<Activity>,
    accommodations: seq<Accommodation>,
    transportations: seq<Transportation>,
    participants: seq<string>)

  /** A `Partial<Trip>`: `Some` for each property the caller supplies. */
  datatype TripPatch = TripPatch(
    id: Option<string>,
    title: Option<string>,
    description: Option<string>,
    destination: Option<Destination>,
    startDate: Option<int>,
    endDate: Option<int>,
    budget: Option<real>,
    currency: Option<string>,
    imageUrl: Option<Option<string>>,
    activities: Option<seq<Activity>>,
    accommodations: Option<seq<Accommodation>>,
    transportations: Option<seq<Transportation>>,
    participants: Option<seq<string>>,
    createdAt: Option<int>,
    updatedAt: Option<int>)

  /** `Omit<Activity, 'id'>`. */
  datatype NewActivity = NewActivity(
    tripId: string,
    title: string,
    description: string,
    date: int,
    time: Option<string>,
    location: string,
    cost: Option<real>,
    category: ActivityCategory,
    notes: Option<string>)

  /** `Partial<Activity>`. */
  datatype ActivityPatch = ActivityPatch(
    id: Option<string>,
    tripId: Option<string>,
    title: Option<string>,
    description: Option<string>,
    date: Option<int>,
    time: Option<Option<string>>,
    location: Option<string>,
    cost: Option<Option<real>>,
    category: Option<ActivityCategory>,
    notes: Option<Option<string>>)

  /** `Omit<Accommodation, 'id'>`. */
  datatype NewAccommodation = NewAccommodation(
    tripId: string,
    name: string,
    kind: AccommodationType,
    address: string,
    checkIn: int,
    checkOut: int,
    cost: real,
    confirmationNumber: Option<string>,
    notes: Option<string>)

  /** `Partial<Accommodation>`. */
  datatype AccommodationPatch = AccommodationPatch(
    id: Option<string>,
    tripId: Option<string>,
    name: Option<string>,
    kind: Option<AccommodationType>,
    address: Option<string>,
    checkIn: Option<int>,
    checkOut: Option<int>,
    cost: Option<real>,
    confirmationNumber: Option<Option<string>>,
    notes: Option<Option<string>>)

  /** `Omit<Transportation, 'id'>`. */
  datatype NewTransportation = NewTransportation(
    tripId: string,
    kind: TransportationType,
    departureLocation: string,
    arrivalLocation: string,
    departureTime: int,
    arrivalTime: int,
    cost: real,
    confirmationNumber: Option<string>,
    notes: Option<string>)

  /** `Partial<Transportation>`. */
  datatype TransportationPatch = TransportationPatch(
    id: Option<string>,
    tripId: Option<string>,
    kind: Option<TransportationType>,
    departureLocation: Option<string>,
    arrivalLocation: Option<string>,
    departureTime: Option<int>,
    arrivalTime: Option<int>,
    cost: Option<real>,
    confirmationNumber: Option<Option<string>>,
    notes: Option<Option<string>>)

  /** `{ ...trip, ...tripData }`: each supplied property overrides, every other one is kept. */
  function PatchTrip(t: Trip, p: TripPatch): (r: Trip)
    ensures r.id == if p.id.Some? then p.id.value else t.id
    ensures r.title == if p.title.Some? then p.title.value else t.title
    ensures r.description == if p.description.Some? then p.description.value else t.description
    ensures r.destination == if p.destination.Some? then p.destination.value else t.destination
    ensures r.startDate == if p.startDate.Some? then p.startDate.value else t.startDate
    ensures r.endDate == if p.endDate.Some? then p.endDate.value else t.endDate
    ensures r.budget == if p.budget.Some? then p.budget.value else t.budget
    ensures r.currency == if p.currency.Some? then p.currency.value else t.currency
    ensures r.imageUrl == if p.imageUrl.Some? then p.imageUrl.value else t.imageUrl
    ensures r.activities == if p.activities.Some? then p.activities.value else t.activities
    ensures r.accommodations == if p.accommodations.Some? then p.accommodations.value else t.accommodations
    ensures r.transportations == if p.transportations.Some? then p.transportations.value else t.transportations
    ensures r.participants == if p.participants.Some? then p.participants.value else t.participants
    ensures r.createdAt == if p.createdAt.Some? then p.createdAt.value else t.createdAt
    ensures r.updatedAt == if p.updatedAt.Some? then p.updatedAt.value else t.updatedAt
  {
    Trip(p.id.GetOr(t.id), p.title.GetOr(t.title), p.description.GetOr(t.description),
      p.destination.GetOr(t.destination), p.startDate.GetOr(t.startDate), p.endDate.GetOr(t.endDate),
      p.budget.GetOr(t.budget), p.currency.GetOr(t.currency), p.imageUrl.GetOr(t.imageUrl),
      p.activities.GetOr(t.activities), p.accommodations.GetOr(t.accommodations),
      p.transportations.GetOr(t.transportations), p.participants.GetOr(t.participants),
      p.createdAt.GetOr(t.createdAt), p.updatedAt.GetOr(t.updatedAt))
  }

  /** `{ ...activity, ...activityData }`. */
  function PatchActivity(a: Activity, p: ActivityPatch): (r: Activity)
    ensures r.id == if p.id.Some? then p.id.value else a.id
    ensures r.tripId == if p.tripId.Some? then p.tripId.value else a.tripId
    ensures r.title == if p.title.Some? then p.title.value else a.title
    ensures r.description == if p.description.Some? then p.description.value else a.description
    ensures r.date == if p.date.Some? then p.date.value else a.date
    ensures r.time == if p.time.Some? then p.time.value else a.time
    ensures r.location == if p.location.Some? then p.location.value else a.location
    ensures r.cost == if p.cost.Some? then p.cost.value else a.cost
    ensures r.category == if p.category.Some? then p.category.value else a.category
    ensures r.notes == if p.notes.Some? then p.notes.value else a.notes
  {
    Activity(p.id.GetOr(a.id), p.tripId.GetOr(a.tripId), p.title.GetOr(a.title),
      p.description.GetOr(a.description), p.date.GetOr(a.date), p.time.GetOr(a.time),
      p.location.GetOr(a.location), p.cost.GetOr(a.cost), p.category.GetOr(a.category),
      p.notes.GetOr(a.notes))
  }

  /** `{ ...acc, ...accommodationData }`. */
  function PatchAccommodation(a: Accommodation, p: AccommodationPatch): (r: Accommodation)
    ensures r.id == if p.id.Some? then p.id.value else a.id
    ensures r.tripId == if p.tripId.Some? then p.tripId.value else a.tripId
    ensures r.name == if p.name.Some? then p.name.value else a.name
    ensures r.kind == if p.kind.Some? then p.kind.value else a.kind
    ensures r.address == if p.address.Some? then p.address.value else a.address
    ensures r.checkIn == if p.checkIn.Some? then p.checkIn.value else a.checkIn
    ensures r.checkOut == if p.checkOut.Some? then p.checkOut.value else a.checkOut
    ensures r.cost == if p.cost.Some? then p.cost.value else a.cost
    ensures r.confirmationNumber == if p.confirmationNumber.Some? then p.confirmationNumber.value
      else a.confirmationNumber
    ensures r.notes == if p.notes.Some? then p.notes.value else a.notes
  {
    Accommodation(p.id.GetOr(a.id), p.tripId.GetOr(a.tripId), p.name.GetOr(a.name),
      p.kind.GetOr(a.kind), p.address.GetOr(a.address), p.checkIn.GetOr(a.checkIn),
      p.checkOut.GetOr(a.checkOut), p.cost.GetOr(a.cost),
      p.confirmationNumber.GetOr(a.confirmationNumber), p.notes.GetOr(a.notes))
  }

  /** `{ ...trans, ...transportationData }`. */
  function PatchTransportation(t: Transportation, p: TransportationPatch): (r: Transportation)
    ensures r.id == if p.id.Some? then p.id.value else t.id
    ensures r.tripId == if p.tripId.Some? then p.tripId.value else t.tripId
    ensures r.kind == if p.kind.Some? then p.kind.value else t.kind
    ensures r.departureLocation == if p.departureLocation.Some? then p.departureLocation.value
      else t.departureLocation
    ensures r.arrivalLocation == if p.arrivalLocation.Some? then p.arrivalLocation.value else t.arrivalLocation
    ensures r.departureTime == if p.departureTime.Some? then p.departureTime.value else t.departureTime
    ensures r.arrivalTime == if p.arrivalTime.Some? then p.arrivalTime.value else t.arrivalTime
    ensures r.cost == if p.cost.Some? then p.cost.value else t.cost
    ensures r.confirmationNumber == if p.confirmationNumber.Some? then p.confirmationNumber.value
      else t.confirmationNumber
    ensures r.notes == if p.notes.Some? then p.notes.value else t.notes
  {
    Transportation(p.id.GetOr(t.id), p.tripId.GetOr(t.tripId), p.kind.GetOr(t.kind),
      p.departureLocation.GetOr(t.departureLocation), p.arrivalLocation.GetOr(t.arrivalLocation),
      p.departureTime.GetOr(t.departureTime), p.arrivalTime.GetOr(t.arrivalTime),
      p.cost.GetOr(t.cost), p.confirmationNumber.GetOr(t.confirmationNumber), p.notes.GetOr(t.notes))
  }

  /** The patch that supplies no property. */
  const NoTripChanges := TripPatch(None, None, None, None, None, None, None, None, None, None, None, None,
    None, None, None)
  const NoActivityChanges := ActivityPatch(None, None, None, None, None, None, None, None, None, None)
  const NoAccommodationChanges := AccommodationPatch(None, None, None, None, None, None, None, None, None, None)
  const NoTransportationChanges := TransportationPatch(None, None, None, None, None, None, None, None, None, None)

  /** `{ ...p, ...q }` for two trip patches: the properties `q` supplies win. */
  function ThenTrip(p: TripPatch, q: TripPatch): TripPatch
  {
    TripPatch(q.id.OrElse(p.id), q.title.OrElse(p.title), q.description.OrElse(p.description),
      q.destination.OrElse(p.destination), q.startDate.OrElse(p.startDate), q.endDate.OrElse(p.endDate),
      q.budget.OrElse(p.budget), q.currency.OrElse(p.currency), q.imageUrl.OrElse(p.imageUrl),
      q.activities.OrElse(p.activities), q.accommodations.OrElse(p.accommodations),
      q.transportations.OrElse(p.transportations), q.participants.OrElse(p.participants),
      q.createdAt.OrElse(p.createdAt), q.updatedAt.OrElse(p.updatedAt))
  }

  /** `{ ...p, ...q }` for two activity patches. */
  function ThenActivity(p: ActivityPatch, q: ActivityPatch): ActivityPatch
  {
    ActivityPatch(q.id.OrElse(p.id), q.tripId.OrElse(p.tripId), q.title.OrElse(p.title),
      q.description.OrElse(p.description), q.date.OrElse(p.date), q.time.OrElse(p.time),
      q.location.OrElse(p.location), q.cost.OrElse(p.cost), q.category.OrElse(p.category),
      q.notes.OrElse(p.notes))
  }

  /** `{ ...p, ...q }` for two accommodation patches. */
  function ThenAccommodation(p: AccommodationPatch, q: AccommodationPatch): AccommodationPatch
  {
    AccommodationPatch(q.id.OrElse(p.id), q.tripId.OrElse(p.tripId), q.name.OrElse(p.name),
      q.kind.OrElse(p.kind), q.address.OrElse(p.address), q.checkIn.OrElse(p.checkIn),
      q.checkOut.OrElse(p.checkOut), q.cost.OrElse(p.cost),
      q.confirmationNumber.OrElse(p.confirmationNumber), q.notes.OrElse(p.notes))
  }

  /** `{ ...p, ...q }` for two transportation patches. */
  function ThenTransportation(p: TransportationPatch, q: TransportationPatch): TransportationPatch
  {
    TransportationPatch(q.id.OrElse(p.id), q.tripId.OrElse(p.tripId), q.kind.OrElse(p.kind),
      q.departureLocation.OrElse(p.departureLocation), q.arrivalLocation.OrElse(p.arrivalLocation),
      q.departureTime.OrElse(p.departureTime), q.arrivalTime.OrElse(p.arrivalTime),
      q.cost.OrElse(p.cost), q.confirmationNumber.OrElse(p.confirmationNumber), q.notes.OrElse(p.notes))
  }

  /** An empty patch changes nothing, merging twice is merging once, and two merges compose into one. */
  lemma PatchTripLaws(t: Trip, p: TripPatch, q: TripPatch)
    ensures PatchTrip(t, NoTripChanges) == t
    ensures PatchTrip(PatchTrip(t, p), p) == PatchTrip(t, p)
    ensures PatchTrip(PatchTrip(t, p), q) == PatchTrip(t, ThenTrip(p, q))
  {
  }

  /** The same three laws for an activity merge. */
  lemma PatchActivityLaws(a: Activity, p: ActivityPatch, q: ActivityPatch)
    ensures PatchActivity(a, NoActivityChanges) == a
    ensures PatchActivity(PatchActivity(a, p), p) == PatchActivity(a, p)
    ensures PatchActivity(PatchActivity(a, p), q) == PatchActivity(a, ThenActivity(p, q))
  {
  }

  /** The same three laws for an accommodation merge. */
  lemma PatchAccommodationLaws(a: Accommodation, p: AccommodationPatch, q: AccommodationPatch)
    ensures PatchAccommodation(a, NoAccommodationChanges) == a
    ensures PatchAccommodation(PatchAccommodation(a, p), p) == PatchAccommodation(a, p)
    ensures PatchAccommodation(PatchAccommodation(a, p), q) == PatchAccommodation(a, ThenAccommodation(p, q))
  {
  }

  /** The same three laws for a transportation merge. */
  lemma PatchTransportationLaws(t: Transportation, p: TransportationPatch, q: TransportationPatch)
    ensures PatchTransportation(t, NoTransportationChanges) == t
    ensures PatchTransportation(PatchTransportation(t, p), p) == PatchTransportation(t, p)
    ensures PatchTransportation(PatchTransportation(t, p), q) == PatchTransportation(t, ThenTransportation(p, q))
  {
  }

  /** `newTrip`: every supplied field, the fresh id, and both timestamps set to now. */
  function MakeTrip(d: NewTrip, id: string, now: int): (t: Trip)
    ensures t.id == id && t.createdAt == now && t.updatedAt == now
    ensures t.title == d.title && t.description == d.description && t.destination == d.destination
    ensures t.startDate == d.startDate && t.endDate == d.endDate
    ensures t.budget == d.budget && t.currency == d.currency && t.imageUrl == d.imageUrl
    ensures t.activities == d.activities && t.accommodations == d.accommodations
    ensures t.transportations == d.transportations && t.participants == d.participants
  {
    Trip(id, d.title, d.description, d.destination, d.startDate, d.endDate, d.budget, d.currency,
      d.imageUrl, d.activities, d.accommodations, d.transportations, d.participants, now, now)
  }

  /** `{ ...activityData, id, tripId }`: the caller's `tripId` is overridden by the target trip. */
  function MakeActivity(d: NewActivity, id: string, tripId: string): (a: Activity)
    ensures a.id == id && a.tripId == tripId
    ensures a.title == d.title && a.description == d.description && a.date == d.date && a.time == d.time
    ensures a.location == d.location && a.cost == d.cost && a.category == d.category && a.notes == d.notes
  {
    Activity(id, tripId, d.title, d.description, d.date, d.time, d.location, d.cost, d.category, d.notes)
  }

  /** `{ ...accommodationData, id, tripId }`. */
  function MakeAccommodation(d: NewAccommodation, id: string, tripId: string): (a: Accommodation)
    ensures a.id == id && a.tripId == tripId
    ensures a.name == d.name && a.kind == d.kind && a.address == d.address
    ensures a.checkIn == d.checkIn && a.checkOut == d.checkOut && a.cost == d.cost
    ensures a.confirmationNumber == d.confirmationNumber && a.notes == d.notes
  {
    Accommodation(id, tripId, d.name, d.kind, d.address, d.checkIn, d.checkOut, d.cost,
      d.confirmationNumber, d.notes)
  }

  /** `{ ...transportationData, id, tripId }`. */
  function MakeTransportation(d: NewTransportation, id: string, tripId: string): (t: Transportation)
    ensures t.id == id && t.tripId == tripId
    ensures t.kind == d.kind && t.departureLocation == d.departureLocation && t.arrivalLocation == d.arrivalLocation
    ensures t.departureTime == d.departureTime && t.arrivalTime == d.arrivalTime && t.cost == d.cost
    ensures t.confirmationNumber == d.confirmationNumber && t.notes == d.notes
  {
    Transportation(id, tripId, d.kind, d.departureLocation, d.arrivalLocation, d.departureTime,
      d.arrivalTime, d.cost, d.confirmationNumber, d.notes)
  }

  function TripIdIs(id: string): Trip -> bool
  {
    (t: Trip) => t.id == id
  }

  function TripIdIsNot(id: string): Trip -> bool
  {
    (t: Trip) => t.id != id
  }

  function ActivityIdIs(id: string): Activity -> bool
  {
    (a: Activity) => a.id == id
  }

  function ActivityIdIsNot(id: string): Activity -> bool
  {
    (a: Activity) => a.id != id
  }

  function AccommodationIdIs(id: string): Accommodation -> bool
  {
    (a: Accommodation) => a.id == id
  }

  function AccommodationIdIsNot(id: string): Accommodation -> bool
  {
    (a: Accommodation) => a.id != id
  }

  function TransportationIdIs(id: string): Transportation -> bool
  {
    (t: Transportation) => t.id == id
  }

  function TransportationIdIsNot(id: string): Transportation -> bool
  {
    (t: Transportation) => t.id != id
  }

  /**
   * The shape shared by every nested update: the trips with id `tripId`
   * are replaced by `f` of themselves stamped with `updatedAt := now`;
   * every other trip is kept, and the list keeps its length and order.
   */
  function ForTrip(trips: seq<Trip>, tripId: string, f: Trip -> Trip, now: int): (r: seq<Trip>)
    ensures |r| == |trips|
    ensures forall k :: 0 <= k < |trips| && trips[k].id != tripId ==> r[k] == trips[k]
    ensures forall k :: 0 <= k < |trips| && trips[k].id == tripId ==> r[k] == f(trips[k]).(updatedAt := now)
  {
    MapWhere(trips, TripIdIs(tripId), (t: Trip) => f(t).(updatedAt := now))
  }

  /** The trips after `updateTrip(id, patch)`. */
  function UpdateTripIn(trips: seq<Trip>, id: string, patch: TripPatch, now: int): (r: seq<Trip>)
    ensures |r| == |trips|
    ensures forall k :: 0 <= k < |trips| && trips[k].id != id ==> r[k] == trips[k]
    ensures forall k :: 0 <= k < |trips| && trips[k].id == id ==>
      r[k] == PatchTrip(trips[k], patch).(updatedAt := now)
  {
    ForTrip(trips, id, (t: Trip) => PatchTrip(t, patch), now)
  }

  /** The trips after `addActivity`: the new activity is appended in each trip with that id. */
  function AddActivityIn(trips: seq<Trip>, tripId: string, a: Activity, now: int): (r: seq<Trip>)
    ensures |r| == |trips|
    ensures forall k :: 0 <= k < |trips| && trips[k].id != tripId ==> r[k] == trips[k]
    ensures forall k :: 0 <= k < |trips| && trips[k].id == tripId ==>
      r[k] == trips[k].(activities := trips[k].activities + [a], updatedAt := now)
  {
    ForTrip(trips, tripId, (t: Trip) => t.(activities := t.activities + [a]), now)
  }

  /** The trips after `updateActivity`: the merge reaches only matching activities of matching trips. */
  function UpdateActivityIn(trips: seq<Trip>, tripId: string, activityId: string, p: ActivityPatch, now: int): (r: seq<Trip>)
    ensures |r| == |trips|
    ensures forall k :: 0 <= k < |trips| && trips[k].id != tripId ==> r[k] == trips[k]
    ensures forall k :: 0 <= k < |trips| && trips[k].id == tripId ==>
      r[k] == trips[k].(activities := MapWhere(trips[k].activities, ActivityIdIs(activityId),
        (a: Activity) => PatchActivity(a, p)), updatedAt := now)
  {
    ForTrip(trips, tripId, (t: Trip) =>
      t.(activities := MapWhere(t.activities, ActivityIdIs(activityId), (a: Activity) => PatchActivity(a, p))), now)
  }

  /** The trips after `deleteActivity`. */
  function DeleteActivityIn(trips: seq<Trip>, tripId: string, activityId: string, now: int): (r: seq<Trip>)
    ensures |r| == |trips|
    ensures forall k :: 0 <= k < |trips| && trips[k].id != tripId ==> r[k] == trips[k]
    ensures forall k :: 0 <= k < |trips| && trips[k].id == tripId ==>
      r[k] == trips[k].(activities := Filter(trips[k].activities, ActivityIdIsNot(activityId)), updatedAt := now)
  {
    ForTrip(trips, tripId, (t: Trip) => t.(activities := Filter(t.activities, ActivityIdIsNot(activityId))), now)
  }

  /** The trips after `addAccommodation`. */
  function AddAccommodationIn(trips: seq<Trip>, tripId: string, a: Accommodation, now: int): (r: seq<Trip>)
    ensures |r| == |trips|
    ensures forall k :: 0 <= k < |trips| && trips[k].id != tripId ==> r[k] == trips[k]
    ensures forall k :: 0 <= k < |trips| && trips[k].id == tripId ==>
      r[k] == trips[k].(accommodations := trips[k].accommodations + [a], updatedAt := now)
  {
    ForTrip(trips, tripId, (t: Trip) => t.(accommodations := t.accommodations + [a]), now)
  }

  /** The trips after `updateAccommodation`. */
  function UpdateAccommodationIn(trips: seq<Trip>, tripId: string, accommodationId: string,
                                 p: AccommodationPatch, now: int): (r: seq<Trip>)
    ensures |r| == |trips|
    ensures forall k :: 0 <= k < |trips| && trips[k].id != tripId ==> r[k] == trips[k]
    ensures forall k :: 0 <= k < |trips| && trips[k].id == tripId ==>
      r[k] == trips[k].(accommodations := MapWhere(trips[k].accommodations,
        AccommodationIdIs(accommodationId), (a: Accommodation) => PatchAccommodation(a, p)), updatedAt := now)
  {
    ForTrip(trips, tripId, (t: Trip) =>
      t.(accommodations := MapWhere(t.accommodations, AccommodationIdIs(accommodationId),
        (a: Accommodation) => PatchAccommodation(a, p))), now)
  }

  /** The trips after `deleteAccommodation`. */
  function DeleteAccommodationIn(trips: seq<Trip>, tripId: string, accommodationId: string, now: int): (r: seq<Trip>)
    ensures |r| == |trips|
    ensures forall k :: 0 <= k < |trips| && trips[k].id != tripId ==> r[k] == trips[k]
    ensures forall k :: 0 <= k < |trips| && trips[k].id == tripId ==>
      r[k] == trips[k].(accommodations := Filter(trips[k].accommodations,
        AccommodationIdIsNot(accommodationId)), updatedAt := now)
  {
    ForTrip(trips, tripId, (t: Trip) =>
      t.(accommodations := Filter(t.accommodations, AccommodationIdIsNot(accommodationId))), now)
  }

  /** The trips after `addTransportation`. */
  function AddTransportationIn(trips: seq<Trip>, tripId: string, x: Transportation, now: int): (r: seq<Trip>)
    ensures |r| == |trips|
    ensures forall k :: 0 <= k < |trips| && trips[k].id != tripId ==> r[k] == trips[k]
    ensures forall k :: 0 <= k < |trips| && trips[k].id == tripId ==>
      r[k] == trips[k].(transportations := trips[k].transportations + [x], updatedAt := now)
  {
    ForTrip(trips, tripId, (t: Trip) => t.(transportations := t.transportations + [x]), now)
  }

  /** The trips after `updateTransportation`. */
  function UpdateTransportationIn(trips: seq<Trip>, tripId: string, transportationId: string,
                                  p: TransportationPatch, now: int): (r: seq<Trip>)
    ensures |r| == |trips|
    ensures forall k :: 0 <= k < |trips| && trips[k].id != tripId ==> r[k] == trips[k]
    ensures forall k :: 0 <= k < |trips| && trips[k].id == tripId ==>
      r[k] == trips[k].(transportations := MapWhere(trips[k].transportations,
        TransportationIdIs(transportationId), (x: Transportation) => PatchTransportation(x, p)), updatedAt := now)
  {
    ForTrip(trips, tripId, (t: Trip) =>
      t.(transportations := MapWhere(t.transportations, TransportationIdIs(transportationId),
        (x: Transportation) => PatchTransportation(x, p))), now)
  }

  /** The trips after `deleteTransportation`. */
  function DeleteTransportationIn(trips: seq<Trip>, tripId: string, transportationId: string, now: int): (r: seq<Trip>)
    ensures |r| == |trips|
    ensures forall k :: 0 <= k < |trips| && trips[k].id != tripId ==> r[k] == trips[k]
    ensures forall k :: 0 <= k < |trips| && trips[k].id == tripId ==>
      r[k] == trips[k].(transportations := Filter(trips[k].transportations,
        TransportationIdIsNot(transportationId)), updatedAt := now)
  {
    ForTrip(trips, tripId, (t: Trip) =>
      t.(transportations := Filter(t.transportations, TransportationIdIsNot(transportationId))), now)
  }

  /** `trips.find(t => t.id === id)`: the first trip with that id, if any. */
  function FindTrip(trips: seq<Trip>, id: string): (r: Option<Trip>)
    ensures r.None? <==> forall k :: 0 <= k < |trips| ==> trips[k].id != id
    ensures r.Some? ==> r.value.id == id && r.value in trips
    decreases |trips|
  {
    if trips == [] then None
    else if trips[0].id == id then Some(trips[0])
    else FindTrip(trips[1..], id)
  }

  /** `find` returns the trip at the first position carrying the id. */
  lemma {:induction false} FindTripFirst(trips: seq<Trip>, id: string, k: int)
    requires 0 <= k < |trips| && trips[k].id == id
    requires forall j :: 0 <= j < k ==> trips[j].id != id
    ensures FindTrip(trips, id) == Some(trips[k])
    decreases |trips|
  {
    if k > 0 {
      assert trips[0].id != id;
      FindTripFirst(trips[1..], id, k - 1);
    }
  }

  /**
   * After `updateTrip(id, patch)` with a patch that keeps the id, the first
   * trip with that id in the new list is the first one of the old list,
   * merged and stamped: the value `currentTrip` takes when it had that id.
   */
  lemma UpdatedCurrentTrip(trips: seq<Trip>, id: string, patch: TripPatch, now: int, k: int)
    requires 0 <= k < |trips| && trips[k].id == id
    requires forall j :: 0 <= j < k ==> trips[j].id != id
    requires patch.id.None? || patch.id == Some(id)
    ensures FindTrip(UpdateTripIn(trips, id, patch, now), id) == Some(PatchTrip(trips[k], patch).(updatedAt := now))
  {
    var r := UpdateTripIn(trips, id, patch, now);
    forall j | 0 <= j < k ensures r[j].id != id {
      assert r[j] == trips[j];
    }
    FindTripFirst(r, id, k);
  }

  /** Deleting a trip keeps every other trip, in order, and no trip with that id. */
  lemma DeleteTripMeaning(trips: seq<Trip>, id: string)
    ensures var r := Filter(trips, TripIdIsNot(id));
      && IsSubseq(r, trips)
      && (forall k :: 0 <= k < |r| ==> r[k].id != id)
      && (forall k :: 0 <= k < |trips| && trips[k].id != id ==> trips[k] in r)
  {
    FilterIsSubseq(trips, TripIdIsNot(id));
    var r := Filter(trips, TripIdIsNot(id));
    forall k | 0 <= k < |r| ensures r[k].id != id {
      assert TripIdIsNot(id)(r[k]);
    }
    forall k | 0 <= k < |trips| && trips[k].id != id ensures trips[k] in r {
      assert TripIdIsNot(id)(trips[k]);
    }
  }

  /** A nested add touches only the target trip's sub-list: the other sub-lists of that trip stay. */
  lemma AddActivityOnlyTouchesActivities(trips: seq<Trip>, tripId: string, a: Activity, now: int)
    ensures var r := AddActivityIn(trips, tripId, a, now);
      forall k :: 0 <= k < |trips| ==>
        && r[k].id == trips[k].id
        && r[k].accommodations == trips[k].accommodations
        && r[k].transportations == trips[k].transportations
        && (trips[k].id == tripId ==>
              |r[k].activities| == |trips[k].activities| + 1 && r[k].activities[|trips[k].activities|] == a)
  {
  }

  class TripStore {
    var trips: seq<Trip>
    var currentTrip: Option<Trip>
    var loading: bool
    var error: Option<string>
    /** The persisted list under the store's storage key; `None` when nothing is stored. */
    var stored: Option<seq<Trip>>

    constructor (persisted: Option<seq<Trip>>)
      ensures trips == [] && currentTrip == None && !loading && error == None && stored == persisted
    {
      trips := [];
      currentTrip := None;
      loading := false;
      error := None;
      stored := persisted;
    }

    /**
     * The common end of every writing action: on a successful write the new
     * list is persisted and becomes `trips`; otherwise only `error` is set.
     */
    method Commit(newTrips: seq<Trip>, failure: string, writeOk: bool)
      modifies this
      ensures writeOk ==> trips == newTrips && stored == Some(newTrips) && error == old(error)
      ensures !writeOk ==> trips == old(trips) && stored == old(stored) && error == Some(failure)
      ensures currentTrip == old(currentTrip) && loading == old(loading)
    {
      if writeOk {
        stored := Some(newTrips);
        trips := newTrips;
      } else {
        error := Some(failure);
      }
    }

    /** `fetchTrips`: an empty list when nothing is stored; `loading` always ends false. */
    method FetchTrips(readOk: bool)
      modifies this
      ensures readOk ==> trips == old(stored).GetOr([]) && error == None
      ensures !readOk ==> trips == old(trips) && error == Some("Failed to fetch trips")
      ensures !loading && stored == old(stored) && currentTrip == old(currentTrip)
    {
      loading := true;
      error := None;
      if readOk {
        trips := stored.GetOr([]);
        loading := false;
      } else {
        error := Some("Failed to fetch trips");
        loading := false;
      }
    }

    /** `addTrip`: appends one trip with the fresh id and both timestamps at `now`. */
    method AddTrip(tripData: NewTrip, newId: string, now: int, writeOk: bool)
      modifies this
      ensures writeOk ==>
        trips == old(trips) + [MakeTrip(tripData, newId, now)]
        && stored == Some(trips) && error == old(error)
      ensures !writeOk ==> trips == old(trips) && stored == old(stored) && error == Some("Failed to add trip")
      ensures currentTrip == old(currentTrip) && loading == old(loading)
    {
      var newTrip := MakeTrip(tripData, newId, now);
      var newTrips := trips + [newTrip];
      Commit(newTrips, "Failed to add trip", writeOk);
    }

    /**
     * `updateTrip`: merges the patch into the trips with that id; when
     * `currentTrip` had that id, it becomes the first trip of the new list
     * with that id, or null when the patch renamed the id away.
     */
    method UpdateTrip(id: string, tripData: TripPatch, now: int, writeOk: bool)
      modifies this
      ensures writeOk ==>
        trips == UpdateTripIn(old(trips), id, tripData, now)
        && stored == Some(trips) && error == old(error)
      ensures writeOk && old(currentTrip).Some? && old(currentTrip).value.id == id ==>
        currentTrip == FindTrip(trips, id)
      ensures !(writeOk && old(currentTrip).Some? && old(currentTrip).value.id == id) ==>
        currentTrip == old(currentTrip)
      ensures !writeOk ==> trips == old(trips) && stored == old(stored) && error == Some("Failed to update trip")
      ensures loading == old(loading)
    {
      var newTrips := UpdateTripIn(trips, id, tripData, now);
      Commit(newTrips, "Failed to update trip", writeOk);
      if writeOk && currentTrip.Some? && currentTrip.value.id == id {
        currentTrip := FindTrip(trips, id);
      }
    }

    /** `deleteTrip`: removes every trip with that id; `currentTrip` is cleared when it had that id. */
    method DeleteTrip(id: string, writeOk: bool)
      modifies this
      ensures writeOk ==>
        trips == Filter(old(trips), TripIdIsNot(id))
        && stored == Some(trips) && error == old(error)
      ensures writeOk && old(currentTrip).Some? && old(currentTrip).value.id == id ==> currentTrip == None
      ensures !(writeOk && old(currentTrip).Some? && old(currentTrip).value.id == id) ==>
        currentTrip == old(currentTrip)
      ensures !writeOk ==> trips == old(trips) && stored == old(stored) && error == Some("Failed to delete trip")
      ensures loading == old(loading)
    {
      var newTrips := Filter(trips, TripIdIsNot(id));
      Commit(newTrips, "Failed to delete trip", writeOk);
      if writeOk && currentTrip.Some? && currentTrip.value.id == id {
        currentTrip := None;
      }
    }

    /** `setCurrentTrip`. */
    method SetCurrentTrip(trip: Option<Trip>)
      modifies this
      ensures currentTrip == trip
      ensures trips == old(trips) && stored == old(stored) && loading == old(loading) && error == old(error)
    {
      currentTrip := trip;
    }

    /** `addActivity`: the activity, with the fresh id and the target trip's id, ends that trip's list. */
    method AddActivity(tripId: string, activityData: NewActivity, newId: string, now: int, writeOk: bool)
      modifies this
      ensures writeOk ==>
        trips == AddActivityIn(old(trips), tripId, MakeActivity(activityData, newId, tripId), now)
        && stored == Some(trips) && error == old(error)
      ensures !writeOk ==> trips == old(trips) && stored == old(stored) && error == Some("Failed to add activity")
      ensures currentTrip == old(currentTrip) && loading == old(loading)
    {
      var newActivity := MakeActivity(activityData, newId, tripId);
      Commit(AddActivityIn(trips, tripId, newActivity, now), "Failed to add activity", writeOk);
    }

    /** `updateActivity`. */
    method UpdateActivity(tripId: string, activityId: string, activityData: ActivityPatch, now: int, writeOk: bool)
      modifies this
      ensures writeOk ==>
        trips == UpdateActivityIn(old(trips), tripId, activityId, activityData, now)
        && stored == Some(trips) && error == old(error)
      ensures !writeOk ==> trips == old(trips) && stored == old(stored) && error == Some("Failed to update activity")
      ensures currentTrip == old(currentTrip) && loading == old(loading)
    {
      Commit(UpdateActivityIn(trips, tripId, activityId, activityData, now), "Failed to update activity", writeOk);
    }

    /** `deleteActivity`. */
    method DeleteActivity(tripId: string, activityId: string, now: int, writeOk: bool)
      modifies this
      ensures writeOk ==>
        trips == DeleteActivityIn(old(trips), tripId, activityId, now)
        && stored == Some(trips) && error == old(error)
      ensures !writeOk ==> trips == old(trips) && stored == old(stored) && error == Some("Failed to delete activity")
      ensures currentTrip == old(currentTrip) && loading == old(loading)
    {
      Commit(DeleteActivityIn(trips, tripId, activityId, now), "Failed to delete activity", writeOk);
    }

    /** `addAccommodation`. */
    method AddAccommodation(tripId: string, accommodationData: NewAccommodation, newId: string, now: int, writeOk: bool)
      modifies this
      ensures writeOk ==>
        trips == AddAccommodationIn(old(trips), tripId, MakeAccommodation(accommodationData, newId, tripId), now)
        && stored == Some(trips) && error == old(error)
      ensures !writeOk ==> trips == old(trips) && stored == old(stored) && error == Some("Failed to add accommodation")
      ensures currentTrip == old(currentTrip) && loading == old(loading)
    {
      var newAccommodation := MakeAccommodation(accommodationData, newId, tripId);
      Commit(AddAccommodationIn(trips, tripId, newAccommodation, now), "Failed to add accommodation", writeOk);
    }

    /** `updateAccommodation`. */
    method UpdateAccommodation(tripId: string, accommodationId: string, accommodationData: AccommodationPatch,
                               now: int, writeOk: bool)
      modifies this
      ensures writeOk ==>
        trips == UpdateAccommodationIn(old(trips), tripId, accommodationId, accommodationData, now)
        && stored == Some(trips) && error == old(error)
      ensures !writeOk ==> trips == old(trips) && stored == old(stored) && error == Some("Failed to update accommodation")
      ensures currentTrip == old(currentTrip) && loading == old(loading)
    {
      Commit(UpdateAccommodationIn(trips, tripId, accommodationId, accommodationData, now),
        "Failed to update accommodation", writeOk);
    }

    /** `deleteAccommodation`. */
    method DeleteAccommodation(tripId: string, accommodationId: string, now: int, writeOk: bool)
      modifies this
      ensures writeOk ==>
        trips == DeleteAccommodationIn(old(trips), tripId, accommodationId, now)
        && stored == Some(trips) && error == old(error)
      ensures !writeOk ==> trips == old(trips) && stored == old(stored) && error == Some("Failed to delete accommodation")
      ensures currentTrip == old(currentTrip) && loading == old(loading)
    {
      Commit(DeleteAccommodationIn(trips, tripId, accommodationId, now), "Failed to delete accommodation", writeOk);
    }

    /** `addTransportation`. */
    method AddTransportation(tripId: string, transportationData: NewTransportation, newId: string, now: int,
                             writeOk: bool)
      modifies this
      ensures writeOk ==>
        trips == AddTransportationIn(old(trips), tripId, MakeTransportation(transportationData, newId, tripId), now)
        && stored == Some(trips) && error == old(error)
      ensures !writeOk ==> trips == old(trips) && stored == old(stored) && error == Some("Failed to add transportation")
      ensures currentTrip == old(currentTrip) && loading == old(loading)
    {
      var newTransportation := MakeTransportation(transportationData, newId, tripId);
      Commit(AddTransportationIn(trips, tripId, newTransportation, now), "Failed to add transportation", writeOk);
    }

    /** `updateTransportation`. */
    method UpdateTransportation(tripId: string, transportationId: string, transportationData: TransportationPatch,
                                now: int, writeOk: bool)
      modifies this
      ensures writeOk ==>
        trips == UpdateTransportationIn(old(trips), tripId, transportationId, transportationData, now)
        && stored == Some(trips) && error == old(error)
      ensures !writeOk ==> trips == old(trips) && stored == old(stored) && error == Some("Failed to update transportation")
      ensures currentTrip == old(currentTrip) && loading == old(loading)
    {
      Commit(UpdateTransportationIn(trips, tripId, transportationId, transportationData, now),
        "Failed to update transportation", writeOk);
    }

    /** `deleteTransportation`. */
    method DeleteTransportation(tripId: string, transportationId: string, now: int, writeOk: bool)
      modifies this
      ensures writeOk ==>
        trips == DeleteTransportationIn(old(trips), tripId, transportationId, now)
        && stored == Some(trips) && error == old(error)
      ensures !writeOk ==> trips == old(trips) && stored == old(stored) && error == Some("Failed to delete transportation")
      ensures currentTrip == old(currentTrip) && loading == old(loading)
    {
      Commit(DeleteTransportationIn(trips, tripId, transportationId, now), "Failed to delete transportation", writeOk);
    }
  }
}
