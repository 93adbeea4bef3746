/**
 * store/tripStore.ts: the itinerary app's trip table. In memory, `trips`
 * holds the signed-in user's trips keyed by trip id; `stored` is the whole
 * persisted table (every user's trips), read and written whole. The
 * itinerary transforms are pure functions on item lists; the store methods
 * apply them to one trip and write it back through `UpdateTrip`.
 */
module ItineraryStore {
  import opened Wrappers
  import opened Seqs

  datatype Category = Flight | Accommodation | Activity | Food | Transport | Other

  datatype ItineraryItem = ItineraryItem(
    id: string,
    tripId: string,
    title: string,
    description: Option<string>,
    date: string,
    startTime: Option<string>,
    endTime: Option<string>,
    location: Option<string>,
    category: Category,
    order: int)

  /** An item as the caller of `addItineraryItem` supplies it: everything but `id` and `order`. */
  datatype NewItem = NewItem(
    tripId: string,
    title: string,
    description: Option<string>,
    date: string,
    startTime: Option<string>,
    endTime: Option<string>,
    location: Option<string>,
    category: Category)

  /** A trip; a stored trip may lack its itinerary, which the operations read as empty. */
  datatype Trip = Trip(
    id: string,
    userId: string,
    name: string,
    destination: string,
    startDate: string,
    endDate: string,
    description: Option<string>,
    imageUri: Option<string>,
    itinerary: Option<seq<ItineraryItem>>,
    createdAt: string)

  /** `trip.itinerary || []`. */
  function Items(t: Trip): (r: seq<ItineraryItem>)
    ensures t.itinerary.None? ==> r == []
    ensures t.itinerary.Some? ==> r == t.itinerary.value
  {
    t.itinerary.GetOr([])
  }

  /** Every item's `order` is its index in the list. */
  predicate Numbered(items: seq<ItineraryItem>)
  {
    forall k :: 0 <= k < |items| ==> items[k].order == k
  }

  /** `b` is `a` with possibly different `order` fields and nothing else changed. */
  predicate SameButOrder(a: seq<ItineraryItem>, b: seq<ItineraryItem>)
  {
    |a| == |b| && forall k :: 0 <= k < |a| ==> b[k] == a[k].(order := b[k].order)
  }

  /** `items.map((i, idx) => ({ ...i, order: idx }))`. */
  function Renumber(items: seq<ItineraryItem>): (r: seq<ItineraryItem>)
    ensures Numbered(r)
    ensures SameButOrder(items, r)
  {
    seq(|items|, k requires 0 <= k < |items| => items[k].(order := k))
  }

  /** A list already numbered by position is left as it is. */
  lemma RenumberNumbered(items: seq<ItineraryItem>)
    requires Numbered(items)
    ensures Renumber(items) == items
  {
    var r := Renumber(items);
    forall k | 0 <= k < |items| ensures r[k] == items[k] {
      assert r[k] == items[k].(order := k);
    }
  }

  /** Any two lists with the same items up to `order` renumber to the same list. */
  lemma RenumberForgetsOrder(a: seq<ItineraryItem>, b: seq<ItineraryItem>)
    requires SameButOrder(a, b)
    ensures Renumber(a) == Renumber(b)
  {
    var ra, rb := Renumber(a), Renumber(b);
    forall k | 0 <= k < |a| ensures ra[k] == rb[k] {
      assert ra[k] == a[k].(order := k) && rb[k] == b[k].(order := k);
    }
  }

  /** The item `addItineraryItem` builds: the supplied fields, a fresh id, and the given order. */
  function MakeItem(item: NewItem, id: string, order: int): (r: ItineraryItem)
    ensures r.id == id && r.order == order
    ensures r.tripId == item.tripId && r.title == item.title && r.date == item.date
    ensures r.description == item.description && r.location == item.location
    ensures r.startTime == item.startTime && r.endTime == item.endTime && r.category == item.category
  {
    ItineraryItem(id, item.tripId, item.title, item.description, item.date, item.startTime,
      item.endTime, item.location, item.category, order)
  }

  /** `[...itinerary, newItem]` with the new item's order equal to the previous length. */
  function AppendItem(items: seq<ItineraryItem>, item: NewItem, id: string): (r: seq<ItineraryItem>)
    ensures |r| == |items| + 1
    ensures r[..|items|] == items
    ensures r[|items|] == MakeItem(item, id, |items|)
  {
    items + [MakeItem(item, id, |items|)]
  }

  /** Appending keeps a list numbered by position. */
  lemma AppendKeepsNumbered(items: seq<ItineraryItem>, item: NewItem, id: string)
    requires Numbered(items)
    ensures Numbered(AppendItem(items, item, id))
  {
    var r := AppendItem(items, item, id);
    forall k | 0 <= k < |r| ensures r[k].order == k {
      if k < |items| {
        assert r[k] == r[..|items|][k];
      }
    }
  }

  /** `itinerary.map((i) => (i.id === item.id ? item : i))`. */
  function ReplaceItem(items: seq<ItineraryItem>, item: ItineraryItem): (r: seq<ItineraryItem>)
    ensures |r| == |items|
    ensures forall k :: 0 <= k < |items| && items[k].id == item.id ==> r[k] == item
    ensures forall k :: 0 <= k < |items| && items[k].id != item.id ==> r[k] == items[k]
  {
    seq(|items|, k requires 0 <= k < |items| => if items[k].id == item.id then item else items[k])
  }

  /** Replacing the same item twice is replacing it once. */
  lemma {:induction false} ReplaceItemIdempotent(items: seq<ItineraryItem>, item: ItineraryItem)
    ensures ReplaceItem(ReplaceItem(items, item), item) == ReplaceItem(items, item)
  {
    var r := ReplaceItem(items, item);
    var rr := ReplaceItem(r, item);
    forall k | 0 <= k < |items| ensures rr[k] == r[k] {
      if items[k].id == item.id {
        assert r[k] == item;
      } else {
        assert r[k] == items[k];
      }
    }
  }

  /** A replacement carrying the order of the position it lands on keeps the list numbered. */
  lemma ReplaceKeepsNumbered(items: seq<ItineraryItem>, item: ItineraryItem)
    requires Numbered(items)
    requires forall k :: 0 <= k < |items| && items[k].id == item.id ==> k == item.order
    ensures Numbered(ReplaceItem(items, item))
  {
  }

  /** The item predicate of `filter((i) => i.id !== itemId)`. */
  function NotId(itemId: string): ItineraryItem -> bool
  {
    (i: ItineraryItem) => i.id != itemId
  }

  /** `itinerary.filter((i) => i.id !== itemId).map((i, idx) => ({ ...i, order: idx }))`. */
  function RemoveItem(items: seq<ItineraryItem>, itemId: string): (r: seq<ItineraryItem>)
    ensures Numbered(r)
    ensures SameButOrder(Filter(items, NotId(itemId)), r)
    ensures forall k :: 0 <= k < |r| ==> r[k].id != itemId
    ensures forall k :: 0 <= k < |items| && items[k].id != itemId ==>
      exists j :: 0 <= j < |r| && r[j] == items[k].(order := j)
  {
    var kept := Filter(items, NotId(itemId));
    var r := Renumber(kept);
    forall k | 0 <= k < |items| && items[k].id != itemId
      ensures exists j :: 0 <= j < |r| && r[j] == items[k].(order := j)
    {
      assert NotId(itemId)(items[k]);
      var j :| 0 <= j < |kept| && kept[j] == items[k];
      assert r[j] == kept[j].(order := j);
    }
    forall k | 0 <= k < |r| ensures r[k].id != itemId {
      assert kept[k] in kept && NotId(itemId)(kept[k]);
    }
    r
  }

  /** Removing an id that no item carries from a numbered list changes nothing. */
  lemma RemoveAbsentItem(items: seq<ItineraryItem>, itemId: string)
    requires Numbered(items)
    requires forall k :: 0 <= k < |items| ==> items[k].id != itemId
    ensures RemoveItem(items, itemId) == items
  {
    FilterExtremes(items, NotId(itemId));
    RenumberNumbered(items);
  }

  /** The items removal keeps are the others, in their original relative order. */
  lemma RemoveItemKeepsOrder(items: seq<ItineraryItem>, itemId: string)
    ensures IsSubseq(Filter(items, NotId(itemId)), items)
    ensures |RemoveItem(items, itemId)| == Count(items, NotId(itemId))
  {
    FilterIsSubseq(items, NotId(itemId));
  }

  /** Every trip in `t` is stored under its own id. */
  predicate KeysMatch(t: map<string, Trip>)
  {
    forall id :: id in t ==> t[id].id == id
  }

  class TripStore {
    /** The signed-in user's trips, by id. */
    var trips: map<string, Trip>
    var loaded: bool
    /** The persisted trip table of every user, read and written whole. */
    var stored: map<string, Trip>

    /** Both tables key each trip by its own id. */
    ghost predicate Valid()
      reads this
    {
      KeysMatch(trips) && KeysMatch(stored)
    }

    /** The initial store: no trips, not loaded, over the given persisted table. */
    constructor (persisted: map<string, Trip>)
      ensures trips == map[] && !loaded && stored == persisted
    {
      trips := map[];
      loaded := false;
      stored := persisted;
    }

    /** `loadTrips`: keeps the persisted trips of `userId`, under their own keys. */
    method LoadTrips(userId: string)
      modifies this
      ensures forall id :: id in trips <==> id in stored && stored[id].userId == userId
      ensures forall id :: id in trips ==> trips[id] == stored[id]
      ensures loaded && stored == old(stored)
      ensures old(Valid()) ==> Valid()
    {
      var all := stored;
      var userTrips: map<string, Trip> := map[];
      var rest := all.Keys;
      while rest != {}
        invariant rest <= all.Keys
        invariant forall id :: id in userTrips <==>
          id in all && id !in rest && all[id].userId == userId
        invariant forall id :: id in userTrips ==> userTrips[id] == all[id]
        decreases rest
      {
        var id :| id in rest;
        var trip := all[id];
        if trip.userId == userId {
          userTrips := userTrips[id := trip];
        }
        rest := rest - {id};
      }
      trips := userTrips;
      loaded := true;
    }

    /** `addTrip`: writes the trip under its id in the persisted and in-memory tables. */
    method AddTrip(trip: Trip)
      modifies this
      ensures stored == old(stored)[trip.id := trip]
      ensures trips == old(trips)[trip.id := trip]
      ensures loaded == old(loaded)
      ensures old(Valid()) ==> Valid()
    {
      stored := stored[trip.id := trip];
      trips := trips[trip.id := trip];
    }

    /** `updateTrip`: the same write as `addTrip`, whether or not the id is present. */
    method UpdateTrip(trip: Trip)
      modifies this
      ensures stored == old(stored)[trip.id := trip]
      ensures trips == old(trips)[trip.id := trip]
      ensures loaded == old(loaded)
      ensures old(Valid()) ==> Valid()
    {
      stored := stored[trip.id := trip];
      trips := trips[trip.id := trip];
    }

    /** `deleteTrip`: nothing happens unless the id is in memory; then it leaves both tables. */
    method DeleteTrip(tripId: string)
      modifies this
      ensures tripId !in old(trips) ==> trips == old(trips) && stored == old(stored)
      ensures tripId in old(trips) ==>
        trips == old(trips) - {tripId} && stored == old(stored) - {tripId}
      ensures loaded == old(loaded)
      ensures old(Valid()) ==> Valid()
    {
      if tripId !in trips {
        return;
      }
      stored := stored - {tripId};
      trips := trips - {tripId};
    }

    /** `reorderItinerary`: the trip's itinerary becomes `items`, numbered by position. */
    method ReorderItinerary(tripId: string, items: seq<ItineraryItem>)
      modifies this
      ensures tripId !in old(trips) ==> trips == old(trips) && stored == old(stored)
      ensures tripId in old(trips) ==>
        var u := old(trips)[tripId].(itinerary := Some(Renumber(items)));
        trips == old(trips)[u.id := u] && stored == old(stored)[u.id := u]
      ensures loaded == old(loaded)
      ensures old(Valid()) ==> Valid()
      ensures old(Valid()) && tripId in old(trips) ==>
        tripId in trips && Items(trips[tripId]) == Renumber(items)
    {
      if tripId !in trips {
        return;
      }
      var trip := trips[tripId];
      var updated := trip.(itinerary := Some(Renumber(items)));
      UpdateTrip(updated);
    }

    /** `addItineraryItem`: appends the item with a fresh id and the next order. */
    method AddItineraryItem(tripId: string, item: NewItem, freshId: string)
      modifies this
      ensures tripId !in old(trips) ==> trips == old(trips) && stored == old(stored)
      ensures tripId in old(trips) ==>
        var t := old(trips)[tripId];
        var u := t.(itinerary := Some(AppendItem(Items(t), item, freshId)));
        trips == old(trips)[u.id := u] && stored == old(stored)[u.id := u]
      ensures loaded == old(loaded)
      ensures old(Valid()) ==> Valid()
      ensures old(Valid()) && tripId in old(trips) && Numbered(Items(old(trips)[tripId])) ==>
        tripId in trips && Numbered(Items(trips[tripId]))
    {
      if tripId !in trips {
        return;
      }
      var trip := trips[tripId];
      var itinerary := AppendItem(Items(trip), item, freshId);
      if Numbered(Items(trip)) {
        AppendKeepsNumbered(Items(trip), item, freshId);
      }
      var updated := trip.(itinerary := Some(itinerary));
      UpdateTrip(updated);
    }

    /** `updateItineraryItem`: every item with the given item's id is replaced by it. */
    method UpdateItineraryItem(tripId: string, item: ItineraryItem)
      modifies this
      ensures tripId !in old(trips) ==> trips == old(trips) && stored == old(stored)
      ensures tripId in old(trips) ==>
        var t := old(trips)[tripId];
        var u := t.(itinerary := Some(ReplaceItem(Items(t), item)));
        trips == old(trips)[u.id := u] && stored == old(stored)[u.id := u]
      ensures loaded == old(loaded)
      ensures old(Valid()) ==> Valid()
    {
      if tripId !in trips {
        return;
      }
      var trip := trips[tripId];
      var updated := trip.(itinerary := Some(ReplaceItem(Items(trip), item)));
      UpdateTrip(updated);
    }

    /** `removeItineraryItem`: drops the items with that id and renumbers the rest. */
    method RemoveItineraryItem(tripId: string, itemId: string)
      modifies this
      ensures tripId !in old(trips) ==> trips == old(trips) && stored == old(stored)
      ensures tripId in old(trips) ==>
        var t := old(trips)[tripId];
        var u := t.(itinerary := Some(RemoveItem(Items(t), itemId)));
        trips == old(trips)[u.id := u] && stored == old(stored)[u.id := u]
      ensures loaded == old(loaded)
      ensures old(Valid()) ==> Valid()
      ensures old(Valid()) && tripId in old(trips) ==>
        tripId in trips && Numbered(Items(trips[tripId]))
    {
      if tripId !in trips {
        return;
      }
      var trip := trips[tripId];
      var updated := trip.(itinerary := Some(RemoveItem(Items(trip), itemId)));
      UpdateTrip(updated);
    }
  }
}
