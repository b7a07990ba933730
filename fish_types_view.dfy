/** The fish-type screen: the catch history of a fish type grouped by fishing
    trip, and the reset of the edit form when the dialog opens. */
module FishTypesView {
  import opened Seqs

  /** A catch of the fish-type detail, with the parts of its visit and trip
      the history shows. */
  datatype DetailCatch = DetailCatch(
    id: int,
    weight: real,
    quality: string,
    bankName: string,
    arrivalDate: int,
    departureDate: int,
    tripId: int,
    boatName: string)

  /** One accordion of the history: a trip and its catches. */
  datatype TripGroup = TripGroup(tripId: int, tripCatches: seq<DetailCatch>)

  function TripIdOf(c: DetailCatch): int { c.tripId }

  function GroupTripId(g: TripGroup): int { g.tripId }

  function GroupCatches(g: TripGroup): seq<DetailCatch> { g.tripCatches }

  /** `Array.from(new Set(catches.map(c => c.bankVisit.fishingTrip.id)))`. */
  function TripIds(catches: seq<DetailCatch>): seq<int>
  {
    Distinct(MapSeq(catches, TripIdOf))
  }

  /** `catches.filter(c => c.bankVisit.fishingTrip.id === tripId)`. */
  function GroupFor(catches: seq<DetailCatch>): int -> TripGroup
  {
    (tripId: int) => TripGroup(tripId, Filter(catches, KeyIs(TripIdOf, tripId)))
  }

  /** The accordions of the history, one per trip. */
  function TripGroups(catches: seq<DetailCatch>): (r: seq<TripGroup>)
    ensures MapSeq(r, GroupTripId) == TripIds(catches)
    ensures MapSeq(r, GroupCatches) == GroupsOf(TripIds(catches), catches, TripIdOf)
  {
    var r := MapSeq(TripIds(catches), GroupFor(catches));
    assert MapSeq(r, GroupTripId) == TripIds(catches);
    assert MapSeq(r, GroupCatches) == GroupsOf(TripIds(catches), catches, TripIdOf);
    r
  }

  /** With no fish type selected, or one without catches loaded, the history
      is empty (`new Set(undefined)` has no elements). */
  function ShownGroups(fishCatches: Option<seq<DetailCatch>>): (r: seq<TripGroup>)
    ensures fishCatches.None? ==> r == []
    ensures fishCatches.Some? ==> MapSeq(r, GroupTripId) == TripIds(fishCatches.value)
  {
    match fishCatches
    case None => []
    case Some(cs) => TripGroups(cs)
  }

  /** Each trip of the catches has exactly one group, in order of its first
      catch; each group holds exactly the catches of its trip, in their
      order, and is never empty, so its first catch is always there. */
  lemma TripGroupsCorrect(catches: seq<DetailCatch>)
    ensures var r := TripGroups(catches);
      && NoDup(MapSeq(r, GroupTripId))
      && (forall c :: c in catches ==> exists g :: g in r && g.tripId == c.tripId)
      && (forall i, j :: 0 <= i < j < |r| ==>
            FirstIndex(MapSeq(catches, TripIdOf), r[i].tripId) < FirstIndex(MapSeq(catches, TripIdOf), r[j].tripId))
      && forall g :: g in r ==>
        && g.tripCatches != []
        && g.tripCatches == Filter(catches, KeyIs(TripIdOf, g.tripId))
        && (forall c :: c in g.tripCatches <==> c in catches && c.tripId == g.tripId)
  {
    var r := TripGroups(catches);
    var ids := MapSeq(catches, TripIdOf);
    DistinctKeepsFirstOccurrenceOrder(ids);
    forall c | c in catches ensures exists g :: g in r && g.tripId == c.tripId {
      var k := FirstIndex(catches, c);
      assert ids[k] == c.tripId;
      var i := FirstIndex(TripIds(catches), c.tripId);
      assert MapSeq(r, GroupTripId)[i] == c.tripId;
      assert r[i] in r;
    }
    forall g | g in r ensures g.tripCatches != [] && g.tripCatches == Filter(catches, KeyIs(TripIdOf, g.tripId)) {
      var i := FirstIndex(r, g);
      assert MapSeq(r, GroupTripId)[i] == g.tripId;
      assert MapSeq(r, GroupCatches)[i] == g.tripCatches;
      assert g.tripId in ids;
      var k := FirstIndex(ids, g.tripId);
      assert catches[k] in g.tripCatches;
    }
  }

  /** The groups partition the catches: together they hold every catch
      exactly as often as the list does, so their sizes add up to its
      length. */
  lemma TripGroupsPartition(catches: seq<DetailCatch>)
    ensures multiset(Flatten(MapSeq(TripGroups(catches), GroupCatches))) == multiset(catches)
    ensures |Flatten(MapSeq(TripGroups(catches), GroupCatches))| == |catches|
  {
    var keys := TripIds(catches);
    GroupsPartition(keys, catches, TripIdOf);
    forall c | c in catches ensures KeyIn(TripIdOf, keys)(c) {
      var k := FirstIndex(catches, c);
      assert MapSeq(catches, TripIdOf)[k] == c.tripId;
    }
    FilterAll(catches, KeyIn(TripIdOf, keys));
    assert |multiset(Flatten(MapSeq(TripGroups(catches), GroupCatches)))| == |multiset(catches)|;
  }

  // ----- The edit dialog -----

  datatype FishTypeItem = FishTypeItem(id: int, name: string, totalWeight: real)

  datatype EditDialog = EditDialog(open: bool, editingFishType: Option<FishTypeItem>, name: string)

  /** `handleOpen(fishType?)`: the dialog opens on the fish type's name, or
      on an empty name with nothing being edited. */
  function HandleOpen(fishType: Option<FishTypeItem>): (r: EditDialog)
    ensures r.open && r.editingFishType == fishType
    ensures fishType.None? ==> r.name == ""
    ensures fishType.Some? ==> r.name == fishType.value.name
  {
    match fishType
    case None => EditDialog(true, None, "")
    case Some(t) => EditDialog(true, Some(t), t.name)
  }

  /** `handleClose`: the dialog closes and forgets the fish type. */
  function HandleClose(d: EditDialog): (r: EditDialog)
    ensures !r.open && r.editingFishType.None? && r.name == d.name
  {
    EditDialog(false, None, d.name)
  }
}
