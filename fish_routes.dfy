/** The fish routes of the server: the fish types with their total catch,
    one fish type with its catches, and the three catch searches (by fish
    type and bank, by arrival date of the visit, by quality). */
module FishRoutes {
  import opened Seqs
  import opened Schema

  // ----- GET /fish/types -----

  datatype FishTypeWithTotal = FishTypeWithTotal(fishType: FishType, fishCatches: seq<FishCatch>, totalWeight: real)

  function TotalOf(t: FishTypeWithTotal): real { t.totalWeight }

  /** `{ ...fishType, totalWeight: fishType.fishCatches.reduce(...) }`. */
  function WithTotalWeight(db: Db): FishType -> FishTypeWithTotal
  {
    (t: FishType) => FishTypeWithTotal(t, CatchesOfType(db, t.id), SumOf(CatchesOfType(db, t.id), CatchWeight))
  }

  /** The list of fish types, each with its catches and their total weight.
      It keeps the fish types one to one and in order, adds only the catches
      and the total, and the total is the sum of the type's catch weights,
      0 for a type without catches. */
  function FishTypesWithTotals(db: Db): (r: seq<FishTypeWithTotal>)
    ensures |r| == |db.fishTypes|
    ensures forall i :: 0 <= i < |r| ==>
      && r[i].fishType == db.fishTypes[i]
      && (forall c :: c in r[i].fishCatches <==> c in db.catches && c.fishTypeId == db.fishTypes[i].id)
      && (forall c :: (multiset(r[i].fishCatches)[c]
            == if c.fishTypeId == db.fishTypes[i].id then multiset(db.catches)[c] else 0))
      && r[i].totalWeight == SumOf(r[i].fishCatches, CatchWeight)
    ensures forall i :: 0 <= i < |r| && r[i].fishCatches == [] ==> r[i].totalWeight == 0.0
  {
    MapSeq(db.fishTypes, WithTotalWeight(db))
  }

  /** With distinct fish-type ids the totals of the list add up to the weight
      of every catch whose fish type exists: no catch is counted twice or
      lost. */
  lemma FishTypeTotalsAddUp(db: Db)
    requires UniqueIds(db)
    ensures SumOf(FishTypesWithTotals(db), TotalOf)
      == SumOf(Filter(db.catches, KeyIn(CatchTypeId, MapSeq(db.fishTypes, FishTypeId))), CatchWeight)
  {
    var ids := MapSeq(db.fishTypes, FishTypeId);
    var groups := GroupsOf(ids, db.catches, CatchTypeId);
    GroupSums(ids, db.catches, CatchTypeId, CatchWeight);
    SumOfPointwise(FishTypesWithTotals(db), TotalOf, groups, SumWith(CatchWeight));
  }

  // ----- GET /fish/types/:id -----

  /** `GET /fish/types/:id`: 404 for an unknown id, otherwise the fish type
      with its catches and their total weight. */
  function FishTypeDetail(db: Db, id: int): (r: Response<FishTypeWithTotal>)
    ensures r.Status? <==> forall t :: t in db.fishTypes ==> t.id != id
    ensures r.Status? ==> r.code == 404
    ensures r.Ok? ==>
      && r.body.fishType in db.fishTypes && r.body.fishType.id == id
      && (forall c :: c in r.body.fishCatches <==> c in db.catches && c.fishTypeId == id)
      && (forall c :: multiset(r.body.fishCatches)[c] == if c.fishTypeId == id then multiset(db.catches)[c] else 0)
      && r.body.totalWeight == SumOf(r.body.fishCatches, CatchWeight)
  {
    match FishTypeById(db, id)
    case None => Status(404, "Вид рыбы не найден")
    case Some(t) => Ok(WithTotalWeight(db)(t))
  }

  // ----- The catch searches -----

  /** The visit of a catch is at bank `bankId`. */
  predicate VisitAtBank(db: Db, c: FishCatch, bankId: int)
  {
    VisitById(db, c.bankVisitId).Some? && VisitById(db, c.bankVisitId).value.fishingBankId == bankId
  }

  /** The visit of a catch arrives within [start, end]. */
  predicate VisitArrivesWithin(db: Db, c: FishCatch, start: int, end: int)
  {
    VisitById(db, c.bankVisitId).Some? && start <= VisitById(db, c.bankVisitId).value.arrivalDate <= end
  }

  function OfTypeAtBank(db: Db, fishTypeId: int, bankId: int): FishCatch -> bool
  {
    (c: FishCatch) => c.fishTypeId == fishTypeId && VisitAtBank(db, c, bankId)
  }

  function ArrivedWithin(db: Db, start: int, end: int): FishCatch -> bool
  {
    (c: FishCatch) => VisitArrivesWithin(db, c, start, end)
  }

  function OfQuality(quality: string): FishCatch -> bool
  {
    (c: FishCatch) => c.quality == quality
  }

  /** `GET /fish/catches?fishTypeId&bankId`: the catches of that fish type
      made on a visit to that bank. */
  function CatchesByTypeAndBank(db: Db, fishTypeId: int, bankId: int): (r: seq<FishCatch>)
    ensures forall c :: c in r <==> c in db.catches && c.fishTypeId == fishTypeId && VisitAtBank(db, c, bankId)
  {
    var p := OfTypeAtBank(db, fishTypeId, bankId);
    assert forall c :: p(c) <==> c.fishTypeId == fishTypeId && VisitAtBank(db, c, bankId);
    Filter(db.catches, p)
  }

  /** `GET /fish/catches/date-range?startDate&endDate`: the catches whose
      visit arrived within the inclusive range. */
  function CatchesByArrivalDate(db: Db, start: int, end: int): (r: seq<FishCatch>)
    ensures forall c :: c in r <==> c in db.catches && VisitArrivesWithin(db, c, start, end)
  {
    var p := ArrivedWithin(db, start, end);
    assert forall c :: p(c) <==> VisitArrivesWithin(db, c, start, end);
    Filter(db.catches, p)
  }

  /** `GET /fish/catches/quality/:quality`: the catches of exactly that
      quality string. */
  function CatchesByQuality(db: Db, quality: string): (r: seq<FishCatch>)
    ensures forall c :: c in r <==> c in db.catches && c.quality == quality
  {
    var p := OfQuality(quality);
    assert forall c :: p(c) <==> c.quality == quality;
    Filter(db.catches, p)
  }

  /** Each search returns every matching catch as often as the table holds
      it, and nothing else. */
  lemma CatchSearchesAreExact(db: Db, fishTypeId: int, bankId: int, start: int, end: int, quality: string)
    ensures forall c :: (multiset(CatchesByTypeAndBank(db, fishTypeId, bankId))[c]
      == if c.fishTypeId == fishTypeId && VisitAtBank(db, c, bankId) then multiset(db.catches)[c] else 0)
    ensures forall c :: (multiset(CatchesByArrivalDate(db, start, end))[c]
      == if VisitArrivesWithin(db, c, start, end) then multiset(db.catches)[c] else 0)
    ensures forall c :: (multiset(CatchesByQuality(db, quality))[c]
      == if c.quality == quality then multiset(db.catches)[c] else 0)
  {
    FilterMultiset(db.catches, OfTypeAtBank(db, fishTypeId, bankId));
    FilterMultiset(db.catches, ArrivedWithin(db, start, end));
    FilterMultiset(db.catches, OfQuality(quality));
  }
}
