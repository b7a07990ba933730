/** The relational store: one row type per table, a database as one sequence
    of rows per table, primary-key lookups and the relation includes that the
    route handlers ask the object-relational mapper for. Weights are exact
    reals and dates are day numbers. */
module Schema {
  import opened Seqs

  datatype Boat = Boat(id: int, name: string, boatType: string, displacement: real, buildDate: int)

  datatype FishType = FishType(id: int, name: string)

  datatype FishingBank = FishingBank(id: int, name: string, location: string, description: Option<string>)

  datatype FishingTrip = FishingTrip(id: int, boatId: int, departureDate: int, returnDate: int)

  datatype BankVisit = BankVisit(id: int, fishingTripId: int, fishingBankId: int, arrivalDate: int, departureDate: int)

  datatype FishCatch = FishCatch(id: int, bankVisitId: int, fishTypeId: int, weight: real, quality: string)

  datatype Db = Db(
    boats: seq<Boat>,
    fishTypes: seq<FishType>,
    banks: seq<FishingBank>,
    trips: seq<FishingTrip>,
    visits: seq<BankVisit>,
    catches: seq<FishCatch>)

  /** What a handler sends back: a JSON body, or an HTTP error status. */
  datatype Response<+T> = Ok(body: T) | Status(code: int, error: string)

  function CatchWeight(c: FishCatch): real { c.weight }
  function CatchVisitId(c: FishCatch): int { c.bankVisitId }
  function CatchTypeId(c: FishCatch): int { c.fishTypeId }
  function VisitId(v: BankVisit): int { v.id }
  function VisitBankId(v: BankVisit): int { v.fishingBankId }
  function FishTypeId(t: FishType): int { t.id }

  /** The first row whose key is `id`; with primary keys it is the only one. */
  function FindBy<T(!new)>(s: seq<T>, keyOf: T -> int, id: int): (r: Option<T>)
    ensures r.Some? ==> r.value in s && keyOf(r.value) == id
    ensures r.None? <==> forall x :: x in s ==> keyOf(x) != id
  {
    if |s| == 0 then None
    else if keyOf(s[0]) == id then Some(s[0])
    else
      assert forall x :: x in s <==> x == s[0] || x in s[1..] by {
        assert s == [s[0]] + s[1..];
      }
      FindBy(s[1..], keyOf, id)
  }

  function BoatById(db: Db, id: int): Option<Boat> { FindBy(db.boats, (b: Boat) => b.id, id) }
  function FishTypeById(db: Db, id: int): Option<FishType> { FindBy(db.fishTypes, FishTypeId, id) }
  function BankById(db: Db, id: int): Option<FishingBank> { FindBy(db.banks, (b: FishingBank) => b.id, id) }
  function TripById(db: Db, id: int): Option<FishingTrip> { FindBy(db.trips, (t: FishingTrip) => t.id, id) }
  function VisitById(db: Db, id: int): Option<BankVisit> { FindBy(db.visits, VisitId, id) }

  /** `include: { fishCatches: true }` on a bank visit. */
  function CatchesOfVisit(db: Db, visitId: int): (r: seq<FishCatch>)
    ensures forall c :: c in r <==> c in db.catches && c.bankVisitId == visitId
    ensures forall c :: multiset(r)[c] == if c.bankVisitId == visitId then multiset(db.catches)[c] else 0
  {
    var p := KeyIs(CatchVisitId, visitId);
    assert forall c :: p(c) <==> CatchVisitId(c) == visitId;
    FilterMultiset(db.catches, p);
    Filter(db.catches, p)
  }

  /** `include: { bankVisits: ... }` on a fishing bank. */
  function VisitsOfBank(db: Db, bankId: int): (r: seq<BankVisit>)
    ensures forall v :: v in r <==> v in db.visits && v.fishingBankId == bankId
    ensures forall v :: multiset(r)[v] == if v.fishingBankId == bankId then multiset(db.visits)[v] else 0
  {
    var p := KeyIs(VisitBankId, bankId);
    assert forall v :: p(v) <==> VisitBankId(v) == bankId;
    FilterMultiset(db.visits, p);
    Filter(db.visits, p)
  }

  /** `include: { fishCatches: true }` on a fish type. */
  function CatchesOfType(db: Db, fishTypeId: int): (r: seq<FishCatch>)
    ensures forall c :: c in r <==> c in db.catches && c.fishTypeId == fishTypeId
    ensures forall c :: multiset(r)[c] == if c.fishTypeId == fishTypeId then multiset(db.catches)[c] else 0
  {
    var p := KeyIs(CatchTypeId, fishTypeId);
    assert forall c :: p(c) <==> CatchTypeId(c) == fishTypeId;
    FilterMultiset(db.catches, p);
    Filter(db.catches, p)
  }

  /** Primary keys: no two rows of a table share an id. */
  predicate UniqueIds(db: Db)
  {
    && NoDup(MapSeq(db.visits, VisitId))
    && NoDup(MapSeq(db.fishTypes, FishTypeId))
  }
}
