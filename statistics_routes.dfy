/** The statistics routes of the server, written as the semantics of their SQL
    queries: the catch per (fish type, boat) pair over a trip window, and the
    average catch weight per fishing bank; both refuse a request without its
    two dates. */
module StatisticsRoutes {
  import opened Seqs
  import opened Schema
  import opened Strings
  import opened Sorting

  // ----- The date guard -----

  /** `if (!startDate || !endDate) return res.status(400)...`: a missing or
      empty date parameter is `None`. */
  function DateGuard<T>(startDate: Option<int>, endDate: Option<int>, body: (int, int) -> T): (r: Response<T>)
    ensures r.Status? <==> startDate.None? || endDate.None?
    ensures r.Status? ==> r.code == 400
    ensures r.Ok? ==> r.body == body(startDate.value, endDate.value)
  {
    if startDate.None? || endDate.None? then Status(400, "Start date and end date are required")
    else Ok(body(startDate.value, endDate.value))
  }

  // ----- GET /statistics/fish-catch -----

  /** One row of the four inner JOINs: a catch with its visit, trip, boat and
      fish type. */
  datatype JoinedCatch = JoinedCatch(fishCatch: FishCatch, visit: BankVisit, trip: FishingTrip, boat: Boat, fishType: FishType)

  /** The JOIN row of one catch; a catch whose visit, trip, boat or fish type
      is missing has none. */
  function JoinCatch(db: Db, c: FishCatch): Option<JoinedCatch>
  {
    match VisitById(db, c.bankVisitId)
    case None => None
    case Some(v) =>
      match TripById(db, v.fishingTripId)
      case None => None
      case Some(t) =>
        match BoatById(db, t.boatId)
        case None => None
        case Some(b) =>
          match FishTypeById(db, c.fishTypeId)
          case None => None
          case Some(ft) => Some(JoinedCatch(c, v, t, b, ft))
  }

  /** `FROM "FishCatch" fc JOIN ... JOIN ...`: the JOIN rows of the catches `cs`. */
  function JoinedCatches(db: Db, cs: seq<FishCatch>): (r: seq<JoinedCatch>)
    ensures forall j :: j in r ==> j.fishCatch in cs && JoinCatch(db, j.fishCatch) == Some(j)
    ensures forall c :: c in cs && JoinCatch(db, c).Some? ==> JoinCatch(db, c).value in r
  {
    if |cs| == 0 then []
    else
      var rest := JoinedCatches(db, cs[..|cs| - 1]);
      var c := cs[|cs| - 1];
      assert forall x :: x in cs <==> x in cs[..|cs| - 1] || x == c by {
        assert cs == cs[..|cs| - 1] + [c];
      }
      match JoinCatch(db, c)
      case None => rest
      case Some(j) => rest + [j]
  }

  function InTripWindow(start: int, end: int): JoinedCatch -> bool
  {
    (j: JoinedCatch) => j.trip.departureDate >= start && j.trip.returnDate <= end
  }

  /** `WHERE ftr."departureDate" >= start AND ftr."returnDate" <= end`. */
  function WindowRows(db: Db, start: int, end: int): (r: seq<JoinedCatch>)
    ensures forall j :: j in r <==> j in JoinedCatches(db, db.catches) && j.trip.departureDate >= start && j.trip.returnDate <= end
  {
    var p := InTripWindow(start, end);
    assert forall j :: p(j) <==> j.trip.departureDate >= start && j.trip.returnDate <= end;
    Filter(JoinedCatches(db, db.catches), p)
  }

  /** `GROUP BY ft.id, ft.name, b.id, b.name`. */
  datatype GroupKey = GroupKey(fishTypeId: int, fishTypeName: string, boatId: int, boatName: string)

  function KeyOf(j: JoinedCatch): GroupKey
  {
    GroupKey(j.fishType.id, j.fishType.name, j.boat.id, j.boat.name)
  }

  function JoinedWeight(j: JoinedCatch): real { j.fishCatch.weight }

  /** One row of the query's answer. */
  datatype StatRow = StatRow(fishTypeId: int, fishTypeName: string, boatId: int, boatName: string, totalCatch: real)

  function RowKey(r: StatRow): GroupKey
  {
    GroupKey(r.fishTypeId, r.fishTypeName, r.boatId, r.boatName)
  }

  /** The rows of one group. */
  function GroupOf(rows: seq<JoinedCatch>, k: GroupKey): seq<JoinedCatch>
  {
    Filter(rows, KeyIs(KeyOf, k))
  }

  /** The output row of a group: its key and `SUM(fc.weight)`. */
  function RowFor(rows: seq<JoinedCatch>): GroupKey -> StatRow
  {
    (k: GroupKey) => StatRow(k.fishTypeId, k.fishTypeName, k.boatId, k.boatName, SumOf(GroupOf(rows, k), JoinedWeight))
  }

  /** One output row per group, before ORDER BY. */
  function GroupedRows(rows: seq<JoinedCatch>): seq<StatRow>
  {
    MapSeq(Distinct(MapSeq(rows, KeyOf)), RowFor(rows))
  }

  /** `ORDER BY ft.name, "totalCatch" DESC`: `a` may come before `b`. */
  predicate RowLe(a: StatRow, b: StatRow)
  {
    LexLt(a.fishTypeName, b.fishTypeName) || (a.fishTypeName == b.fishTypeName && a.totalCatch >= b.totalCatch)
  }

  lemma LexLtTransitive(a: string, b: string, c: string)
    requires LexLt(a, b) && LexLt(b, c)
    ensures LexLt(a, c)
  {
    LexLeTransitive(a, b, c);
    if a == c {
      LexLeAntisymmetric(a, b);
    }
  }

  /** The ORDER BY of the query is a total preorder, so sorting by it is
      meaningful; rows that tie on name and total may come in any order. */
  lemma RowLeIsTotalPreorder()
    ensures TotalPreorder(RowLe)
  {
    forall a: StatRow, b: StatRow ensures RowLe(a, b) || RowLe(b, a) {
      LexLeTotal(a.fishTypeName, b.fishTypeName);
    }
    forall a: StatRow, b: StatRow, c: StatRow | RowLe(a, b) && RowLe(b, c) ensures RowLe(a, c) {
      if LexLt(a.fishTypeName, b.fishTypeName) && LexLt(b.fishTypeName, c.fishTypeName) {
        LexLtTransitive(a.fishTypeName, b.fishTypeName, c.fishTypeName);
      }
    }
  }

  /** The whole query of the fish-catch route. */
  function FishCatchQuery(db: Db, start: int, end: int): seq<StatRow>
  {
    SortBy(GroupedRows(WindowRows(db, start, end)), RowLe)
  }

  /** Two output rows never share a group key. */
  lemma GroupedRowsDistinct(rows: seq<JoinedCatch>)
    ensures forall i, j :: 0 <= i < j < |GroupedRows(rows)| ==> RowKey(GroupedRows(rows)[i]) != RowKey(GroupedRows(rows)[j])
  {
    var keys := Distinct(MapSeq(rows, KeyOf));
    assert forall i :: 0 <= i < |GroupedRows(rows)| ==> RowKey(GroupedRows(rows)[i]) == keys[i];
  }

  /** Each output row is one non-empty group and holds the sum of its weights. */
  lemma GroupedRowsSums(rows: seq<JoinedCatch>)
    ensures forall r :: r in GroupedRows(rows) ==>
      && GroupOf(rows, RowKey(r)) != []
      && r.totalCatch == SumOf(GroupOf(rows, RowKey(r)), JoinedWeight)
  {
    var keys := Distinct(MapSeq(rows, KeyOf));
    var out := GroupedRows(rows);
    forall r | r in out
      ensures GroupOf(rows, RowKey(r)) != []
      ensures r.totalCatch == SumOf(GroupOf(rows, RowKey(r)), JoinedWeight)
    {
      var i := FirstIndex(out, r);
      var k := keys[i];
      assert RowKey(r) == k;
      var p := FirstIndex(MapSeq(rows, KeyOf), k);
      assert rows[p] in GroupOf(rows, k);
    }
  }

  /** Every joined row's group has an output row. */
  lemma GroupedRowsCover(rows: seq<JoinedCatch>)
    ensures forall j :: j in rows ==> exists r :: r in GroupedRows(rows) && RowKey(r) == KeyOf(j)
  {
    var keys := Distinct(MapSeq(rows, KeyOf));
    var out := GroupedRows(rows);
    forall j | j in rows ensures exists r :: r in out && RowKey(r) == KeyOf(j) {
      var p := FirstIndex(rows, j);
      assert MapSeq(rows, KeyOf)[p] == KeyOf(j);
      var i := FirstIndex(keys, KeyOf(j));
      assert RowKey(out[i]) == KeyOf(j);
      assert out[i] in out;
    }
  }

  /** The fish-catch query: rows in ORDER BY order, one per (fish type, boat)
      group, each holding the sum of its group's catch weights over the catches
      whose trip lies in the window, and a row for every such group. */
  lemma FishCatchQueryCorrect(db: Db, start: int, end: int)
    ensures var r := FishCatchQuery(db, start, end);
      var rows := WindowRows(db, start, end);
      && SortedBy(r, RowLe)
      && (forall i, j :: 0 <= i < j < |r| ==> RowKey(r[i]) != RowKey(r[j]))
      && (forall row :: row in r ==>
            && GroupOf(rows, RowKey(row)) != []
            && row.totalCatch == SumOf(GroupOf(rows, RowKey(row)), JoinedWeight))
      && (forall j :: j in rows ==> exists row :: row in r && RowKey(row) == KeyOf(j))
  {
    var rows := WindowRows(db, start, end);
    var grouped := GroupedRows(rows);
    var r := FishCatchQuery(db, start, end);
    RowLeIsTotalPreorder();
    SortBySorted(grouped, RowLe);
    GroupedRowsDistinct(rows);
    GroupedRowsSums(rows);
    GroupedRowsCover(rows);
    DistinctKeysPermutation(grouped, r, RowKey);
    PermutationKeepsMembers(grouped, r);
  }

  datatype Ref = Ref(id: int, name: string)

  datatype FishCatchStat = FishCatchStat(fishType: Ref, boat: Ref, totalCatch: real)

  function ToFishCatchStat(r: StatRow): FishCatchStat
  {
    FishCatchStat(Ref(r.fishTypeId, r.fishTypeName), Ref(r.boatId, r.boatName), r.totalCatch)
  }

  function FromFishCatchStat(s: FishCatchStat): StatRow
  {
    StatRow(s.fishType.id, s.fishType.name, s.boat.id, s.boat.name, s.totalCatch)
  }

  /** The JSON transform: one nested record per row, in the rows' order. */
  function TransformFishCatch(rows: seq<StatRow>): (r: seq<FishCatchStat>)
    ensures |r| == |rows|
  {
    MapSeq(rows, ToFishCatchStat)
  }

  /** The transform loses nothing and reorders nothing: reading the ids,
      names and totals back gives the query's rows. */
  lemma TransformFishCatchRoundTrip(rows: seq<StatRow>)
    ensures MapSeq(TransformFishCatch(rows), FromFishCatchStat) == rows
  {
  }

  /** `GET /statistics/fish-catch?startDate&endDate`. */
  function FishCatchRoute(db: Db, startDate: Option<int>, endDate: Option<int>): (r: Response<seq<FishCatchStat>>)
    ensures r.Status? <==> startDate.None? || endDate.None?
    ensures r.Status? ==> r.code == 400
    ensures r.Ok? ==> r.body == TransformFishCatch(FishCatchQuery(db, startDate.value, endDate.value))
  {
    DateGuard(startDate, endDate, (start: int, end: int) => TransformFishCatch(FishCatchQuery(db, start, end)))
  }

  // ----- GET /statistics/bank-catch -----

  /** The WHERE of the bank query on one LEFT JOIN row: a visit passes when its
      trip lies in the window, or when it has no trip row (the trip columns are
      NULL). */
  function PassesWindow(db: Db, start: int, end: int): BankVisit -> bool
  {
    (v: BankVisit) =>
      match TripById(db, v.fishingTripId)
      case None => true
      case Some(t) => t.departureDate >= start && t.returnDate <= end
  }

  /** The visits of a bank whose rows pass the window. */
  function WindowVisits(db: Db, bankId: int, start: int, end: int): (r: seq<BankVisit>)
    ensures forall v :: v in r <==> v in VisitsOfBank(db, bankId) && PassesWindow(db, start, end)(v)
  {
    Filter(VisitsOfBank(db, bankId), PassesWindow(db, start, end))
  }

  /** The catches joined to those visits: the non-NULL `fc.weight` values
      that AVG sees for the bank. */
  function WindowCatches(db: Db, bankId: int, start: int, end: int): (r: seq<FishCatch>)
    ensures forall c :: c in r <==> c in db.catches && c.bankVisitId in MapSeq(WindowVisits(db, bankId, start, end), VisitId)
  {
    var p := KeyIn(CatchVisitId, MapSeq(WindowVisits(db, bankId, start, end), VisitId));
    Filter(db.catches, p)
  }

  datatype BankRow = BankRow(bankId: int, bankName: string, averageCatch: real)

  /** The output row of one bank: `COALESCE(AVG(fc.weight), 0)`. */
  function BankRowFor(db: Db, start: int, end: int): FishingBank -> BankRow
  {
    (b: FishingBank) => BankRow(b.id, b.name, Mean(WindowCatches(db, b.id, start, end), CatchWeight))
  }

  /** `ORDER BY fb.name`. */
  predicate NameLe(a: BankRow, b: BankRow)
  {
    LexLe(a.bankName, b.bankName)
  }

  lemma NameLeIsTotalPreorder()
    ensures TotalPreorder(NameLe)
  {
    forall a: BankRow, b: BankRow ensures NameLe(a, b) || NameLe(b, a) {
      LexLeTotal(a.bankName, b.bankName);
    }
    forall a: BankRow, b: BankRow, c: BankRow | NameLe(a, b) && NameLe(b, c) ensures NameLe(a, c) {
      LexLeTransitive(a.bankName, b.bankName, c.bankName);
    }
  }

  /** A bank keeps at least one row through the WHERE as written: it has no
      visit at all (one row of NULLs), or one of its visits passes. */
  function SurvivesWhere(db: Db, start: int, end: int): FishingBank -> bool
  {
    (b: FishingBank) => VisitsOfBank(db, b.id) == [] || WindowVisits(db, b.id, start, end) != []
  }

  /** The bank query as written: the window test sits in the WHERE clause, so
      it also removes the LEFT JOIN rows of a bank whose visits all fall
      outside the window, and such a bank is missing from the answer. */
  function BankCatchQueryAsWritten(db: Db, start: int, end: int): seq<BankRow>
  {
    SortBy(MapSeq(Filter(db.banks, SurvivesWhere(db, start, end)), BankRowFor(db, start, end)), NameLe)
  }

  /** The bank query as intended: every bank, with the average weight of the
      catches of its visits in the window, ordered by name. */
  function BankCatchQuery(db: Db, start: int, end: int): seq<BankRow>
  {
    SortBy(MapSeq(db.banks, BankRowFor(db, start, end)), NameLe)
  }

  /** Every bank appears once per bank row, sorted by name; its average is the
      mean of the individual catch weights of its visits in the window (not of
      per-visit totals), and 0 when there is no such catch, in particular when
      the bank has no visit. */
  lemma BankCatchQueryCorrect(db: Db, start: int, end: int)
    ensures var r := BankCatchQuery(db, start, end);
      && SortedBy(r, NameLe)
      && |r| == |db.banks|
      && (forall b :: b in db.banks ==> BankRowFor(db, start, end)(b) in r)
      && (forall row :: row in r ==> exists b :: b in db.banks && row == BankRowFor(db, start, end)(b))
      && (forall b :: b in db.banks && WindowCatches(db, b.id, start, end) == [] ==> BankRow(b.id, b.name, 0.0) in r)
      && (forall b :: b in db.banks && VisitsOfBank(db, b.id) == [] ==> BankRow(b.id, b.name, 0.0) in r)
      && (forall b :: b in db.banks && WindowCatches(db, b.id, start, end) != [] ==>
            BankRow(b.id, b.name,
              SumOf(WindowCatches(db, b.id, start, end), CatchWeight) / (|WindowCatches(db, b.id, start, end)| as real)) in r)
  {
    var f := BankRowFor(db, start, end);
    var rows := MapSeq(db.banks, f);
    var r := BankCatchQuery(db, start, end);
    NameLeIsTotalPreorder();
    SortBySorted(rows, NameLe);
    PermutationKeepsMembers(rows, r);
    assert |r| == |rows| by {
      assert |multiset(r)| == |multiset(rows)|;
    }
    forall b | b in db.banks ensures f(b) in r {
      var k := FirstIndex(db.banks, b);
      assert rows[k] == f(b);
    }
    forall row | row in r ensures exists b :: b in db.banks && row == f(b) {
      var k := FirstIndex(rows, row);
      assert db.banks[k] in db.banks;
    }
    forall b | b in db.banks && VisitsOfBank(db, b.id) == [] ensures WindowCatches(db, b.id, start, end) == [] {
      assert WindowVisits(db, b.id, start, end) == [];
      FilterNone(db.catches, KeyIn(CatchVisitId, MapSeq(WindowVisits(db, b.id, start, end), VisitId)));
    }
  }

  /** A bank's row is in the answer as written exactly when the bank
      survives the WHERE clause. */
  lemma BankCatchAsWrittenKeepsSurvivors(db: Db, start: int, end: int)
    ensures forall b :: b in db.banks ==>
      (BankRowFor(db, start, end)(b) in BankCatchQueryAsWritten(db, start, end) <==> SurvivesWhere(db, start, end)(b))
  {
    var f := BankRowFor(db, start, end);
    var survives := SurvivesWhere(db, start, end);
    var keep := Filter(db.banks, survives);
    var rowsKept := MapSeq(keep, f);
    PermutationKeepsMembers(rowsKept, BankCatchQueryAsWritten(db, start, end));
    forall b | b in db.banks ensures f(b) in rowsKept <==> survives(b) {
      if survives(b) {
        var k := FirstIndex(keep, b);
        assert rowsKept[k] == f(b);
      }
      if f(b) in rowsKept {
        var k := FirstIndex(rowsKept, f(b));
        SurvivalDependsOnId(db, start, end, keep[k], b);
      }
    }
  }

  /** The query as written is sorted by name and holds one row per bank that
      survives the WHERE clause, and no other row. */
  lemma BankCatchAsWrittenCorrect(db: Db, start: int, end: int)
    ensures var r := BankCatchQueryAsWritten(db, start, end);
      && SortedBy(r, NameLe)
      && |r| == |Filter(db.banks, SurvivesWhere(db, start, end))|
      && (forall row :: row in r ==>
            exists b :: b in db.banks && SurvivesWhere(db, start, end)(b) && row == BankRowFor(db, start, end)(b))
  {
    var f := BankRowFor(db, start, end);
    var keep := Filter(db.banks, SurvivesWhere(db, start, end));
    var rows := MapSeq(keep, f);
    var r := BankCatchQueryAsWritten(db, start, end);
    NameLeIsTotalPreorder();
    SortBySorted(rows, NameLe);
    PermutationKeepsMembers(rows, r);
    assert |r| == |rows| by {
      assert |multiset(r)| == |multiset(rows)|;
    }
    forall row | row in r
      ensures exists b :: b in db.banks && SurvivesWhere(db, start, end)(b) && row == f(b)
    {
      var k := FirstIndex(rows, row);
      assert keep[k] in keep;
    }
  }

  lemma SurvivalDependsOnId(db: Db, start: int, end: int, b: FishingBank, b': FishingBank)
    requires b.id == b'.id
    ensures SurvivesWhere(db, start, end)(b) == SurvivesWhere(db, start, end)(b')
  {
  }

  /** The answer as written holds no row that the intended answer lacks. */
  lemma BankCatchAsWrittenIsSubset(db: Db, start: int, end: int)
    ensures forall row :: row in BankCatchQueryAsWritten(db, start, end) ==> row in BankCatchQuery(db, start, end)
  {
    var f := BankRowFor(db, start, end);
    var keep := Filter(db.banks, SurvivesWhere(db, start, end));
    var rowsAll := MapSeq(db.banks, f);
    var rowsKept := MapSeq(keep, f);
    PermutationKeepsMembers(rowsAll, BankCatchQuery(db, start, end));
    PermutationKeepsMembers(rowsKept, BankCatchQueryAsWritten(db, start, end));
    forall row | row in rowsKept ensures row in rowsAll {
      var k := FirstIndex(rowsKept, row);
      var j := FirstIndex(db.banks, keep[k]);
      assert rowsAll[j] == row;
    }
  }

  /** A bank visited once, on a trip (days 10 to 20) outside the window
      (days 30 to 40). */
  const OutOfWindowDb: Db := Db([], [], [FishingBank(1, "North", "Sea", None)], [FishingTrip(1, 1, 10, 20)],
                                [BankVisit(1, 1, 1, 10, 12)], [])

  lemma OutOfWindowVisitFails()
    ensures WindowVisits(OutOfWindowDb, 1, 30, 40) == []
    ensures VisitsOfBank(OutOfWindowDb, 1) != []
  {
    var db := OutOfWindowDb;
    var visit := BankVisit(1, 1, 1, 10, 12);
    assert db.visits[..0] == [];
    assert visit in VisitsOfBank(db, 1);
    assert TripById(db, 1) == Some(FishingTrip(1, 1, 10, 20));
    assert !PassesWindow(db, 30, 40)(visit);
  }

  lemma OutOfWindowAsWritten()
    ensures BankCatchQueryAsWritten(OutOfWindowDb, 30, 40) == []
  {
    var db := OutOfWindowDb;
    OutOfWindowVisitFails();
    assert db.banks[..0] == [];
    assert !SurvivesWhere(db, 30, 40)(db.banks[0]);
    assert Filter(db.banks, SurvivesWhere(db, 30, 40)) == [];
  }

  lemma OutOfWindowCorrected()
    ensures BankCatchQuery(OutOfWindowDb, 30, 40) == [BankRow(1, "North", 0.0)]
  {
    var db := OutOfWindowDb;
    OutOfWindowVisitFails();
    assert WindowCatches(db, 1, 30, 40) == [];
    assert MapSeq(db.banks, BankRowFor(db, 30, 40)) == [BankRow(1, "North", 0.0)];
  }

  /** The bank of `OutOfWindowDb`: the query as written leaves it out, the
      intended one lists it with average 0. */
  lemma OutOfWindowBankIsDropped()
    ensures BankCatchQueryAsWritten(OutOfWindowDb, 30, 40) == []
    ensures BankCatchQuery(OutOfWindowDb, 30, 40) == [BankRow(1, "North", 0.0)]
  {
    OutOfWindowAsWritten();
    OutOfWindowCorrected();
  }

  datatype BankCatchStat = BankCatchStat(bank: Ref, averageCatch: real)

  function ToBankCatchStat(r: BankRow): BankCatchStat
  {
    BankCatchStat(Ref(r.bankId, r.bankName), r.averageCatch)
  }

  function FromBankCatchStat(s: BankCatchStat): BankRow
  {
    BankRow(s.bank.id, s.bank.name, s.averageCatch)
  }

  function TransformBankCatch(rows: seq<BankRow>): (r: seq<BankCatchStat>)
    ensures |r| == |rows|
  {
    MapSeq(rows, ToBankCatchStat)
  }

  /** The transform copies every id, name and average, in order. */
  lemma TransformBankCatchRoundTrip(rows: seq<BankRow>)
    ensures MapSeq(TransformBankCatch(rows), FromBankCatchStat) == rows
  {
  }

  /** `GET /statistics/bank-catch?startDate&endDate`, running the query as
      written. */
  function BankCatchRoute(db: Db, startDate: Option<int>, endDate: Option<int>): (r: Response<seq<BankCatchStat>>)
    ensures r.Status? <==> startDate.None? || endDate.None?
    ensures r.Status? ==> r.code == 400
    ensures r.Ok? ==> r.body == TransformBankCatch(BankCatchQueryAsWritten(db, startDate.value, endDate.value))
  {
    DateGuard(startDate, endDate, (start: int, end: int) => TransformBankCatch(BankCatchQueryAsWritten(db, start, end)))
  }

  /** The same route with the window test applied to each visit before its
      catches are joined (`BankCatchQuery`), rather than in the WHERE clause:
      every bank is listed, averaged over the catches of its visits in the
      window only. */
  function BankCatchRouteCorrected(db: Db, startDate: Option<int>, endDate: Option<int>): (r: Response<seq<BankCatchStat>>)
    ensures r.Status? <==> startDate.None? || endDate.None?
    ensures r.Status? ==> r.code == 400
    ensures r.Ok? ==> r.body == TransformBankCatch(BankCatchQuery(db, startDate.value, endDate.value))
  {
    DateGuard(startDate, endDate, (start: int, end: int) => TransformBankCatch(BankCatchQuery(db, start, end)))
  }

  /** On `OutOfWindowDb` with the window of days 30 to 40, the route answers
      an empty list, and the corrected route lists the bank with average 0. */
  lemma OutOfWindowRoutes()
    ensures BankCatchRoute(OutOfWindowDb, Some(30), Some(40)) == Ok([])
    ensures BankCatchRouteCorrected(OutOfWindowDb, Some(30), Some(40)) == Ok([BankCatchStat(Ref(1, "North"), 0.0)])
  {
    OutOfWindowBankIsDropped();
    var stats := TransformBankCatch([BankRow(1, "North", 0.0)]);
    assert stats[0] == BankCatchStat(Ref(1, "North"), 0.0);
    assert stats == [BankCatchStat(Ref(1, "North"), 0.0)];
    assert BankCatchRouteCorrected(OutOfWindowDb, Some(30), Some(40)).body == stats;
  }
}
