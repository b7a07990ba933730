/** The fishing-bank routes of the server: the bank detail with its average
    catch per visit, the average weight per fish-type name over an arrival
    window, and the boats whose catch on one visit beat the bank's average. */
module BankRoutes {
  import opened Seqs
  import opened Schema

  // ----- Average catch per visit (the raw SQL query) -----

  /** The inner JOIN of the bank's visits with their catches: every catch
      recorded on a visit to bank `bankId`. */
  function CatchesAtBank(db: Db, bankId: int): (r: seq<FishCatch>)
    ensures forall c :: c in r <==> c in db.catches && c.bankVisitId in MapSeq(VisitsOfBank(db, bankId), VisitId)
  {
    var p := KeyIn(CatchVisitId, MapSeq(VisitsOfBank(db, bankId), VisitId));
    assert forall c :: p(c) <==> c.bankVisitId in MapSeq(VisitsOfBank(db, bankId), VisitId);
    Filter(db.catches, p)
  }

  /** The keys of `GROUP BY bv.id`: the visits with at least one joined catch. */
  function CaughtVisitIds(db: Db, bankId: int): seq<int>
  {
    Distinct(MapSeq(CatchesAtBank(db, bankId), CatchVisitId))
  }

  /** The groups of the inner query, one per visit with catches. */
  function VisitCatchGroups(db: Db, bankId: int): seq<seq<FishCatch>>
  {
    GroupsOf(CaughtVisitIds(db, bankId), CatchesAtBank(db, bankId), CatchVisitId)
  }

  /** The groups of the inner query are the visits of the bank that caught
      something, each once: a visit without catches has no group. */
  lemma CaughtVisitIdsAreVisitsWithCatches(db: Db, bankId: int)
    ensures NoDup(CaughtVisitIds(db, bankId))
    ensures forall id :: id in CaughtVisitIds(db, bankId) <==>
      id in MapSeq(VisitsOfBank(db, bankId), VisitId) && CatchesOfVisit(db, id) != []
  {
    var joined := CatchesAtBank(db, bankId);
    var keys := CaughtVisitIds(db, bankId);
    var ids := MapSeq(VisitsOfBank(db, bankId), VisitId);
    forall id ensures id in keys <==> id in ids && CatchesOfVisit(db, id) != [] {
      if id in keys {
        assert id in MapSeq(joined, CatchVisitId);
        var k := FirstIndex(MapSeq(joined, CatchVisitId), id);
        assert joined[k] in CatchesOfVisit(db, id);
      }
      if id in ids && CatchesOfVisit(db, id) != [] {
        var c := CatchesOfVisit(db, id)[0];
        assert c in CatchesOfVisit(db, id);
        assert c in joined;
        var k := FirstIndex(joined, c);
        assert MapSeq(joined, CatchVisitId)[k] == id;
      }
    }
  }

  /** The per-visit sums add up to the bank's whole catch. */
  lemma VisitSumsAddUp(db: Db, bankId: int)
    ensures SumOf(VisitCatchGroups(db, bankId), SumWith(CatchWeight)) == SumOf(CatchesAtBank(db, bankId), CatchWeight)
  {
    var joined := CatchesAtBank(db, bankId);
    var keys := CaughtVisitIds(db, bankId);
    var p := KeyIn(CatchVisitId, keys);
    GroupSums(keys, joined, CatchVisitId, CatchWeight);
    forall c | c in joined ensures p(c) {
      var k := FirstIndex(joined, c);
      assert MapSeq(joined, CatchVisitId)[k] == c.bankVisitId;
    }
    FilterAll(joined, p);
  }

  /** `AVG(visit_total_catch)` over the per-visit sums, where the NULL that
      AVG gives on no rows becomes 0 through `|| 0`: the bank's whole catch
      divided by the number of its visits that caught something, and 0 when
      no visit did. */
  function AveragePerVisit(db: Db, bankId: int): (r: real)
    ensures |CaughtVisitIds(db, bankId)| == 0 ==> r == 0.0
    ensures |CaughtVisitIds(db, bankId)| > 0 ==>
      r == SumOf(CatchesAtBank(db, bankId), CatchWeight) / (|CaughtVisitIds(db, bankId)| as real)
  {
    VisitSumsAddUp(db, bankId);
    Mean(VisitCatchGroups(db, bankId), SumWith(CatchWeight))
  }

  datatype BankDetail = BankDetail(bank: FishingBank, bankVisits: seq<BankVisit>, overallAverageCatch: real)

  /** `GET /banks/:id`: 404 for an unknown id, otherwise the bank, its visits
      and its average catch per visit. */
  function GetBank(db: Db, bankId: int): (r: Response<BankDetail>)
    ensures r.Status? <==> forall b :: b in db.banks ==> b.id != bankId
    ensures r.Status? ==> r.code == 404
    ensures r.Ok? ==>
      && r.body.bank in db.banks && r.body.bank.id == bankId
      && r.body.bankVisits == VisitsOfBank(db, bankId)
      && r.body.overallAverageCatch == AveragePerVisit(db, bankId)
  {
    match BankById(db, bankId)
    case None => Status(404, "Fishing bank not found")
    case Some(bank) => Ok(BankDetail(bank, VisitsOfBank(db, bankId), AveragePerVisit(db, bankId)))
  }

  // ----- Average weight per fish-type name over an arrival window -----

  datatype CatchWithType = CatchWithType(fishCatch: FishCatch, fishType: FishType)

  datatype VisitWithCatches = VisitWithCatches(visit: BankVisit, fishCatches: seq<CatchWithType>)

  /** `include: { fishType: true }` on each catch: every catch whose fish
      type exists, in order, paired with that fish type (a catch without one
      does not occur in a consistent store and is dropped). */
  function WithFishType(db: Db, cs: seq<FishCatch>): (r: seq<CatchWithType>)
    ensures forall x :: x in r <==> x.fishCatch in cs && FishTypeById(db, x.fishCatch.fishTypeId) == Some(x.fishType)
    ensures (forall c :: c in cs ==> FishTypeById(db, c.fishTypeId).Some?) ==>
      |r| == |cs| && forall i :: 0 <= i < |r| ==> r[i].fishCatch == cs[i]
  {
    if |cs| == 0 then []
    else
      var init, last := cs[..|cs| - 1], cs[|cs| - 1];
      assert forall c :: c in cs <==> c in init || c == last by {
        assert cs == init + [last];
      }
      var rest := WithFishType(db, init);
      match FishTypeById(db, last.fishTypeId)
      case None => rest
      case Some(t) => rest + [CatchWithType(last, t)]
  }

  function ArrivesWithin(start: int, end: int): BankVisit -> bool
  {
    (v: BankVisit) => start <= v.arrivalDate <= end
  }

  /** The query of the average-catch route: the visits of the bank that
      arrive within [start, end], each with its catches and their fish types. */
  function VisitsArrivingWithin(db: Db, bankId: int, start: int, end: int): (r: seq<VisitWithCatches>)
    ensures forall w :: w in r ==>
      && w.visit in db.visits && w.visit.fishingBankId == bankId
      && start <= w.visit.arrivalDate <= end
      && w.fishCatches == WithFishType(db, CatchesOfVisit(db, w.visit.id))
    ensures forall v :: v in db.visits && v.fishingBankId == bankId && start <= v.arrivalDate <= end ==>
      VisitWithCatches(v, WithFishType(db, CatchesOfVisit(db, v.id))) in r
  {
    var key := (w: VisitWithCatches) => w.visit;
    MapFilterMembers(VisitsOfBank(db, bankId), ArrivesWithin(start, end), LoadVisit(db), key);
    MapSeq(Filter(VisitsOfBank(db, bankId), ArrivesWithin(start, end)), LoadVisit(db))
  }

  /** A visit with its catches and their fish types. */
  function LoadVisit(db: Db): BankVisit -> VisitWithCatches
  {
    (v: BankVisit) => VisitWithCatches(v, WithFishType(db, CatchesOfVisit(db, v.id)))
  }

  /** Every catch of the visits, visit by visit. */
  function AllCatches(visits: seq<VisitWithCatches>): seq<CatchWithType>
  {
    if |visits| == 0 then [] else AllCatches(visits[..|visits| - 1]) + visits[|visits| - 1].fishCatches
  }

  function TypeName(c: CatchWithType): string { c.fishType.name }

  function TypedWeight(c: CatchWithType): real { c.fishCatch.weight }

  /** The catches whose fish type carries the name `name`. */
  function Named(cs: seq<CatchWithType>, name: string): (r: seq<CatchWithType>)
    ensures forall c :: c in r <==> c in cs && c.fishType.name == name
  {
    Filter(cs, KeyIs(TypeName, name))
  }

  /** The fish-type names in order of first occurrence: the key order of the
      accumulator record, which `Object.entries` returns. */
  function NamesOf(cs: seq<CatchWithType>): seq<string>
  {
    Distinct(MapSeq(cs, TypeName))
  }

  datatype CatchData = CatchData(total: real, count: nat)

  datatype FishTypeAverage = FishTypeAverage(fishType: string, averageWeight: real)

  function AverageNamed(all: seq<CatchWithType>): string -> FishTypeAverage
  {
    (n: string) => FishTypeAverage(n, Mean(Named(all, n), TypedWeight))
  }

  /** What the average-catch route answers: per fish-type name, in order of
      first occurrence, the mean weight of the catches of that name. */
  function AveragesByName(all: seq<CatchWithType>): seq<FishTypeAverage>
  {
    MapSeq(NamesOf(all), AverageNamed(all))
  }

  /** A name that occurs has at least one catch. */
  lemma NamedNonEmpty(all: seq<CatchWithType>, n: string)
    requires n in NamesOf(all)
    ensures |Named(all, n)| > 0
  {
    var p := FirstIndex(MapSeq(all, TypeName), n);
    assert all[p] in Named(all, n);
  }

  /** No catch carries a name that does not occur. */
  lemma NamedAbsent(seen: seq<CatchWithType>, name: string)
    requires name !in NamesOf(seen)
    ensures Named(seen, name) == []
  {
    forall x | x in seen ensures TypeName(x) != name {
      var k := FirstIndex(seen, x);
      assert MapSeq(seen, TypeName)[k] == TypeName(x);
    }
    FilterNone(seen, KeyIs(TypeName, name));
  }

  /** Each entry holds the total weight of the catches of its name divided
      by their number, which is positive; its name comes from a catch. */
  lemma AveragesEntries(all: seq<CatchWithType>)
    ensures var r := AveragesByName(all);
      forall i :: 0 <= i < |r| ==>
        && |Named(all, r[i].fishType)| > 0
        && r[i].averageWeight == SumOf(Named(all, r[i].fishType), TypedWeight) / (|Named(all, r[i].fishType)| as real)
        && exists c :: c in all && c.fishType.name == r[i].fishType
  {
    var r := AveragesByName(all);
    var names := NamesOf(all);
    forall i | 0 <= i < |r|
      ensures |Named(all, r[i].fishType)| > 0
      ensures exists c :: c in all && c.fishType.name == r[i].fishType
    {
      assert r[i].fishType == names[i];
      NamedNonEmpty(all, names[i]);
      var c := Named(all, names[i])[0];
      assert c in Named(all, names[i]);
    }
  }

  /** Every catch's fish-type name has an entry. */
  lemma AveragesCoverNames(all: seq<CatchWithType>)
    ensures var r := AveragesByName(all);
      forall c :: c in all ==> exists i :: 0 <= i < |r| && r[i].fishType == c.fishType.name
  {
    var r := AveragesByName(all);
    var names := NamesOf(all);
    forall c | c in all ensures exists i :: 0 <= i < |r| && r[i].fishType == c.fishType.name {
      var p := FirstIndex(all, c);
      assert MapSeq(all, TypeName)[p] == c.fishType.name;
      var k := FirstIndex(names, c.fishType.name);
      assert r[k].fishType == c.fishType.name;
    }
  }

  /** No fish-type name has two entries. */
  lemma AveragesNamesDistinct(all: seq<CatchWithType>)
    ensures var r := AveragesByName(all);
      forall i, j :: 0 <= i < j < |r| ==> r[i].fishType != r[j].fishType
  {
    var r := AveragesByName(all);
    var names := NamesOf(all);
    assert NoDup(names);
    assert forall i :: 0 <= i < |r| ==> r[i].fishType == names[i];
  }

  /** The sum and the number of the catches of one name. */
  function Tally(seen: seq<CatchWithType>, n: string): CatchData
  {
    CatchData(SumOf(Named(seen, n), TypedWeight), |Named(seen, n)|)
  }

  /** The accumulator after the catches `seen`: its keys in insertion order,
      one entry per name, holding the sum and the number of the catches of
      that name. */
  ghost predicate Tallied(acc: map<string, CatchData>, keys: seq<string>, seen: seq<CatchWithType>)
  {
    && keys == NamesOf(seen)
    && (forall n :: n in acc <==> n in keys)
    && (forall n :: n in acc ==> acc[n] == Tally(seen, n))
  }

  /** One turn of the reducer on the accumulator: a missing entry starts at
      zero, then the catch's weight goes into its total and one into its
      count. */
  function AddCatch(acc: map<string, CatchData>, c: CatchWithType): map<string, CatchData>
  {
    var d := if c.fishType.name in acc then acc[c.fishType.name] else CatchData(0.0, 0);
    acc[c.fishType.name := CatchData(d.total + c.fishCatch.weight, d.count + 1)]
  }

  lemma NamedSnoc(seen: seq<CatchWithType>, c: CatchWithType, n: string)
    ensures Named(seen + [c], n) == Named(seen, n) + (if TypeName(c) == n then [c] else [])
  {
    assert (seen + [c])[..|seen|] == seen;
  }

  lemma NamesOfSnoc(seen: seq<CatchWithType>, c: CatchWithType)
    ensures NamesOf(seen + [c])
      == if TypeName(c) in NamesOf(seen) then NamesOf(seen) else NamesOf(seen) + [TypeName(c)]
  {
    var names := MapSeq(seen + [c], TypeName);
    assert names[..|names| - 1] == MapSeq(seen, TypeName);
  }

  lemma SumOfSnoc(s: seq<CatchWithType>, c: CatchWithType)
    ensures SumOf(s + [c], TypedWeight) == SumOf(s, TypedWeight) + c.fishCatch.weight
  {
    assert (s + [c])[..|s|] == s;
  }

  /** The entry of the new catch's name after the catch. */
  lemma TallyEntryOfCatch(acc: map<string, CatchData>, seen: seq<CatchWithType>, c: CatchWithType)
    requires c.fishType.name in acc ==> acc[c.fishType.name] == Tally(seen, c.fishType.name)
    requires c.fishType.name !in acc ==> Named(seen, c.fishType.name) == []
    ensures AddCatch(acc, c)[c.fishType.name] == Tally(seen + [c], c.fishType.name)
  {
    var n := c.fishType.name;
    var g := Named(seen, n);
    NamedSnoc(seen, c, n);
    SumOfSnoc(g, c);
    var d := if n in acc then acc[n] else CatchData(0.0, 0);
    assert d == Tally(seen, n);
  }

  /** The entries of the other names are not touched. */
  lemma TallyEntryOfOther(acc: map<string, CatchData>, seen: seq<CatchWithType>, c: CatchWithType, n: string)
    requires n in acc && acc[n] == Tally(seen, n)
    requires n != c.fishType.name
    ensures AddCatch(acc, c)[n] == Tally(seen + [c], n)
  {
    NamedSnoc(seen, c, n);
    assert Named(seen + [c], n) == Named(seen, n);
  }

  /** A key joins the record's key order when it is first set. */
  function AddKey(keys: seq<string>, n: string): seq<string>
  {
    if n in keys then keys else keys + [n]
  }

  /** The reducer keeps the accumulator equal to the per-name sums and counts. */
  lemma TallyStep(acc: map<string, CatchData>, keys: seq<string>, seen: seq<CatchWithType>, c: CatchWithType)
    requires Tallied(acc, keys, seen)
    ensures Tallied(AddCatch(acc, c), AddKey(keys, c.fishType.name), seen + [c])
  {
    var name := c.fishType.name;
    var acc' := AddCatch(acc, c);
    var keys' := AddKey(keys, name);
    NamesOfSnoc(seen, c);
    assert keys' == NamesOf(seen + [c]);
    forall n ensures n in acc' <==> n in keys' {
      assert n in acc' <==> n in acc || n == name;
      assert n in keys' <==> n in keys || n == name;
    }
    forall n | n in acc' ensures acc'[n] == Tally(seen + [c], n) {
      if n == name {
        if n !in acc {
          NamedAbsent(seen, n);
        }
        TallyEntryOfCatch(acc, seen, c);
      } else {
        TallyEntryOfOther(acc, seen, c, n);
      }
    }
  }

  lemma PrefixSnoc(prefix: seq<CatchWithType>, catches: seq<CatchWithType>, j: nat)
    requires j < |catches|
    ensures prefix + catches[..j + 1] == prefix + catches[..j] + [catches[j]]
  {
    assert catches[..j + 1] == catches[..j] + [catches[j]];
  }

  lemma AllCatchesStep(visits: seq<VisitWithCatches>, i: nat)
    requires i < |visits|
    ensures AllCatches(visits[..i + 1]) == AllCatches(visits[..i]) + visits[i].fishCatches
  {
    assert visits[..i + 1][..i] == visits[..i];
  }

  /** One turn of the `forEach` below keeps the accumulator tallied. */
  lemma TallyVisitStep(acc0: map<string, CatchData>, keys0: seq<string>, acc1: map<string, CatchData>, keys1: seq<string>,
                       seen: seq<CatchWithType>, catches: seq<CatchWithType>, j: nat)
    requires j < |catches|
    requires Tallied(acc0, keys0, seen + catches[..j])
    requires acc1 == AddCatch(acc0, catches[j])
    requires catches[j].fishType.name in acc0 ==> keys1 == keys0
    requires catches[j].fishType.name !in acc0 ==> keys1 == keys0 + [catches[j].fishType.name]
    ensures Tallied(acc1, keys1, seen + catches[..j + 1])
  {
    assert keys1 == AddKey(keys0, catches[j].fishType.name);
    PrefixSnoc(seen, catches, j);
    TallyStep(acc0, keys0, seen + catches[..j], catches[j]);
  }

  /** The `forEach` over one visit's catches inside the reducer: every catch
      adds its weight to the entry of its fish-type name and one to the
      entry's count, creating the entry at zero when the name is new. */
  method TallyVisit(acc0: map<string, CatchData>, keys0: seq<string>, ghost seen: seq<CatchWithType>, catches: seq<CatchWithType>)
    returns (acc: map<string, CatchData>, keys: seq<string>)
    requires Tallied(acc0, keys0, seen)
    ensures Tallied(acc, keys, seen + catches)
  {
    acc, keys := acc0, keys0;
    var j := 0;
    assert seen + catches[..j] == seen;
    while j < |catches|
      invariant 0 <= j <= |catches|
      invariant Tallied(acc, keys, seen + catches[..j])
    {
      var c := catches[j];
      ghost var before, keysBefore := acc, keys;
      var fishType := c.fishType.name;
      if fishType !in acc {
        keys := keys + [fishType];
      }
      acc := AddCatch(acc, c);
      TallyVisitStep(before, keysBefore, acc, keys, seen, catches, j);
      j := j + 1;
    }
    assert catches[..j] == catches;
  }

  /** `Object.entries(acc).map(...)`: per key, in insertion order, the
      entry's total divided by its count. */
  function EntryAverages(acc: map<string, CatchData>, keys: seq<string>): (r: seq<FishTypeAverage>)
    requires forall n :: n in keys ==> n in acc && acc[n].count > 0
    ensures |r| == |keys|
    ensures forall k :: 0 <= k < |keys| ==> r[k] == FishTypeAverage(keys[k], acc[keys[k]].total / (acc[keys[k]].count as real))
  {
    seq(|keys|, k requires 0 <= k < |keys| => FishTypeAverage(keys[k], acc[keys[k]].total / (acc[keys[k]].count as real)))
  }

  /** After the whole fold every entry has a catch, and the entries' averages
      are the per-name means. */
  lemma TalliedAverages(acc: map<string, CatchData>, keys: seq<string>, all: seq<CatchWithType>)
    requires Tallied(acc, keys, all)
    ensures forall n :: n in keys ==> n in acc && acc[n].count > 0
    ensures EntryAverages(acc, keys) == AveragesByName(all)
  {
    forall n | n in keys ensures n in acc && acc[n].count > 0 {
      NamedNonEmpty(all, n);
    }
    var r := EntryAverages(acc, keys);
    var want := AveragesByName(all);
    forall k | 0 <= k < |keys| ensures r[k] == want[k] {
      NamedNonEmpty(all, keys[k]);
    }
  }

  /** The reducer of the average-catch route: it folds every catch into a
      record keyed by fish-type NAME, adding the weight to the entry's total
      and one to its count, and then divides total by count per entry, in the
      record's key order. Types that share a name share one entry. */
  method AverageCatches(bankVisits: seq<VisitWithCatches>) returns (result: seq<FishTypeAverage>)
    ensures result == AveragesByName(AllCatches(bankVisits))
  {
    var acc: map<string, CatchData> := map[];
    var keys: seq<string> := [];
    var i := 0;
    while i < |bankVisits|
      invariant 0 <= i <= |bankVisits|
      invariant Tallied(acc, keys, AllCatches(bankVisits[..i]))
    {
      acc, keys := TallyVisit(acc, keys, AllCatches(bankVisits[..i]), bankVisits[i].fishCatches);
      AllCatchesStep(bankVisits, i);
      i := i + 1;
    }
    assert bankVisits[..i] == bankVisits;
    TalliedAverages(acc, keys, AllCatches(bankVisits));
    result := EntryAverages(acc, keys);
  }

  /** A catch is among the catches of the visits exactly when one of the
      visits holds it. */
  lemma {:induction false} AllCatchesMembers(visits: seq<VisitWithCatches>)
    ensures forall x :: x in AllCatches(visits) <==> exists w :: w in visits && x in w.fishCatches
    decreases |visits|
  {
    if |visits| > 0 {
      var init, last := visits[..|visits| - 1], visits[|visits| - 1];
      AllCatchesMembers(init);
      assert forall w :: w in visits <==> w in init || w == last by {
        assert visits == init + [last];
      }
    }
  }

  /** The catches the average-catch route folds are exactly the catches, with
      their fish types, of the bank's visits that arrive within [start, end]. */
  lemma LoadedCatches(db: Db, bankId: int, start: int, end: int)
    ensures forall x :: x in AllCatches(VisitsArrivingWithin(db, bankId, start, end)) <==>
      && x.fishCatch in db.catches
      && FishTypeById(db, x.fishCatch.fishTypeId) == Some(x.fishType)
      && exists v :: v in db.visits && v.id == x.fishCatch.bankVisitId && v.fishingBankId == bankId && start <= v.arrivalDate <= end
  {
    var visits := VisitsArrivingWithin(db, bankId, start, end);
    AllCatchesMembers(visits);
    forall x | x in AllCatches(visits)
      ensures exists v :: v in db.visits && v.id == x.fishCatch.bankVisitId && v.fishingBankId == bankId && start <= v.arrivalDate <= end
    {
      var w :| w in visits && x in w.fishCatches;
      assert x.fishCatch in CatchesOfVisit(db, w.visit.id);
    }
    forall x: CatchWithType, v: BankVisit |
      && x.fishCatch in db.catches
      && FishTypeById(db, x.fishCatch.fishTypeId) == Some(x.fishType)
      && v in db.visits && v.id == x.fishCatch.bankVisitId && v.fishingBankId == bankId && start <= v.arrivalDate <= end
      ensures x in AllCatches(visits)
    {
      var w := VisitWithCatches(v, WithFishType(db, CatchesOfVisit(db, v.id)));
      assert w in visits && x in w.fishCatches;
    }
  }

  function CatchOf(x: CatchWithType): FishCatch { x.fishCatch }

  function VisitOf(w: VisitWithCatches): BankVisit { w.visit }

  function HasFishType(db: Db): FishCatch -> bool
  {
    (c: FishCatch) => FishTypeById(db, c.fishTypeId).Some?
  }

  /** The catches `WithFishType` keeps are those of `cs` whose fish type exists, in order. */
  lemma {:induction false} WithFishTypeCatches(db: Db, cs: seq<FishCatch>)
    ensures MapSeq(WithFishType(db, cs), CatchOf) == Filter(cs, HasFishType(db))
    decreases |cs|
  {
    if |cs| > 0 {
      var init, last := cs[..|cs| - 1], cs[|cs| - 1];
      WithFishTypeCatches(db, init);
      match FishTypeById(db, last.fishTypeId)
      case None =>
      case Some(t) =>
        MapSeqAppend(WithFishType(db, init), [CatchWithType(last, t)], CatchOf);
    }
  }

  /** Loading one more visit appends its catches whose fish type exists. */
  lemma LoadedCatchesSnoc(db: Db, init: seq<BankVisit>, v: BankVisit)
    ensures MapSeq(AllCatches(MapSeq(init + [v], LoadVisit(db))), CatchOf) ==
      MapSeq(AllCatches(MapSeq(init, LoadVisit(db))), CatchOf) + Filter(CatchesOfVisit(db, v.id), HasFishType(db))
  {
    var ws, ws0 := MapSeq(init + [v], LoadVisit(db)), MapSeq(init, LoadVisit(db));
    assert ws[..|ws| - 1] == ws0;
    var own := WithFishType(db, CatchesOfVisit(db, v.id));
    assert AllCatches(ws) == AllCatches(ws0) + own;
    MapSeqAppend(AllCatches(ws0), own, CatchOf);
    WithFishTypeCatches(db, CatchesOfVisit(db, v.id));
  }

  /** The ids of distinct-id visits: the last is not among the others. */
  lemma LastIdIsNew(vs: seq<BankVisit>)
    requires |vs| > 0 && NoDup(MapSeq(vs, VisitId))
    ensures MapSeq(vs, VisitId) == MapSeq(vs[..|vs| - 1], VisitId) + [vs[|vs| - 1].id]
    ensures NoDup(MapSeq(vs[..|vs| - 1], VisitId))
    ensures vs[|vs| - 1].id !in MapSeq(vs[..|vs| - 1], VisitId)
  {
    var ids, ids0 := MapSeq(vs, VisitId), MapSeq(vs[..|vs| - 1], VisitId);
    assert ids0 == ids[..|vs| - 1];
    forall j | 0 <= j < |ids0| ensures ids0[j] != vs[|vs| - 1].id {
      assert ids[j] == ids0[j];
    }
  }

  /** Over visits with distinct ids, a catch is loaded as often as the table
      holds it when its fish type exists and its visit is one of them, and
      never otherwise. */
  lemma {:induction false} LoadedCatchCountsOver(db: Db, vs: seq<BankVisit>, c: FishCatch)
    requires NoDup(MapSeq(vs, VisitId))
    ensures multiset(MapSeq(AllCatches(MapSeq(vs, LoadVisit(db))), CatchOf))[c] ==
      if FishTypeById(db, c.fishTypeId).Some? && c.bankVisitId in MapSeq(vs, VisitId) then multiset(db.catches)[c] else 0
    decreases |vs|
  {
    if |vs| > 0 {
      var init, v := vs[..|vs| - 1], vs[|vs| - 1];
      assert vs == init + [v];
      LastIdIsNew(vs);
      LoadedCatchCountsOver(db, init, c);
      LoadedCatchesSnoc(db, init, v);
      FilterMultiset(CatchesOfVisit(db, v.id), HasFishType(db));
    }
  }

  /** Each visit of the bank in the window is loaded as often as the table
      holds it, and no other visit is. */
  lemma VisitsArrivingWithinCounts(db: Db, bankId: int, start: int, end: int)
    ensures forall v :: multiset(MapSeq(VisitsArrivingWithin(db, bankId, start, end), VisitOf))[v] ==
                        if v.fishingBankId == bankId && start <= v.arrivalDate <= end then multiset(db.visits)[v] else 0
  {
    var vs := Filter(VisitsOfBank(db, bankId), ArrivesWithin(start, end));
    assert MapSeq(VisitsArrivingWithin(db, bankId, start, end), VisitOf) == vs;
    FilterMultiset(VisitsOfBank(db, bankId), ArrivesWithin(start, end));
  }

  /** The visits the average-catch route loads, before their catches. */
  function WindowVisits(db: Db, bankId: int, start: int, end: int): seq<BankVisit>
  {
    Filter(VisitsOfBank(db, bankId), ArrivesWithin(start, end))
  }

  /** With primary keys, the visits loaded have distinct ids. */
  lemma WindowVisitsDistinct(db: Db, bankId: int, start: int, end: int)
    requires UniqueIds(db)
    ensures NoDup(MapSeq(WindowVisits(db, bankId, start, end), VisitId))
  {
    var bank := VisitsOfBank(db, bankId);
    assert bank == Filter(db.visits, KeyIs(VisitBankId, bankId));
    FilterKeysNoDup(db.visits, KeyIs(VisitBankId, bankId), VisitId);
    FilterKeysNoDup(bank, ArrivesWithin(start, end), VisitId);
  }

  /** An id is among the loaded visits' ids exactly when a visit of the bank
      in the window has it. */
  lemma WindowVisitIds(db: Db, bankId: int, start: int, end: int, id: int)
    ensures id in MapSeq(WindowVisits(db, bankId, start, end), VisitId) <==>
      exists v :: v in db.visits && v.id == id && v.fishingBankId == bankId && start <= v.arrivalDate <= end
  {
    KeysMembers(WindowVisits(db, bankId, start, end), VisitId, id);
  }

  /** With primary keys, the average-catch route folds every catch of a
      visit of the bank in the window whose fish type exists exactly as
      often as the table holds it, and no other catch. */
  lemma LoadedCatchCounts(db: Db, bankId: int, start: int, end: int)
    requires UniqueIds(db)
    ensures forall c :: multiset(MapSeq(AllCatches(VisitsArrivingWithin(db, bankId, start, end)), CatchOf))[c] ==
                        if && FishTypeById(db, c.fishTypeId).Some?
                           && exists v :: v in db.visits && v.id == c.bankVisitId && v.fishingBankId == bankId && start <= v.arrivalDate <= end
                        then multiset(db.catches)[c] else 0
  {
    var vs := WindowVisits(db, bankId, start, end);
    WindowVisitsDistinct(db, bankId, start, end);
    assert VisitsArrivingWithin(db, bankId, start, end) == MapSeq(vs, LoadVisit(db));
    forall c: FishCatch
      ensures multiset(MapSeq(AllCatches(MapSeq(vs, LoadVisit(db))), CatchOf))[c] ==
        if && FishTypeById(db, c.fishTypeId).Some?
           && exists v :: v in db.visits && v.id == c.bankVisitId && v.fishingBankId == bankId && start <= v.arrivalDate <= end
        then multiset(db.catches)[c] else 0
    {
      LoadedCatchCountsOver(db, vs, c);
      WindowVisitIds(db, bankId, start, end, c.bankVisitId);
    }
  }

  /** `GET /banks/:id/average-catch`: the visits of the bank in the window,
      folded into the per-name averages of their catches. */
  method AverageCatchRoute(db: Db, bankId: int, start: int, end: int) returns (result: seq<FishTypeAverage>)
    ensures result == AveragesByName(AllCatches(VisitsArrivingWithin(db, bankId, start, end)))
  {
    result := AverageCatches(VisitsArrivingWithin(db, bankId, start, end));
  }

  // ----- Boats with an above-average visit -----

  datatype VisitWithBoat = VisitWithBoat(visit: BankVisit, boat: Boat, fishCatches: seq<FishCatch>)

  /** `include: { fishingTrip: { include: { boat: true } } }` on a visit: the
      boat of the visit's trip, if both rows exist. */
  function BoatOfVisit(db: Db, v: BankVisit): Option<Boat>
  {
    match TripById(db, v.fishingTripId)
    case None => None
    case Some(trip) => BoatById(db, trip.boatId)
  }

  /** The visits `vs` with their boats and catches, in order (a visit whose
      trip or boat is missing does not occur in a consistent store and is
      dropped). */
  function WithBoats(db: Db, vs: seq<BankVisit>): (r: seq<VisitWithBoat>)
    ensures forall w :: w in r <==>
      && w.visit in vs
      && BoatOfVisit(db, w.visit) == Some(w.boat)
      && w.fishCatches == CatchesOfVisit(db, w.visit.id)
    ensures (forall v :: v in vs ==> BoatOfVisit(db, v).Some?) ==>
      |r| == |vs| && forall i :: 0 <= i < |r| ==> r[i].visit == vs[i]
  {
    if |vs| == 0 then []
    else
      var init, last := vs[..|vs| - 1], vs[|vs| - 1];
      assert forall v :: v in vs <==> v in init || v == last by {
        assert vs == init + [last];
      }
      var rest := WithBoats(db, init);
      match BoatOfVisit(db, last)
      case None => rest
      case Some(boat) => rest + [VisitWithBoat(last, boat, CatchesOfVisit(db, last.id))]
  }

  /** The query of the above-average route: every visit of the bank, each with
      its trip's boat and exactly its catches. */
  function VisitsWithBoats(db: Db, bankId: int): (r: seq<VisitWithBoat>)
    ensures forall w :: w in r <==>
      && w.visit in db.visits && w.visit.fishingBankId == bankId
      && BoatOfVisit(db, w.visit) == Some(w.boat)
      && w.fishCatches == CatchesOfVisit(db, w.visit.id)
  {
    WithBoats(db, VisitsOfBank(db, bankId))
  }

  /** `visit.fishCatches.reduce((sum, c) => sum + c.weight, 0)`. */
  function VisitTotalCatch(v: VisitWithBoat): real
  {
    SumOf(v.fishCatches, CatchWeight)
  }

  /** A visit's total is 0 without catches and does not depend on the order
      in which the catches come back. */
  lemma VisitTotalCatchIsOrderFree(v: VisitWithBoat, w: VisitWithBoat)
    requires multiset(v.fishCatches) == multiset(w.fishCatches)
    ensures VisitTotalCatch(v) == VisitTotalCatch(w)
    ensures v.fishCatches == [] ==> VisitTotalCatch(v) == 0.0
  {
    SumOfPermutation(v.fishCatches, w.fishCatches, CatchWeight);
  }

  datatype VisitTotal = VisitTotal(visit: VisitWithBoat, totalVisitCatch: real)

  datatype BoatCatch = BoatCatch(boat: Boat, averageCatch: real)

  function WithTotal(v: VisitWithBoat): VisitTotal { VisitTotal(v, VisitTotalCatch(v)) }

  function Exceeds(average: real): VisitTotal -> bool
  {
    (t: VisitTotal) => t.totalVisitCatch > average
  }

  function ToBoatCatch(t: VisitTotal): BoatCatch { BoatCatch(t.visit.boat, t.totalVisitCatch) }

  function BoatIdOf(b: BoatCatch): int { b.boat.id }

  /** The position of the entry for boat `id`, if the map has one. */
  function IndexOfBoat(entries: seq<BoatCatch>, id: int): (k: Option<nat>)
    ensures k.Some? ==> k.value < |entries| && entries[k.value].boat.id == id
    ensures k.None? ==> forall e :: e in entries ==> e.boat.id != id
  {
    if |entries| == 0 then None
    else if entries[|entries| - 1].boat.id == id then Some(|entries| - 1)
    else
      var k := IndexOfBoat(entries[..|entries| - 1], id);
      assert entries == entries[..|entries| - 1] + [entries[|entries| - 1]];
      k
  }

  /** The last item for boat `id`. */
  function LastForBoat(items: seq<BoatCatch>, id: int): BoatCatch
    requires id in MapSeq(items, BoatIdOf)
  {
    if items[|items| - 1].boat.id == id then items[|items| - 1]
    else
      assert MapSeq(items, BoatIdOf) == MapSeq(items[..|items| - 1], BoatIdOf) + [items[|items| - 1].boat.id];
      LastForBoat(items[..|items| - 1], id)
  }

  /** `Array.from(new Map(items.map(i => [i.boat.id, i])).values())`: a key
      keeps the position where it was first set, and every later `set` of the
      same key overwrites the value. So the boats come out once each, in
      order of first occurrence, each with its LAST item. */
  function UniqueBoats(items: seq<BoatCatch>): (r: seq<BoatCatch>)
    ensures MapSeq(r, BoatIdOf) == Distinct(MapSeq(items, BoatIdOf))
  {
    if |items| == 0 then []
    else
      var prev := UniqueBoats(items[..|items| - 1]);
      var item := items[|items| - 1];
      var ids := MapSeq(items, BoatIdOf);
      assert ids[..|ids| - 1] == MapSeq(items[..|items| - 1], BoatIdOf);
      match IndexOfBoat(prev, item.boat.id)
      case Some(k) =>
        assert MapSeq(prev, BoatIdOf)[k] == item.boat.id;
        var r := prev[k := item];
        assert MapSeq(r, BoatIdOf) == MapSeq(prev, BoatIdOf);
        r
      case None =>
        assert item.boat.id !in MapSeq(prev, BoatIdOf);
        var r := prev + [item];
        assert MapSeq(r, BoatIdOf) == MapSeq(prev, BoatIdOf) + [item.boat.id];
        r
  }

  /** Items whose every entry is the last item of its boat among `items`. */
  predicate CarriesLast(r: seq<BoatCatch>, items: seq<BoatCatch>)
  {
    forall e :: e in r ==> e.boat.id in MapSeq(items, BoatIdOf) && e == LastForBoat(items, e.boat.id)
  }

  lemma LastForBoatSnoc(rest: seq<BoatCatch>, item: BoatCatch, id: int)
    requires id in MapSeq(rest, BoatIdOf) || id == item.boat.id
    ensures id in MapSeq(rest + [item], BoatIdOf)
    ensures LastForBoat(rest + [item], id) == if id == item.boat.id then item else LastForBoat(rest, id)
  {
    var items := rest + [item];
    assert items[..|items| - 1] == rest;
    assert MapSeq(items, BoatIdOf) == MapSeq(rest, BoatIdOf) + [item.boat.id];
  }

  lemma KeepLastReplace(rest: seq<BoatCatch>, item: BoatCatch, prev: seq<BoatCatch>, k: nat)
    requires CarriesLast(prev, rest) && NoDup(MapSeq(prev, BoatIdOf))
    requires k < |prev| && prev[k].boat.id == item.boat.id
    ensures CarriesLast(prev[k := item], rest + [item])
  {
    var r := prev[k := item];
    forall e | e in r ensures e.boat.id in MapSeq(rest + [item], BoatIdOf) && e == LastForBoat(rest + [item], e.boat.id) {
      var j := FirstIndex(r, e);
      if j != k {
        assert r[j] == prev[j] && prev[j] in prev;
        assert MapSeq(prev, BoatIdOf)[j] != MapSeq(prev, BoatIdOf)[k];
      }
      LastForBoatSnoc(rest, item, e.boat.id);
    }
  }

  lemma KeepLastAppend(rest: seq<BoatCatch>, item: BoatCatch, prev: seq<BoatCatch>)
    requires CarriesLast(prev, rest)
    requires item.boat.id !in MapSeq(prev, BoatIdOf)
    ensures CarriesLast(prev + [item], rest + [item])
  {
    forall e | e in prev + [item] ensures e.boat.id in MapSeq(rest + [item], BoatIdOf) && e == LastForBoat(rest + [item], e.boat.id) {
      if e in prev {
        var j := FirstIndex(prev, e);
        assert MapSeq(prev, BoatIdOf)[j] == e.boat.id;
      }
      LastForBoatSnoc(rest, item, e.boat.id);
    }
  }

  /** Each boat of the deduplicated list carries the last item of that boat. */
  lemma {:induction false} UniqueBoatsKeepLast(items: seq<BoatCatch>)
    ensures CarriesLast(UniqueBoats(items), items)
    decreases |items|
  {
    if |items| > 0 {
      var rest := items[..|items| - 1];
      var prev := UniqueBoats(rest);
      var item := items[|items| - 1];
      assert items == rest + [item];
      UniqueBoatsKeepLast(rest);
      match IndexOfBoat(prev, item.boat.id)
      case Some(k) => KeepLastReplace(rest, item, prev, k);
      case None => KeepLastAppend(rest, item, prev);
    }
  }

  /** The pipeline of the above-average route: total every visit, keep the
      visits above the average, project to the boat and deduplicate by boat. */
  function AboveAverageBoats(visits: seq<VisitWithBoat>, average: real): seq<BoatCatch>
  {
    UniqueBoats(MapSeq(Filter(MapSeq(visits, WithTotal), Exceeds(average)), ToBoatCatch))
  }

  /** `GET /banks/:id/above-average-boats`: the boats of the bank's visits
      whose total catch is strictly above the bank's average per visit, each
      boat once. */
  function AboveAverageBoatsRoute(db: Db, bankId: int): (r: seq<BoatCatch>)
    ensures NoDup(MapSeq(r, BoatIdOf))
    ensures forall e :: e in r ==>
      && e.averageCatch > AveragePerVisit(db, bankId)
      && exists v :: BoatVisitWithTotal(db, bankId, v, e.boat, e.averageCatch)
    ensures forall v: BankVisit, boat: Boat ::
      (&& BoatVisitWithTotal(db, bankId, v, boat, SumOf(CatchesOfVisit(db, v.id), CatchWeight))
       && SumOf(CatchesOfVisit(db, v.id), CatchWeight) > AveragePerVisit(db, bankId)) ==>
        exists e :: e in r && e.boat.id == boat.id
  {
    var visits := VisitsWithBoats(db, bankId);
    var average := AveragePerVisit(db, bankId);
    AboveAverageBoatsCorrect(visits, average);
    AboveAverageBoatsInDb(db, bankId, average);
    AboveAverageBoats(visits, average)
  }

  /** `v` is a visit of bank `bankId` made by `boat`, and its catches weigh
      `total` together. */
  predicate BoatVisitWithTotal(db: Db, bankId: int, v: BankVisit, boat: Boat, total: real)
  {
    && v in db.visits && v.fishingBankId == bankId
    && BoatOfVisit(db, v) == Some(boat)
    && SumOf(CatchesOfVisit(db, v.id), CatchWeight) == total
  }

  /** The facts of `AboveAverageBoatsCorrect` about the loaded visits, read
      back as facts about the database rows. */
  lemma AboveAverageBoatsInDb(db: Db, bankId: int, average: real)
    ensures var visits := VisitsWithBoats(db, bankId);
      && (forall w :: w in visits ==> BoatVisitWithTotal(db, bankId, w.visit, w.boat, VisitTotalCatch(w)))
      && (forall v: BankVisit, boat: Boat ::
            BoatVisitWithTotal(db, bankId, v, boat, SumOf(CatchesOfVisit(db, v.id), CatchWeight)) ==>
              VisitWithBoat(v, boat, CatchesOfVisit(db, v.id)) in visits)
  {
  }

  /** Every boat in the answer comes from one of its visits whose total is
      strictly above the average, and carries that visit's total; every boat
      with such a visit is in the answer, once. */
  lemma AboveAverageBoatsCorrect(visits: seq<VisitWithBoat>, average: real)
    ensures var r := AboveAverageBoats(visits, average);
      && NoDup(MapSeq(r, BoatIdOf))
      && (forall e :: e in r ==>
            && e.averageCatch > average
            && exists v :: v in visits && v.boat == e.boat && VisitTotalCatch(v) == e.averageCatch)
      && (forall v :: v in visits && VisitTotalCatch(v) > average ==>
            exists e :: e in r && e.boat.id == v.boat.id)
  {
    var totals := MapSeq(visits, WithTotal);
    var kept := Filter(totals, Exceeds(average));
    var items := MapSeq(kept, ToBoatCatch);
    var r := UniqueBoats(items);
    UniqueBoatsKeepLast(items);
    forall e | e in r ensures e.averageCatch > average &&
      exists v :: v in visits && v.boat == e.boat && VisitTotalCatch(v) == e.averageCatch
    {
      LastForBoatIsItem(items, e.boat.id);
      var k :| 0 <= k < |items| && items[k] == e;
      assert kept[k] in totals;
      var p :| 0 <= p < |totals| && totals[p] == kept[k];
      assert visits[p] in visits;
    }
    forall v | v in visits && VisitTotalCatch(v) > average ensures exists e :: e in r && e.boat.id == v.boat.id {
      var p :| 0 <= p < |visits| && visits[p] == v;
      assert totals[p] == WithTotal(v);
      assert WithTotal(v) in kept;
      var k :| 0 <= k < |kept| && kept[k] == WithTotal(v);
      assert MapSeq(items, BoatIdOf)[k] == v.boat.id;
      var ids := MapSeq(r, BoatIdOf);
      var q := FirstIndex(ids, v.boat.id);
      assert r[q] in r;
    }
  }

  lemma LastForBoatIsItem(items: seq<BoatCatch>, id: int)
    requires id in MapSeq(items, BoatIdOf)
    ensures LastForBoat(items, id) in items && LastForBoat(items, id).boat.id == id
  {
    if items[|items| - 1].boat.id != id {
      assert MapSeq(items, BoatIdOf) == MapSeq(items[..|items| - 1], BoatIdOf) + [items[|items| - 1].boat.id];
      LastForBoatIsItem(items[..|items| - 1], id);
    }
  }

  /** Against the comment "keep the first occurrence": two qualifying visits of
      one boat leave the boat at its first position with the second total. */
  lemma DuplicateBoatKeepsLaterTotal(boat: Boat, first: real, second: real)
    ensures UniqueBoats([BoatCatch(boat, first), BoatCatch(boat, second)]) == [BoatCatch(boat, second)]
  {
    var items := [BoatCatch(boat, first), BoatCatch(boat, second)];
    assert items[..1] == [BoatCatch(boat, first)];
    assert [BoatCatch(boat, first)][..0] == [];
  }
}
