/** The bank screen: the per-fish-type weight shown next to each catch of the
    bank detail, and the screen state that its dialogs open and close. */
module BanksView {
  import opened Seqs

  datatype Ref = Ref(id: int, name: string)

  datatype CatchView = CatchView(id: int, fishType: Ref, weight: real, quality: string)

  datatype VisitView = VisitView(id: int, arrivalDate: int, departureDate: int, boat: Option<Ref>, fishCatches: seq<CatchView>)

  datatype BankDetailView = BankDetailView(id: int, name: string, location: string, description: Option<string>, bankVisits: seq<VisitView>)

  datatype AboveAverageBoat = AboveAverageBoat(boat: Ref, averageCatch: real)

  /** A bank of the list, as the edit dialog receives it. */
  datatype BankItem = BankItem(id: int, name: string, location: string, description: Option<string>)

  function ViewWeight(c: CatchView): real { c.weight }

  function ViewTypeId(c: CatchView): int { c.fishType.id }

  function VisitCatches(v: VisitView): seq<CatchView> { v.fishCatches }

  /** Every catch of the visits, visit after visit. */
  function AllCatches(visits: seq<VisitView>): seq<CatchView>
  {
    Flatten(MapSeq(visits, VisitCatches))
  }

  /** `catches.filter(fc => fc.fishType.id === id).reduce((s, fc) => s + fc.weight, 0)`. */
  function TypeWeightIn(catches: seq<CatchView>, fishTypeId: int): real
  {
    SumOf(Filter(catches, KeyIs(ViewTypeId, fishTypeId)), ViewWeight)
  }

  /** The `totalWeight` the bank dialog computes for each catch row (and then
      does not render): the outer `reduce` over the bank's visits, adding each
      visit's weight of that fish type. */
  function TotalWeightForType(visits: seq<VisitView>, fishTypeId: int): real
  {
    if |visits| == 0 then 0.0
    else TotalWeightForType(visits[..|visits| - 1], fishTypeId) + TypeWeightIn(visits[|visits| - 1].fishCatches, fishTypeId)
  }

  /** The total is the weight of every catch of that fish type at the bank. */
  lemma {:induction false} TotalWeightIsTypeSum(visits: seq<VisitView>, fishTypeId: int)
    ensures TotalWeightForType(visits, fishTypeId) == TypeWeightIn(AllCatches(visits), fishTypeId)
    decreases |visits|
  {
    if |visits| > 0 {
      var vs := visits[..|visits| - 1];
      var last := visits[|visits| - 1];
      TotalWeightIsTypeSum(vs, fishTypeId);
      assert MapSeq(visits, VisitCatches)[..|vs|] == MapSeq(vs, VisitCatches);
      assert AllCatches(visits) == AllCatches(vs) + last.fishCatches;
      var p := KeyIs(ViewTypeId, fishTypeId);
      FilterAppend(AllCatches(vs), last.fishCatches, p);
      SumOfAppend(Filter(AllCatches(vs), p), Filter(last.fishCatches, p), ViewWeight);
    }
  }

  lemma {:induction false} MemberOfFlatten(ss: seq<seq<CatchView>>, d: CatchView)
    requires d in Flatten(ss)
    ensures exists k :: 0 <= k < |ss| && d in ss[k]
    decreases |ss|
  {
    var last := |ss| - 1;
    if d !in ss[last] {
      MemberOfFlatten(ss[..last], d);
      var k :| 0 <= k < last && d in ss[..last][k];
      assert d in ss[k];
    }
  }

  lemma {:induction false} FlattenHasMember(ss: seq<seq<CatchView>>, k: nat, d: CatchView)
    requires k < |ss| && d in ss[k]
    ensures d in Flatten(ss)
    decreases |ss|
  {
    var last := |ss| - 1;
    if k < last {
      assert ss[..last][k] == ss[k];
      FlattenHasMember(ss[..last], k, d);
    }
  }

  /** The catches of the visits are the catches of some visit. */
  lemma AllCatchesMembers(visits: seq<VisitView>)
    ensures forall d :: d in AllCatches(visits) <==> exists v :: v in visits && d in v.fishCatches
  {
    var ss := MapSeq(visits, VisitCatches);
    forall d ensures d in AllCatches(visits) <==> exists v :: v in visits && d in v.fishCatches {
      if d in AllCatches(visits) {
        MemberOfFlatten(ss, d);
        var k :| 0 <= k < |ss| && d in ss[k];
        assert visits[k] in visits && d in visits[k].fishCatches;
      }
      if exists v :: v in visits && d in v.fishCatches {
        var v :| v in visits && d in v.fishCatches;
        var k := FirstIndex(visits, v);
        FlattenHasMember(ss, k, d);
      }
    }
  }

  /** With non-negative weights the total of a catch's fish type is at least
      that catch's own weight, since the catch is among those added. */
  lemma TotalWeightCoversCatch(visits: seq<VisitView>, v: VisitView, c: CatchView)
    requires forall w, d :: w in visits && d in w.fishCatches ==> d.weight >= 0.0
    requires v in visits && c in v.fishCatches
    ensures TotalWeightForType(visits, c.fishType.id) >= c.weight
  {
    TotalWeightIsTypeSum(visits, c.fishType.id);
    AllCatchesMembers(visits);
    var group := Filter(AllCatches(visits), KeyIs(ViewTypeId, c.fishType.id));
    SumOfAtLeastMember(group, ViewWeight, c);
  }

  /** The total does not depend on the order of the visits, nor on the order
      of the catches within any visit. */
  lemma TotalWeightIgnoresOrder(visits: seq<VisitView>, reordered: seq<VisitView>, fishTypeId: int)
    requires multiset(MapSeq(visits, VisitCatches)) == multiset(MapSeq(reordered, VisitCatches))
      || multiset(AllCatches(visits)) == multiset(AllCatches(reordered))
    ensures TotalWeightForType(visits, fishTypeId) == TotalWeightForType(reordered, fishTypeId)
  {
    if multiset(MapSeq(visits, VisitCatches)) == multiset(MapSeq(reordered, VisitCatches)) {
      FlattenPermutation(MapSeq(visits, VisitCatches), MapSeq(reordered, VisitCatches));
    }
    TotalWeightIsTypeSum(visits, fishTypeId);
    TotalWeightIsTypeSum(reordered, fishTypeId);
    TypeSumPermutation(AllCatches(visits), AllCatches(reordered), fishTypeId);
  }

  /** The weight of one fish type does not depend on the order of the catches. */
  lemma TypeSumPermutation(a: seq<CatchView>, b: seq<CatchView>, fishTypeId: int)
    requires multiset(a) == multiset(b)
    ensures TypeWeightIn(a, fishTypeId) == TypeWeightIn(b, fishTypeId)
  {
    var p := KeyIs(ViewTypeId, fishTypeId);
    FilterMultiset(a, p);
    FilterMultiset(b, p);
    SumOfPermutation(Filter(a, p), Filter(b, p), ViewWeight);
  }

  // ----- Screen state -----

  datatype BankFormData = BankFormData(name: string, location: string, description: string)

  const EmptyBankForm: BankFormData := BankFormData("", "", "")

  /** The form the edit dialog opens on: the bank's fields, with a missing
      description shown as '' (`description || ''`). */
  function FormFor(bank: Option<BankItem>): (r: BankFormData)
    ensures bank.None? ==> r == EmptyBankForm
    ensures bank.Some? ==> r.name == bank.value.name && r.location == bank.value.location
    ensures bank.Some? && bank.value.description.None? ==> r.description == ""
    ensures bank.Some? && bank.value.description.Some? ==> r.description == bank.value.description.value
  {
    match bank
    case None => EmptyBankForm
    case Some(b) => BankFormData(b.name, b.location, match b.description case None => "" case Some(d) => d)
  }

  /** The state of the bank screen's dialogs. */
  class BanksScreen {
    var open: bool
    var detailsOpen: bool
    var selectedBank: Option<BankDetailView>
    var editingBank: Option<BankItem>
    var aboveAverageBoats: seq<AboveAverageBoat>
    var formData: BankFormData

    /** The initial state of the component. */
    constructor ()
      ensures !open && !detailsOpen && selectedBank.None? && editingBank.None?
      ensures aboveAverageBoats == [] && formData == EmptyBankForm
    {
      open := false;
      detailsOpen := false;
      selectedBank := None;
      editingBank := None;
      aboveAverageBoats := [];
      formData := EmptyBankForm;
    }

    /** `handleOpen(bank?)`: the edit dialog opens on the bank, or on an empty
      form; the detail dialog is left as it is. */
    method HandleOpen(bank: Option<BankItem>)
      modifies this
      ensures open && editingBank == bank && formData == FormFor(bank)
      ensures detailsOpen == old(detailsOpen) && selectedBank == old(selectedBank)
      ensures aboveAverageBoats == old(aboveAverageBoats)
    {
      editingBank := bank;
      formData := FormFor(bank);
      open := true;
    }

    /** `handleClose`: the edit dialog closes and forgets the bank; the form
      keeps what it held. */
    method HandleClose()
      modifies this
      ensures !open && editingBank.None?
      ensures formData == old(formData) && detailsOpen == old(detailsOpen)
      ensures selectedBank == old(selectedBank) && aboveAverageBoats == old(aboveAverageBoats)
    {
      open := false;
      editingBank := None;
    }

    /** `handleDetailsClose`: the detail dialog closes, the selected bank and
      its above-average boats are dropped; the edit dialog is left alone. */
    method HandleDetailsClose()
      modifies this
      ensures !detailsOpen && selectedBank.None? && aboveAverageBoats == []
      ensures open == old(open) && editingBank == old(editingBank) && formData == old(formData)
    {
      detailsOpen := false;
      selectedBank := None;
      aboveAverageBoats := [];
    }
  }
}
