/** The trip editing form of the trips screen: the form state, the handlers
    that add and remove bank visits and fish catches by index, the field
    setters, and the construction of the form when the dialog opens. */
module TripsForm {
  import opened Seqs
  import opened Strings

  datatype CatchForm = CatchForm(fishTypeId: string, weight: string, quality: string)

  datatype VisitForm = VisitForm(fishingBankId: string, arrivalDate: string, departureDate: string, fishCatches: seq<CatchForm>)

  datatype TripForm = TripForm(
    boatId: string,
    crewMemberIds: seq<string>,
    departureDate: string,
    returnDate: string,
    bankVisits: seq<VisitForm>)

  /** The form of a new trip, and the state the screen starts in. */
  const EmptyForm: TripForm := TripForm("", [], "", "", [])

  const EmptyVisit: VisitForm := VisitForm("", "", "", [])

  /** A new catch row starts with quality 'good'. */
  const NewCatch: CatchForm := CatchForm("", "", "good")

  /** The trip-level fields, which none of the list handlers touches. */
  predicate SameHeader(a: TripForm, b: TripForm)
  {
    a.boatId == b.boatId && a.crewMemberIds == b.crewMemberIds
    && a.departureDate == b.departureDate && a.returnDate == b.returnDate
  }

  /** `s.filter((_, i) => i !== index)`: every element but the one at
      `index`; an index outside the list removes nothing. */
  function WithoutIndex<T>(s: seq<T>, index: int): (r: seq<T>)
    ensures 0 <= index < |s| ==> r == s[..index] + s[index + 1..]
    ensures !(0 <= index < |s|) ==> r == s
    decreases |s|
  {
    if |s| == 0 then []
    else
      var last := |s| - 1;
      WithoutIndex(s[..last], index) + (if last == index then [] else [s[last]])
  }

  /** `s.map((v, i) => i === index ? f(v) : v)`. */
  function UpdateAt<T>(s: seq<T>, index: int, f: T -> T): (r: seq<T>)
    ensures |r| == |s|
    ensures forall i :: 0 <= i < |s| && i != index ==> r[i] == s[i]
    ensures 0 <= index < |s| ==> r[index] == f(s[index])
  {
    seq(|s|, i requires 0 <= i < |s| => if i == index then f(s[i]) else s[i])
  }

  function AppendNewCatch(v: VisitForm): VisitForm
  {
    v.(fishCatches := v.fishCatches + [NewCatch])
  }

  function RemoveCatchOf(fishCatchIndex: int): VisitForm -> VisitForm
  {
    (v: VisitForm) => v.(fishCatches := WithoutIndex(v.fishCatches, fishCatchIndex))
  }

  /** `handleAddBankVisit`: one empty visit more at the end. */
  function AddBankVisit(f: TripForm): (r: TripForm)
    ensures SameHeader(r, f)
    ensures |r.bankVisits| == |f.bankVisits| + 1
    ensures r.bankVisits[..|f.bankVisits|] == f.bankVisits
    ensures r.bankVisits[|f.bankVisits|] == EmptyVisit
  {
    f.(bankVisits := f.bankVisits + [EmptyVisit])
  }

  /** `handleRemoveBankVisit(index)`: the other visits, in order. */
  function RemoveBankVisit(f: TripForm, index: int): (r: TripForm)
    ensures SameHeader(r, f)
    ensures 0 <= index < |f.bankVisits| ==> r.bankVisits == f.bankVisits[..index] + f.bankVisits[index + 1..]
    ensures !(0 <= index < |f.bankVisits|) ==> r == f
  {
    f.(bankVisits := WithoutIndex(f.bankVisits, index))
  }

  /** `handleAddFishCatch(i)`: a new catch row at the end of visit i only. */
  function AddFishCatch(f: TripForm, bankVisitIndex: int): (r: TripForm)
    ensures SameHeader(r, f)
    ensures |r.bankVisits| == |f.bankVisits|
    ensures forall i :: 0 <= i < |f.bankVisits| && i != bankVisitIndex ==> r.bankVisits[i] == f.bankVisits[i]
    ensures 0 <= bankVisitIndex < |f.bankVisits| ==>
      var (v, w) := (f.bankVisits[bankVisitIndex], r.bankVisits[bankVisitIndex]);
      && w.fishingBankId == v.fishingBankId && w.arrivalDate == v.arrivalDate && w.departureDate == v.departureDate
      && w.fishCatches == v.fishCatches + [NewCatch]
  {
    f.(bankVisits := UpdateAt(f.bankVisits, bankVisitIndex, AppendNewCatch))
  }

  /** `handleRemoveFishCatch(i, j)`: catch j of visit i goes, nothing else. */
  function RemoveFishCatch(f: TripForm, bankVisitIndex: int, fishCatchIndex: int): (r: TripForm)
    ensures SameHeader(r, f)
    ensures |r.bankVisits| == |f.bankVisits|
    ensures forall i :: 0 <= i < |f.bankVisits| && i != bankVisitIndex ==> r.bankVisits[i] == f.bankVisits[i]
    ensures 0 <= bankVisitIndex < |f.bankVisits| ==>
      var (v, w) := (f.bankVisits[bankVisitIndex], r.bankVisits[bankVisitIndex]);
      && w.fishingBankId == v.fishingBankId && w.arrivalDate == v.arrivalDate && w.departureDate == v.departureDate
      && w.fishCatches == WithoutIndex(v.fishCatches, fishCatchIndex)
  {
    f.(bankVisits := UpdateAt(f.bankVisits, bankVisitIndex, RemoveCatchOf(fishCatchIndex)))
  }

  /** Removing the visit just added gives back the form. */
  lemma AddThenRemoveBankVisit(f: TripForm)
    ensures RemoveBankVisit(AddBankVisit(f), |f.bankVisits|) == f
  {
    var s := AddBankVisit(f).bankVisits;
    assert s[..|f.bankVisits|] + s[|f.bankVisits| + 1..] == f.bankVisits;
  }

  /** Removing the catch row just added gives back the form. */
  lemma AddThenRemoveFishCatch(f: TripForm, i: int)
    requires 0 <= i < |f.bankVisits|
    ensures RemoveFishCatch(AddFishCatch(f, i), i, |f.bankVisits[i].fishCatches|) == f
  {
    var g := RemoveFishCatch(AddFishCatch(f, i), i, |f.bankVisits[i].fishCatches|);
    var cs := f.bankVisits[i].fishCatches;
    assert (cs + [NewCatch])[..|cs|] + (cs + [NewCatch])[|cs| + 1..] == cs;
    assert g.bankVisits[i] == f.bankVisits[i];
    assert g.bankVisits == f.bankVisits;
  }

  /** Removing a visit and a catch by an index out of range changes nothing;
      so does adding a catch to a visit that is not there. */
  lemma OutOfRangeIndexesChangeNothing(f: TripForm, i: int, j: int)
    requires !(0 <= i < |f.bankVisits|)
    ensures RemoveBankVisit(f, i) == f
    ensures AddFishCatch(f, i) == f
    ensures RemoveFishCatch(f, i, j) == f
  {
    assert AddFishCatch(f, i).bankVisits == f.bankVisits;
    assert RemoveFishCatch(f, i, j).bankVisits == f.bankVisits;
  }

  // ----- Field setters -----

  datatype VisitField = FishingBankId | ArrivalDate | DepartureDate

  datatype CatchField = FishTypeId | Weight | Quality

  function WithVisitField(v: VisitForm, field: VisitField, value: string): VisitForm
  {
    match field
    case FishingBankId => v.(fishingBankId := value)
    case ArrivalDate => v.(arrivalDate := value)
    case DepartureDate => v.(departureDate := value)
  }

  function WithCatchField(c: CatchForm, field: CatchField, value: string): CatchForm
  {
    match field
    case FishTypeId => c.(fishTypeId := value)
    case Weight => c.(weight := value)
    case Quality => c.(quality := value)
  }

  /** The `onChange` of a visit's bank or dates: the form the screen holds
      afterwards differs from the old one in that one field only. */
  function SetVisitField(f: TripForm, visitIndex: nat, field: VisitField, value: string): (r: TripForm)
    requires visitIndex < |f.bankVisits|
    ensures SameHeader(r, f) && |r.bankVisits| == |f.bankVisits|
    ensures forall i :: 0 <= i < |f.bankVisits| && i != visitIndex ==> r.bankVisits[i] == f.bankVisits[i]
    ensures r.bankVisits[visitIndex].fishCatches == f.bankVisits[visitIndex].fishCatches
    ensures field == FishingBankId ==> r.bankVisits[visitIndex] == f.bankVisits[visitIndex].(fishingBankId := value)
    ensures field == ArrivalDate ==> r.bankVisits[visitIndex] == f.bankVisits[visitIndex].(arrivalDate := value)
    ensures field == DepartureDate ==> r.bankVisits[visitIndex] == f.bankVisits[visitIndex].(departureDate := value)
  {
    f.(bankVisits := f.bankVisits[visitIndex := WithVisitField(f.bankVisits[visitIndex], field, value)])
  }

  /** The `onChange` of a catch's fish type, weight or quality. */
  function SetCatchField(f: TripForm, visitIndex: nat, catchIndex: nat, field: CatchField, value: string): (r: TripForm)
    requires visitIndex < |f.bankVisits| && catchIndex < |f.bankVisits[visitIndex].fishCatches|
    ensures SameHeader(r, f) && |r.bankVisits| == |f.bankVisits|
    ensures forall i :: 0 <= i < |f.bankVisits| && i != visitIndex ==> r.bankVisits[i] == f.bankVisits[i]
    ensures var (v, w) := (f.bankVisits[visitIndex], r.bankVisits[visitIndex]);
      && w.fishingBankId == v.fishingBankId && w.arrivalDate == v.arrivalDate && w.departureDate == v.departureDate
      && |w.fishCatches| == |v.fishCatches|
      && (forall j :: 0 <= j < |v.fishCatches| && j != catchIndex ==> w.fishCatches[j] == v.fishCatches[j])
      && w.fishCatches[catchIndex] == WithCatchField(v.fishCatches[catchIndex], field, value)
  {
    var v := f.bankVisits[visitIndex];
    var w := v.(fishCatches := v.fishCatches[catchIndex := WithCatchField(v.fishCatches[catchIndex], field, value)]);
    f.(bankVisits := f.bankVisits[visitIndex := w])
  }

  /** Setting a field to the value it holds gives back the same form. */
  lemma SetFieldToSameValue(f: TripForm, visitIndex: nat, catchIndex: nat, field: CatchField)
    requires visitIndex < |f.bankVisits| && catchIndex < |f.bankVisits[visitIndex].fishCatches|
    ensures var c := f.bankVisits[visitIndex].fishCatches[catchIndex];
      var value := match field case FishTypeId => c.fishTypeId case Weight => c.weight case Quality => c.quality;
      SetCatchField(f, visitIndex, catchIndex, field, value) == f
  {
    var v := f.bankVisits[visitIndex];
    assert v.fishCatches[catchIndex := v.fishCatches[catchIndex]] == v.fishCatches;
    assert f.bankVisits[visitIndex := v] == f.bankVisits;
  }

  // ----- Opening the dialog -----

  datatype Ref = Ref(id: int, name: string)

  datatype CatchView = CatchView(id: int, fishType: Ref, weight: real, quality: string)

  datatype VisitView = VisitView(id: int, fishingBank: Ref, arrivalDate: int, departureDate: int, fishCatches: seq<CatchView>)

  datatype TripView = TripView(
    id: int,
    boat: Ref,
    crewMemberIds: seq<int>,
    departureDate: int,
    returnDate: int,
    bankVisits: seq<VisitView>)

  /** The dialog's state: whether it is open, the trip being edited, the form. */
  datatype Dialog = Dialog(open: bool, editingTrip: Option<TripView>, form: TripForm)

  /** How the browser writes a day (`toISOString().split('T')[0]`) and a
      number (`toString()`); they are not part of this model. */
  datatype Formatters = Formatters(isoDay: int -> string, numberText: real -> string)

  function CatchToForm(fmt: Formatters): CatchView -> CatchForm
  {
    (c: CatchView) => CatchForm(IntToString(c.fishType.id), fmt.numberText(c.weight), c.quality)
  }

  function VisitToForm(fmt: Formatters): VisitView -> VisitForm
  {
    (v: VisitView) => VisitForm(
      IntToString(v.fishingBank.id), fmt.isoDay(v.arrivalDate), fmt.isoDay(v.departureDate),
      MapSeq(v.fishCatches, CatchToForm(fmt)))
  }

  function TripToForm(trip: TripView, fmt: Formatters): TripForm
  {
    TripForm(
      IntToString(trip.boat.id), MapSeq(trip.crewMemberIds, IntToString),
      fmt.isoDay(trip.departureDate), fmt.isoDay(trip.returnDate),
      MapSeq(trip.bankVisits, VisitToForm(fmt)))
  }

  /** `handleOpen(trip?)`: the dialog opens; for a trip the form holds one
      visit row per visit of the trip and one catch row per catch, in order,
      with ids written as decimal strings; without a trip the form is empty. */
  function HandleOpen(trip: Option<TripView>, fmt: Formatters): (r: Dialog)
    ensures r.open && r.editingTrip == trip
    ensures trip.None? ==> r.form == EmptyForm
    ensures trip.Some? ==>
      var (t, f) := (trip.value, r.form);
      && f.boatId == IntToString(t.boat.id)
      && |f.crewMemberIds| == |t.crewMemberIds|
      && (forall k :: 0 <= k < |t.crewMemberIds| ==> f.crewMemberIds[k] == IntToString(t.crewMemberIds[k]))
      && f.departureDate == fmt.isoDay(t.departureDate) && f.returnDate == fmt.isoDay(t.returnDate)
      && |f.bankVisits| == |t.bankVisits|
      && forall i :: 0 <= i < |t.bankVisits| ==>
        var (v, w) := (t.bankVisits[i], f.bankVisits[i]);
        && w.fishingBankId == IntToString(v.fishingBank.id)
        && w.arrivalDate == fmt.isoDay(v.arrivalDate) && w.departureDate == fmt.isoDay(v.departureDate)
        && |w.fishCatches| == |v.fishCatches|
        && forall j :: 0 <= j < |v.fishCatches| ==>
          && w.fishCatches[j].fishTypeId == IntToString(v.fishCatches[j].fishType.id)
          && w.fishCatches[j].weight == fmt.numberText(v.fishCatches[j].weight)
          && w.fishCatches[j].quality == v.fishCatches[j].quality
  {
    match trip
    case None => Dialog(true, None, EmptyForm)
    case Some(t) => Dialog(true, Some(t), TripToForm(t, fmt))
  }

  /** `handleClose`: the dialog closes and forgets the trip; the form stays. */
  function HandleClose(d: Dialog): (r: Dialog)
    ensures !r.open && r.editingTrip.None? && r.form == d.form
  {
    Dialog(false, None, d.form)
  }

  /** The number of catch rows in a form. */
  function CatchRows(vs: seq<VisitForm>): nat
  {
    if |vs| == 0 then 0 else CatchRows(vs[..|vs| - 1]) + |vs[|vs| - 1].fishCatches|
  }

  /** The number of catches of a trip. */
  function CatchCount(vs: seq<VisitView>): nat
  {
    if |vs| == 0 then 0 else CatchCount(vs[..|vs| - 1]) + |vs[|vs| - 1].fishCatches|
  }

  /** The form opened on a trip holds as many catch rows as the trip has
      catches. */
  lemma {:induction false} OpenedFormKeepsCatchCount(vs: seq<VisitView>, fmt: Formatters)
    ensures CatchRows(MapSeq(vs, VisitToForm(fmt))) == CatchCount(vs)
    decreases |vs|
  {
    if |vs| > 0 {
      var last := |vs| - 1;
      OpenedFormKeepsCatchCount(vs[..last], fmt);
      assert MapSeq(vs, VisitToForm(fmt))[..last] == MapSeq(vs[..last], VisitToForm(fmt));
    }
  }
}
