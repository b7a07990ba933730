/** The boat screen's edit dialog: the form it opens on. */
module BoatsView {
  import opened Seqs

  datatype BoatItem = BoatItem(id: int, name: string, boatType: string, displacement: real, buildDate: int)

  datatype BoatFormData = BoatFormData(name: string, boatType: string, displacement: string, buildDate: string)

  const EmptyBoatForm: BoatFormData := BoatFormData("", "", "", "")

  datatype EditDialog = EditDialog(open: bool, editingBoat: Option<BoatItem>, formData: BoatFormData)

  /** `handleOpen(boat?)`: the dialog opens on the boat's fields, the
      displacement and build date written by the browser's formatters
      (`numberText`, `isoDay`), or on a form whose four fields are all ''. */
  function HandleOpen(boat: Option<BoatItem>, numberText: real -> string, isoDay: int -> string): (r: EditDialog)
    ensures r.open && r.editingBoat == boat
    ensures boat.None? ==>
      && r.formData.name == "" && r.formData.boatType == ""
      && r.formData.displacement == "" && r.formData.buildDate == ""
    ensures boat.Some? ==> r.formData == BoatFormData(
      boat.value.name, boat.value.boatType, numberText(boat.value.displacement), isoDay(boat.value.buildDate))
  {
    match boat
    case None => EditDialog(true, None, EmptyBoatForm)
    case Some(b) => EditDialog(true, Some(b), BoatFormData(b.name, b.boatType, numberText(b.displacement), isoDay(b.buildDate)))
  }

  /** `handleClose`: the dialog closes and forgets the boat. */
  function HandleClose(d: EditDialog): (r: EditDialog)
    ensures !r.open && r.editingBoat.None? && r.formData == d.formData
  {
    EditDialog(false, None, d.formData)
  }
}
