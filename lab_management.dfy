/**
 * The lab management page: the add/edit modal with its form, the handlers that fill,
 * reset, open and close it, and the truncated equipment cell of the lab table.
 */
module LabManagement {
  import opened Wrappers
  import opened Strings
  import opened MockData

  /** The modal's form: every field holds the text of its input, except the status drop-down. */
  datatype LabForm = LabForm(name: string, capacity: string, building: string, floor: string, equipment: string, status: LabStatus)

  /** The reset form: empty fields and status `available`. */
  const BlankForm := LabForm("", "", "", "", "", LabAvailable)

  /** The form filled from a lab: capacity in decimal, equipment joined with ", ". */
  function FormFromLab(lab: Lab): (f: LabForm)
    ensures f.name == lab.name && f.building == lab.building && f.floor == lab.floor && f.status == lab.status
    ensures f.capacity == NatToString(lab.capacity) && f.equipment == Join(lab.equipment, ", ")
  {
    LabForm(lab.name, NatToString(lab.capacity), lab.building, lab.floor, Join(lab.equipment, ", "), lab.status)
  }

  /**
   * The edit form loses nothing: its capacity reads back as the lab's capacity, and its
   * equipment text reads back as the lab's list when no item holds a comma or starts with a space.
   */
  lemma FormFromLabReadsBack(lab: Lab)
    ensures forall i :: 0 <= i < |FormFromLab(lab).capacity| ==> IsDigit(FormFromLab(lab).capacity[i])
    ensures ParseDecimal(FormFromLab(lab).capacity) == lab.capacity
    ensures |lab.equipment| > 0 && (forall i :: 0 <= i < |lab.equipment| ==> PlainItem(lab.equipment[i]))
      ==> ParseCommaList(FormFromLab(lab).equipment) == lab.equipment
  {
    ParseNatToString(lab.capacity);
    if |lab.equipment| > 0 && (forall i :: 0 <= i < |lab.equipment| ==> PlainItem(lab.equipment[i])) {
      ParseJoin(lab.equipment);
    }
  }

  /** The text inputs of the modal. */
  datatype TextField = NameField | CapacityField | BuildingField | FloorField | EquipmentField

  /** The page's state. */
  class LabManagementPage {
    var showAddModal: bool
    var editingLab: Option<string>
    var formData: LabForm

    constructor ()
      ensures !showAddModal && editingLab.None? && formData == BlankForm
    {
      showAddModal := false;
      editingLab := None;
      formData := BlankForm;
    }

    /** The modal's heading: "Edit Laboratory" while a (non-empty) lab id is being edited. */
    function ModalTitle(): (title: string)
      reads this
      ensures title == "Edit Laboratory" <==> editingLab.Some? && editingLab.value != ""
    {
      if editingLab.Some? && editingLab.value != "" then "Edit Laboratory" else "Add New Laboratory"
    }

    /** `handleAdd` (the Save button of the modal): closes it and resets the form; the edited id stays. */
    method HandleAdd()
      modifies this
      ensures !showAddModal && formData == BlankForm && editingLab == old(editingLab)
    {
      showAddModal := false;
      formData := BlankForm;
    }

    /**
     * `handleEdit`: for a lab in the catalogue, fills the form from it, records its id and
     * opens the modal; for an unknown id, changes nothing.
     */
    method HandleEdit(labs: seq<Lab>, labId: string)
      modifies this
      ensures GetLabById(labs, labId).None? ==> showAddModal == old(showAddModal) && editingLab == old(editingLab) && formData == old(formData)
      ensures GetLabById(labs, labId).Some? ==>
        formData == FormFromLab(GetLabById(labs, labId).value) && editingLab == Some(labId) && showAddModal
    {
      var lab := GetLabById(labs, labId);
      if lab.Some? {
        formData := FormFromLab(lab.value);
        editingLab := Some(labId);
        showAddModal := true;
      }
    }

    /** "Add New Lab": no lab is being edited, the form is reset and the modal opens. */
    method OpenAddNew()
      modifies this
      ensures editingLab.None? && formData == BlankForm && showAddModal
    {
      editingLab := None;
      formData := BlankForm;
      showAddModal := true;
    }

    /** The modal's Cancel button: closes it and keeps the form and the edited id. */
    method CloseModal()
      modifies this
      ensures !showAddModal && formData == old(formData) && editingLab == old(editingLab)
    {
      showAddModal := false;
    }

    /** A text input's `onChange`: that field takes the value; the others and the status stay. */
    method SetText(field: TextField, value: string)
      modifies this
      ensures showAddModal == old(showAddModal) && editingLab == old(editingLab)
      ensures formData.status == old(formData).status
      ensures formData.name == (if field == NameField then value else old(formData).name)
      ensures formData.capacity == (if field == CapacityField then value else old(formData).capacity)
      ensures formData.building == (if field == BuildingField then value else old(formData).building)
      ensures formData.floor == (if field == FloorField then value else old(formData).floor)
      ensures formData.equipment == (if field == EquipmentField then value else old(formData).equipment)
    {
      match field
      case NameField => formData := formData.(name := value);
      case CapacityField => formData := formData.(capacity := value);
      case BuildingField => formData := formData.(building := value);
      case FloorField => formData := formData.(floor := value);
      case EquipmentField => formData := formData.(equipment := value);
    }

    /** The status drop-down's `onChange`. */
    method SetStatus(status: LabStatus)
      modifies this
      ensures formData == old(formData).(status := status)
      ensures showAddModal == old(showAddModal) && editingLab == old(editingLab)
    {
      formData := formData.(status := status);
    }
  }

  /** The equipment cell: the first three items, then "+k more" for the k others. */
  function EquipmentDisplay(equipment: seq<string>): (r: (seq<string>, Option<string>))
    ensures |r.0| == if |equipment| < 3 then |equipment| else 3
    ensures r.0 == equipment[..|r.0|]
    ensures r.1.Some? <==> |equipment| > 3
    ensures r.1.Some? ==> r.1.value == "+" + NatToString(|equipment| - 3) + " more"
  {
    var shown := if |equipment| < 3 then equipment else equipment[..3];
    (shown, if |equipment| > 3 then Some("+" + NatToString(|equipment| - 3) + " more") else None)
  }

  /** Every item is either shown or counted in "+k more". */
  lemma EquipmentAccountedFor(equipment: seq<string>)
    ensures |EquipmentDisplay(equipment).0| + (if |equipment| > 3 then |equipment| - 3 else 0) == |equipment|
  {
  }
}
