/**
 * The nested hospital/clinic panel: expand/collapse, the per-hospital clinic
 * map built while fetching, the two modal forms and the writes they send.
 */
module Hospitals {
  import opened Wrappers
  import opened Text
  import Store

  /** A row of the hospitals table; the contact columns may be null. */
  datatype Hospital = Hospital(
    id: Store.Id, hospitalName: string, hospitalCode: string,
    address: Option<string>, phone: Option<string>, email: Option<string>,
    contactPerson: Option<string>, isActive: bool)

  /** A row of the clinics table as this panel reads it. */
  datatype Clinic = Clinic(
    id: Store.Id, clinicName: string, clinicCode: string,
    address: Option<string>, phone: Option<string>, email: Option<string>,
    isActive: bool, hospitalId: string, subscriptionStatus: string, totalPatients: int)

  datatype HospitalForm = HospitalForm(
    hospitalName: string, hospitalCode: string, address: string, phone: string,
    email: string, contactPerson: string, isActive: bool)

  datatype ClinicForm = ClinicForm(
    clinicName: string, clinicCode: string, address: string, phone: string,
    email: string, isActive: bool)

  /** `{ ...clinicForm, hospital_id }`: the row inserted for a new clinic. */
  datatype ClinicInsert = ClinicInsert(form: ClinicForm, hospitalId: string)

  /** The modal records; `mode` is 'add', 'edit', 'view' or '' when closed. */
  datatype HospitalModal = HospitalModal(show: bool, mode: string, hospital: Option<Hospital>)
  datatype ClinicModal = ClinicModal(show: bool, mode: string, clinic: Option<Clinic>, hospitalId: string)

  type HospitalWrite = Store.Write<HospitalForm, HospitalForm>
  type ClinicWrite = Store.Write<ClinicInsert, ClinicForm>

  const ClosedHospitalModal := HospitalModal(false, "", None)
  const ClosedClinicModal := ClinicModal(false, "", None, "")

  /** What `modal.hospital!.id` throws when the modal holds no row. */
  const NullRowError := "Cannot read properties of null (reading 'id')"

  /** `toggleHospitalExpansion(id)` on a copy of the expanded set. */
  function Toggle(expanded: set<string>, id: string): (r: set<string>)
    ensures id in r <==> id !in expanded
    ensures forall x :: x != id ==> (x in r <==> x in expanded)
  {
    if id in expanded then expanded - {id} else expanded + {id}
  }

  /** Toggling the same hospital twice restores the expanded set. */
  lemma ToggleTwice(expanded: set<string>, id: string)
    ensures Toggle(Toggle(expanded, id), id) == expanded
  {
  }

  /** The ids of the fetched hospitals. */
  function HospitalIds(hospitals: seq<Hospital>): set<string>
  {
    set h | h in hospitals :: h.id
  }

  /** The clinic map `fetchHospitals` should build: the clinics of each id, [] when the query gave no data. */
  function ClinicMapOf(hospitals: seq<Hospital>, clinicQuery: string -> Option<seq<Clinic>>): map<string, seq<Clinic>>
  {
    map id | id in HospitalIds(hospitals) :: clinicQuery(id).GetOr([])
  }

  /**
   * The loop of `fetchHospitals`: one clinic query per hospital, in order,
   * each result stored under the hospital's id.
   */
  method BuildClinicMap(hospitals: seq<Hospital>, clinicQuery: string -> Option<seq<Clinic>>)
    returns (m: map<string, seq<Clinic>>)
    ensures m.Keys == HospitalIds(hospitals)
    ensures forall h :: h in hospitals ==> m[h.id] == clinicQuery(h.id).GetOr([])
  {
    m := map[];
    var i := 0;
    while i < |hospitals|
      invariant 0 <= i <= |hospitals|
      invariant m.Keys == set k | 0 <= k < i :: hospitals[k].id
      invariant forall id :: id in m ==> m[id] == clinicQuery(id).GetOr([])
    {
      var id := hospitals[i].id;
      m := m[id := clinicQuery(id).GetOr([])];
      i := i + 1;
    }
    assert forall h :: h in hospitals ==> exists k :: 0 <= k < |hospitals| && hospitals[k] == h;
  }

  /** The map the loop builds is the specified one. */
  lemma BuildClinicMapIsClinicMapOf(hospitals: seq<Hospital>, clinicQuery: string -> Option<seq<Clinic>>, m: map<string, seq<Clinic>>)
    requires m.Keys == HospitalIds(hospitals)
    requires forall h :: h in hospitals ==> m[h.id] == clinicQuery(h.id).GetOr([])
    ensures m == ClinicMapOf(hospitals, clinicQuery)
  {
    forall id | id in m.Keys
      ensures m[id] == clinicQuery(id).GetOr([])
    {
      var h :| h in hospitals && h.id == id;
    }
  }

  /** `clinics[id]?.length || 0`: the number shown next to a hospital. */
  function ClinicCount(clinics: map<string, seq<Clinic>>, id: string): nat
  {
    if id in clinics then |clinics[id]| else 0
  }

  /**
   * After a fetch, a listed hospital shows the number of clinics its query
   * returned (0 for no data) and any other id shows 0.
   */
  lemma ClinicCountAfterFetch(hospitals: seq<Hospital>, clinicQuery: string -> Option<seq<Clinic>>, id: string)
    ensures ClinicCount(ClinicMapOf(hospitals, clinicQuery), id)
         == if id in HospitalIds(hospitals) then |clinicQuery(id).GetOr([])| else 0
    ensures clinicQuery(id).None? ==> ClinicCount(ClinicMapOf(hospitals, clinicQuery), id) == 0
  {
  }

  /** `openHospitalModal(mode, hospital)`'s form: the row with null contact fields as '', or a blank active form. */
  function HospitalFormOf(hospital: Option<Hospital>): HospitalForm
  {
    match hospital
    case None => HospitalForm("", "", "", "", "", "", true)
    case Some(h) =>
      HospitalForm(h.hospitalName, h.hospitalCode, OrElse(h.address, ""), OrElse(h.phone, ""),
                   OrElse(h.email, ""), OrElse(h.contactPerson, ""), h.isActive)
  }

  /**
   * Loading a row keeps name, code and the active flag verbatim and shows
   * every nullable column as its value, or '' when null; the empty form is
   * blank and active.
   */
  lemma HospitalFormOfSpec(h: Hospital)
    ensures var f := HospitalFormOf(Some(h));
            && f.hospitalName == h.hospitalName && f.hospitalCode == h.hospitalCode && f.isActive == h.isActive
            && f.address == h.address.GetOr("") && f.phone == h.phone.GetOr("")
            && f.email == h.email.GetOr("") && f.contactPerson == h.contactPerson.GetOr("")
    ensures HospitalFormOf(None) == HospitalForm("", "", "", "", "", "", true)
  {
  }

  /** `openClinicModal(mode, hospitalId, clinic)`'s form. */
  function ClinicFormOf(clinic: Option<Clinic>): ClinicForm
  {
    match clinic
    case None => ClinicForm("", "", "", "", "", true)
    case Some(c) =>
      ClinicForm(c.clinicName, c.clinicCode, OrElse(c.address, ""), OrElse(c.phone, ""),
                 OrElse(c.email, ""), c.isActive)
  }

  /** The clinic form shows every nullable column as its value or ''; without a row it is blank and active. */
  lemma ClinicFormOfSpec(c: Clinic)
    ensures ClinicFormOf(Some(c))
         == ClinicForm(c.clinicName, c.clinicCode, c.address.GetOr(""), c.phone.GetOr(""), c.email.GetOr(""), c.isActive)
    ensures ClinicFormOf(None) == ClinicForm("", "", "", "", "", true)
  {
  }

  /**
   * `handleHospitalSubmit`: 'add' inserts the form, 'edit' updates the modal's
   * row with it, any other mode writes nothing.
   */
  function HospitalSubmitWrite(modal: HospitalModal, form: HospitalForm): (r: Result<Option<HospitalWrite>, string>)
    ensures modal.mode == "add" ==> r == Success(Some(Store.Insert(form)))
    ensures modal.mode == "edit" && modal.hospital.Some? ==> r == Success(Some(Store.Update(modal.hospital.value.id, form)))
    ensures r.Failure? <==> modal.mode == "edit" && modal.hospital.None?
    ensures modal.mode != "add" && modal.mode != "edit" ==> r == Success(None)
  {
    if modal.mode == "add" then Success(Some(Store.Insert(form)))
    else if modal.mode == "edit" then
      (if modal.hospital.Some? then Success(Some(Store.Update(modal.hospital.value.id, form)))
       else Failure(NullRowError))
    else Success(None)
  }

  /**
   * `handleClinicSubmit`: adding inserts the form plus the modal's hospital id;
   * editing sends the form alone, so the clinic's parent hospital is never
   * part of an update.
   */
  function ClinicSubmitWrite(modal: ClinicModal, form: ClinicForm): (r: Result<Option<ClinicWrite>, string>)
    ensures modal.mode == "add" ==> r == Success(Some(Store.Insert(ClinicInsert(form, modal.hospitalId))))
    ensures modal.mode == "edit" && modal.clinic.Some? ==> r == Success(Some(Store.Update(modal.clinic.value.id, form)))
    ensures r.Failure? <==> modal.mode == "edit" && modal.clinic.None?
    ensures modal.mode != "add" && modal.mode != "edit" ==> r == Success(None)
  {
    var clinicData := ClinicInsert(form, modal.hospitalId);
    if modal.mode == "add" then Success(Some(Store.Insert(clinicData)))
    else if modal.mode == "edit" then
      (if modal.clinic.Some? then Success(Some(Store.Update(modal.clinic.value.id, form)))
       else Failure(NullRowError))
    else Success(None)
  }

  /**
   * Opening a row for edit and submitting it untouched updates that row with
   * its own values (nulls as ''); for a clinic the update leaves the parent
   * hospital alone, while adding a clinic from a hospital links it to that one.
   */
  lemma OpenThenSubmit(h: Hospital, c: Clinic, hospitalId: string, form: ClinicForm)
    ensures HospitalSubmitWrite(HospitalModal(true, "edit", Some(h)), HospitalFormOf(Some(h)))
         == Success(Some(Store.Update(h.id, HospitalForm(h.hospitalName, h.hospitalCode, h.address.GetOr(""),
                                                         h.phone.GetOr(""), h.email.GetOr(""),
                                                         h.contactPerson.GetOr(""), h.isActive))))
    ensures ClinicSubmitWrite(ClinicModal(true, "edit", Some(c), hospitalId), ClinicFormOf(Some(c)))
         == Success(Some(Store.Update(c.id, ClinicForm(c.clinicName, c.clinicCode, c.address.GetOr(""),
                                                       c.phone.GetOr(""), c.email.GetOr(""), c.isActive))))
    ensures var w := ClinicSubmitWrite(ClinicModal(true, "add", None, hospitalId), form);
            w.Success? && w.value.Some? && w.value.value.Insert? && w.value.value.row.hospitalId == hospitalId
  {
    HospitalFormOfSpec(h);
    ClinicFormOfSpec(c);
  }

  /** The React state of the panel. */
  class HospitalsPanel {
    var hospitals: seq<Hospital>
    var clinics: map<string, seq<Clinic>>
    var expanded: set<string>
    var hospitalModal: HospitalModal
    var hospitalForm: HospitalForm
    var clinicModal: ClinicModal
    var clinicForm: ClinicForm

    constructor ()
      ensures hospitals == [] && clinics == map[] && expanded == {}
      ensures hospitalModal == ClosedHospitalModal && hospitalForm == HospitalFormOf(None)
      ensures clinicModal == ClosedClinicModal && clinicForm == ClinicFormOf(None)
    {
      hospitals := [];
      clinics := map[];
      expanded := {};
      hospitalModal := ClosedHospitalModal;
      hospitalForm := HospitalFormOf(None);
      clinicModal := ClosedClinicModal;
      clinicForm := ClinicFormOf(None);
    }

    /**
     * `fetchHospitals`, given the hospitals query's outcome (an error, null
     * data or rows) and the per-hospital clinic query. An error or null data
     * leaves the list and the map as they were.
     */
    method FetchHospitals(response: Result<Option<seq<Hospital>>, string>,
                          clinicQuery: string -> Option<seq<Clinic>>)
      modifies this
      ensures response.Failure? || response.value.None? ==> hospitals == old(hospitals) && clinics == old(clinics)
      ensures response.Success? && response.value.Some? ==>
        hospitals == response.value.value && clinics == ClinicMapOf(hospitals, clinicQuery)
      ensures expanded == old(expanded) && hospitalModal == old(hospitalModal) && clinicModal == old(clinicModal)
      ensures hospitalForm == old(hospitalForm) && clinicForm == old(clinicForm)
    {
      if response.Failure? {
        return;
      }
      if response.value.Some? {
        hospitals := response.value.value;
        var m := BuildClinicMap(hospitals, clinicQuery);
        BuildClinicMapIsClinicMapOf(hospitals, clinicQuery, m);
        clinics := m;
      }
    }

    /** `toggleHospitalExpansion(id)`. */
    method ToggleHospitalExpansion(id: string)
      modifies this`expanded
      ensures expanded == Toggle(old(expanded), id)
    {
      expanded := Toggle(expanded, id);
    }

    /** `openHospitalModal(mode, hospital)`. */
    method OpenHospitalModal(mode: string, hospital: Option<Hospital>)
      modifies this`hospitalModal, this`hospitalForm
      ensures hospitalModal == HospitalModal(true, mode, hospital)
      ensures hospitalForm == HospitalFormOf(hospital)
    {
      hospitalModal := HospitalModal(true, mode, hospital);
      hospitalForm := HospitalFormOf(hospital);
    }

    /** The Cancel and Close buttons of the hospital modal. */
    method CloseHospitalModal()
      modifies this`hospitalModal
      ensures hospitalModal == ClosedHospitalModal
    {
      hospitalModal := ClosedHospitalModal;
    }

    /** `handleHospitalSubmit`: only a submit without error closes the modal. */
    method HandleHospitalSubmit(storeFailed: bool) returns (r: Result<Option<HospitalWrite>, string>)
      modifies this`hospitalModal
      ensures r == HospitalSubmitWrite(old(hospitalModal), hospitalForm)
      ensures r.Success? && (r.value.None? || !storeFailed) ==> hospitalModal == ClosedHospitalModal
      ensures r.Failure? || (r.value.Some? && storeFailed) ==> hospitalModal == old(hospitalModal)
    {
      r := HospitalSubmitWrite(hospitalModal, hospitalForm);
      if r.Success? && (r.value.None? || !storeFailed) {
        hospitalModal := ClosedHospitalModal;
      }
    }

    /** `openClinicModal(mode, hospitalId, clinic)`. */
    method OpenClinicModal(mode: string, hospitalId: string, clinic: Option<Clinic>)
      modifies this`clinicModal, this`clinicForm
      ensures clinicModal == ClinicModal(true, mode, clinic, hospitalId)
      ensures clinicForm == ClinicFormOf(clinic)
    {
      clinicModal := ClinicModal(true, mode, clinic, hospitalId);
      clinicForm := ClinicFormOf(clinic);
    }

    /** The Cancel and Close buttons of the clinic modal. */
    method CloseClinicModal()
      modifies this`clinicModal
      ensures clinicModal == ClosedClinicModal
    {
      clinicModal := ClosedClinicModal;
    }

    /** `handleClinicSubmit`: only a submit without error closes the modal. */
    method HandleClinicSubmit(storeFailed: bool) returns (r: Result<Option<ClinicWrite>, string>)
      modifies this`clinicModal
      ensures r == ClinicSubmitWrite(old(clinicModal), clinicForm)
      ensures r.Success? && (r.value.None? || !storeFailed) ==> clinicModal == ClosedClinicModal
      ensures r.Failure? || (r.value.Some? && storeFailed) ==> clinicModal == old(clinicModal)
    {
      r := ClinicSubmitWrite(clinicModal, clinicForm);
      if r.Success? && (r.value.None? || !storeFailed) {
        clinicModal := ClosedClinicModal;
      }
    }
  }
}
