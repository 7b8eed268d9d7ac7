/**
 * The clinic panel: the search filter, loading a row into the form with its
 * defaults, and the insert/update choice with reset on success or cancel.
 */
module Clinics {
  import opened Wrappers
  import opened Text
  import opened Seqs
  import Store

  /** A row of the clinics table; every column but id, code, name and the active flag may be null. */
  datatype Clinic = Clinic(
    id: Store.Id, clinicCode: string, clinicName: string,
    address: Option<string>, phone: Option<string>, email: Option<string>, website: Option<string>,
    isActive: bool,
    contactPerson: Option<string>, licenseNumber: Option<string>, registrationDate: Option<string>,
    subscriptionStatus: Option<string>, totalPatients: Option<int>,
    billingAddress: Option<string>, taxId: Option<string>, timezone: Option<string>,
    country: Option<string>, state: Option<string>, city: Option<string>, postalCode: Option<string>)

  /** The modal form, which is also the payload sent on submit. */
  datatype ClinicForm = ClinicForm(
    clinicCode: string, clinicName: string,
    address: string, phone: string, email: string, website: string,
    contactPerson: string, licenseNumber: string, registrationDate: string,
    subscriptionStatus: string, totalPatients: int,
    billingAddress: string, taxId: string, timezone: string,
    country: string, state: string, city: string, postalCode: string)

  type ClinicWrite = Store.Write<ClinicForm, ClinicForm>

  /** The blank form of the initial state, of a successful submit and of Cancel. */
  function DefaultForm(today: string): ClinicForm
  {
    ClinicForm("", "", "", "", "", "", "", "", today, "trial", 0, "", "", "Asia/Kolkata", "India", "", "", "")
  }

  /** `handleEdit(c)`'s form: each column's value, or the default when it is null or ''. */
  function FormOf(c: Clinic, today: string): ClinicForm
  {
    ClinicForm(
      c.clinicCode, c.clinicName,
      OrElse(c.address, ""), OrElse(c.phone, ""), OrElse(c.email, ""), OrElse(c.website, ""),
      OrElse(c.contactPerson, ""), OrElse(c.licenseNumber, ""), OrElse(c.registrationDate, today),
      OrElse(c.subscriptionStatus, "trial"), c.totalPatients.GetOr(0),
      OrElse(c.billingAddress, ""), OrElse(c.taxId, ""), OrElse(c.timezone, "Asia/Kolkata"),
      OrElse(c.country, "India"), OrElse(c.state, ""), OrElse(c.city, ""), OrElse(c.postalCode, ""))
  }

  /** A form field shows the column's value when it is a non-empty string, and the blank form's value otherwise. */
  predicate ValueOrDefault(column: Option<string>, shown: string, default: string)
  {
    if column.Some? && column.value != "" then shown == column.value else shown == default
  }

  /**
   * Loading a row copies code and name verbatim and fills every other field
   * from its column, falling back to the field's value in the blank form
   * (status 'trial', time zone 'Asia/Kolkata', country 'India', 0 patients,
   * today's registration date, '' elsewhere).
   */
  lemma FormOfSpec(c: Clinic, today: string)
    ensures var f := FormOf(c, today);
            var d := DefaultForm(today);
            && f.clinicCode == c.clinicCode && f.clinicName == c.clinicName
            && ValueOrDefault(c.address, f.address, d.address)
            && ValueOrDefault(c.phone, f.phone, d.phone)
            && ValueOrDefault(c.email, f.email, d.email)
            && ValueOrDefault(c.website, f.website, d.website)
            && ValueOrDefault(c.contactPerson, f.contactPerson, d.contactPerson)
            && ValueOrDefault(c.licenseNumber, f.licenseNumber, d.licenseNumber)
            && ValueOrDefault(c.registrationDate, f.registrationDate, d.registrationDate)
            && ValueOrDefault(c.subscriptionStatus, f.subscriptionStatus, d.subscriptionStatus)
            && f.totalPatients == (if c.totalPatients.Some? then c.totalPatients.value else d.totalPatients)
            && ValueOrDefault(c.billingAddress, f.billingAddress, d.billingAddress)
            && ValueOrDefault(c.taxId, f.taxId, d.taxId)
            && ValueOrDefault(c.timezone, f.timezone, d.timezone)
            && ValueOrDefault(c.country, f.country, d.country)
            && ValueOrDefault(c.state, f.state, d.state)
            && ValueOrDefault(c.city, f.city, d.city)
            && ValueOrDefault(c.postalCode, f.postalCode, d.postalCode)
  {
  }

  /** A row with only code and name set loads as the blank form with that code and name. */
  lemma SparseRowLoadsDefaults(c: Clinic, today: string)
    requires c.address.None? && c.phone.None? && c.email.None? && c.website.None?
    requires c.contactPerson.None? && c.licenseNumber.None? && c.registrationDate.None?
    requires c.subscriptionStatus.None? && c.totalPatients.None? && c.billingAddress.None?
    requires c.taxId.None? && c.timezone.None? && c.country.None?
    requires c.state.None? && c.city.None? && c.postalCode.None?
    ensures FormOf(c, today) == DefaultForm(today).(clinicCode := c.clinicCode, clinicName := c.clinicName)
  {
  }

  /** `handleSubmit`: update the edited clinic's row with the form, or insert the form. */
  function SubmitWrite(form: ClinicForm, editing: Option<Clinic>): (w: ClinicWrite)
    ensures w.Update? <==> editing.Some?
    ensures w.Update? ==> w.key == editing.value.id && w.patch == form
    ensures w.Insert? ==> w.row == form
    ensures !w.Delete?
  {
    if editing.Some? then Store.Update(editing.value.id, form) else Store.Insert(form)
  }

  /** The search rule: clinic name or clinic code contains the term, ignoring case. */
  predicate MatchesSearch(c: Clinic, term: string)
  {
    MatchesTerm(c.clinicName, term) || MatchesTerm(c.clinicCode, term)
  }

  function SearchHit(term: string): Clinic -> bool
  {
    c => MatchesSearch(c, term)
  }

  /** `filteredClinics`. */
  function FilterClinics(clinics: seq<Clinic>, term: string): seq<Clinic>
  {
    Filter(SearchHit(term), clinics)
  }

  /**
   * The filter keeps exactly the matching clinics, in their original order;
   * the empty term keeps them all; filtering twice equals filtering once.
   */
  lemma FilterClinicsSpec(clinics: seq<Clinic>, more: seq<Clinic>, term: string)
    ensures forall c :: c in FilterClinics(clinics, term) <==> c in clinics && MatchesSearch(c, term)
    ensures FilterClinics(clinics + more, term) == FilterClinics(clinics, term) + FilterClinics(more, term)
    ensures FilterClinics(FilterClinics(clinics, term), term) == FilterClinics(clinics, term)
    ensures FilterClinics(clinics, "") == clinics
  {
    FilterMembership(SearchHit(term), clinics);
    FilterAppend(SearchHit(term), clinics, more);
    FilterIdempotent(SearchHit(term), clinics);
    forall i | 0 <= i < |clinics|
      ensures SearchHit("")(clinics[i])
    {
      EmptyTermMatches(clinics[i].clinicName);
    }
    FilterKeepsAll(SearchHit(""), clinics);
  }

  /** The React state of the panel that the handlers update. */
  class ClinicsPanel {
    var form: ClinicForm
    var editing: Option<Clinic>
    var showModal: bool

    constructor (today: string)
      ensures form == DefaultForm(today) && editing == None && !showModal
    {
      form := DefaultForm(today);
      editing := None;
      showModal := false;
    }

    /** The add button: opens the modal on whatever the form holds. */
    method OpenCreate()
      modifies this`showModal
      ensures showModal
    {
      showModal := true;
    }

    /** `handleEdit(c)`. */
    method HandleEdit(c: Clinic, today: string)
      modifies this
      ensures form == FormOf(c, today) && editing == Some(c) && showModal
    {
      editing := Some(c);
      form := FormOf(c, today);
      showModal := true;
    }

    /**
     * `handleSubmit`: sends `SubmitWrite`; only a store success closes the
     * modal, forgets the edited clinic and resets the form; on an error the
     * state is as it was.
     */
    method HandleSubmit(storeFailed: bool, today: string) returns (w: ClinicWrite)
      modifies this
      ensures w == SubmitWrite(old(form), old(editing))
      ensures storeFailed ==> form == old(form) && editing == old(editing) && showModal == old(showModal)
      ensures !storeFailed ==> form == DefaultForm(today) && editing == None && !showModal
    {
      w := SubmitWrite(form, editing);
      if !storeFailed {
        showModal := false;
        editing := None;
        form := DefaultForm(today);
      }
    }

    /** The Cancel button: the same closed state as a successful submit. */
    method Cancel(today: string)
      modifies this
      ensures form == DefaultForm(today) && editing == None && !showModal
    {
      showModal := false;
      editing := None;
      form := DefaultForm(today);
    }
  }
}
