/**
 * The subscription panel: building the insert/update payload from the form
 * and the matching template, the form defaults, loading a row into the form,
 * the search filter and the price column.
 */
module Subscriptions {
  import opened Wrappers
  import opened Text
  import opened Seqs
  import Store
  import Templates

  /** The hospital columns joined onto a subscription row. */
  datatype HospitalRef = HospitalRef(hospitalName: string, hospitalCode: string)

  /** A row of the subscriptions table as fetched, with its optional hospital join. */
  datatype Subscription = Subscription(
    id: Store.Id, hospitalId: string, planName: string, status: string,
    monthlyPrice: real, yearlyPrice: real, billingCycle: string,
    startDate: string, endDate: Option<string>, autoRenew: bool,
    hospitals: Option<HospitalRef>)

  /** The modal form; an empty `endDate` stands for "no end date". */
  datatype SubscriptionForm = SubscriptionForm(
    hospitalId: string, planName: string, status: string, billingCycle: string,
    startDate: string, endDate: string, autoRenew: bool)

  /** The object sent to the store: the form fields, the template prices and a nullable end date. */
  datatype SubscriptionPayload = SubscriptionPayload(
    hospitalId: string, planName: string, status: string, billingCycle: string,
    startDate: string, endDate: Option<string>, autoRenew: bool,
    monthlyPrice: real, yearlyPrice: real)

  type SubscriptionWrite = Store.Write<SubscriptionPayload, SubscriptionPayload>

  const TemplateNotFound := "Template not found"

  /** Position of the first template whose plan key is `key`, or |templates| when there is none. */
  function FirstWithPlanKey(templates: seq<Templates.Template>, key: string): (k: nat)
    ensures k <= |templates|
    ensures forall j :: 0 <= j < k ==> templates[j].planKey != key
    ensures k < |templates| ==> templates[k].planKey == key
  {
    if templates == [] then 0
    else if templates[0].planKey == key then 0
    else 1 + FirstWithPlanKey(templates[1..], key)
  }

  /** `templates.find(t => t.plan_key === key)`. */
  function FindTemplate(templates: seq<Templates.Template>, key: string): (r: Option<Templates.Template>)
    ensures r.None? <==> forall j :: 0 <= j < |templates| ==> templates[j].planKey != key
    ensures r.Some? ==> r.value.planKey == key && r.value in templates
    ensures r.Some? ==> r.value == templates[FirstWithPlanKey(templates, key)]
  {
    var k := FirstWithPlanKey(templates, key);
    if k < |templates| then Some(templates[k]) else None
  }

  /** `end_date: formData.end_date || null`. */
  function EndDateOrNull(endDate: string): Option<string>
  {
    if endDate == "" then None else Some(endDate)
  }

  /**
   * The payload built in `handleSubmit`: fails with "Template not found" when
   * no template has the form's plan name as key; otherwise the form with the
   * first matching template's prices.
   */
  function BuildPayload(form: SubscriptionForm, templates: seq<Templates.Template>): (r: Result<SubscriptionPayload, string>)
    ensures r.Failure? <==> forall j :: 0 <= j < |templates| ==> templates[j].planKey != form.planName
    ensures r.Failure? ==> r.error == TemplateNotFound
  {
    match FindTemplate(templates, form.planName)
    case None => Failure(TemplateNotFound)
    case Some(t) =>
      Success(SubscriptionPayload(
        form.hospitalId, form.planName, form.status, form.billingCycle,
        form.startDate, EndDateOrNull(form.endDate), form.autoRenew,
        t.monthlyPrice, t.yearlyPrice))
  }

  /**
   * A successful payload carries the prices of the FIRST template whose key is
   * the plan name, every other form field unchanged, and a null end date
   * exactly when the form's end date is empty.
   */
  lemma PayloadSpec(form: SubscriptionForm, templates: seq<Templates.Template>)
    requires BuildPayload(form, templates).Success?
    ensures var p := BuildPayload(form, templates).value;
            var k := FirstWithPlanKey(templates, form.planName);
            && k < |templates|
            && (forall j :: 0 <= j < k ==> templates[j].planKey != form.planName)
            && templates[k].planKey == form.planName
            && p.monthlyPrice == templates[k].monthlyPrice
            && p.yearlyPrice == templates[k].yearlyPrice
            && p.hospitalId == form.hospitalId && p.planName == form.planName
            && p.status == form.status && p.billingCycle == form.billingCycle
            && p.startDate == form.startDate && p.autoRenew == form.autoRenew
            && (p.endDate.None? <==> form.endDate == "")
            && (form.endDate != "" ==> p.endDate == Some(form.endDate))
  {
  }

  /** `resetForm`: plan name of the first loaded template, active, monthly, no end date, auto-renew. */
  function DefaultForm(templates: seq<Templates.Template>, today: string): SubscriptionForm
  {
    SubscriptionForm("", if |templates| > 0 then templates[0].planKey else "",
                     "active", "monthly", today, "", true)
  }

  /**
   * The form the mount effect captures, built before any template has loaded,
   * has no plan; every other field is the reset default.
   */
  lemma MountFormHasNoPlan(templates: seq<Templates.Template>, today: string)
    ensures DefaultForm([], today).planName == ""
    ensures DefaultForm(templates, today) == DefaultForm([], today).(planName := DefaultForm(templates, today).planName)
  {
  }

  /**
   * Submitting the default form (after choosing a hospital) succeeds with the
   * first template's prices when templates are loaded, and fails with
   * "Template not found" when none are.
   */
  lemma DefaultFormSubmit(templates: seq<Templates.Template>, today: string, hospitalId: string)
    ensures var r := BuildPayload(DefaultForm(templates, today).(hospitalId := hospitalId), templates);
            && (|templates| == 0 ==> r == Failure(TemplateNotFound))
            && (|templates| > 0 ==>
                  r == Success(SubscriptionPayload(hospitalId, templates[0].planKey, "active", "monthly",
                                                   today, None, true,
                                                   templates[0].monthlyPrice, templates[0].yearlyPrice)))
  {
    if |templates| > 0 {
      assert FirstWithPlanKey(templates, templates[0].planKey) == 0;
    }
  }

  /** `handleEdit(s)`: the row's fields, with a null end date shown as ''. */
  function FormOf(s: Subscription): SubscriptionForm
  {
    SubscriptionForm(s.hospitalId, s.planName, s.status, s.billingCycle, s.startDate,
                     s.endDate.GetOr(""), s.autoRenew)
  }

  /**
   * Editing a row and submitting it untouched writes back the row's own
   * fields, its end date included (a null end date becomes null again), and
   * re-copies the prices of the template that matches its plan now.
   */
  lemma EditSubmitRoundTrip(s: Subscription, templates: seq<Templates.Template>)
    requires s.endDate != Some("")
    requires exists j :: 0 <= j < |templates| && templates[j].planKey == s.planName
    ensures BuildPayload(FormOf(s), templates).Success?
    ensures var p := BuildPayload(FormOf(s), templates).value;
            var t := FindTemplate(templates, s.planName).value;
            p == SubscriptionPayload(s.hospitalId, s.planName, s.status, s.billingCycle, s.startDate,
                                     s.endDate, s.autoRenew, t.monthlyPrice, t.yearlyPrice)
  {
  }

  /** The search rule: hospital name, hospital code (when joined) or plan name contains the term. */
  predicate MatchesSearch(s: Subscription, term: string)
  {
    || (s.hospitals.Some? && MatchesTerm(s.hospitals.value.hospitalName, term))
    || (s.hospitals.Some? && MatchesTerm(s.hospitals.value.hospitalCode, term))
    || MatchesTerm(s.planName, term)
  }

  function SearchHit(term: string): Subscription -> bool
  {
    s => MatchesSearch(s, term)
  }

  /** `filteredSubscriptions`. */
  function FilterSubscriptions(subscriptions: seq<Subscription>, term: string): seq<Subscription>
  {
    Filter(SearchHit(term), subscriptions)
  }

  /**
   * The filter keeps exactly the rows that match, in their original order; a
   * row without a hospital join matches on its plan name alone; the empty
   * term keeps every row; filtering again with the same term changes nothing.
   */
  lemma FilterSubscriptionsSpec(subscriptions: seq<Subscription>, more: seq<Subscription>, term: string)
    ensures forall s :: s in FilterSubscriptions(subscriptions, term) <==> s in subscriptions && MatchesSearch(s, term)
    ensures forall s: Subscription :: s.hospitals.None? ==> (MatchesSearch(s, term) <==> MatchesTerm(s.planName, term))
    ensures FilterSubscriptions(subscriptions + more, term)
         == FilterSubscriptions(subscriptions, term) + FilterSubscriptions(more, term)
    ensures FilterSubscriptions(FilterSubscriptions(subscriptions, term), term) == FilterSubscriptions(subscriptions, term)
    ensures FilterSubscriptions(subscriptions, "") == subscriptions
  {
    FilterMembership(SearchHit(term), subscriptions);
    FilterAppend(SearchHit(term), subscriptions, more);
    FilterIdempotent(SearchHit(term), subscriptions);
    forall i | 0 <= i < |subscriptions|
      ensures SearchHit("")(subscriptions[i])
    {
      EmptyTermMatches(subscriptions[i].planName);
    }
    FilterKeepsAll(SearchHit(""), subscriptions);
  }

  /** The price column: the monthly price on a monthly cycle, the yearly price otherwise. */
  function DisplayedPrice(s: Subscription): (price: real)
    ensures s.billingCycle == "monthly" ==> price == s.monthlyPrice
    ensures s.billingCycle != "monthly" ==> price == s.yearlyPrice
  {
    if s.billingCycle == "monthly" then s.monthlyPrice else s.yearlyPrice
  }

  /** The React state of the panel that the handlers update. */
  class SubscriptionsPanel {
    var templates: seq<Templates.Template>
    var form: SubscriptionForm
    var editing: Option<Subscription>
    var showModal: bool

    /** Initial state: no templates loaded yet, so the plan name is ''. */
    constructor (today: string)
      ensures templates == [] && form == DefaultForm([], today) && editing == None && !showModal
    {
      templates := [];
      form := DefaultForm([], today);
      editing := None;
      showModal := false;
    }

    /**
     * `fetchTemplates` on success: store the rows and preselect the first plan.
     * The "no plan chosen yet" guard reads the form captured by the mount
     * effect, whose plan name is always '' (`MountFormHasNoPlan`), so any
     * non-empty list overwrites the plan of the current form, including one
     * that an edit has loaded meanwhile.
     */
    method TemplatesLoaded(data: seq<Templates.Template>)
      modifies this
      ensures templates == data && editing == old(editing) && showModal == old(showModal)
      ensures |data| > 0 ==> form == old(form).(planName := data[0].planKey)
      ensures |data| == 0 ==> form == old(form)
    {
      templates := data;
      if |data| > 0 {
        form := form.(planName := data[0].planKey);
      }
    }

    /** `resetForm`. */
    method ResetForm(today: string)
      modifies this
      ensures form == DefaultForm(templates, today)
      ensures templates == old(templates) && editing == old(editing) && showModal == old(showModal)
    {
      form := DefaultForm(templates, today);
    }

    /** `handleEdit(s)`. */
    method HandleEdit(s: Subscription)
      modifies this
      ensures form == FormOf(s) && editing == Some(s) && showModal && templates == old(templates)
    {
      editing := Some(s);
      form := FormOf(s);
      showModal := true;
    }

    /** The Cancel button: close, forget the edited row, reset the form. */
    method Cancel(today: string)
      modifies this
      ensures form == DefaultForm(templates, today) && editing == None && !showModal
      ensures templates == old(templates)
    {
      showModal := false;
      editing := None;
      ResetForm(today);
    }

    /**
     * `handleSubmit`: a missing template aborts with its message before any
     * write and changes nothing; otherwise the write is an update keyed by the
     * edited row's id or an insert, and only a store success closes and resets.
     */
    method HandleSubmit(storeFailed: bool, today: string) returns (r: Result<SubscriptionWrite, string>)
      modifies this
      ensures templates == old(templates)
      ensures BuildPayload(old(form), templates).Failure? ==> r == Failure(TemplateNotFound)
      ensures BuildPayload(old(form), templates).Success? ==>
        r == Success(if old(editing).Some?
                     then Store.Update(old(editing).value.id, BuildPayload(old(form), templates).value)
                     else Store.Insert(BuildPayload(old(form), templates).value))
      ensures r.Failure? || storeFailed ==> form == old(form) && editing == old(editing) && showModal == old(showModal)
      ensures r.Success? && !storeFailed ==> form == DefaultForm(templates, today) && editing == None && !showModal
    {
      var payload := BuildPayload(form, templates);
      if payload.Failure? {
        return Failure(payload.error);
      }
      if editing.Some? {
        r := Success(Store.Update(editing.value.id, payload.value));
      } else {
        r := Success(Store.Insert(payload.value));
      }
      if !storeFailed {
        showModal := false;
        editing := None;
        ResetForm(today);
      }
    }
  }
}
