/**
 * The subscription-template panel: the feature-list editor of the template
 * form, the sanitising of features on submit and the insert/update choice.
 */
module Templates {
  import opened Wrappers
  import opened Text
  import opened Seqs
  import Store

  /** A row of the subscription_templates table. */
  datatype Template = Template(
    id: Store.Id, name: string, planKey: string,
    monthlyPrice: real, yearlyPrice: real,
    features: seq<string>, isActive: bool)

  /** The modal form; the submitted payload has the same fields. */
  datatype TemplateForm = TemplateForm(
    name: string, planKey: string,
    monthlyPrice: real, yearlyPrice: real,
    features: seq<string>, isActive: bool)

  type TemplateWrite = Store.Write<TemplateForm, TemplateForm>

  /** The initial form and the one `resetForm` restores: one empty feature line. */
  const BlankForm := TemplateForm("", "", 0.0, 0.0, [""], true)

  /** A feature survives submission when its trimmed text is not empty. */
  predicate KeepFeature(f: string) { Trim(f) != "" }

  /** The features sent on submit: the form's entries minus the blank ones. */
  function Sanitize(features: seq<string>): seq<string>
  {
    Filter(KeepFeature, features)
  }

  /** A feature is submitted iff it is one of the form's entries and is not all whitespace. */
  lemma SanitizeKeepsExactlyNonBlank(features: seq<string>)
    ensures forall f :: f in Sanitize(features) <==> f in features && !IsBlank(f)
  {
    FilterMembership(KeepFeature, features);
    forall f | f in features
      ensures KeepFeature(f) <==> !IsBlank(f)
    {
      TrimEmptyIffBlank(f);
    }
  }

  /**
   * Sanitising works entry by entry and keeps the order: a single entry is
   * dropped when blank and otherwise kept verbatim (not trimmed), and the
   * result for a concatenation is the concatenation of the results.
   */
  lemma SanitizeEntryWise(a: seq<string>, b: seq<string>, f: string)
    ensures Sanitize(a + b) == Sanitize(a) + Sanitize(b)
    ensures Sanitize([f]) == if IsBlank(f) then [] else [f]
  {
    FilterAppend(KeepFeature, a, b);
    TrimEmptyIffBlank(f);
    assert [f][1..] == [];
    assert Filter(KeepFeature, [f]) == (if KeepFeature(f) then [f] else []) + Filter(KeepFeature, []);
  }

  /** Sanitising never lengthens the list, and a sanitised list is left unchanged by a second pass. */
  lemma SanitizeShrinksAndIsIdempotent(features: seq<string>)
    ensures |Sanitize(features)| <= |features|
    ensures Sanitize(Sanitize(features)) == Sanitize(features)
  {
    FilterShorter(KeepFeature, features);
    FilterIdempotent(KeepFeature, features);
  }

  /** A list without blank entries is submitted as it is. */
  lemma SanitizeKeepsCleanList(features: seq<string>)
    requires forall i :: 0 <= i < |features| ==> !IsBlank(features[i])
    ensures Sanitize(features) == features
  {
    forall i | 0 <= i < |features|
      ensures KeepFeature(features[i])
    {
      TrimEmptyIffBlank(features[i]);
    }
    FilterKeepsAll(KeepFeature, features);
  }

  /** `removeFeature(index)`: position index filtered out, `['']` when nothing is left. */
  function FeaturesWithout(features: seq<string>, index: int): (r: seq<string>)
    ensures r != []
  {
    var rest := DropIndex(features, index);
    if |rest| > 0 then rest else [""]
  }

  /**
   * Removing an entry of a list of two or more deletes exactly that entry and
   * keeps the others in order; removing the only entry leaves one empty line;
   * an index outside the list changes nothing.
   */
  lemma FeaturesWithoutSpec(features: seq<string>, index: int)
    requires features != []
    ensures 0 <= index < |features| && |features| > 1 ==>
      FeaturesWithout(features, index) == features[..index] + features[index + 1..]
    ensures 0 <= index < |features| && |features| == 1 ==> FeaturesWithout(features, index) == [""]
    ensures !(0 <= index < |features|) ==> FeaturesWithout(features, index) == features
  {
    DropIndexSplice(features, index);
  }

  /** `handleEdit` fills the form from the row, with `['']` for a template without features. */
  function FormOf(t: Template): (f: TemplateForm)
    ensures f.features != []
    ensures f.(features := t.features) == TemplateForm(t.name, t.planKey, t.monthlyPrice, t.yearlyPrice, t.features, t.isActive)
    ensures |t.features| > 0 ==> f.features == t.features
    ensures |t.features| == 0 ==> f.features == [""]
  {
    TemplateForm(t.name, t.planKey, t.monthlyPrice, t.yearlyPrice,
                 if |t.features| > 0 then t.features else [""], t.isActive)
  }

  /** `handleSubmit`: an update keyed by the edited template's id, else an insert; features sanitised. */
  function SubmitWrite(form: TemplateForm, editing: Option<Template>): (w: TemplateWrite)
    ensures w.Update? <==> editing.Some?
    ensures w.Update? ==> w.key == editing.value.id
    ensures !w.Delete?
  {
    var payload := form.(features := Sanitize(form.features));
    if editing.Some? then Store.Update(editing.value.id, payload) else Store.Insert(payload)
  }

  /** The payload of a submit request. */
  function PayloadOf(w: TemplateWrite): TemplateForm
    requires !w.Delete?
  {
    if w.Insert? then w.row else w.patch
  }

  /**
   * What submit sends: every non-feature field as the form holds it, and as
   * features exactly the non-blank form entries, in order.
   */
  lemma SubmitPayloadSpec(form: TemplateForm, editing: Option<Template>)
    ensures PayloadOf(SubmitWrite(form, editing)).(features := form.features) == form
    ensures PayloadOf(SubmitWrite(form, editing)).features == Sanitize(form.features)
    ensures forall f :: f in PayloadOf(SubmitWrite(form, editing)).features <==> f in form.features && !IsBlank(f)
  {
    SanitizeKeepsExactlyNonBlank(form.features);
  }

  /**
   * Editing a stored template and submitting it untouched writes the row back
   * unchanged (keyed by its id) whenever its stored features have no blank entry,
   * including a template with no features at all.
   */
  lemma EditSubmitRoundTrip(t: Template)
    requires forall i :: 0 <= i < |t.features| ==> !IsBlank(t.features[i])
    ensures SubmitWrite(FormOf(t), Some(t))
         == Store.Update(t.id, TemplateForm(t.name, t.planKey, t.monthlyPrice, t.yearlyPrice, t.features, t.isActive))
  {
    if |t.features| > 0 {
      SanitizeKeepsCleanList(t.features);
    } else {
      SanitizeEntryWise([], [], "");
    }
  }

  /** The React state of the panel: the form, the template being edited and the modal flag. */
  class TemplatesPanel {
    var form: TemplateForm
    var editing: Option<Template>
    var showModal: bool

    /** The feature list of the form is never empty. */
    ghost predicate Valid()
      reads this
    {
      |form.features| > 0
    }

    constructor ()
      ensures Valid()
      ensures form == BlankForm && editing == None && !showModal
    {
      form := BlankForm;
      editing := None;
      showModal := false;
    }

    /** `addFeature`: one empty entry appended, everything else as it was. */
    method AddFeature()
      requires Valid()
      modifies this
      ensures Valid()
      ensures form == old(form).(features := old(form.features) + [""])
      ensures editing == old(editing) && showModal == old(showModal)
    {
      form := form.(features := form.features + [""]);
    }

    /** `updateFeature(index, value)`: a copy of the list with entry index overwritten. */
    method UpdateFeature(index: nat, value: string)
      requires Valid()
      requires index < |form.features|
      modifies this
      ensures Valid()
      ensures form == old(form).(features := old(form.features)[index := value])
      ensures editing == old(editing) && showModal == old(showModal)
    {
      var features := form.features;
      var copy := new string[|features|](k requires 0 <= k < |features| => features[k]);
      copy[index] := value;
      assert copy[..] == features[index := value];
      form := form.(features := copy[..]);
    }

    /** `removeFeature(index)`. */
    method RemoveFeature(index: int)
      requires Valid()
      modifies this
      ensures Valid()
      ensures form == old(form).(features := FeaturesWithout(old(form.features), index))
      ensures editing == old(editing) && showModal == old(showModal)
    {
      form := form.(features := FeaturesWithout(form.features, index));
    }

    /** `resetForm`. */
    method ResetForm()
      modifies this
      ensures Valid()
      ensures form == BlankForm
      ensures editing == old(editing) && showModal == old(showModal)
    {
      form := BlankForm;
    }

    /** The Cancel button: close the modal, forget the row, reset the form. */
    method Cancel()
      modifies this
      ensures Valid()
      ensures form == BlankForm && editing == None && !showModal
    {
      showModal := false;
      editing := None;
      form := BlankForm;
    }

    /** `handleEdit(t)`: remember the row, load it into the form, open the modal. */
    method HandleEdit(t: Template)
      modifies this
      ensures Valid()
      ensures form == FormOf(t) && editing == Some(t) && showModal
    {
      editing := Some(t);
      form := FormOf(t);
      showModal := true;
    }

    /**
     * `handleSubmit`: returns the write it sends. When the store reports an
     * error nothing else changes; on success the modal closes, the edited row
     * is forgotten and the form is reset.
     */
    method HandleSubmit(storeFailed: bool) returns (w: TemplateWrite)
      requires Valid()
      modifies this
      ensures Valid()
      ensures w == SubmitWrite(old(form), old(editing))
      ensures storeFailed ==> form == old(form) && editing == old(editing) && showModal == old(showModal)
      ensures !storeFailed ==> form == BlankForm && editing == None && !showModal
    {
      w := SubmitWrite(form, editing);
      if !storeFailed {
        showModal := false;
        editing := None;
        ResetForm();
      }
    }
  }
}
