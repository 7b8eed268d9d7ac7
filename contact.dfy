/**
 * The landing page's contact form schema: six string fields, each with one
 * check and its own message.
 */
module Contact {
  import opened Wrappers
  import opened Text

  datatype ContactForm = ContactForm(
    name: string, email: string, phone: string, practice: string, plan: string, message: string)

  /** One message per field: `None` when the field passes. */
  datatype ContactErrors = ContactErrors(
    name: Option<string>, email: Option<string>, phone: Option<string>,
    practice: Option<string>, plan: Option<string>, message: Option<string>)

  const NameMessage := "Name must be at least 2 characters"
  const EmailMessage := "Please enter a valid email address"
  const PhoneMessage := "Please enter a valid phone number"
  const PracticeMessage := "Practice name is required"
  const PlanMessage := "Please select a plan"
  const MessageMessage := "Message must be at least 10 characters"

  /** The values of the plan select; the first is the "Select a plan" placeholder. */
  const PlanOptions: seq<string> := ["", "basic", "professional", "enterprise", "custom"]

  /** `z.string().min(n, msg)`: JavaScript length (UTF-16 units) at least n. */
  function MinLength(s: string, n: nat, msg: string): (e: Option<string>)
    ensures e.None? <==> Utf16Length(s) >= n
    ensures e.Some? ==> e.value == msg
  {
    if Utf16Length(s) >= n then None else Some(msg)
  }

  /**
   * `contactSchema` applied to a form. The email format rule belongs to the
   * validation library and is the parameter `isEmail`.
   */
  function Validate(f: ContactForm, isEmail: string -> bool): ContactErrors
  {
    ContactErrors(
      MinLength(f.name, 2, NameMessage),
      if isEmail(f.email) then None else Some(EmailMessage),
      MinLength(f.phone, 10, PhoneMessage),
      MinLength(f.practice, 2, PracticeMessage),
      MinLength(f.plan, 1, PlanMessage),
      MinLength(f.message, 10, MessageMessage))
  }

  predicate NoErrors(e: ContactErrors)
  {
    e.name.None? && e.email.None? && e.phone.None? && e.practice.None? && e.plan.None? && e.message.None?
  }

  /**
   * The form is accepted exactly when all six checks pass, and each field's
   * message is present exactly when that field's own check fails.
   */
  lemma ValidateSpec(f: ContactForm, isEmail: string -> bool)
    ensures var e := Validate(f, isEmail);
            && (NoErrors(e) <==>
                  Utf16Length(f.name) >= 2 && isEmail(f.email) && Utf16Length(f.phone) >= 10
                  && Utf16Length(f.practice) >= 2 && Utf16Length(f.plan) >= 1 && Utf16Length(f.message) >= 10)
            && (e.name == if Utf16Length(f.name) >= 2 then None else Some(NameMessage))
            && (e.email == if isEmail(f.email) then None else Some(EmailMessage))
            && (e.phone == if Utf16Length(f.phone) >= 10 then None else Some(PhoneMessage))
            && (e.practice == if Utf16Length(f.practice) >= 2 then None else Some(PracticeMessage))
            && (e.plan == if Utf16Length(f.plan) >= 1 then None else Some(PlanMessage))
            && (e.message == if Utf16Length(f.message) >= 10 then None else Some(MessageMessage))
  {
  }

  /** Each field's message depends on that field alone: changing any other field leaves it as it was. */
  lemma ErrorsAreIndependent(f: ContactForm, g: ContactForm, isEmail: string -> bool)
    ensures f.name == g.name ==> Validate(f, isEmail).name == Validate(g, isEmail).name
    ensures f.email == g.email ==> Validate(f, isEmail).email == Validate(g, isEmail).email
    ensures f.phone == g.phone ==> Validate(f, isEmail).phone == Validate(g, isEmail).phone
    ensures f.practice == g.practice ==> Validate(f, isEmail).practice == Validate(g, isEmail).practice
    ensures f.plan == g.plan ==> Validate(f, isEmail).plan == Validate(g, isEmail).plan
    ensures f.message == g.message ==> Validate(f, isEmail).message == Validate(g, isEmail).message
  {
  }

  /** Of the plan options only the placeholder is rejected. */
  lemma {:induction false} PlanOptionsCheck(i: nat)
    requires i < |PlanOptions|
    ensures MinLength(PlanOptions[i], 1, PlanMessage).None? <==> i != 0
  {
    if i != 0 {
      assert PlanOptions[i] != [];
      assert Utf16Length(PlanOptions[i]) >= |PlanOptions[i]|;
    }
  }

  /**
   * The length rules count UTF-16 units, so a name of one character outside
   * the Basic Multilingual Plane already passes the two-character minimum.
   */
  lemma AstralCharacterCountsTwice(c: char)
    requires c as int >= 0x1_0000
    ensures MinLength([c], 2, NameMessage).None?
  {
    assert [c][1..] == [];
  }
}
