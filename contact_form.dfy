/**
 * The consultation contact form: its validator, the areas of interest it
 * offers, and the flag that swaps the form for a thank-you note.
 */
module ContactForm {
  import opened Wrappers
  import opened Schema

  datatype ContactValues = ContactValues(
    fullName: string, email: string, organization: string, areaOfInterest: string,
    message: string, agreeToReceiveInfo: bool)

  const DefaultContact := ContactValues("", "", "", "", "", false)

  const AreasOfInterest: seq<string> := [
    "Backup Strategy Planning",
    "Disaster Recovery Implementation",
    "Training and Education",
    "Solution Selection",
    "Other (please specify)"]

  /** The offered areas: five, all different. */
  lemma AreasOfInterestDistinct()
    ensures |AreasOfInterest| == 5
    ensures forall i, j :: 0 <= i < j < |AreasOfInterest| ==> AreasOfInterest[i] != AreasOfInterest[j]
  {
    var a := AreasOfInterest;
    assert a[0][0] == 'B' && a[1][0] == 'D' && a[2][0] == 'T' && a[3][0] == 'S' && a[4][0] == 'O';
  }

  // ---------- contactFormSchema ----------

  /**
   * What the schema demands. The e-mail rule is the validator library's own and
   * is a parameter here; the area of interest and the agreement flag need only
   * have their types, which the record's field types already give.
   */
  predicate ContactValid(v: ContactValues, isEmail: string -> bool) {
    |v.fullName| >= 2 && isEmail(v.email) && |v.organization| >= 2 && |v.message| >= 10
  }

  /** The fields the schema reports, in declaration order. */
  function ContactIssues(v: ContactValues, isEmail: string -> bool): seq<string> {
    (if |v.fullName| < 2 then ["fullName"] else [])
    + (if !isEmail(v.email) then ["email"] else [])
    + (if |v.organization| < 2 then ["organization"] else [])
    + (if |v.message| < 10 then ["message"] else [])
  }

  /** The schema reports nothing exactly when the form is valid, and never reports the area or the flag. */
  lemma ContactIssuesIffInvalid(v: ContactValues, isEmail: string -> bool)
    ensures ContactIssues(v, isEmail) == [] <==> ContactValid(v, isEmail)
    ensures ("fullName" in ContactIssues(v, isEmail) <==> |v.fullName| < 2) && ("email" in ContactIssues(v, isEmail) <==> !isEmail(v.email))
    ensures ("organization" in ContactIssues(v, isEmail) <==> |v.organization| < 2) && ("message" in ContactIssues(v, isEmail) <==> |v.message| < 10)
    ensures "areaOfInterest" !in ContactIssues(v, isEmail) && "agreeToReceiveInfo" !in ContactIssues(v, isEmail)
  {
  }

  /** The area of interest, the empty default included, and the agreement flag never decide validity. */
  lemma AreaAndAgreementFree(v: ContactValues, area: string, agree: bool, isEmail: string -> bool)
    ensures ContactValid(v.(areaOfInterest := area, agreeToReceiveInfo := agree), isEmail) == ContactValid(v, isEmail)
  {
  }

  /** The empty form is refused whatever the e-mail rule is: its name is too short. */
  lemma DefaultContactInvalid(isEmail: string -> bool)
    ensures !ContactValid(DefaultContact, isEmail)
    ensures "fullName" in ContactIssues(DefaultContact, isEmail)
  {
    assert ContactIssues(DefaultContact, isEmail)[0] == "fullName";
  }

  /** The body posted for a request. */
  function ContactBody(v: ContactValues): Json {
    ContactToJson(InsertContact(v.fullName, v.email, v.organization, v.areaOfInterest, v.message, v.agreeToReceiveInfo))
  }

  /** `form.handleSubmit(onSubmit)`: the body is posted only when the validator passes. */
  function Submission(v: ContactValues, isEmail: string -> bool): (posted: Option<Json>)
    ensures posted.Some? <==> ContactValid(v, isEmail)
    ensures posted.Some? ==> posted.value == ContactBody(v)
  {
    if ContactValid(v, isEmail) then Some(ContactBody(v)) else None
  }

  /**
   * The server's schema checks types only, so it reads back any body the form
   * posts as the same record, including bodies the form itself would refuse.
   */
  lemma BodyAcceptedByServer(v: ContactValues)
    ensures ParseContact(ContactBody(v)) == Ok(InsertContact(v.fullName, v.email, v.organization,
      v.areaOfInterest, v.message, v.agreeToReceiveInfo))
  {
  }

  // ---------- the submitted flag ----------

  class ContactFormState {
    var isSubmitted: bool
    var values: ContactValues

    constructor()
      ensures !isSubmitted && values == DefaultContact
    {
      isSubmitted := false;
      values := DefaultContact;
    }

    /** An edit of the form's fields. */
    method Edit(v: ContactValues)
      modifies this
      ensures values == v && isSubmitted == old(isSubmitted)
    {
      values := v;
    }

    /** `onSuccess`: the thank-you note replaces the form, and the form is back to its defaults. */
    method SubmitSucceeded()
      modifies this
      ensures isSubmitted && values == DefaultContact
    {
      isSubmitted := true;
      values := DefaultContact;
    }

    /** "Send Another Request": the (already reset) form is shown again. */
    method SendAnother()
      modifies this
      ensures !isSubmitted && values == old(values)
    {
      isSubmitted := false;
    }
  }
}
