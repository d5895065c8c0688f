/**
 * The contact form (src/components/ContactForm.tsx): a record of five fields
 * updated one field at a time, a status text, and the reason select with a
 * placeholder and five reasons.
 */
module ContactForm {
  import opened FormSubmission
  import L = LanguageContext

  /** The form's named controls, in document order. */
  const FieldOrder: seq<string> := ["name", "email", "reason", "subject", "message"]

  /**
   * The controls marked `required`; the browser dispatches `submit` only when
   * none of them is empty. The reason select is required too, so its
   * placeholder "" blocks submission.
   */
  const RequiredFields: seq<string> := ["name", "email", "reason", "subject", "message"]

  /** useState({ name: "", email: "", subject: "", reason: "", message: "" }) */
  function InitialFields(): map<string, string>
  {
    map["name" := "", "email" := "", "subject" := "", "reason" := "", "message" := ""]
  }

  /** One `<option value={value}>{t(labelKey)}</option>` of the reason select. */
  datatype ReasonOption = ReasonOption(value: string, labelKey: string)

  const Reasons: seq<string> := ["general", "group", "private", "feedback", "partnership"]

  /** The placeholder, then one option per reason. */
  function ReasonOptions(): (opts: seq<ReasonOption>)
    ensures |opts| == |Reasons| + 1
    ensures opts[0] == ReasonOption("", "form.select.reason")
    ensures forall i :: 0 <= i < |Reasons| ==>
      opts[i + 1].value == Reasons[i] && opts[i + 1].labelKey == "form.reason." + Reasons[i]
  {
    [
      ReasonOption("", "form.select.reason"),
      ReasonOption("general", "form.reason.general"),
      ReasonOption("group", "form.reason.group"),
      ReasonOption("private", "form.reason.private"),
      ReasonOption("feedback", "form.reason.feedback"),
      ReasonOption("partnership", "form.reason.partnership")
    ]
  }

  /** The values the reason select can hold. */
  function ReasonValues(): set<string>
  {
    set opt | opt in ReasonOptions() :: opt.value
  }

  /** The reason is the placeholder "" or one of the five reasons, and the initial "" is the placeholder. */
  lemma ReasonValuesExactly()
    ensures ReasonValues() == {"", "general", "group", "private", "feedback", "partnership"}
    ensures InitialFields()["reason"] in ReasonValues()
  {
    var opts := ReasonOptions();
    assert opts[0].value == "" && opts[1].value == "general" && opts[2].value == "group";
    assert opts[3].value == "private" && opts[4].value == "feedback" && opts[5].value == "partnership";
  }

  /** Every label key is listed in the translation tables, so every option shows a translated text. */
  lemma ReasonLabelsListed()
    ensures forall opt :: opt in ReasonOptions() ==> opt.labelKey in L.TranslationKeys()
  {
    L.SectionKeysListed(L.Forms);
    var opts, keys := ReasonOptions(), L.SectionKeys(L.Forms);
    forall i | 0 <= i < |opts|
      ensures opts[i].labelKey in keys
    {
      assert opts[i].labelKey == keys[11 + i];
    }
  }

  /** The form's state: the field record and the status text. */
  class Form {
    var formData: map<string, string>
    var result: string

    /** formData holds exactly the form's fields, and the reason field one of the select's values. */
    ghost predicate Valid()
      reads this
    {
      && (forall f :: f in formData <==> f in FieldOrder)
      && formData["reason"] in ReasonValues()
    }

    constructor ()
      ensures formData == InitialFields() && result == Idle
      ensures Valid()
    {
      formData := InitialFields();
      result := Idle;
      ReasonValuesExactly();
    }

    /** handleChange: `{ ...formData, [name]: value }`. */
    method HandleChange(name: string, value: string)
      modifies this
      ensures formData == old(formData)[name := value]
      ensures result == old(result)
      ensures old(Valid()) && name in FieldOrder && (name == "reason" ==> value in ReasonValues()) ==> Valid()
    {
      formData := formData[name := value];
    }

    /** handleSubmit up to the request: the status shows "Sending..." and the body is built from the fields. */
    method HandleSubmit(accessKey: string) returns (body: seq<Field>)
      requires Valid()
      requires forall f :: f in RequiredFields ==> formData[f] != ""
      modifies this
      ensures result == Sending && formData == old(formData)
      ensures body == Payload(FieldOrder, formData, accessKey)
      ensures Decode(body) == formData[AccessKeyName := accessKey]
    {
      result := Sending;
      body := Payload(FieldOrder, formData, accessKey);
      PayloadRoundTrip(FieldOrder, formData, accessKey);
    }

    /**
     * handleSubmit after the request: the status becomes the outcome; the
     * fields are left as entered (the success branch's `form.reset()` acts on
     * the DOM only and is reported as an event).
     */
    method ReceiveResponse(response: EndpointResponse) returns (resetIssued: bool)
      modifies this
      ensures result == StatusAfter(response) && formData == old(formData)
      ensures resetIssued == ResetIssued(response)
    {
      result := StatusAfter(response);
      resetIssued := ResetIssued(response);
    }
  }
}
