/**
 * The table reservation form (src/components/ReservationForm.tsx): a record
 * of four fields updated one field at a time, a status text, and the guest
 * count select with the options 1 to 8.
 */
module ReservationForm {
  import opened FormSubmission
  import L = LanguageContext

  /** The form's named controls, in document order. */
  const FieldOrder: seq<string> := ["name", "date", "time", "guests"]

  /**
   * The controls marked `required`; the browser dispatches `submit` only when
   * none of them is empty.
   */
  const RequiredFields: seq<string> := ["name", "date", "time"]

  /** useState({ name: "", date: "", time: "", guests: "2" }) */
  function InitialFields(): map<string, string>
  {
    map["name" := "", "date" := "", "time" := "", "guests" := "2"]
  }

  /** The one-character decimal numeral of a digit: how a number in 0..9 becomes an attribute value. */
  function Digit(n: int): (s: string)
    requires 0 <= n <= 9
    ensures |s| == 1 && '0' <= s[0] <= '9'
    ensures s[0] as int - '0' as int == n
  {
    [('0' as int + n) as char]
  }

  /** One `<option value={num}>{num} {t(labelKey)}</option>` of the guests select. */
  datatype GuestOption = GuestOption(count: nat, value: string, labelKey: string)

  function GuestOptionFor(num: nat): GuestOption
    requires 1 <= num <= 8
  {
    GuestOption(num, Digit(num), if num == 1 then "form.person" else "form.people")
  }

  /** `[1, 2, 3, 4, 5, 6, 7, 8].map(num => …)` */
  function GuestOptions(): (opts: seq<GuestOption>)
    ensures |opts| == 8
    ensures forall i :: 0 <= i < 8 ==> opts[i].count == i + 1 && opts[i].value == Digit(i + 1)
    ensures forall i :: 0 <= i < 8 ==> (opts[i].labelKey == "form.person" <==> opts[i].count == 1)
    ensures forall i :: 0 <= i < 8 ==> opts[i].labelKey in {"form.person", "form.people"}
  {
    seq(8, i requires 0 <= i < 8 => GuestOptionFor(i + 1))
  }

  /** The values the guests select can hold. */
  function GuestValues(): set<string>
  {
    set opt | opt in GuestOptions() :: opt.value
  }

  /** The eight options carry eight different values, and the initial count "2" is one of them. */
  lemma GuestValuesDistinct()
    ensures forall i, j :: 0 <= i < j < 8 ==> GuestOptions()[i].value != GuestOptions()[j].value
    ensures InitialFields()["guests"] in GuestValues()
  {
    assert GuestOptions()[1].value == "2";
  }

  /** Both label keys are listed in the translation tables, so every label shows a translated text. */
  lemma GuestLabelsListed()
    ensures forall opt :: opt in GuestOptions() ==> opt.labelKey in L.TranslationKeys()
  {
    L.SectionKeysListed(L.Forms);
    assert L.SectionKeys(L.Forms)[4] == "form.person";
    assert L.SectionKeys(L.Forms)[5] == "form.people";
  }

  /** The form's state: the field record and the status text. */
  class Form {
    var formData: map<string, string>
    var result: string

    /** formData holds exactly the form's fields, and the guests field one of the select's values. */
    ghost predicate Valid()
      reads this
    {
      && (forall f :: f in formData <==> f in FieldOrder)
      && formData["guests"] in GuestValues()
    }

    constructor ()
      ensures formData == InitialFields() && result == Idle
      ensures Valid()
    {
      formData := InitialFields();
      result := Idle;
      GuestValuesDistinct();
    }

    /** handleChange: `{ ...formData, [name]: value }`. */
    method HandleChange(name: string, value: string)
      modifies this
      ensures formData == old(formData)[name := value]
      ensures result == old(result)
      ensures old(Valid()) && name in FieldOrder && (name == "guests" ==> value in GuestValues()) ==> Valid()
    {
      formData := formData[name := value];
    }

    /** handleSubmit up to the request: the status shows "Sending..." and the body is built from the fields. */
    method HandleSubmit(accessKey: string) returns (body: seq<Field>)
      requires Valid()
      requires forall f :: f in RequiredFields ==> formData[f] != ""
      modifies this
      ensures result == Sending && formData == old(formData)
      ensures body == Payload(FieldOrder, formData, accessKey)
      ensures Decode(body) == formData[AccessKeyName := accessKey]
    {
      result := Sending;
      body := Payload(FieldOrder, formData, accessKey);
      PayloadRoundTrip(FieldOrder, formData, accessKey);
    }

    /** handleSubmit after the request: the status becomes the outcome; the fields are not touched. */
    method ReceiveResponse(response: EndpointResponse) returns (resetIssued: bool)
      modifies this
      ensures result == StatusAfter(response) && formData == old(formData)
      ensures resetIssued == ResetIssued(response)
    {
      result := StatusAfter(response);
      resetIssued := ResetIssued(response);
    }
  }
}
