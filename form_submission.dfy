/**
 * What the reservation form and the contact form share: the status text a
 * submission ends with, whether the form is reset, and the body posted to the
 * form endpoint. Both components carry their own copy of this logic
 * (src/components/ReservationForm.tsx and src/components/ContactForm.tsx);
 * the copies are identical, so it is modelled once.
 */
module FormSubmission {
  import opened Wrappers
  import opened JavaScript

  /** What the endpoint's answer amounts to once `response.json()` has been awaited. */
  datatype EndpointResponse =
    | Ok                                 // data.success is truthy
    | Rejected(message: Option<string>)  // data.success is falsy; data.message, when present
    | Threw                              // fetch or response.json() threw

  /** The status texts of the `result` state. */
  const Idle := ""
  const Sending := "Sending..."
  const Submitted := "Form Submitted Successfully"
  const Fallback := "An error occurred."
  const SubmissionError := "There was an error with the submission."

  /**
   * The status once the endpoint has answered: the success text, the
   * endpoint's message when it is truthy or else the fallback text, or the
   * submission-error text when the request threw.
   */
  function StatusAfter(response: EndpointResponse): (status: string)
    ensures status != Idle
    ensures response.Ok? ==> status == Submitted
    ensures response.Threw? ==> status == SubmissionError
    ensures response.Rejected? ==>
      status == Fallback || (response.message == Some(status) && Truthy(status))
    ensures response.Rejected? && response.message.Some? && Truthy(response.message.value) ==>
      status == response.message.value
  {
    match response
    case Ok => Submitted
    case Rejected(message) =>
      if message.Some? && Truthy(message.value) then message.value else Fallback
    case Threw => SubmissionError
  }

  /**
   * `form.reset()` is called on the success branch only: a reset always comes
   * with the success text, and without one the status shows some other text
   * unless the endpoint rejected the submission with that very text.
   */
  predicate ResetIssued(response: EndpointResponse): (reset: bool)
    ensures reset ==> StatusAfter(response) == Submitted
    ensures !reset ==> StatusAfter(response) != Submitted || response.Rejected?
  {
    response.Ok?
  }

  /**
   * Every completed submission ends on one of the three outcomes: the success
   * text, an error text, or a non-empty message the endpoint sent back with a
   * rejection. The status alone does not tell success apart: a rejection whose
   * message is the success text shows that text, and no reset is issued.
   */
  lemma StatusOutcomes(response: EndpointResponse)
    ensures StatusAfter(response) in {Submitted, Fallback, SubmissionError}
      || (response.Rejected? && response.message == Some(StatusAfter(response)))
    ensures !response.Rejected? ==>
      (ResetIssued(response) <==> StatusAfter(response) == Submitted)
    ensures response == Rejected(Some(Submitted)) ==>
      StatusAfter(response) == Submitted && !ResetIssued(response)
  {
  }

  /** One (name, value) pair of a posted FormData body. */
  type Field = (string, string)

  const AccessKeyName := "access_key"

  /** The named controls of a form, in document order, with their current values. */
  function Pairs(order: seq<string>, values: map<string, string>): (pairs: seq<Field>)
    requires forall f :: f in order ==> f in values
    ensures |pairs| == |order|
    ensures forall i :: 0 <= i < |order| ==> pairs[i] == (order[i], values[order[i]])
  {
    if order == [] then []
    else Pairs(order[..|order| - 1], values) + [(order[|order| - 1], values[order[|order| - 1]])]
  }

  /**
   * `new FormData(form)` followed by `formData.append("access_key", key)`:
   * the form's fields in document order, then the access key.
   */
  function Payload(order: seq<string>, values: map<string, string>, accessKey: string): (body: seq<Field>)
    requires forall f :: f in order ==> f in values
    ensures |body| == |order| + 1
    ensures body[..|order|] == Pairs(order, values)
    ensures body[|order|] == (AccessKeyName, accessKey)
  {
    Pairs(order, values) + [(AccessKeyName, accessKey)]
  }

  /** How a receiver reads a posted body back into named values; a later pair overrides an earlier one. */
  function Decode(body: seq<Field>): map<string, string>
  {
    if body == [] then map[]
    else Decode(body[..|body| - 1])[body[|body| - 1].0 := body[|body| - 1].1]
  }

  /** Decoding the fields of a form gives back the values of exactly the listed fields. */
  lemma {:induction false} DecodePairs(order: seq<string>, values: map<string, string>)
    requires forall f :: f in order ==> f in values
    ensures Decode(Pairs(order, values)) == map f | f in order :: values[f]
  {
    if order != [] {
      var init, last := order[..|order| - 1], order[|order| - 1];
      var pairs := Pairs(order, values);
      assert pairs[..|pairs| - 1] == Pairs(init, values);
      DecodePairs(init, values);
      assert forall f :: f in order <==> f in init || f == last;
    }
  }

  /**
   * The posted body carries every field of the form with its value, and the
   * access key besides: decoding it gives the field record plus `access_key`.
   */
  lemma PayloadRoundTrip(order: seq<string>, values: map<string, string>, accessKey: string)
    requires forall f :: f in order <==> f in values
    ensures Decode(Payload(order, values, accessKey)) == values[AccessKeyName := accessKey]
  {
    var body := Payload(order, values, accessKey);
    assert body[..|body| - 1] == Pairs(order, values);
    DecodePairs(order, values);
  }
}
