/**
 * The request/response schemas of the support pipeline (app/schemas/email.py): the
 * defaults of `EmailCreate`, the bounds `EmailClassification` enforces, and the
 * `DateRange` validator. A pydantic validation error is a `Failure` listing the names of
 * the fields that failed, in declaration order.
 */
module EmailSchemas {
  import opened Wrappers
  import opened Json
  import opened EmailModels

  datatype EmailCreate = EmailCreate(
    subject: string,
    body: string,
    senderEmail: string,
    senderName: Option<string>,
    recipientEmail: string,
    messageId: string,
    threadId: Option<string>,
    isReply: bool,
    additionalData: Option<Json>)

  /** An `EmailCreate` built from the required fields alone. */
  function EmailCreateWithDefaults(subject: string, body: string, senderEmail: string,
                                   recipientEmail: string, messageId: string): (c: EmailCreate)
    ensures !c.isReply && c.threadId.None? && c.additionalData.None? && c.senderName.None?
    ensures c.subject == subject && c.body == body && c.messageId == messageId
    ensures c.senderEmail == senderEmail && c.recipientEmail == recipientEmail
  {
    EmailCreate(subject, body, senderEmail, None, recipientEmail, messageId, None, false, None)
  }

  datatype EmailClassification = EmailClassification(
    mainCategory: string,
    subCategory: string,
    classificationConfidence: real,
    keywords: seq<string>,
    sentimentScore: real,
    urgency: UrgencyLevel)

  predicate ConfidenceInRange(c: real) { 0.0 <= c <= 1.0 }
  predicate SentimentInRange(s: real) { -1.0 <= s <= 1.0 }

  /** Validating an `EmailClassification`: `Field(..., ge=0.0, le=1.0)` on the confidence,
   *  `Field(..., ge=-1.0, le=1.0)` on the sentiment, and the urgency must be the value of a
   *  `UrgencyLevel` member. */
  function ValidateClassification(mainCategory: string, subCategory: string, confidence: real,
                                  keywords: seq<string>, sentiment: real, urgency: string)
    : (r: Result<EmailClassification, seq<string>>)
    ensures r.Success? <==>
      ConfidenceInRange(confidence) && SentimentInRange(sentiment) && urgency in UrgencyValues
    ensures r.Success? ==>
      r.value.mainCategory == mainCategory && r.value.subCategory == subCategory &&
      r.value.classificationConfidence == confidence && r.value.keywords == keywords &&
      r.value.sentimentScore == sentiment && r.value.urgency.Value() == urgency
    ensures r.Failure? ==>
      ("classification_confidence" in r.error <==> !ConfidenceInRange(confidence)) &&
      ("sentiment_score" in r.error <==> !SentimentInRange(sentiment)) &&
      ("urgency" in r.error <==> urgency !in UrgencyValues)
  {
    var errors :=
      (if ConfidenceInRange(confidence) then [] else ["classification_confidence"]) +
      (if SentimentInRange(sentiment) then [] else ["sentiment_score"]) +
      (if urgency in UrgencyValues then [] else ["urgency"]);
    if errors == [] then
      Success(EmailClassification(mainCategory, subCategory, confidence, keywords, sentiment,
                                  ParseUrgency(urgency).value))
    else Failure(errors)
  }

  datatype DateRange = DateRange(startDate: int, endDate: int)

  const EndBeforeStart := "end_date must be after start_date"

  /** `end_date_must_be_after_start_date(v, values)`. `startDate` is `values.get('start_date')`:
   *  absent when the start failed its own validation. */
  function EndDateMustBeAfterStartDate(v: int, startDate: Option<int>): (r: Result<int, string>)
    ensures r.Failure? <==> startDate.Some? && v < startDate.value
    ensures r.Success? ==> r.value == v
    ensures r.Failure? ==> r.error == EndBeforeStart
  {
    if startDate.Some? && v < startDate.value then Failure(EndBeforeStart) else Success(v)
  }

  datatype FieldError = FieldError(field: string, message: string)

  /** Building a `DateRange`. `start` is None when `start_date` is missing;
   *  an omitted `end` takes `now` from the default factory, and pydantic does not run the
   *  validator on a default. */
  function ValidateDateRange(start: Option<int>, end: Option<int>, now: int)
    : (r: Result<DateRange, seq<FieldError>>)
    ensures r.Success? <==> start.Some? && (end.None? || start.value <= end.value)
    ensures r.Success? ==> r.value.startDate == start.value && r.value.endDate == end.GetOr(now)
    ensures start.None? ==> r == Failure([FieldError("start_date", "field required")])
  {
    var endResult :=
      if end.None? then Success(now) else EndDateMustBeAfterStartDate(end.value, start);
    var endErrors := if endResult.Failure? then [FieldError("end_date", endResult.error)] else [];
    if start.None? then
      // without a start the end validator has nothing to compare with and passes
      assert endErrors == [];
      Failure([FieldError("start_date", "field required")])
    else if endErrors != [] then Failure(endErrors)
    else Success(DateRange(start.value, endResult.value))
  }

  /** An omitted end date is never checked against the start, even when the start lies in
   *  the future. */
  lemma DefaultEndDateUnchecked(start: int, now: int)
    requires now < start
    ensures ValidateDateRange(Some(start), None, now) == Success(DateRange(start, now))
  {
  }
}
