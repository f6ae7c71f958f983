/**
 * `EmailClassifier.classify_email` (app/services/email_classifier.py): the prompt f-string,
 * then the sanitising of the parsed reply, with the fallback classification for anything
 * that raises. The oracle call and `json.loads` are one input: the parsed reply, or `None`
 * when the call or the parse raised.
 *
 * The prompt decides the outcome. As written it ends with a JSON sample between single
 * braces, which Python reads as a replacement field with an invalid format spec, so
 * building the prompt raises and every call returns the fallback (`ClassifyEmail`). With
 * the braces doubled the prompt builds and the reply is sanitised (`ClassifyEmailEscaped`,
 * `Classification`).
 */
module Classifier {
  import opened Wrappers
  import opened Text
  import opened Json
  import opened EmailModels
  import opened FString
  import EmailSchemas

  /** `max(lo, min(hi, x))`. */
  function Clamp(lo: real, hi: real, x: real): (r: real)
    requires lo <= hi
    ensures lo <= r <= hi
    ensures lo <= x <= hi ==> r == x
    ensures x < lo ==> r == lo
    ensures hi < x ==> r == hi
  {
    var m := if x < hi then x else hi;
    if lo < m then m else lo
  }

  // ---------------------------------------------------------------- the prompt

  /** The prompt up to the subject. */
  const Intro := "\n            Analyze this customer support email for SLYFONE (virtual phone number service):\n\n            Subject: "

  const ContentLabel := "\n            Content: "

  /** The instructions between the body and the JSON sample, ending with the sample's
   *  indentation. */
  const Criteria :=
    "\n"
    + "\n"
    + "            Classify this email based on the following criteria and return a JSON object:\n"
    + "\n"
    + "            1. Main Categories (select one):\n"
    + "                - Account_Issues\n"
    + "                - Payment_Billing\n"
    + "                - Technical_Issues\n"
    + "                - Number_Management\n"
    + "                - Service_Questions\n"
    + "                - WhatsApp_Related\n"
    + "                - Other\n"
    + "\n"
    + "            2. Sub-Categories for each main category:\n"
    + "                Account_Issues:\n"
    + "                    - Login_Problems\n"
    + "                    - Password_Reset\n"
    + "                    - Email_Change\n"
    + "                    - Account_Recovery\n"
    + "                    - Account_Deletion\n"
    + "                Payment_Billing:\n"
    + "                    - Refund_Request\n"
    + "                    - Payment_Failed\n"
    + "                    - Subscription_Issues\n"
    + "                    - Billing_Questions\n"
    + "                    - Credit_Purchase\n"
    + "                Technical_Issues:\n"
    + "                    - App_Not_Working\n"
    + "                    - Call_Problems\n"
    + "                    - SMS_Issues\n"
    + "                    - Activation_Error\n"
    + "                    - Connection_Problems\n"
    + "                Number_Management:\n"
    + "                    - Number_Change\n"
    + "                    - Multiple_Numbers\n"
    + "                    - Number_Retrieval\n"
    + "                    - Port_Number\n"
    + "                    - Number_Cancellation\n"
    + "                Service_Questions:\n"
    + "                    - Features_Inquiry\n"
    + "                    - Pricing_Questions\n"
    + "                    - Coverage_Area\n"
    + "                    - Service_Comparison\n"
    + "                    - Usage_Instructions\n"
    + "                WhatsApp_Related:\n"
    + "                    - Verification_Issues\n"
    + "                    - OTP_Problems\n"
    + "                    - WhatsApp_Ban\n"
    + "                    - Registration_Error\n"
    + "                    - WhatsApp_Setup\n"
    + "\n"
    + "            3. Additional Classification:\n"
    + "                - Sentiment score (-1 to 1)\n"
    + "                - Urgency (LOW, MEDIUM, HIGH, CRITICAL)\n"
    + "                - Keywords (list of relevant terms)\n"
    + "                - Customer tone (frustrated, neutral, satisfied)\n"
    + "                - Response priority (1-5)\n"
    + "\n"
    + "            Return the analysis as a JSON object with these exact fields:\n"
    + "            "

  /** What Python reads as the sample's field expression: the string literal before the
   *  first colon. */
  const SampleKey := "main_category"

  /** What Python reads as the sample's format spec: everything after that colon up to the
   *  closing brace. */
  const SampleSpec :=
    " string,\n"
    + "                \"sub_category\": string,\n"
    + "                \"sentiment_score\": float,\n"
    + "                \"urgency\": string,\n"
    + "                \"keywords\": list[string],\n"
    + "                \"customer_tone\": string,\n"
    + "                \"priority\": int,\n"
    + "                \"confidence\": float,\n"
    + "                \"requires_escalation\": boolean\n"
    + "            "

  /** The JSON sample the prompt means to show, braces included. */
  const Sample := "{\n                \"" + SampleKey + "\":" + SampleSpec + "}"

  /** The text after the sample: the indentation of the closing quotes. */
  const Margin := "\n            "

  /** `str()` of the email dict's values, which are strings. */
  function ShowText(s: string): string { s }

  /** The prompt f-string as written. The sample between single braces is a replacement
   *  field: its expression is the literal "main_category" and its format spec the rest of
   *  the sample. */
  const WrittenPrompt: seq<Piece> :=
    [Lit(Intro), Field(Get("subject"), ""), Lit(ContentLabel), Field(Get("body"), ""),
     Lit(Criteria), Field(Str(SampleKey), SampleSpec), Lit(Margin)]

  /** The prompt with the sample's braces doubled: the sample is literal text. */
  const EscapedPrompt: seq<Piece> :=
    [Lit(Intro), Field(Get("subject"), ""), Lit(ContentLabel), Field(Get("body"), ""),
     Lit(Criteria), Lit(Sample), Lit(Margin)]

  /** As written, building the prompt raises the ValueError of the sample's format spec,
   *  whatever the email. */
  lemma WrittenPromptRaises(emailData: map<string, string>)
    ensures Render(WrittenPrompt, emailData, ShowText) == Failure(InvalidSpec(SampleSpec))
  {
    SpecRejected(SampleSpec);
    RenderFails(WrittenPrompt, emailData, ShowText, 5);
  }

  /** With the braces doubled the prompt builds for every email, and it shows the sample
   *  with its braces. */
  lemma EscapedPromptRenders(emailData: map<string, string>)
    ensures Render(EscapedPrompt, emailData, ShowText).Success?
    ensures Contains(Render(EscapedPrompt, emailData, ShowText).value, Sample)
  {
    RenderSucceeds(EscapedPrompt, emailData, ShowText);
    assert EscapedPrompt[5] == Lit(Sample);
  }

  // ---------------------------------------------------------------- the reply

  /** The record returned whenever anything in the try block raises. */
  function Fallback(): (c: Json)
    ensures c.JObj? && "urgency" in c.fields && c.fields["urgency"] == JStr("medium")
    ensures "confidence" in c.fields && c.fields["confidence"] == JNum(0.0)
    ensures "sentiment_score" in c.fields && c.fields["sentiment_score"] == JNum(0.0)
  {
    JObj(map[
      "main_category" := JStr("Other"),
      "sub_category" := JStr("Unknown"),
      "sentiment_score" := JNum(0.0),
      "urgency" := JStr(Medium.Value()),
      "keywords" := JArr([]),
      "customer_tone" := JStr("neutral"),
      "priority" := JNum(3.0),
      "confidence" := JNum(0.0),
      "requires_escalation" := JBool(false)
    ])
  }

  /** `v in [e.value for e in UrgencyLevel]`: only a string equal to a member's value. */
  predicate IsUrgencyValue(v: Json) {
    v.JStr? && v.s in UrgencyValues
  }

  /** The three keys the sanitiser overwrites. */
  const Sanitised: set<string> := {"urgency", "confidence", "sentiment_score"}

  /** A reply the sanitiser gets through without raising: a JSON object (anything else
   *  makes `classification["urgency"]` raise TypeError) that has an urgency, and a
   *  confidence and a sentiment score that `min`/`max` accept as numbers. */
  predicate Accepted(reply: Option<Json>) {
    && reply.Some? && reply.value.JObj?
    && "urgency" in reply.value.fields
    && "confidence" in reply.value.fields && AsNumber(reply.value.fields["confidence"]).Some?
    && "sentiment_score" in reply.value.fields && AsNumber(reply.value.fields["sentiment_score"]).Some?
  }

  /** `max(lo, min(hi, x))` on a parsed value. Python's `min` and `max` return one of their
   *  arguments: `min` the value only when it is below `hi`, `max` only when it is above
   *  `lo`. So a value strictly inside the bounds is kept as the very value it was, a bool
   *  included, and any other becomes the float bound it reaches. */
  function ClampValue(lo: real, hi: real, v: Json): (r: Json)
    requires lo <= hi && AsNumber(v).Some?
    ensures AsNumber(r).Some? && AsNumber(r).value == Clamp(lo, hi, AsNumber(v).value)
    ensures lo < AsNumber(v).value < hi ==> r == v
    ensures !(lo < AsNumber(v).value < hi) ==> r == JNum(Clamp(lo, hi, AsNumber(v).value))
  {
    var m := if AsNumber(v).value < hi then v else JNum(hi);
    if lo < AsNumber(m).value then m else JNum(lo)
  }

  /** The classification as the code leaves it once the prompt builds: the three checked
   *  keys replaced, every other key as the oracle sent it, or the fallback. */
  function Classification(reply: Option<Json>): Json {
    if !Accepted(reply) then Fallback()
    else
      var fields := reply.value.fields;
      var urgency := if IsUrgencyValue(fields["urgency"]) then fields["urgency"] else JStr("medium");
      JObj(fields + map[
        "urgency" := urgency,
        "confidence" := ClampValue(0.0, 1.0, fields["confidence"]),
        "sentiment_score" := ClampValue(-1.0, 1.0, fields["sentiment_score"])
      ])
  }

  /** `classify_email` with a given prompt template: the fallback when building the prompt
   *  raises, else the sanitised reply. */
  function Classify(prompt: seq<Piece>, emailData: map<string, string>, reply: Option<Json>): Json {
    if Render(prompt, emailData, ShowText).Failure? then Fallback() else Classification(reply)
  }

  /** What every classification promises its caller: a dict whose urgency is one of the
   *  four enum values, whose confidence is a number in [0, 1], and whose sentiment compares
   *  as a number in [-1, 1] (a `false` sentiment stays a bool). */
  predicate InRange(c: Json) {
    && c.JObj?
    && "urgency" in c.fields && IsUrgencyValue(c.fields["urgency"])
    && "confidence" in c.fields && c.fields["confidence"].JNum?
    && 0.0 <= c.fields["confidence"].n <= 1.0
    && "sentiment_score" in c.fields && AsNumber(c.fields["sentiment_score"]).Some?
    && -1.0 <= AsNumber(c.fields["sentiment_score"]).value <= 1.0
  }

  /** The body of `classify_email` for a given prompt template: build the prompt, then
   *  overwrite the urgency, the confidence and the sentiment of the parsed dict one after
   *  the other; any exception on the way yields the fallback. */
  method ClassifyWith(prompt: seq<Piece>, emailData: map<string, string>, reply: Option<Json>)
    returns (c: Json)
    ensures c == Classify(prompt, emailData, reply)
    ensures InRange(c)
    ensures !Accepted(reply) ==> c == Fallback()
  {
    ClassificationInRange(prompt, emailData, reply);
    var text := Render(prompt, emailData, ShowText);
    if text.Failure? || reply.None? || !reply.value.JObj? {
      return Fallback();
    }
    var classification := reply.value.fields;
    if "urgency" !in classification {
      return Fallback();
    }
    if !IsUrgencyValue(classification["urgency"]) {
      classification := classification["urgency" := JStr(Medium.Value())];
    }
    if "confidence" !in classification || AsNumber(classification["confidence"]).None? {
      return Fallback();
    }
    classification := classification["confidence" := ClampValue(0.0, 1.0, classification["confidence"])];
    if "sentiment_score" !in classification || AsNumber(classification["sentiment_score"]).None? {
      return Fallback();
    }
    classification := classification["sentiment_score" := ClampValue(-1.0, 1.0, classification["sentiment_score"])];
    c := JObj(classification);
    assert c.fields == Classification(reply).fields;
  }

  /** `classify_email` as written: building the prompt raises, so the fallback comes back
   *  for every email and every reply, and the reply is never read. */
  method ClassifyEmail(emailData: map<string, string>, reply: Option<Json>) returns (c: Json)
    ensures c == Classify(WrittenPrompt, emailData, reply)
    ensures c == Fallback()
  {
    c := ClassifyWith(WrittenPrompt, emailData, reply);
    WrittenPromptRaises(emailData);
  }

  /** `classify_email` with the sample's braces doubled: the reply is sanitised. */
  method ClassifyEmailEscaped(emailData: map<string, string>, reply: Option<Json>) returns (c: Json)
    ensures c == Classify(EscapedPrompt, emailData, reply)
    ensures c == Classification(reply)
    ensures InRange(c)
  {
    c := ClassifyWith(EscapedPrompt, emailData, reply);
    EscapedPromptRenders(emailData);
  }

  /** As written the outcome does not depend on the reply: two replies, however different,
   *  give the same classification, the fallback. */
  lemma WrittenClassifyIgnoresReply(emailData: map<string, string>, reply1: Option<Json>, reply2: Option<Json>)
    ensures Classify(WrittenPrompt, emailData, reply1) == Classify(WrittenPrompt, emailData, reply2) == Fallback()
  {
    WrittenPromptRaises(emailData);
  }

  /** With the braces doubled the outcome is the sanitised reply. */
  lemma EscapedClassifyIsClassification(emailData: map<string, string>, reply: Option<Json>)
    ensures Classify(EscapedPrompt, emailData, reply) == Classification(reply)
  {
    EscapedPromptRenders(emailData);
  }

  /** Whatever the prompt and the oracle do, the classification is in range. */
  lemma ClassificationInRange(prompt: seq<Piece>, emailData: map<string, string>, reply: Option<Json>)
    ensures InRange(Classification(reply))
    ensures InRange(Classify(prompt, emailData, reply))
  {
  }

  /** Once the prompt builds, an accepted reply keeps every key, and every key but the
   *  three checked ones keeps its value. The confidence becomes the number clamped to
   *  [0, 1]; a sentiment strictly inside (-1, 1) is kept as sent, a bool included, and any
   *  other goes to the bound it reaches; an urgency outside the enum becomes "medium". */
  lemma ClassificationOfAccepted(reply: Option<Json>)
    requires Accepted(reply)
    ensures var c := Classification(reply).fields; var f := reply.value.fields;
      && c.Keys == f.Keys
      && (forall k :: k in f && k !in Sanitised ==> c[k] == f[k])
      && c["urgency"] == (if IsUrgencyValue(f["urgency"]) then f["urgency"] else JStr("medium"))
      && (0.0 <= AsNumber(f["confidence"]).value <= 1.0 ==> c["confidence"] == JNum(AsNumber(f["confidence"]).value))
      && (AsNumber(f["confidence"]).value < 0.0 ==> c["confidence"] == JNum(0.0))
      && (1.0 < AsNumber(f["confidence"]).value ==> c["confidence"] == JNum(1.0))
      && (-1.0 < AsNumber(f["sentiment_score"]).value < 1.0 ==> c["sentiment_score"] == f["sentiment_score"])
      && (AsNumber(f["sentiment_score"]).value <= -1.0 ==> c["sentiment_score"] == JNum(-1.0))
      && (1.0 <= AsNumber(f["sentiment_score"]).value ==> c["sentiment_score"] == JNum(1.0))
  {
  }

  /** A missing or non-numeric confidence or sentiment, a missing urgency, a reply that is
   *  not an object, and a failed call all give exactly the fallback. */
  lemma FallbackOnFailure(reply: Option<Json>)
    requires reply.None? || !reply.value.JObj? || "urgency" !in reply.value.fields
          || "confidence" !in reply.value.fields || "sentiment_score" !in reply.value.fields
    ensures Classification(reply) == Fallback()
  {
  }

  /** Sanitising is idempotent: a classification fed back through the check comes out
   *  unchanged. */
  lemma ClassificationIdempotent(reply: Option<Json>)
    ensures Classification(Some(Classification(reply))) == Classification(reply)
  {
    var c := Classification(reply);
    assert Accepted(Some(c));
    var again := Classification(Some(c));
    assert again.fields.Keys == c.fields.Keys;
    forall k | k in c.fields ensures again.fields[k] == c.fields[k] {
    }
  }

  /** The fields a classification hands to the `EmailClassification` schema pass its
   *  bounds: the sanitiser and the schema agree. */
  lemma ClassificationPassesSchema(reply: Option<Json>, mainCategory: string, subCategory: string,
                                   keywords: seq<string>)
    ensures var c := Classification(reply).fields;
      EmailSchemas.ValidateClassification(mainCategory, subCategory, c["confidence"].n, keywords,
                                          AsNumber(c["sentiment_score"]).value, c["urgency"].s).Success?
  {
    ClassificationInRange(EscapedPrompt, map[], reply);
  }

  /** The urgency check compares case-sensitively with the lower-case values, while the
   *  prompt asks the oracle for "LOW", "MEDIUM", "HIGH" or "CRITICAL": a reply that
   *  follows the prompt is recorded as "medium", whichever level it names. */
  lemma UppercaseUrgencyBecomesMedium(fields: map<string, Json>, u: UrgencyLevel)
    requires "urgency" in fields && fields["urgency"] == JStr(UpperValue(u))
    requires "confidence" in fields && fields["confidence"].JNum?
    requires "sentiment_score" in fields && fields["sentiment_score"].JNum?
    ensures Classification(Some(JObj(fields))).fields["urgency"] == JStr("medium")
  {
    assert UpperValue(u) !in UrgencyValues by {
      assert UpperValue(u)[0] !in "lmhc";
    }
  }

  /** The urgency check as the prompt evidently intends it: case-insensitive, storing the
   *  lower-case member value. */
  function IntendedUrgency(v: Json): (u: Json)
    ensures IsUrgencyValue(u)
    ensures v.JStr? && Lower(v.s) in UrgencyValues ==> u == JStr(Lower(v.s))
    ensures !(v.JStr? && Lower(v.s) in UrgencyValues) ==> u == JStr("medium")
  {
    if v.JStr? && Lower(v.s) in UrgencyValues then JStr(Lower(v.s)) else JStr("medium")
  }

  /** The classification with the intended urgency check; everything else as written. */
  function IntendedClassification(reply: Option<Json>): (c: Json)
    ensures InRange(c)
  {
    if !Accepted(reply) then Fallback()
    else
      var c := Classification(reply);
      JObj(c.fields["urgency" := IntendedUrgency(reply.value.fields["urgency"])])
  }

  /** With the intended check every prompt-conforming answer keeps its level. */
  lemma IntendedKeepsPromptUrgency(fields: map<string, Json>, u: UrgencyLevel)
    requires "confidence" in fields && fields["confidence"].JNum?
    requires "sentiment_score" in fields && fields["sentiment_score"].JNum?
    ensures IntendedClassification(Some(JObj(fields["urgency" := JStr(UpperValue(u))]))).fields["urgency"]
            == JStr(u.Value())
  {
    var upper := fields["urgency" := JStr(UpperValue(u))];
    assert Accepted(Some(JObj(upper)));
    LevelNamesLower(u);
  }

  /** Answers already in lower case are treated as before. */
  lemma IntendedAgreesOnLowercase(fields: map<string, Json>, u: UrgencyLevel)
    requires "confidence" in fields && fields["confidence"].JNum?
    requires "sentiment_score" in fields && fields["sentiment_score"].JNum?
    ensures IntendedClassification(Some(JObj(fields["urgency" := JStr(u.Value())])))
            == Classification(Some(JObj(fields["urgency" := JStr(u.Value())])))
  {
    var lower := fields["urgency" := JStr(u.Value())];
    assert Accepted(Some(JObj(lower)));
    LevelNamesLower(u);
    ClassificationOfAccepted(Some(JObj(lower)));
    var c := Classification(Some(JObj(lower)));
    assert IntendedUrgency(lower["urgency"]) == JStr(u.Value());
    assert IntendedClassification(Some(JObj(lower))) == JObj(c.fields["urgency" := JStr(u.Value())]);
    UpdateUnchanged(c.fields, "urgency", JStr(u.Value()));
  }

  /** Storing the value a key already holds changes nothing. */
  lemma UpdateUnchanged(m: map<string, Json>, k: string, v: Json)
    requires k in m && m[k] == v
    ensures m[k := v] == m
  {
  }

  /** The level names as the prompt spells them. */
  function UpperValue(u: UrgencyLevel): string {
    match u
    case Low => "LOW"
    case Medium => "MEDIUM"
    case High => "HIGH"
    case Critical => "CRITICAL"
  }

  /** Lower-casing the prompt's spelling of a level gives its stored value, which
   *  lower-casing leaves alone. */
  lemma LevelNamesLower(u: UrgencyLevel)
    ensures Lower(UpperValue(u)) == u.Value()
    ensures Lower(u.Value()) == u.Value()
  {
    var up, v := UpperValue(u), u.Value();
    assert |up| == |v|;
    forall i | 0 <= i < |v| ensures LowerChar(up[i]) == v[i] && LowerChar(v[i]) == v[i] {
      match u
      case Low =>
      case Medium =>
      case High =>
      case Critical =>
    }
    LowerPointwise(up, v);
    LowerPointwise(v, v);
  }

  /** `_extract_keywords(text)`: a stub that finds no keywords, whatever the text. */
  function ExtractKeywords(text: string): (keywords: seq<string>)
    ensures |keywords| == 0
  {
    []
  }

  /** `_calculate_urgency(text, sentiment)`: a stub that always answers "medium". */
  function CalculateUrgency(text: string, sentiment: real): (u: string)
    ensures u == Medium.Value() && u in UrgencyValues
  {
    Medium.Value()
  }
}
