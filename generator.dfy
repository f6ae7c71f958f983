/**
 * `ResponseGenerator.generate_response` (app/services/response_generator.py): the context,
 * the prompt f-string, and the signing of the parsed reply, with the fallback reply for
 * anything that raises; also `_build_context` and `_get_response_template`. The oracle
 * call and `json.loads` are one input: the parsed reply, or a failure carrying the
 * exception text.
 *
 * The prompt decides the outcome. As written it ends with a JSON sample between single
 * braces, which Python reads as a replacement field with an invalid format spec. Building
 * the prompt therefore raises: a KeyError for the first classification key missing, else
 * that ValueError, and every call returns the fallback reply (`GenerateResponse`). With the
 * braces doubled the prompt builds and the reply is signed (`GenerateResponseEscaped`,
 * `Response`).
 */
module Generator {
  import opened Wrappers
  import opened Text
  import opened Json
  import opened EmailModels
  import opened FString
  import Classifier

  const Mark := "Best regards"
  const SignatureTail := ",\nDee\nSLYFONE Support Team"
  /** The closing block appended to a reply that lacks one. */
  const Signature := "\n\n" + Mark + SignatureTail

  /** `if "Best regards" not in text: text += signature`. */
  function AppendSignature(text: string): (r: string)
    ensures Contains(r, Mark)
    ensures Contains(text, Mark) ==> r == text
    ensures !Contains(text, Mark) ==> r == text + Signature
  {
    if Contains(text, Mark) then text
    else
      assert text + Signature == (text + "\n\n") + Mark + SignatureTail;
      ContainsMiddle(text + "\n\n", Mark, SignatureTail);
      text + Signature
  }

  /** Appending the signature twice is appending it once. */
  lemma AppendSignatureIdempotent(text: string)
    ensures AppendSignature(AppendSignature(text)) == AppendSignature(text)
  {
  }

  /** Appending the signature only ever extends the reply: the original text is kept as a
   *  prefix. */
  lemma AppendSignatureKeepsText(text: string)
    ensures IsPrefix(text, AppendSignature(text))
  {
    assert AppendSignature(text)[..|text|] == text;
  }

  const Apology := "I apologize, but I'm having trouble generating a response. I'll escalate this to our support team who will get back to you shortly."

  /** The fallback reply text: an apology closed by the signature. */
  const FallbackText := Apology + Signature

  /** Why the try block raised. A missing key is a KeyError, whose text is the quoted key;
   *  a value of the wrong type is a TypeError; a format spec a str refuses is a ValueError;
   *  an oracle failure carries its own text. */
  datatype GenError =
    | MissingKey(key: string)
    | TypeMismatch
    | FormatSpecError(spec: string)
    | OracleError(message: string)

  /** `str(e)`. */
  function Describe(e: GenError): string {
    match e
    case MissingKey(k) => "'" + k + "'"
    case TypeMismatch => "TypeError"
    case FormatSpecError(spec) => "Invalid format specifier '" + spec + "' for object of type 'str'"
    case OracleError(m) => m
  }

  /** The record returned when anything in the try block raises. */
  function FallbackResponse(e: GenError): (r: Json)
    ensures r.JObj? && "response_text" in r.fields && r.fields["response_text"] == JStr(FallbackText)
  {
    JObj(map[
      "response_text" := JStr(FallbackText),
      "suggested_actions" := JArr([JStr("Escalate to supervisor")]),
      "internal_notes" := JStr("Error generating response: " + Describe(e)),
      "requires_follow_up" := JBool(true),
      "escalation_needed" := JBool(true),
      "template_used" := JStr("error_fallback")
    ])
  }

  /** The fallback asks for follow-up and escalation, names its template, suggests
   *  escalating, and its text carries the signature. */
  lemma FallbackShape(e: GenError)
    ensures var f := FallbackResponse(e).fields;
      && f["requires_follow_up"] == JBool(true) && f["escalation_needed"] == JBool(true)
      && f["template_used"] == JStr("error_fallback")
      && f["suggested_actions"] == JArr([JStr("Escalate to supervisor")])
      && Contains(f["response_text"].s, Mark)
  {
    assert FallbackText == (Apology + "\n\n") + Mark + SignatureTail;
    ContainsMiddle(Apology + "\n\n", Mark, SignatureTail);
  }

  /** The classification keys the prompt reads, in the order the f-string reads them. */
  const PromptKeys: seq<string> := ["main_category", "sub_category", "customer_tone", "urgency", "sentiment_score"]

  /** The first of `keys` missing from `fields`: the key whose KeyError escapes first. */
  function FirstMissing(keys: seq<string>, fields: map<string, Json>): (r: Option<string>)
    ensures r.None? <==> forall k :: k in keys ==> k in fields
    ensures r.Some? ==> r.value in keys && r.value !in fields
  {
    if keys == [] then None
    else if keys[0] !in fields then Some(keys[0])
    else FirstMissing(keys[1..], fields)
  }

  /** The characters of a string as one-character strings: what `list += str` appends. */
  function Chars(s: string): (items: seq<Json>)
    ensures |items| == |s| && forall i :: 0 <= i < |s| ==> items[i] == JStr([s[i]])
  {
    seq(|s|, i requires 0 <= i < |s| => JStr([s[i]]))
  }

  /** The signature step on whatever value `response_text` holds. On a string it appends
   *  the signature when missing; on a list `in` tests membership and `+=` extends the list
   *  with the signature's characters; on a dict `in` tests the keys and `+=` raises; on
   *  anything else `in` raises. */
  function SignResponseText(v: Json): (r: Result<Json, GenError>)
    ensures v.JStr? ==> r == Success(JStr(AppendSignature(v.s)))
  {
    match v
    case JStr(t) => Success(JStr(AppendSignature(t)))
    case JArr(items) => if JStr(Mark) in items then Success(v) else Success(JArr(items + Chars(Signature)))
    case JObj(m) => if Mark in m then Success(v) else Failure(TypeMismatch)
    case _ => Failure(TypeMismatch)
  }

  /** The part of the try block after the prompt: parse the oracle's dict and sign its
   *  text in place. */
  function SignedReply(reply: Result<Json, string>): Json {
    if reply.Failure? then FallbackResponse(OracleError(reply.error))
    else if !reply.value.JObj? then FallbackResponse(TypeMismatch)
    else if "response_text" !in reply.value.fields then FallbackResponse(MissingKey("response_text"))
    else
      match SignResponseText(reply.value.fields["response_text"])
      case Failure(e) => FallbackResponse(e)
      case Success(v) => JObj(reply.value.fields["response_text" := v])
  }

  /** The response dict once the prompt builds: a KeyError for the first classification key
   *  the prompt reads and does not find, else the signed reply. */
  function Response(classification: Json, reply: Result<Json, string>): Json {
    if !classification.JObj? then FallbackResponse(TypeMismatch)
    else if FirstMissing(PromptKeys, classification.fields).Some? then
      FallbackResponse(MissingKey(FirstMissing(PromptKeys, classification.fields).value))
    else SignedReply(reply)
  }

  /** `generate_response` with a given prompt: the fallback for what building it raises,
   *  else the signed reply. A classification that is no dict raises TypeError at the
   *  prompt's first field, `classification['main_category']`. */
  function Generate(prompt: seq<Piece>, classification: Json, reply: Result<Json, string>,
                    show: Json -> string): Json {
    if !classification.JObj? then FallbackResponse(TypeMismatch)
    else
      match Render(prompt, classification.fields, show)
      case Failure(KeyError(k)) => FallbackResponse(MissingKey(k))
      case Failure(InvalidSpec(spec)) => FallbackResponse(FormatSpecError(spec))
      case Success(_) => SignedReply(reply)
  }

  /** What the caller receives. */
  predicate Delivered(r: Json) {
    r.JObj? && "response_text" in r.fields &&
    (r.fields["response_text"].JStr? ==> Contains(r.fields["response_text"].s, Mark))
  }

  /** The body of `generate_response(email, classification, customer)` for a given prompt
   *  template: build the context, build the prompt from the classification, take the
   *  oracle's dict and append the signature to its text in place; any exception yields the
   *  fallback. `show` is `str()` of a classification value. */
  method GenerateWith(template: (Email, Context) -> seq<Piece>, email: Email, classification: Json,
                      customer: Option<Customer>, reply: Result<Json, string>,
                      formatDate: int -> string, show: Json -> string)
    returns (r: Json)
    ensures r == Generate(template(email, BuildContext(customer, formatDate)), classification, reply, show)
    ensures Delivered(r)
  {
    FallbackShape(TypeMismatch);
    var context := BuildContext(customer, formatDate);
    if !classification.JObj? {
      return FallbackResponse(TypeMismatch);
    }
    var prompt := Render(template(email, context), classification.fields, show);
    if prompt.Failure? {
      match prompt.error
      case KeyError(k) => return FallbackResponse(MissingKey(k));
      case InvalidSpec(spec) => return FallbackResponse(FormatSpecError(spec));
    }
    if reply.Failure? {
      return FallbackResponse(OracleError(reply.error));
    }
    if !reply.value.JObj? {
      return FallbackResponse(TypeMismatch);
    }
    var responseData := reply.value.fields;
    if "response_text" !in responseData {
      return FallbackResponse(MissingKey("response_text"));
    }
    var signed := SignResponseText(responseData["response_text"]);
    if signed.Failure? {
      return FallbackResponse(signed.error);
    }
    responseData := responseData["response_text" := signed.value];
    r := JObj(responseData);
    SignedReplyDelivered(reply);
  }

  /** `generate_response` as written: building the prompt raises, so the fallback comes
   *  back for every reply. Its notes name the first classification key missing, or else
   *  the sample's format spec. */
  method GenerateResponse(email: Email, classification: Json, customer: Option<Customer>,
                          reply: Result<Json, string>, formatDate: int -> string, show: Json -> string)
    returns (r: Json)
    ensures r == Generate(WrittenPrompt(email, BuildContext(customer, formatDate)), classification, reply, show)
    ensures !classification.JObj? ==> r == FallbackResponse(TypeMismatch)
    ensures classification.JObj? && FirstMissing(PromptKeys, classification.fields).Some? ==>
              r == FallbackResponse(MissingKey(FirstMissing(PromptKeys, classification.fields).value))
    ensures classification.JObj? && FirstMissing(PromptKeys, classification.fields).None? ==>
              r == FallbackResponse(FormatSpecError(ReplySampleSpec))
    ensures Delivered(r)
  {
    r := GenerateWith(WrittenPrompt, email, classification, customer, reply, formatDate, show);
    if classification.JObj? {
      WrittenPromptRaises(email, BuildContext(customer, formatDate), classification.fields, show);
    }
  }

  /** `generate_response` with the sample's braces doubled: the response once the prompt
   *  builds. */
  method GenerateResponseEscaped(email: Email, classification: Json, customer: Option<Customer>,
                                 reply: Result<Json, string>, formatDate: int -> string,
                                 show: Json -> string)
    returns (r: Json)
    ensures r == Generate(EscapedPrompt(email, BuildContext(customer, formatDate)), classification, reply, show)
    ensures r == Response(classification, reply)
    ensures Delivered(r)
  {
    r := GenerateWith(EscapedPrompt, email, classification, customer, reply, formatDate, show);
    EscapedIsResponse(email, BuildContext(customer, formatDate), classification, reply, show);
  }

  /** Whatever the oracle does, the signed reply is a dict with a `response_text`, and a
   *  textual `response_text` carries the signature. */
  lemma SignedReplyDelivered(reply: Result<Json, string>)
    ensures Delivered(SignedReply(reply))
  {
    var r := SignedReply(reply);
    if r.fields["response_text"] == JStr(FallbackText) {
      FallbackShape(TypeMismatch);
    }
  }

  /** Whatever the prompt, the classification and the oracle do, the result is a dict with
   *  a `response_text`, and a textual `response_text` always carries the signature. */
  lemma ResponseDelivered(prompt: seq<Piece>, classification: Json, reply: Result<Json, string>,
                          show: Json -> string)
    ensures Delivered(Response(classification, reply))
    ensures Delivered(Generate(prompt, classification, reply, show))
  {
    FallbackShape(TypeMismatch);
    SignedReplyDelivered(reply);
  }

  /** Once the prompt builds, a well-formed reply keeps all its fields; only the text
   *  changes, and only by the signature step. */
  lemma ResponsePassesThrough(classification: Json, reply: Result<Json, string>, text: string)
    requires classification.JObj? && forall k :: k in PromptKeys ==> k in classification.fields
    requires reply.Success? && reply.value.JObj?
    requires "response_text" in reply.value.fields && reply.value.fields["response_text"] == JStr(text)
    ensures var r := Response(classification, reply).fields; var f := reply.value.fields;
      r.Keys == f.Keys && (forall k :: k in f && k != "response_text" ==> r[k] == f[k])
      && r["response_text"] == JStr(AppendSignature(text))
  {
  }

  /** `FirstMissing` names the earliest absent key. */
  lemma {:induction false} FirstMissingIsFirst(keys: seq<string>, fields: map<string, Json>, i: nat)
    requires i < |keys| && keys[i] !in fields
    requires forall j :: 0 <= j < i ==> keys[j] in fields
    ensures FirstMissing(keys, fields) == Some(keys[i])
  {
    if i > 0 {
      FirstMissingIsFirst(keys[1..], fields, i - 1);
    }
  }

  /** The key `FirstMissing` names sits at an index with every earlier key present. */
  lemma {:induction false} FirstMissingIndex(keys: seq<string>, fields: map<string, Json>) returns (i: nat)
    requires FirstMissing(keys, fields).Some?
    ensures i < |keys| && keys[i] == FirstMissing(keys, fields).value
    ensures forall j :: 0 <= j < i ==> keys[j] in fields
  {
    if keys[0] in fields {
      var k := FirstMissingIndex(keys[1..], fields);
      i := k + 1;
    } else {
      i := 0;
    }
  }

  /** A classification lacking one of the prompt's keys yields the fallback, naming the
   *  first missing key in prompt order, with the prompt as written and with its braces
   *  doubled alike. */
  lemma MissingClassificationKey(email: Email, ctx: Context, classification: Json,
                                 reply: Result<Json, string>, show: Json -> string, i: nat)
    requires classification.JObj? && i < |PromptKeys| && PromptKeys[i] !in classification.fields
    requires forall j :: 0 <= j < i ==> PromptKeys[j] in classification.fields
    ensures Response(classification, reply) == FallbackResponse(MissingKey(PromptKeys[i]))
    ensures Generate(WrittenPrompt(email, ctx), classification, reply, show) == FallbackResponse(MissingKey(PromptKeys[i]))
  {
    FirstMissingIsFirst(PromptKeys, classification.fields, i);
    WrittenPromptRaises(email, ctx, classification.fields, show);
  }

  /** The classifier's own fallback carries every key the prompt reads. With the braces
   *  doubled, after a failed classification only the generation oracle can still force the
   *  fallback; as written the prompt still raises on its sample, and the fallback comes
   *  back whatever the oracle says. */
  lemma ClassifierFallbackFeedsPrompt(email: Email, ctx: Context, reply: Result<Json, string>,
                                      show: Json -> string, text: string)
    requires reply.Success? && reply.value.JObj?
    requires "response_text" in reply.value.fields && reply.value.fields["response_text"] == JStr(text)
    ensures Response(Classifier.Fallback(), reply) == JObj(reply.value.fields["response_text" := JStr(AppendSignature(text))])
    ensures Generate(WrittenPrompt(email, ctx), Classifier.Fallback(), reply, show)
            == FallbackResponse(FormatSpecError(ReplySampleSpec))
  {
    var f := Classifier.Fallback().fields;
    assert forall k :: k in PromptKeys ==> k in f;
    WrittenPromptRaises(email, ctx, f, show);
  }

  // ---------------------------------------------------------------- the prompt

  /** The prompt up to the first classification key. */
  const Opening := "\n            You are Dee, a customer support specialist for SLYFONE. Generate a response to this customer email:\n\n            Context:\n            - Category: "

  /** The guidelines and policies after the body, ending with the sample's indentation. */
  const Guidelines :=
    "\n"
    + "\n"
    + "            Guidelines:\n"
    + "            1. Address the customer by name if available\n"
    + "            2. Always maintain a professional and empathetic tone\n"
    + "            3. Provide clear, actionable solutions\n"
    + "            4. Include relevant links or documentation when needed\n"
    + "            5. End with a clear next step or call to action\n"
    + "            6. Don't mention sentiment scores or internal classifications\n"
    + "            7. Keep responses concise but complete\n"
    + "\n"
    + "            Generate a response following company policies:\n"
    + "            - No refunds after 24 hours of purchase\n"
    + "            - One number per device policy\n"
    + "            - Direct iOS/Android refunds to respective stores\n"
    + "            - Escalate technical issues to specialists\n"
    + "            \n"
    + "            Return response as JSON:\n"
    + "            "

  /** What Python reads as the sample's field expression: the string literal before the
   *  first colon. */
  const ReplySampleKey := "response_text"

  /** What Python reads as the sample's format spec: everything after that colon up to the
   *  closing brace. */
  const ReplySampleSpec :=
    " \"The actual response\",\n"
    + "                \"suggested_actions\": [\"list\", \"of\", \"follow-up\", \"actions\"],\n"
    + "                \"internal_notes\": \"Notes for support team\",\n"
    + "                \"requires_follow_up\": boolean,\n"
    + "                \"escalation_needed\": boolean,\n"
    + "                \"template_used\": \"template name if any\"\n"
    + "            "

  /** The JSON sample the prompt means to show, braces included. */
  const ReplySample := "{\n                \"" + ReplySampleKey + "\":" + ReplySampleSpec + "}"

  /** The text after the sample: the indentation of the closing quotes. */
  const PromptMargin := "\n            "

  /** The labels before the five classification keys. */
  const KeyLabels: seq<string> :=
    [Opening, "/", "\n            - Customer Tone: ", "\n            - Urgency: ", "\n            - Sentiment: "]

  /** Each label followed by the subscripted key it introduces, without a format spec. */
  function KeyPieces(labels: seq<string>, keys: seq<string>): (pieces: seq<Piece>)
    requires |labels| == |keys|
    ensures |pieces| == 2 * |keys|
    ensures forall j :: 0 <= j < |pieces| && j % 2 == 0 ==> pieces[j] == Lit(labels[j / 2])
    ensures forall j :: 0 <= j < |pieces| && j % 2 == 1 ==> pieces[j] == Field(Item(keys[j / 2]), "")
  {
    seq(2 * |keys|, j requires 0 <= j < 2 * |keys| =>
      if j % 2 == 0 then Lit(labels[j / 2]) else Field(Item(keys[j / 2]), ""))
  }

  /** The prompt between the classification keys and the JSON sample: the customer
   *  information, the subject and the body, each a str, then the guidelines. */
  function PromptBody(email: Email, ctx: Context): seq<Piece> {
    [Lit("\n\n            Customer Information:\n            "), Field(Str(ctx.customerInfo), ""),
     Lit("\n\n            Original Email:\n            Subject: "), Field(Str(email.subject), ""),
     Lit("\n            Content: "), Field(Str(email.body), ""),
     Lit(Guidelines)]
  }

  /** The end of the prompt as written: the sample between single braces is a replacement
   *  field whose expression is the literal "response_text" and whose format spec is the
   *  rest of the sample. */
  const WrittenSample: seq<Piece> := [Field(Str(ReplySampleKey), ReplySampleSpec), Lit(PromptMargin)]

  /** The end of the prompt with the sample's braces doubled: literal text. */
  const EscapedSample: seq<Piece> := [Lit(ReplySample), Lit(PromptMargin)]

  /** The prompt f-string as written. The sample between single braces is a replacement
   *  field: its expression is the literal "response_text" and its format spec the rest of
   *  the sample. */
  function WrittenPrompt(email: Email, ctx: Context): seq<Piece> {
    KeyPieces(KeyLabels, PromptKeys) + PromptBody(email, ctx) + WrittenSample
  }

  /** The prompt with the sample's braces doubled: the sample is literal text. */
  function EscapedPrompt(email: Email, ctx: Context): seq<Piece> {
    KeyPieces(KeyLabels, PromptKeys) + PromptBody(email, ctx) + EscapedSample
  }

  /** The body of the prompt never raises. */
  lemma BodyNeverRaises(email: Email, ctx: Context, fields: map<string, Json>)
    ensures forall j :: 0 <= j < |PromptBody(email, ctx)| ==> PieceError(PromptBody(email, ctx)[j], fields).None?
  {
    assert ParseStrSpec("").Some?;
  }

  /** The keys' pieces raise exactly the KeyError of the first key missing, at the index
   *  returned, and nothing when every key is present. */
  lemma KeyPiecesOutcome(labels: seq<string>, keys: seq<string>, fields: map<string, Json>) returns (i: nat)
    requires |labels| == |keys|
    ensures FirstMissing(keys, fields).None? ==>
      forall j :: 0 <= j < 2 * |keys| ==> PieceError(KeyPieces(labels, keys)[j], fields).None?
    ensures FirstMissing(keys, fields).Some? ==>
      && i < 2 * |keys|
      && PieceError(KeyPieces(labels, keys)[i], fields) == Some(KeyError(FirstMissing(keys, fields).value))
      && forall j :: 0 <= j < i ==> PieceError(KeyPieces(labels, keys)[j], fields).None?
  {
    i := 0;
    var pieces := KeyPieces(labels, keys);
    assert ParseStrSpec("").Some?;
    if FirstMissing(keys, fields).Some? {
      var k := FirstMissingIndex(keys, fields);
      i := 2 * k + 1;
      forall j | 0 <= j < i ensures PieceError(pieces[j], fields).None? {
        if j % 2 == 1 {
          assert j / 2 < k;
        }
      }
    }
  }

  /** The spec Python reads in the reply sample is refused. */
  lemma ReplySpecRefused()
    ensures ParseStrSpec(ReplySampleSpec).None?
  {
    SpecRejected(ReplySampleSpec);
  }

  /** As written, building the prompt raises the KeyError of the first classification key
   *  missing, and with all five present the ValueError of the sample's format spec. */
  lemma WrittenPromptRaises(email: Email, ctx: Context, fields: map<string, Json>, show: Json -> string)
    ensures Render(WrittenPrompt(email, ctx), fields, show) ==
      if FirstMissing(PromptKeys, fields).Some? then Failure(KeyError(FirstMissing(PromptKeys, fields).value))
      else Failure(InvalidSpec(ReplySampleSpec))
  {
    var keys, body := KeyPieces(KeyLabels, PromptKeys), PromptBody(email, ctx);
    RenderConcat(keys + body, WrittenSample, fields, show);
    RenderConcat(keys, body, fields, show);
    var i := KeyPiecesOutcome(KeyLabels, PromptKeys, fields);
    if FirstMissing(PromptKeys, fields).Some? {
      RenderFails(keys, fields, show, i);
    } else {
      RenderSucceeds(keys, fields, show);
      BodyNeverRaises(email, ctx, fields);
      RenderSucceeds(body, fields, show);
      ReplySpecRefused();
      RenderFails(WrittenSample, fields, show, 0);
    }
  }

  /** With the braces doubled, building the prompt raises only the KeyError of the first
   *  classification key missing; with all five present it builds and shows the sample with
   *  its braces. */
  lemma EscapedPromptRenders(email: Email, ctx: Context, fields: map<string, Json>, show: Json -> string)
    ensures FirstMissing(PromptKeys, fields).Some? ==>
      Render(EscapedPrompt(email, ctx), fields, show) == Failure(KeyError(FirstMissing(PromptKeys, fields).value))
    ensures FirstMissing(PromptKeys, fields).None? ==>
      Render(EscapedPrompt(email, ctx), fields, show).Success? &&
      Contains(Render(EscapedPrompt(email, ctx), fields, show).value, ReplySample)
  {
    var keys, body := KeyPieces(KeyLabels, PromptKeys), PromptBody(email, ctx);
    RenderConcat(keys + body, EscapedSample, fields, show);
    RenderConcat(keys, body, fields, show);
    var i := KeyPiecesOutcome(KeyLabels, PromptKeys, fields);
    if FirstMissing(PromptKeys, fields).Some? {
      RenderFails(keys, fields, show, i);
    } else {
      RenderSucceeds(keys, fields, show);
      BodyNeverRaises(email, ctx, fields);
      RenderSucceeds(body, fields, show);
      RenderSucceeds(EscapedSample, fields, show);
      var head := Render(keys + body, fields, show).value;
      assert EscapedSample[0].Lit? && EscapedSample[0].text == ReplySample;
      ContainsPrepend(head, Render(EscapedSample, fields, show).value, ReplySample);
    }
  }

  /** As written the outcome does not depend on the reply: two replies, however different,
   *  give the same fallback. */
  lemma WrittenResponseIgnoresReply(email: Email, ctx: Context, classification: Json,
                                    reply1: Result<Json, string>, reply2: Result<Json, string>,
                                    show: Json -> string)
    ensures Generate(WrittenPrompt(email, ctx), classification, reply1, show)
         == Generate(WrittenPrompt(email, ctx), classification, reply2, show)
  {
    if classification.JObj? {
      WrittenPromptRaises(email, ctx, classification.fields, show);
    }
  }

  /** With the braces doubled, `generate_response` gives the response once the prompt
   *  builds. */
  lemma EscapedIsResponse(email: Email, ctx: Context, classification: Json,
                          reply: Result<Json, string>, show: Json -> string)
    ensures Generate(EscapedPrompt(email, ctx), classification, reply, show) == Response(classification, reply)
  {
    if classification.JObj? {
      EscapedPromptRenders(email, ctx, classification.fields, show);
    }
  }

  // ---------------------------------------------------------------- context

  datatype Context = Context(customerInfo: string)

  const Indent := "                "     // the 16 spaces inside the triple-quoted block
  const Closing := "            "         // the 12 spaces before the closing quotes

  /** The four lines `_build_context` writes about a known customer. */
  function CustomerLines(c: Customer, formatDate: int -> string): seq<string> {
    [ "Customer Status: " + (if c.isActive then "Active" else "Inactive"),
      "Subscription: " + (if c.subscriptionStatus.None? || c.subscriptionStatus.value == "" then "None"
                          else c.subscriptionStatus.value),
      "Total Tickets: " + (if c.totalTickets.None? then "None" else IntToString(c.totalTickets.value)),
      "Last Contact: " + (if c.lastContact.None? then "Never" else formatDate(c.lastContact.value)) ]
  }

  /** `_build_context(email, classification, customer)`; `formatDate` is
   *  `strftime('%Y-%m-%d')`. */
  function BuildContext(customer: Option<Customer>, formatDate: int -> string): (ctx: Context)
    ensures customer.None? <==> ctx.customerInfo == "New Customer"
  {
    if customer.None? then Context("New Customer")
    else
      Context(CustomerBlock(CustomerLines(customer.value, formatDate)))
  }

  /** Each line on its own row, indented as inside the triple-quoted block. */
  function Rows(lines: seq<string>): string {
    if lines == [] then [] else "\n" + Indent + lines[0] + Rows(lines[1..])
  }

  /** The block `_build_context` writes for a known customer. */
  function CustomerBlock(lines: seq<string>): string {
    Rows(lines) + ("\n" + Closing)
  }

  /** Every line written about a customer appears in its rows. */
  lemma {:induction false} RowsHoldLines(lines: seq<string>, j: nat)
    requires j < |lines|
    ensures Contains(Rows(lines), lines[j])
  {
    if j == 0 {
      ContainsMiddle("\n" + Indent, lines[0], Rows(lines[1..]));
    } else {
      RowsHoldLines(lines[1..], j - 1);
      ContainsPrepend("\n" + Indent + lines[0], Rows(lines[1..]), lines[j]);
    }
  }

  /** Every line written about a customer appears in the block. */
  lemma BlockHoldsLines(lines: seq<string>, j: nat)
    requires j < |lines|
    ensures Contains(CustomerBlock(lines), lines[j])
  {
    RowsHoldLines(lines, j);
    ContainsAppend(Rows(lines), lines[j], "\n" + Closing);
  }

  /** For a known customer the status line reads 'Active' or 'Inactive' according to
   *  `is_active`, an absent or empty subscription reads 'None', and a customer never
   *  contacted reads 'Never'. */
  lemma ContextLines(c: Customer, formatDate: int -> string)
    ensures var info := BuildContext(Some(c), formatDate).customerInfo;
      && Contains(info, "Customer Status: " + (if c.isActive then "Active" else "Inactive"))
      && ((c.subscriptionStatus.None? || c.subscriptionStatus.value == "") ==> Contains(info, "Subscription: None"))
      && (c.lastContact.None? ==> Contains(info, "Last Contact: Never"))
  {
    var lines := CustomerLines(c, formatDate);
    assert BuildContext(Some(c), formatDate).customerInfo == CustomerBlock(lines);
    BlockHoldsLines(lines, 0);
    BlockHoldsLines(lines, 1);
    if c.subscriptionStatus.None? || c.subscriptionStatus.value == "" {
      assert lines[1] == "Subscription: None";
    }
    BlockHoldsLines(lines, 3);
    if c.lastContact.None? {
      assert lines[3] == "Last Contact: Never";
    }
  }

  // ---------------------------------------------------------------- templates

  /** The one template the table holds, verbatim (not an f-string: `{name}` stays): the
   *  greeting and instructions, then the closing "Best regards,", "Dee". */
  const PasswordResetTemplate := PasswordResetOpening + Mark + PasswordResetClosing

  const PasswordResetOpening :=
    "\n" + Indent + "Hello {name},\n\n"
    + Indent + "I understand you're having trouble with your password. Here's how to reset it:\n"
    + Indent + "1. Visit slyfone.com/reset\n"
    + Indent + "2. Enter your email address\n"
    + Indent + "3. Follow the instructions sent to your email\n\n"
    + Indent + "Let me know if you need any further assistance.\n\n"
    + Indent

  const PasswordResetClosing := ",\n" + Indent + "Dee\n" + Indent

  /** `_get_response_template(main_category, sub_category)`: the nested dict lookup with
   *  `.get` defaults. */
  function GetResponseTemplate(mainCategory: string, subCategory: string): (t: Option<string>)
    ensures t.Some? <==> mainCategory == "Account_Issues" && subCategory == "Password_Reset"
    ensures t.Some? ==> t.value == PasswordResetTemplate
  {
    var templates := map["Account_Issues" := map["Password_Reset" := PasswordResetTemplate]];
    var byMain := if mainCategory in templates then templates[mainCategory] else map[];
    if subCategory in byMain then Some(byMain[subCategory]) else None
  }

  /** The template already closes with "Best regards", so the signature step would leave
   *  it as it is. */
  lemma TemplateIsSigned()
    ensures AppendSignature(PasswordResetTemplate) == PasswordResetTemplate
  {
    ContainsMiddle(PasswordResetOpening, Mark, PasswordResetClosing);
  }
}
