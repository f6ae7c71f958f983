# Support-py decision core in Dafny

This project models the decision logic of a customer-support mail service for SLYFONE.
The service reads support mail over IMAP and turns it into tickets. It categorises the mail,
rates its urgency and sentiment, asks a language model for a classification and a reply, and
mails the reply back over SMTP. The model covers these parts:

- `Triage` (app/utils.py): keyword categorisation, urgency, sentiment, CSV import and the
  metrics dictionaries.
- `Classifier` (app/services/email_classifier.py): the prompt f-string, the sanitising of
  the classifier reply and the fallback classification. As written, building the prompt
  raises, so every call gives the fallback (see Findings).
- `Generator` (app/services/response_generator.py): the prompt f-string, signature
  handling, the fallback reply, the customer context and the reply templates. As written,
  building the prompt raises, so every call gives the fallback reply (see Findings).
- `FString`: Python's f-string evaluation as the two prompts use it, with the format-spec
  grammar of `str`.
- `Sender` (app/services/email_sender.py): the MIME message built for a reply, its HTML
  parts, and the bookkeeping on the `Response` row after a send attempt.
- `EmailService` and `Whitespace` (app/email_service.py): body extraction and clean-up,
  header decoding, the ticket intake loop with de-duplication by message id, and the sync
  over all mail configurations.
- `Poller` (app/email_poller.py): the polling cycle, the batch limit, the per-message
  commit/rollback and the processed-mail counter.
- `EmailModels`, `EmailSchemas` and `TicketModel` (app/models/email.py, app/schemas/email.py,
  app/models.py): the enumerations, row defaults, uniqueness constraints and validators.
- `Wrappers`, `Text` and `Json` are helpers: Option/Result, Python string operations, and a
  parsed JSON value.

Outside code is passed in as function-typed parameters. This covers the language-model
replies, IMAP and SMTP, TextBlob polarity, BeautifulSoup's `get_text`,
`email.header.decode_header`, date parsing and formatting, and the clock.

Objects whose fields the source updates are classes with `modifies` clauses:
`EmailModels.Response`, `TicketModel.EmailConfig`, `Sender.EmailSender`,
`EmailService.EmailProcessor`, `EmailService.TicketStore` (the ticket table) and
`Poller.EmailPoller`.

## Model

| member | source | states |
|---|---|---|
| `EmailModels.ParseUrgency` | app/models/email.py:7-11 | a string names an urgency level exactly when it is one of the four stored values, and the level parsed has that value |
| `EmailModels.UrgencyLevelValues` | app/models/email.py:7-11 | every level's stored value parses back to the same level, and there are exactly four levels |
| `EmailModels.ParseStatus` | app/models/email.py:13-17 | a string names an email status exactly when it is one of the four stored values, and the status parsed has that value |
| `EmailModels.NewEmail` | app/models/email.py:19-55 | a new email row has status `new`, is not a reply, is received now, and has no urgency, processing time or error yet |
| `EmailModels.InsertEmail` | app/models/email.py:23 | an insert fails exactly when a non-null message id is already in the table; otherwise the row is appended |
| `EmailModels.InsertKeepsUnique` | app/models/email.py:23 | a successful insert keeps non-null message ids unique |
| `EmailModels.Response.constructor` | app/models/email.py:57-83 | a new response row is unsent, with zero send attempts, no customer reply and no sent time, error, feedback or token counts |
| `EmailSchemas.EmailCreateWithDefaults` | app/schemas/email.py:6-17 | omitted optional fields default to not-a-reply and no thread, sender name or extra data; given fields are kept |
| `EmailSchemas.ValidateClassification` | app/schemas/email.py:19-25 | a classification validates exactly when confidence is in [0, 1] and sentiment in [-1, 1]; each out-of-range field gets its own error |
| `EmailSchemas.EndDateMustBeAfterStartDate` | app/schemas/email.py:105-109 | the end date is rejected exactly when a start date is present and the end is earlier; otherwise it is kept unchanged |
| `EmailSchemas.ValidateDateRange` | app/schemas/email.py:101-109 | a range is built exactly when the start is given and an explicit end is not earlier; a missing end defaults to now; a missing start is "field required" |
| `EmailSchemas.DefaultEndDateUnchecked` | app/schemas/email.py:103-109 | a defaulted end date is not validated, so a start after now still gives a range ending before it |
| `TicketModel.EmailConfig.constructor` | app/models.py:5-16 | a new mail configuration is active, has never synced, and uses IMAP port 993 unless another is given |
| `Json.AsNumber` | app/services/email_classifier.py:107-110 | the bound comparisons of `min` and `max` succeed exactly on numbers and booleans of the parsed reply |
| `Triage.CalculateSentiment` | app/utils.py:6-11 | empty text scores 0.0; any other text scores its polarity |
| `Triage.FirstCategory` | app/utils.py:26-30 | the result is ("Other", "General") or a category of the table paired with "Support" |
| `Triage.CategorizeContent` | app/utils.py:13-30 | the sub-category is "Support" exactly when the category is not "Other"; an "Other" category has sub-category "General" |
| `Triage.FirstCategoryIsFirstHit` | app/utils.py:26-28 | the first category, in table order, with a keyword in the subject or in the body is returned; with no hit the result is ("Other", "General") |
| `Triage.CategorizeFirstMatch` | app/utils.py:13-30 | when category i is the first with a keyword in the lower-cased subject or body, the result is that category with "Support" |
| `Triage.CategorizeNoMatch` | app/utils.py:30 | a subject and body without any category keyword give ("Other", "General") |
| `Triage.CategorizeIgnoresCase` | app/utils.py:15 | categorisation is the same for texts that differ only in letter case |
| `Triage.DetermineUrgency` | app/utils.py:32-43 | the urgency is "High", "Low" or "Medium" |
| `Triage.UrgencyPrecedence` | app/utils.py:37-43 | High exactly when an urgent keyword occurs; Low exactly when a low keyword occurs and no urgent one; Medium exactly when neither occurs |
| `Triage.UrgencyIgnoresCase` | app/utils.py:34 | urgency is the same for texts that differ only in letter case |
| `Triage.JoinSeam` | app/utils.py:34 | lower-casing the joined text keeps the end of the subject, the space and the start of the body side by side |
| `Triage.WhenPossibleAcrossJoin` | app/utils.py:34 | a phrase that ends the subject and begins the body is found in the joined text |
| `Triage.UrgencySpansJoin` | app/utils.py:34-43 | "when" ending the subject and "possible" starting the body makes the mail Low urgency |
| `Triage.ProcessCsvData` | app/utils.py:45-68 | the result is the import of the rows in order, each parsed as `process_csv_data` does, stopping at the first row whose subject or body is NaN or whose date does not parse |
| `Triage.ImportStopsAtFailure` | app/utils.py:48-66 | once a prefix of the rows fails, the whole import fails with the same error |
| `Triage.ImportRowsSucceeds` | app/utils.py:48-66 | the import succeeds exactly when every row parses, and then yields one record per row, in order |
| `Triage.ImportRowsFirstError` | app/utils.py:48-66 | a failed import reports the error of the first row that does not parse, every earlier row having parsed |
| `Triage.ParseRowOutcome` | app/utils.py:49-66 | a NaN subject, a NaN body, or a NaN content column standing in for an empty or absent body raises the `AttributeError` of `.lower()` before the date is parsed; otherwise a bad date raises its error; otherwise the record uses the body (the content column when the body is empty or absent) for its category, urgency and sentiment, and keeps the row's subject, id and date |
| `Triage.BumpTotal` | app/utils.py:87-88 | counting one more key raises the total count by one |
| `Triage.BumpGet` | app/utils.py:87-88 | counting a key raises its count by one and leaves every other key's count alone |
| `Triage.BumpKeys` | app/utils.py:87-88 | counting a key adds that key to the key set, and keys stay distinct |
| `Triage.TallyCounts` | app/utils.py:84-98 | a tally counts each key's occurrences; its keys are distinct and exactly the keys seen, and its counts sum to the number of keys |
| `Triage.CategoryKeys` | app/utils.py:86 | one main category per ticket, in order |
| `Triage.DayKeys` | app/utils.py:91 | one day key per ticket, in order |
| `Triage.UrgencyKeys` | app/utils.py:96 | one urgency level per ticket, in order |
| `Triage.CalculateMetrics` | app/utils.py:70-105 | every distribution is the tally of its keys and sums to the ticket count; average sentiment is the sum over the count; no tickets gives empty metrics |
| `FString.ParseStrSpec` | app/services/email_classifier.py:81-91 | the empty spec is accepted with a space fill, left alignment, no width and no precision; every accepted spec has a str alignment; a spec accepted without an alignment starts with a digit, `.` or `s` |
| `FString.ParseWidth` | app/services/email_classifier.py:81-91 | after the alignment, an empty rest is accepted with no width and no precision; an accepted rest keeps the alignment and starts with a digit, `.` or `s` |
| `FString.SpecRejected` | app/services/email_classifier.py:81-91 | a spec whose first character is no alignment, digit, `.` or `s`, and whose second is no alignment, is an invalid format specifier |
| `FString.FormatStr` | app/services/response_generator.py:24-64 | a formatted str is the text cut to the precision, padded with the fill to the width on the side the alignment names |
| `FString.FormatPiece` | app/services/response_generator.py:24-64 | a piece raises exactly when its subscripted key is missing or its spec is refused, and then raises that error; literal text stands as it is |
| `FString.RenderConcat` | app/services/response_generator.py:24-64 | an f-string in two parts raises the first part's exception, else the second's, and otherwise is the two values one after the other |
| `FString.RenderFails` | app/services/response_generator.py:24-64 | the f-string raises the error of the first piece that raises |
| `FString.RenderSucceeds` | app/services/response_generator.py:24-64 | when no piece raises, the f-string builds and every piece of literal text appears in it |
| `Classifier.WrittenPromptRaises` | app/services/email_classifier.py:81-91 | as written, building the prompt raises the ValueError of the JSON sample's format spec, whatever the email |
| `Classifier.EscapedPromptRenders` | app/services/email_classifier.py:18-92 | with the sample's braces doubled, the prompt builds for every email and shows the sample with its braces |
| `Classifier.Clamp` | app/services/email_classifier.py:106-110 | the clamped number lies in the bounds; an in-range number is unchanged, one beyond a bound becomes that bound |
| `Classifier.ClampValue` | app/services/email_classifier.py:107-110 | `max(lo, min(hi, x))` compares as the clamped number; a value strictly inside the bounds is returned as it was, a bool included; any other becomes the float bound |
| `Classifier.Fallback` | app/services/email_classifier.py:114-126 | the fallback classification has urgency "medium", confidence 0 and sentiment 0 |
| `Classifier.ClassifyWith` | app/services/email_classifier.py:17-126 | for a given prompt, the result is the fallback when building the prompt raises and the sanitised reply otherwise; it is always in range, and a reply that cannot be sanitised gives the fallback |
| `Classifier.ClassifyEmail` | app/services/email_classifier.py:17-126 | as written, every call returns the fallback classification, whatever the email and the reply |
| `Classifier.ClassifyEmailEscaped` | app/services/email_classifier.py:17-126 | with the sample's braces doubled, the result is the sanitised reply, in range |
| `Classifier.WrittenClassifyIgnoresReply` | app/services/email_classifier.py:81-126 | as written, any two replies give the same classification, the fallback |
| `Classifier.EscapedClassifyIsClassification` | app/services/email_classifier.py:81-112 | with the sample's braces doubled, the outcome is the sanitised reply |
| `Classifier.ClassificationInRange` | app/services/email_classifier.py:100-126 | with either prompt, every classification has a lowercase urgency value, a numeric confidence in [0, 1] and a sentiment that compares as a number in [-1, 1] |
| `Classifier.ClassificationOfAccepted` | app/services/email_classifier.py:100-112 | with the sample's braces doubled, an accepted reply keeps its other fields and a valid urgency; the confidence is clamped to [0, 1]; a sentiment strictly inside (-1, 1) is kept as sent, a bool included, and any other goes to the bound |
| `Classifier.FallbackOnFailure` | app/services/email_classifier.py:114-126 | a reply that is missing, not an object, or lacks the urgency, confidence or sentiment gives the fallback |
| `Classifier.ClassificationIdempotent` | app/services/email_classifier.py:100-112 | sanitising an already-sanitised classification changes nothing |
| `Classifier.ClassificationPassesSchema` | app/schemas/email.py:19-25 | the confidence, sentiment and urgency of every sanitised classification pass the `EmailClassification` validation |
| `Classifier.UppercaseUrgencyBecomesMedium` | app/services/email_classifier.py:75 | with the sample's braces doubled, an urgency in any of the four uppercase spellings the prompt asks for (LOW, MEDIUM, HIGH, CRITICAL) is replaced by "medium" |
| `Classifier.IntendedUrgency` | app/services/email_classifier.py:103-104 | the corrected urgency check accepts any letter case, stores the lowercase value, and otherwise gives "medium" |
| `Classifier.IntendedClassification` | app/services/email_classifier.py:100-112 | the corrected classification is within the schema's ranges |
| `Classifier.IntendedKeepsPromptUrgency` | app/services/email_classifier.py:75 | under the correction, the uppercase urgency the prompt asks for is kept as that level's value |
| `Classifier.IntendedAgreesOnLowercase` | app/services/email_classifier.py:103-104 | the correction changes nothing for replies whose urgency is already lowercase |
| `Classifier.LevelNamesLower` | app/services/email_classifier.py:75 | the prompt's uppercase spelling of a level lower-cases to the level's stored value, which lower-casing leaves alone |
| `Classifier.ExtractKeywords` | app/services/email_classifier.py:128-132 | keyword extraction returns no keywords |
| `Classifier.CalculateUrgency` | app/services/email_classifier.py:134-138 | the urgency helper always answers "medium", a valid level |
| `Generator.AppendSignature` | app/services/response_generator.py:75-76 | the reply ends up containing "Best regards"; text already containing it is unchanged, other text gets the signature appended |
| `Generator.AppendSignatureIdempotent` | app/services/response_generator.py:75-76 | signing a signed reply changes nothing |
| `Generator.AppendSignatureKeepsText` | app/services/response_generator.py:75-76 | the model's text is kept as a prefix of the signed reply |
| `Generator.FallbackResponse` | app/services/response_generator.py:80-89 | the fallback reply is the signed apology |
| `Generator.FallbackShape` | app/services/response_generator.py:80-89 | the fallback asks for follow-up and escalation, names the "error_fallback" template, suggests escalating to a supervisor, and its text carries the signature mark |
| `Generator.FirstMissing` | app/services/response_generator.py:28-31 | no key is reported missing exactly when all prompt keys are present; a reported key is one of them and is absent |
| `Generator.FirstMissingIndex` | app/services/response_generator.py:28-31 | the key reported missing has every earlier prompt key present |
| `Generator.FirstMissingIsFirst` | app/services/response_generator.py:28-31 | the missing key reported is the first absent one in prompt order |
| `Generator.KeyPieces` | app/services/response_generator.py:27-31 | each label of the prompt is followed by the subscripted key it introduces, in key order, without a format spec |
| `Generator.KeyPiecesOutcome` | app/services/response_generator.py:27-31 | the key fields raise exactly the KeyError of the first key missing, every earlier piece builds, and nothing raises when all keys are present |
| `Generator.BodyNeverRaises` | app/services/response_generator.py:33-55 | the customer information, subject, body and guidelines never raise |
| `Generator.ReplySpecRefused` | app/services/response_generator.py:56-63 | the text Python reads as the sample's format spec is an invalid specifier for a str |
| `Generator.WrittenPromptRaises` | app/services/response_generator.py:24-64 | as written, building the prompt raises the KeyError of the first classification key missing, and otherwise the ValueError of the sample's format spec |
| `Generator.EscapedPromptRenders` | app/services/response_generator.py:24-64 | with the sample's braces doubled, building the prompt raises only a missing key's KeyError; with all keys present it builds and shows the sample with its braces |
| `Generator.Chars` | app/services/response_generator.py:76 | extending a list by a string adds its characters one by one |
| `Generator.SignResponseText` | app/services/response_generator.py:75-76 | a string reply text is signed in place |
| `Generator.GenerateWith` | app/services/response_generator.py:12-89 | for a given prompt, the result is the fallback for what building the prompt raises and otherwise the signed reply; it always holds `response_text`, which carries the signature mark when it is a string |
| `Generator.GenerateResponse` | app/services/response_generator.py:12-89 | as written, whatever the reply: the TypeError fallback for a classification that is no dict, the KeyError fallback naming the first missing key, and otherwise the fallback whose notes name the invalid format specifier |
| `Generator.GenerateResponseEscaped` | app/services/response_generator.py:12-89 | with the sample's braces doubled, the result is the response once the prompt builds, holding `response_text`, which carries the signature mark when it is a string (a list text is extended by the signature's characters instead); no other key is guaranteed |
| `Generator.WrittenResponseIgnoresReply` | app/services/response_generator.py:56-63 | as written, any two oracle replies give the same result |
| `Generator.EscapedIsResponse` | app/services/response_generator.py:19-89 | with the sample's braces doubled, `generate_response` gives the missing-key fallback or the signed reply |
| `Generator.SignedReplyDelivered` | app/services/response_generator.py:72-89 | the signing step, its fallbacks included, produces a dict holding `response_text`, and a string `response_text` carries the signature mark |
| `Generator.ResponseDelivered` | app/services/response_generator.py:12-89 | with any prompt, every path, the fallback included, produces a dict holding `response_text`, and a string `response_text` carries the signature mark |
| `Generator.ResponsePassesThrough` | app/services/response_generator.py:72-78 | with the sample's braces doubled, a well-formed model reply is returned with only its text signed |
| `Generator.MissingClassificationKey` | app/services/response_generator.py:28-31 | with either prompt, a classification lacking a prompt key gives the fallback with the first missing key's `KeyError` |
| `Generator.ClassifierFallbackFeedsPrompt` | app/services/response_generator.py:24-64 | the classifier's fallback has every key the generator reads: with the braces doubled its reply passes through signed, and as written the format-spec fallback comes back |
| `Generator.BuildContext` | app/services/response_generator.py:91-108 | customer info is "New Customer" exactly when no customer is known |
| `Generator.RowsHoldLines` | app/services/response_generator.py:101-106 | every customer line appears in the joined rows |
| `Generator.BlockHoldsLines` | app/services/response_generator.py:101-106 | every customer line appears in the customer block |
| `Generator.ContextLines` | app/services/response_generator.py:99-106 | a known customer's context shows Active or Inactive status, "Subscription: None" without a subscription, and "Last Contact: Never" without a contact date |
| `Generator.GetResponseTemplate` | app/services/response_generator.py:110-133 | a template exists exactly for Account_Issues/Password_Reset, and it is the password-reset text |
| `Generator.TemplateIsSigned` | app/services/response_generator.py:114-128 | the password-reset template already carries the signature mark |
| `Sender.Framed` | app/services/email_sender.py:69-96 | the HTML is the frame's head, then the text with every newline turned into `<br>`, then the frame's tail |
| `Sender.FramedLineBreaks` | app/services/email_sender.py:69-96 | no newline of the reply or of the quoted original survives in the HTML; the only ones left are the frame's |
| `Sender.FramedInjective` | app/services/email_sender.py:69-96 | two texts give the same HTML only when they are equal after newline replacement |
| `Sender.BuildMessage` | app/services/email_sender.py:25-47 | the message has Subject "Re: …", From and To; Cc exactly when there is a Cc list; never a Bcc header; the framed reply, then the framed quote exactly when the body is non-empty; recipients are To, Cc, then Bcc |
| `Sender.RecipientsAreExactlyTheAddressees` | app/services/email_sender.py:42-47 | the envelope reaches exactly the sender of the mail and the Cc and Bcc addresses |
| `Sender.ComposeMessage` | app/services/email_sender.py:25-47 | building the message step by step gives the specified message |
| `Sender.EmailSender.constructor` | app/services/email_sender.py:9-15 | the default sender is support@slyfone.com; the reply and quote frames are those of `_format_html_response` and `_format_quoted_text` |
| `Sender.EmailSender.SendResponse` | app/services/email_sender.py:17-67 | a NULL content raises `AttributeError` before any delivery and takes the failure path with that error; otherwise success is reported exactly when delivery succeeds; success sets sent and sent-at; failure records the error; attempts go up by one either way; no other field changes |
| `Whitespace.DropSpace` | app/email_service.py:58 | the result is a suffix that starts with non-whitespace, and everything dropped is whitespace |
| `Whitespace.DropTrailingSpace` | app/email_service.py:58 | the result is a prefix that ends with non-whitespace, and everything dropped is whitespace |
| `Whitespace.Collapse` | app/email_service.py:58 | collapsing is empty exactly for empty input, and its first character is the input's, whitespace becoming a space |
| `Whitespace.NonSpaceAppend` | app/email_service.py:58 | the non-whitespace characters of a concatenation are those of its parts |
| `Whitespace.NonSpaceOfSpaces` | app/email_service.py:58 | whitespace has no non-whitespace characters |
| `Whitespace.NonSpaceDropSpace` | app/email_service.py:58 | dropping leading whitespace keeps every non-whitespace character |
| `Whitespace.CollapseSpaced` | app/email_service.py:58 | collapsing keeps the non-whitespace characters in order and leaves no doubled whitespace and no whitespace other than a plain space |
| `Whitespace.DropSpaceAppend` | app/email_service.py:58 | leading whitespace that ends inside the first part of a concatenation is dropped inside that part |
| `Whitespace.DropSpaceOfSpaces` | app/email_service.py:58 | whitespace before text that starts visibly is dropped entirely |
| `Whitespace.CollapseAppend` | app/email_service.py:58 | text that ends with a visible character collapses independently of what follows it |
| `Whitespace.CollapseAppendChar` | app/email_service.py:58 | the same, for text that starts with a visible character |
| `Whitespace.CollapseAppendSpace` | app/email_service.py:58 | the same, for text that starts with whitespace |
| `Whitespace.CollapseSpaceRun` | app/email_service.py:58 | a whitespace run before text that starts visibly becomes exactly one space |
| `Whitespace.CollapseSeparates` | app/email_service.py:58 | any whitespace run between two pieces of text becomes exactly one space and each side collapses on its own, so collapsing never joins two words and never splits one |
| `Whitespace.SpacedSlice` | app/email_service.py:58 | a slice of text with single spaces has single spaces too |
| `Whitespace.NonSpaceDropTrailingSpace` | app/email_service.py:58 | dropping trailing whitespace keeps every non-whitespace character |
| `Whitespace.SpacedDropSpace` | app/email_service.py:58 | dropping leading whitespace keeps the single-space property |
| `Whitespace.SpacedDropTrailingSpace` | app/email_service.py:58 | dropping trailing whitespace keeps the single-space property |
| `Whitespace.NonSpaceStrip` | app/email_service.py:58 | stripping keeps every non-whitespace character |
| `Whitespace.StripSpaced` | app/email_service.py:58 | stripping keeps the single-space property |
| `Whitespace.CleanIsNormal` | app/email_service.py:58 | a cleaned body has no leading, trailing or doubled whitespace, and only plain spaces |
| `Whitespace.CollapseKeepsSpaced` | app/email_service.py:58 | collapsing text already in normal form changes nothing |
| `Whitespace.CleanKeepsNormal` | app/email_service.py:58 | cleaning text in normal form changes nothing |
| `Whitespace.CleanIdempotent` | app/email_service.py:58 | cleaning twice is the same as cleaning once |
| `Whitespace.CleanFixpoints` | app/email_service.py:58 | cleaning leaves a text unchanged exactly when it is in normal form |
| `EmailService.FirstTextPart` | app/email_service.py:44-48 | the part chosen is the first text/plain or text/html part; none exactly when there is no such part |
| `EmailService.ProcessEmailBody` | app/email_service.py:41-59 | the body is in normal form and keeps the raw body's non-whitespace characters; a multipart mail without a text part gives the empty body |
| `EmailService.ChunkTexts` | app/email_service.py:65-70 | each decoded header chunk becomes one text, in order |
| `EmailService.DecodeEmailHeader` | app/email_service.py:61-72 | a missing header fails; otherwise the decoded texts are joined by spaces |
| `EmailService.HeaderPartsRecoverable` | app/email_service.py:61-72 | when no chunk text contains a space, splitting the decoded header gives the chunk texts back |
| `EmailService.NewTicket` | app/email_service.py:116-130 | the ticket carries the message id and the cleaned body |
| `EmailService.TicketFor` | app/email_service.py:92-130 | a message yields a ticket only if it was fetched and its id is not stored yet; the ticket's content is the message's body |
| `EmailService.EmailIds` | app/email_service.py:103-105 | the message-id column has one entry per stored ticket |
| `EmailService.TicketStepIsFresh` | app/email_service.py:103-105 | a ticket made for a message never repeats an id already in the table |
| `EmailService.Intake` | app/email_service.py:89-134 | a run yields at most one ticket per message |
| `EmailService.FetchedTicketsAreFresh` | app/email_service.py:103-105 | a fetch run creates no ticket whose id is already stored, and no two tickets with the same id |
| `EmailService.IntakeIsFresh` | app/email_service.py:103-105 | every step that refuses known ids makes a run free of duplicates against the table and within itself |
| `EmailService.KnownGrows` | app/email_service.py:103-105 | an id stays known once its ticket is stored |
| `EmailService.IntakeExtend` | app/email_service.py:89-134 | a run over one more message is the earlier run plus that message's ticket, if any, against the table grown by the earlier run |
| `EmailService.IntakeAppend` | app/email_service.py:89-134 | a run over two lists of messages is the first run followed by the second run against the grown table |
| `EmailService.SkippedMessageIsHarmless` | app/email_service.py:92-105 | a message that yields no ticket does not affect the rest of the run |
| `EmailService.TicketStore.constructor` | app/models.py:18-32 | the ticket table starts with the given rows |
| `EmailService.EmailProcessor.constructor` | app/email_service.py:17-20 | a new processor has no connection |
| `EmailService.EmailProcessor.Connect` | app/email_service.py:22-30 | connecting succeeds exactly on login; a refused login still leaves the connection set |
| `EmailService.EmailProcessor.Disconnect` | app/email_service.py:32-39 | after disconnecting there is no connection |
| `EmailService.EmailProcessor.FetchEmails` | app/email_service.py:74-140 | a failed connect returns no tickets; a failed search raises; otherwise the new tickets are the intake run, stored after the old rows; a logged-in run ends disconnected |
| `EmailService.StoreNewTickets` | app/email_service.py:89-134 | the tickets stored are the intake run over the message numbers, appended after the old rows and nothing else |
| `EmailService.FreshAppend` | app/email_service.py:103-105 | tickets fresh against the table, followed by tickets fresh against the table grown by them, are fresh together |
| `EmailService.SyncTicketsStep` | app/email_service.py:149-155 | syncing one more configuration appends its run, checked against the rows the earlier configurations stored |
| `EmailService.SyncStored` | app/email_service.py:149-155 | the rows after one more configuration are the rows before the sync followed by the tickets of the sync so far, that configuration included |
| `EmailService.SyncIsFresh` | app/email_service.py:146-155 | a whole sync never stores a message-id already in the table, and never stores one twice, across configurations as within one |
| `EmailService.SyncConfig` | app/email_service.py:150-155 | an active configuration is fetched and stamped with the clock reading unless the fetch raised; the stored rows grow by exactly that configuration's run; an inactive one changes nothing |
| `EmailService.SyncAllConfigs` | app/email_service.py:146-158 | each active configuration is stamped with its own clock reading unless its fetch raised, the others keep their `last_sync`; the stored rows become the old rows followed by the runs of the active configurations whose fetch got a search answer, in order, each checked against the rows before it |
| `Poller.Take` | app/email_poller.py:78 | the batch is a prefix of the search result, with Python slice length for positive and negative limits |
| `Poller.ProcessSingleEmail` | app/email_poller.py:102-147 | a commit implies success; the session is left alone exactly for failed fetches and replies |
| `Poller.SingleEmailOutcomes` | app/email_poller.py:102-147 | a message succeeds exactly when it is a reply or the processor succeeds and commits; otherwise a fetched non-reply is rolled back |
| `Poller.Successes` | app/email_poller.py:80-87 | no more messages succeed than the batch holds |
| `Poller.SuccessesSucceed` | app/email_poller.py:80-87 | the successes are messages of the batch that succeed |
| `Poller.BatchStep` | app/email_poller.py:80-87 | one more message of the batch adds itself to the successes exactly when it succeeds, and to the flagged ones exactly when it also stores |
| `Poller.Flagged` | app/email_poller.py:80-87 | no more messages are flagged than the batch holds |
| `Poller.FlaggedAreSuccesses` | app/email_poller.py:80-87 | flagged messages are exactly the successes whose store did not raise: every flagged message succeeded and its store did not raise, and every such success is flagged |
| `Poller.Poll` | app/email_poller.py:54-100 | a failed search reports its error and counts nothing; an empty search counts nothing |
| `Poller.PollBounds` | app/email_poller.py:78-87 | one poll counts at most the batch limit; the batch is the front of the search result; only successes are flagged Seen |
| `Poller.RepliesCount` | app/email_poller.py:115-118 | a reply in the batch is skipped as a success, so it is always counted and, through the success branch at lines 80-84, flagged unless its store raises |
| `Poller.InSuccesses` | app/email_poller.py:80-87 | a message of the batch that succeeds is among the successes |
| `Poller.CyclesRun` | app/email_poller.py:37-46 | polling runs cycles until the first one that stops it |
| `Poller.TotalGainStep` | app/email_poller.py:37-46 | one more cycle adds its poll's count to the total |
| `Poller.EmailPoller.constructor` | app/email_poller.py:17-26 | a new poller is stopped, error-free, with nothing processed, on port 993 |
| `Poller.EmailPoller.PollEmails` | app/email_poller.py:54-100 | the error, messages seen and count increase are those of the modelled poll; the counter never decreases |
| `Poller.EmailPoller.StopPolling` | app/email_poller.py:50-52 | stopping clears the running flag and nothing else |
| `Poller.EmailPoller.StartPolling` | app/email_poller.py:28-48 | polling is still running exactly when no cycle asked to stop; the last error is the last run cycle's; the counter grows by the cycles' total |
| `Poller.DecodeHeader` | app/email_poller.py:149-161 | an empty header stays empty; a failed or empty decode keeps the raw header; otherwise the first chunk's text is used |

## Left out

- Network and library calls are inputs: IMAP login, search and fetch; SMTP; the two
  language-model calls; TextBlob; BeautifulSoup; `decode_header`; date parsing and
  formatting; the clock.
- The two prompts are modelled as the f-strings Python evaluates, with their literal text as
  written. What the oracle answers to a prompt is an input, so the text matters only through
  whether building the prompt raises.
- `FString.FormatPiece` formats every field value as a str, and `show` stands for `str()` of
  a classification value. A format spec on a number would follow the number's own grammar;
  no field of the two prompts puts a spec on anything but a string literal.
- `Classifier.ClassificationOfAccepted`, `Classifier.FallbackOnFailure`,
  `Classifier.ClassificationIdempotent` and `Classifier.UppercaseUrgencyBecomesMedium` are
  about the sanitiser, which runs only once the prompt builds, that is with the sample's
  braces doubled. As written the reply is never read and the result is the fallback
  (`Classifier.WrittenClassifyIgnoresReply`).
- `Generator.ResponsePassesThrough` is about the reply's signing, which runs only once the
  prompt builds, that is with the sample's braces doubled. As written the reply is never read
  and the result is a fallback (`Generator.WrittenResponseIgnoresReply`).
- `Text.Lower` lower-cases ASCII letters only. Python's `lower()` also folds other Unicode
  letters.
- Numbers in parsed replies are reals. `json.loads` also accepts the literals `NaN`,
  `Infinity` and `-Infinity`; those values are not modelled. With them, the clamping of the
  confidence and the sentiment differs: `max(0.0, min(1.0, nan))` is `1.0`, because every
  comparison with NaN is false.
- `Generator.Describe` renders a `TypeError` with a fixed message, not Python's exact
  wording. It words every refused format spec as Python 3.12 words an invalid format
  specifier; Python words a few refusals differently (a sign, `#`, `=` alignment, a grouping
  option, an unknown type code), none of which the prompts contain.
- `Sender.FormatHtmlResponse` and `Sender.FormatQuotedText` follow Python 3.12. Their
  f-strings hold a backslash inside the braces, which earlier versions reject.
- `Triage.ProcessCsvData`: a NaN in the date, `email_id`, `from_address` or `to_address` cell is
  modelled as an absent cell (`None`); the source keeps the float NaN there. A text column
  that pandas reads as numbers is not modelled.
- The `SINCE` date window of the IMAP search is part of the search input.
- `EmailService.EmailProcessor.FetchEmails` builds the ticket with `NewTicket`, not with
  separate locals. It does not model a failing `db.commit`.
- `EmailService.EmailProcessor.FetchEmails` states that its tickets are free of duplicates
  only through the lemma `EmailService.FetchedTicketsAreFresh`, not in its own `ensures`.
- `EmailService.FetchedTicketsAreFresh` assumes the session autoflushes, so the id query at
  app/email_service.py:103 sees tickets added earlier in the same run. Without autoflush, two
  messages with the same Message-ID in one run would both be added, the commit at :136 would
  fail on the unique `email_id` column (app/models.py:28), `fetch_emails` would raise, and
  the sync would leave that configuration's `last_sync` unstamped.
- Nullable columns are modelled as always set: `urgency_level`, `sentiment_score`, `subject`
  and the other text columns of `Ticket` (app/models.py:24-31), and `sender_email`,
  `recipient_email`, `subject` and `body` of `Email` (app/models/email.py:27-31). The
  nullable `content` of `Response` (app/models/email.py:62) is an `Option`. Lost with this:
  `calculate_metrics` raises `TypeError` on a NULL `sentiment_score` (app/utils.py:101) and counts a NULL `urgency_level` under the key
  `None` (app/utils.py:96-98), and `send_response` writes the subject "Re: None" for a NULL
  subject (app/services/email_sender.py:26). What a NULL `sender_email` does in the "To"
  header and the SMTP envelope is not modelled. A NULL body would be skipped like an empty one
  (`if email.body:`).
- `EmailService.SyncAllConfigs` does not model a failing `db.commit`.
- `run_periodic_sync` (app/email_service.py:160-167) is an endless loop with sleeps, so it is
  not modelled.
- `Poller.EmailPoller.StartPolling` runs over a given, finite list of cycles. The sleeps,
  logging and the `status` property are not modelled.
- `Sender.EmailSender.SendResponse` assumes `send_attempts` is loaded, not NULL.
- The `processing_status` lifecycle and the orchestrating processor are not modelled:
  app/services/email_processor.py is not part of this model.
- The API routers and the analytics queries are not modelled: app/api is not part of this
  model.

## Findings

| source | as written | input that shows it | evidently intended | confidence | as-written member | corrected member |
|---|---|---|---|---|---|---|
| app/services/email_classifier.py:81-91 | the prompt's JSON sample sits between single braces, so Python reads it as a replacement field: the literal "main_category" with the format spec ` string, …`, which a str refuses. Building the prompt raises ValueError, and every call returns the fallback classification without reading the reply | any email and any reply, such as `{"urgency": "low", "confidence": 0.9, "sentiment_score": 0.2}` | double the sample's braces, so the sample is literal text, the prompt builds and the reply is sanitised | not executed | `Classifier.WrittenClassifyIgnoresReply` | `Classifier.EscapedPromptRenders` |
| app/services/response_generator.py:56-63 | the same single braces around the reply sample: the literal "response_text" with the format spec ` "The actual response", …`. Building the prompt raises the KeyError of a missing classification key or else ValueError, and every call returns the fallback reply, whatever the oracle says | any classification holding the five keys and any reply, such as `{"response_text": "Hi"}` | double the sample's braces, so the prompt builds and the reply is signed | not executed | `Generator.WrittenResponseIgnoresReply` | `Generator.EscapedPromptRenders` |
| app/services/email_classifier.py:75 | latent, hidden behind the formatting defect above: once the prompt builds, the prompt asks for urgency as LOW, MEDIUM, HIGH or CRITICAL, but the check at :103-104 accepts only the lowercase values, so a reply that follows the prompt is stored as "medium" | with the braces doubled, a reply with `"urgency": "HIGH"` and numeric scores | accept the level in any letter case and store its lowercase value | not executed | `Classifier.UppercaseUrgencyBecomesMedium` | `Classifier.IntendedKeepsPromptUrgency` |

The code also does the following, and the model keeps it as written:

- `connect` stores the connection before logging in. A refused login therefore leaves
  `imap_conn` set, and the early return of `fetch_emails` skips `disconnect`.
- `sync_all_configs` stamps `last_sync` even when the connection failed, because
  `fetch_emails` then returns an empty list without raising.
- A message without a Message-ID is de-duplicated against tickets whose `email_id` is NULL.
- The poller's `_decode_header` keeps only the first decoded chunk.
- The poller counts a message before storing it, so a failed store is still counted. An
  empty search returns without closing the connection.
