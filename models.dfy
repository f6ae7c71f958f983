/**
 * The ORM entities of the support pipeline (app/models/email.py): the two enums, the
 * `Email` row as a value, the `Response` row as an object (the dispatcher updates it in
 * place), the `Customer` row, and the uniqueness of `Email.message_id`.
 * Timestamps are integers (an instant on a common clock).
 */
module EmailModels {
  import opened Wrappers
  import opened Json

  /** `UrgencyLevel(str, Enum)`, in declaration order. */
  datatype UrgencyLevel = Low | Medium | High | Critical {
    /** The enum member's `.value`. */
    function Value(): string {
      match this
      case Low => "low"
      case Medium => "medium"
      case High => "high"
      case Critical => "critical"
    }
  }

  /** `[e.value for e in UrgencyLevel]`. */
  const UrgencyValues: seq<string> := ["low", "medium", "high", "critical"]

  /** `UrgencyLevel(s)`: look a member up by its value; `None` where Python raises ValueError. */
  function ParseUrgency(s: string): (r: Option<UrgencyLevel>)
    ensures r.Some? <==> s in UrgencyValues
    ensures r.Some? ==> r.value.Value() == s
  {
    if s == "low" then Some(Low)
    else if s == "medium" then Some(Medium)
    else if s == "high" then Some(High)
    else if s == "critical" then Some(Critical)
    else None
  }

  /** The enum has exactly four members, their values are the four listed strings, and
   *  a value names its member back. */
  lemma UrgencyLevelValues(u: UrgencyLevel)
    ensures u.Value() in UrgencyValues
    ensures ParseUrgency(u.Value()) == Some(u)
    ensures u == Low || u == Medium || u == High || u == Critical
  {
  }

  /** `EmailStatus(str, Enum)`, in declaration order. */
  datatype EmailStatus = New | Processed | Responded | Failed {
    function Value(): string {
      match this
      case New => "new"
      case Processed => "processed"
      case Responded => "responded"
      case Failed => "failed"
    }
  }

  const StatusValues: seq<string> := ["new", "processed", "responded", "failed"]

  /** `EmailStatus(s)`. */
  function ParseStatus(s: string): (r: Option<EmailStatus>)
    ensures r.Some? <==> s in StatusValues
    ensures r.Some? ==> r.value.Value() == s
  {
    if s == "new" then Some(New)
    else if s == "processed" then Some(Processed)
    else if s == "responded" then Some(Responded)
    else if s == "failed" then Some(Failed)
    else None
  }

  /** The `emails` row. Columns the database may leave NULL are `Option`s; subject, body and
   *  the addresses are taken as present strings. */
  datatype Email = Email(
    id: Option<int>,
    messageId: Option<string>,
    threadId: Option<string>,
    senderEmail: string,
    senderName: Option<string>,
    recipientEmail: string,
    subject: string,
    body: string,
    receivedAt: int,
    processedAt: Option<int>,
    mainCategory: Option<string>,
    subCategory: Option<string>,
    classificationConfidence: Option<real>,
    keywords: Option<seq<string>>,
    sentimentScore: Option<real>,
    urgency: Option<UrgencyLevel>,
    status: EmailStatus,
    errorMessage: Option<string>,
    customerId: Option<int>,
    isReply: bool,
    additionalData: Option<Json>)

  /** An `emails` row as inserted with only the message fields given: `received_at`
   *  defaults to the insertion time, `status` to NEW, `is_reply` to False, the rest to NULL. */
  function NewEmail(messageId: Option<string>, threadId: Option<string>, senderEmail: string,
                    senderName: Option<string>, recipientEmail: string, subject: string,
                    body: string, now: int): (e: Email)
    ensures e.status == New && !e.isReply && e.receivedAt == now
    ensures e.messageId == messageId && e.subject == subject && e.body == body
    ensures e.processedAt.None? && e.urgency.None? && e.errorMessage.None?
  {
    Email(None, messageId, threadId, senderEmail, senderName, recipientEmail, subject, body,
          now, None, None, None, None, None, None, None, New, None, None, false, None)
  }

  /** `message_id = Column(String, unique=True)`: no two rows share a non-NULL message id
   *  (a UNIQUE index admits several NULLs). */
  ghost predicate UniqueMessageIds(table: seq<Email>) {
    forall i, j :: 0 <= i < j < |table| && table[i].messageId.Some? ==>
      table[i].messageId != table[j].messageId
  }

  /** An INSERT into `emails`: the unique index refuses a message id already present. */
  function InsertEmail(table: seq<Email>, e: Email): (r: Result<seq<Email>, string>)
    ensures r.Success? <==> e.messageId.None? || forall x :: x in table ==> x.messageId != e.messageId
    ensures r.Success? ==> r.value == table + [e]
  {
    if e.messageId.Some? && exists x :: x in table && x.messageId == e.messageId
    then Failure("UNIQUE constraint failed: emails.message_id")
    else Success(table + [e])
  }

  /** Every INSERT the index admits keeps the message ids unique. */
  lemma InsertKeepsUnique(table: seq<Email>, e: Email)
    requires UniqueMessageIds(table)
    requires InsertEmail(table, e).Success?
    ensures UniqueMessageIds(InsertEmail(table, e).value)
  {
    var t := table + [e];
    forall i, j | 0 <= i < j < |t| && t[i].messageId.Some?
      ensures t[i].messageId != t[j].messageId
    {
      if j == |table| {
        assert t[i] in table;
      }
    }
  }

  /** The `customers` row, as far as the response context reads it. */
  datatype Customer = Customer(
    id: Option<int>,
    email: string,
    name: Option<string>,
    accountId: string,
    isActive: bool,
    subscriptionStatus: Option<string>,
    lastContact: Option<int>,
    totalTickets: Option<int>)

  /** The `responses` row. The dispatcher changes `is_sent`, `sent_at`, `send_attempts`
   *  and `error_message` in place, so it is an object. */
  class Response {
    var emailId: Option<int>
    var content: Option<string>
    var createdAt: int
    var sentAt: Option<int>
    var modelVersion: Option<string>
    var promptTokens: Option<int>
    var completionTokens: Option<int>
    var totalTokens: Option<int>
    var responseTimeMs: Option<int>
    var isSent: bool
    var sendAttempts: int
    var errorMessage: Option<string>
    var wasHelpful: Option<bool>
    var customerReplied: bool

    /** A response as inserted with its email and content: `created_at` is the insertion
     *  time, `is_sent` False, `send_attempts` 0, `customer_replied` False, the rest NULL. */
    constructor (emailId: Option<int>, content: Option<string>, now: int)
      ensures this.emailId == emailId && this.content == content && createdAt == now
      ensures !isSent && sendAttempts == 0 && !customerReplied
      ensures sentAt.None? && errorMessage.None? && wasHelpful.None?
      ensures modelVersion.None? && promptTokens.None? && completionTokens.None?
      ensures totalTokens.None? && responseTimeMs.None?
    {
      this.emailId := emailId;
      this.content := content;
      createdAt := now;
      sentAt := None;
      modelVersion := None;
      promptTokens := None;
      completionTokens := None;
      totalTokens := None;
      responseTimeMs := None;
      isSent := false;
      sendAttempts := 0;
      errorMessage := None;
      wasHelpful := None;
      customerReplied := false;
    }
  }
}
