/**
 * `EmailProcessor` and `EmailSyncManager.sync_all_configs` (app/email_service.py): the
 * IMAP intake that turns unseen mail into `Ticket` rows. The IMAP server, the MIME
 * parser, `decode_header`, BeautifulSoup, TextBlob and `strptime` are inputs: outcomes
 * or functions the model is given, never code it interprets.
 */
module EmailService {
  import opened Wrappers
  import opened Text
  import opened Whitespace
  import opened TicketModel
  import opened Triage

  // ---------------------------------------------------------------- bodies

  /** One part of `email_message.walk()`: its content type, and its payload decoded to
   *  text, or `None` where `.decode()` raises. */
  datatype Part = Part(contentType: string, payload: Option<string>)

  /** A parsed message: a single payload, or the parts `walk()` yields in order. */
  datatype Message = Single(payload: Option<string>) | Multipart(walk: seq<Part>)

  predicate IsTextPart(p: Part) {
    p.contentType == "text/plain" || p.contentType == "text/html"
  }

  /** The position of the first text/plain or text/html part in walk order. */
  function FirstTextPart(parts: seq<Part>): (r: Option<nat>)
    ensures r.Some? ==> r.value < |parts| && IsTextPart(parts[r.value])
    ensures r.Some? ==> forall j :: 0 <= j < r.value ==> !IsTextPart(parts[j])
    ensures r.None? <==> forall j :: 0 <= j < |parts| ==> !IsTextPart(parts[j])
  {
    if parts == [] then None
    else if IsTextPart(parts[0]) then Some(0)
    else match FirstTextPart(parts[1..])
      case None => None
      case Some(i) => Some(i + 1)
  }

  /** The body before clean-up, or `None` where decoding raises. */
  function RawBody(m: Message, htmlToText: string -> string): Option<string> {
    match m
    case Single(p) => p
    case Multipart(walk) =>
      match FirstTextPart(walk)
      case None => Some("")
      case Some(i) =>
        if walk[i].payload.None? then None
        else if walk[i].contentType == "text/plain" then walk[i].payload
        else Some(htmlToText(walk[i].payload.value))
  }

  /** What `process_email_body` returns, or `None` where it raises. */
  function BodyOf(m: Message, htmlToText: string -> string): Option<string> {
    match RawBody(m, htmlToText)
    case None => None
    case Some(b) => Some(Clean(b))
  }

  /** `process_email_body(email_message)`: the first text part in walk order, HTML through
   *  `htmlToText`, "" when there is none, then the whitespace clean-up. */
  method ProcessEmailBody(m: Message, htmlToText: string -> string) returns (body: Option<string>)
    ensures body == BodyOf(m, htmlToText)
    ensures body.Some? ==> Normal(body.value) && NonSpace(body.value) == NonSpace(RawBody(m, htmlToText).value)
    ensures m.Multipart? && (forall j :: 0 <= j < |m.walk| ==> !IsTextPart(m.walk[j])) ==> body == Some("")
  {
    var raw := "";
    match m {
      case Single(p) =>
        if p.None? {
          return None;
        }
        raw := p.value;
      case Multipart(walk) =>
        var i := 0;
        while i < |walk|
          invariant 0 <= i <= |walk|
          invariant forall j :: 0 <= j < i ==> !IsTextPart(walk[j])
          invariant raw == ""
        {
          if walk[i].contentType == "text/plain" {
            assert FirstTextPart(walk) == Some(i);
            if walk[i].payload.None? {
              return None;
            }
            raw := walk[i].payload.value;
            break;
          } else if walk[i].contentType == "text/html" {
            assert FirstTextPart(walk) == Some(i);
            if walk[i].payload.None? {
              return None;
            }
            raw := htmlToText(walk[i].payload.value);
            break;
          }
          i := i + 1;
        }
    }
    assert RawBody(m, htmlToText) == Some(raw);
    CleanIsNormal(raw);
    body := Some(Clean(raw));
  }

  // ---------------------------------------------------------------- headers

  /** One `(part, encoding)` pair of `decode_header`: a `str` part, or a `bytes` part with
   *  its strict decoding (`None` where it raises, an unknown codec included) and its
   *  lenient UTF-8 decoding. */
  datatype HeaderChunk = Str(text: string) | Bytes(strict: Option<string>, lenient: string)

  /** The text appended for one chunk. */
  function ChunkText(c: HeaderChunk): string {
    match c
    case Str(t) => t
    case Bytes(strict, lenient) => strict.GetOr(lenient)
  }

  function ChunkTexts(chunks: seq<HeaderChunk>): (texts: seq<string>)
    ensures |texts| == |chunks| && forall i :: 0 <= i < |chunks| ==> texts[i] == ChunkText(chunks[i])
  {
    seq(|chunks|, i requires 0 <= i < |chunks| => ChunkText(chunks[i]))
  }

  /** The decoded header, or `None` where `decode_header` raises on a missing header. */
  function HeaderText(header: Option<string>, decodeHeader: string -> seq<HeaderChunk>): Option<string> {
    if header.None? then None else Some(Join(ChunkTexts(decodeHeader(header.value)), " "))
  }

  /** `decode_email_header(header_value)`: each part decoded in order, `str` parts kept
   *  verbatim, joined by single spaces. */
  method DecodeEmailHeader(header: Option<string>, decodeHeader: string -> seq<HeaderChunk>)
    returns (r: Option<string>)
    ensures r.None? <==> header.None?
    ensures r == HeaderText(header, decodeHeader)
  {
    if header.None? {
      return None;
    }
    var chunks := decodeHeader(header.value);
    var decodedParts: seq<string> := [];
    var i := 0;
    while i < |chunks|
      invariant 0 <= i <= |chunks|
      invariant decodedParts == ChunkTexts(chunks)[..i]
    {
      match chunks[i] {
        case Str(t) =>
          decodedParts := decodedParts + [t];
        case Bytes(strict, lenient) =>
          if strict.Some? {
            decodedParts := decodedParts + [strict.value];
          } else {
            decodedParts := decodedParts + [lenient];
          }
      }
      i := i + 1;
    }
    assert ChunkTexts(chunks)[..i] == ChunkTexts(chunks);
    r := Some(Join(decodedParts, " "));
  }

  /** When no decoded part holds a space, the joined header splits back into exactly the
   *  decoded parts: the join adds one separator per seam and nothing else. */
  lemma HeaderPartsRecoverable(header: string, decodeHeader: string -> seq<HeaderChunk>)
    requires |decodeHeader(header)| >= 1
    requires forall i :: 0 <= i < |decodeHeader(header)| ==> ' ' !in ChunkText(decodeHeader(header)[i])
    ensures SplitSpace(HeaderText(Some(header), decodeHeader).value) == ChunkTexts(decodeHeader(header))
  {
    SplitJoin(ChunkTexts(decodeHeader(header)));
  }

  // ---------------------------------------------------------------- intake

  /** A fetched message as `fetch_emails` reads it; a header is `None` when absent. */
  datatype RawMessage = RawMessage(subject: Option<string>, from: Option<string>, to: Option<string>,
                                   date: Option<string>, messageId: Option<string>, content: Message)

  /** The foreign code the intake calls: `decode_header`, BeautifulSoup's `get_text`,
   *  TextBlob's polarity, and `strptime` with '%a, %d %b %Y %H:%M:%S %z' (`None` where it
   *  raises). */
  datatype Env = Env(decodeHeader: string -> seq<HeaderChunk>, htmlToText: string -> string,
                     polarity: string -> real, parseDate: string -> Option<int>)

  /** `db.query(Ticket).filter(Ticket.email_id == message_id).first()` finds a row; a
   *  missing message-id compares as `IS NULL`. */
  predicate Known(rows: seq<Ticket>, id: Option<string>) {
    id in EmailIds(rows)
  }

  /** The `email_id` column. */
  function EmailIds(rows: seq<Ticket>): (ids: seq<Option<string>>)
    ensures |ids| == |rows|
  {
    seq(|rows|, i requires 0 <= i < |rows| => rows[i].emailId)
  }

  /** The `Ticket(...)` built from a message that passed every check. */
  function NewTicket(date: int, subject: string, from: string, to: string, body: string,
                     messageId: Option<string>, polarity: string -> real): (t: Ticket)
    ensures t.emailId == messageId && t.content == body
  {
    var category := CategorizeContent(subject, body);
    Ticket(date, category.0, category.1, DetermineUrgency(subject, body), CalculateSentiment(body, polarity),
           body, messageId, subject, from, to)
  }

  /** The ticket one fetched message yields against the rows stored so far, or `None` when
   *  the message is skipped: it could not be fetched, a header raises, its message-id is
   *  already stored, its body raises, or its date does not parse. */
  function TicketFor(fetched: Option<RawMessage>, rows: seq<Ticket>, env: Env): (r: Option<Ticket>)
    ensures r.Some? ==> fetched.Some? && r.value.emailId == fetched.value.messageId && !Known(rows, r.value.emailId)
    ensures r.Some? ==> BodyOf(fetched.value.content, env.htmlToText) == Some(r.value.content)
  {
    if fetched.None? then None
    else
      var m := fetched.value;
      var subject := HeaderText(m.subject, env.decodeHeader);
      var from := HeaderText(m.from, env.decodeHeader);
      var to := HeaderText(m.to, env.decodeHeader);
      if subject.None? || from.None? || to.None? then None
      else if Known(rows, m.messageId) then None
      else
        match BodyOf(m.content, env.htmlToText)
        case None => None
        case Some(body) =>
          if m.date.None? || env.parseDate(m.date.value).None? then None
          else Some(NewTicket(env.parseDate(m.date.value).value, subject.value, from.value, to.value,
                              body, m.messageId, env.polarity))
  }

  function Listed(t: Option<Ticket>): seq<Ticket> {
    if t.None? then [] else [t.value]
  }

  /** One round of the loop: the ticket for a message number against the rows stored
   *  so far. */
  function TicketStep(fetch: string -> Option<RawMessage>, env: Env): (string, seq<Ticket>) -> Option<Ticket> {
    (n, known) => TicketFor(fetch(n), known, env)
  }

  /** A step never yields a ticket whose message-id is already stored. */
  ghost predicate FreshStep(step: (string, seq<Ticket>) -> Option<Ticket>) {
    forall n, known :: step(n, known).Some? ==> !Known(known, step(n, known).value.emailId)
  }

  lemma TicketStepIsFresh(fetch: string -> Option<RawMessage>, env: Env)
    ensures FreshStep(TicketStep(fetch, env))
  {
    forall n, known
      ensures TicketStep(fetch, env)(n, known).Some? ==> !Known(known, TicketStep(fetch, env)(n, known).value.emailId)
    {
      assert TicketStep(fetch, env)(n, known) == TicketFor(fetch(n), known, env);
    }
  }

  /** The tickets the loop adds over the message numbers `nums`, each message checked
   *  against the stored rows and the tickets added before it. */
  function Intake(rows: seq<Ticket>, nums: seq<string>, step: (string, seq<Ticket>) -> Option<Ticket>): (r: seq<Ticket>)
    ensures |r| <= |nums|
  {
    if nums == [] then []
    else
      var earlier := Intake(rows, nums[..|nums| - 1], step);
      earlier + Listed(step(nums[|nums| - 1], rows + earlier))
  }

  /** One more round of the loop appends the ticket, if any, for the next message. */
  lemma IntakeExtend(rows: seq<Ticket>, nums: seq<string>, i: nat, step: (string, seq<Ticket>) -> Option<Ticket>)
    requires i < |nums|
    ensures Intake(rows, nums[..i + 1], step)
         == Intake(rows, nums[..i], step) + Listed(step(nums[i], rows + Intake(rows, nums[..i], step)))
  {
    assert nums[..i + 1][..i] == nums[..i];
  }

  /** No ticket reuses a message-id already stored, and no two tickets share one. */
  predicate FreshTickets(rows: seq<Ticket>, tickets: seq<Ticket>) {
    && (forall i :: 0 <= i < |tickets| ==> !Known(rows, tickets[i].emailId))
    && (forall i, j :: 0 <= i < j < |tickets| ==> tickets[i].emailId != tickets[j].emailId)
  }

  /** The tickets one `fetch_emails` run adds never reuse a stored message-id nor one of
   *  their own. */
  lemma FetchedTicketsAreFresh(rows: seq<Ticket>, nums: seq<string>, fetch: string -> Option<RawMessage>, env: Env)
    ensures FreshTickets(rows, Intake(rows, nums, TicketStep(fetch, env)))
  {
    TicketStepIsFresh(fetch, env);
    IntakeIsFresh(rows, nums, TicketStep(fetch, env));
  }

  /** A run never duplicates a stored message-id nor one of its own. */
  lemma {:induction false} IntakeIsFresh(rows: seq<Ticket>, nums: seq<string>, step: (string, seq<Ticket>) -> Option<Ticket>)
    requires FreshStep(step)
    ensures FreshTickets(rows, Intake(rows, nums, step))
  {
    if nums != [] {
      var earlier := Intake(rows, nums[..|nums| - 1], step);
      IntakeIsFresh(rows, nums[..|nums| - 1], step);
      var t := step(nums[|nums| - 1], rows + earlier);
      if t.Some? {
        var r := earlier + [t.value];
        var id := t.value.emailId;
        assert !Known(rows + earlier, id);
        KnownGrows(rows, earlier, id);
        forall i | 0 <= i < |r| ensures !Known(rows, r[i].emailId) {
          if i < |earlier| {
            assert r[i] == earlier[i];
          } else {
            assert r[i] == t.value;
          }
        }
        forall i, j | 0 <= i < j < |r| ensures r[i].emailId != r[j].emailId {
          assert r[i] == earlier[i];
          if j < |earlier| {
            assert r[j] == earlier[j];
          } else {
            assert r[j] == t.value;
            assert EmailIds(earlier)[i] == earlier[i].emailId;
            KnownGrows(rows, earlier, earlier[i].emailId);
          }
        }
      }
    }
  }

  /** A row found before more rows are added is still found, and so is one among the
   *  added rows. */
  lemma KnownGrows(rows: seq<Ticket>, extra: seq<Ticket>, id: Option<string>)
    ensures Known(rows, id) ==> Known(rows + extra, id)
    ensures Known(extra, id) ==> Known(rows + extra, id)
  {
    assert EmailIds(rows + extra) == EmailIds(rows) + EmailIds(extra);
  }

  /** The run over `a + b` is the run over `a` followed by the run over `b` against the
   *  rows the first part left: a message affects later ones only through the ticket it
   *  adds. */
  lemma {:induction false} IntakeAppend(rows: seq<Ticket>, a: seq<string>, b: seq<string>,
                                        step: (string, seq<Ticket>) -> Option<Ticket>)
    ensures Intake(rows, a + b, step) == Intake(rows, a, step) + Intake(rows + Intake(rows, a, step), b, step)
    decreases |b|
  {
    if b == [] {
      assert a + b == a;
    } else {
      var b' := b[..|b| - 1];
      assert (a + b)[..|a + b| - 1] == a + b';
      assert (a + b)[|a + b| - 1] == b[|b| - 1];
      IntakeAppend(rows, a, b', step);
      var ra := Intake(rows, a, step);
      var rb' := Intake(rows + ra, b', step);
      assert rows + (ra + rb') == (rows + ra) + rb';
    }
  }

  /** A message that is skipped leaves the run exactly as if it had not been there. */
  lemma SkippedMessageIsHarmless(rows: seq<Ticket>, a: seq<string>, n: string, b: seq<string>,
                                 step: (string, seq<Ticket>) -> Option<Ticket>)
    requires step(n, rows + Intake(rows, a, step)).None?
    ensures Intake(rows, a + [n] + b, step) == Intake(rows, a + b, step)
  {
    IntakeAppend(rows, a + [n], b, step);
    assert (a + [n])[..|a + [n]| - 1] == a;
    assert (a + [n])[|a + [n]| - 1] == n;
    assert Intake(rows, a + [n], step) == Intake(rows, a, step);
    IntakeAppend(rows, a, b, step);
  }

  /** The session's view of the `tickets` table: committed rows and rows added in this
   *  session, which a query sees because the session flushes before querying. */
  class TicketStore {
    var rows: seq<Ticket>

    constructor (rows: seq<Ticket>)
      ensures this.rows == rows
    {
      this.rows := rows;
    }
  }

  /** How `connect` ends: the socket fails, the login fails, or both succeed. */
  datatype ConnectOutcome = Unreachable | LoginRefused | LoggedIn

  class EmailProcessor {
    const config: EmailConfig
    /** `imap_conn is not None`. */
    var connected: bool

    constructor (config: EmailConfig)
      ensures this.config == config && !connected
    {
      this.config := config;
      connected := false;
    }

    /** `connect()`: the connection object is stored before the login is tried, so a
     *  refused login leaves it set. */
    method Connect(outcome: ConnectOutcome) returns (ok: bool)
      modifies this
      ensures ok <==> outcome == LoggedIn
      ensures connected == (if outcome == Unreachable then old(connected) else true)
    {
      if outcome == Unreachable {
        return false;
      }
      connected := true;
      ok := outcome == LoggedIn;
    }

    /** `disconnect()`: logout errors are swallowed and the connection is dropped. */
    method Disconnect()
      modifies this
      ensures !connected
    {
      connected := false;
    }

    /** `fetch_emails(db)`. `search` is the answer to the SINCE search (`None` where
     *  selecting or searching raises); `fetch` is the fetch-and-parse of one message
     *  number (`None` where it raises). Returns the new tickets and whether the call
     *  raised. */
    method FetchEmails(db: TicketStore, outcome: ConnectOutcome, search: Option<seq<string>>,
                       fetch: string -> Option<RawMessage>, env: Env)
      returns (tickets: seq<Ticket>, raised: bool)
      modifies this, db
      ensures outcome != LoggedIn ==> tickets == [] && !raised && db.rows == old(db.rows)
      ensures outcome != LoggedIn ==> connected == (if outcome == Unreachable then old(connected) else true)
      ensures outcome == LoggedIn ==> !connected
      ensures outcome == LoggedIn && search.None? ==> raised && tickets == [] && db.rows == old(db.rows)
      ensures outcome == LoggedIn && search.Some? ==>
        !raised && tickets == Intake(old(db.rows), search.value, TicketStep(fetch, env))
        && db.rows == old(db.rows) + tickets
    {
      var ok := Connect(outcome);
      if !ok {
        return [], false;
      }
      if search.None? {
        Disconnect();
        return [], true;
      }
      tickets := StoreNewTickets(db, search.value, TicketStep(fetch, env));
      Disconnect();
      raised := false;
    }
  }

  /** The loop of `fetch_emails` over the message numbers the search returned, `step`
   *  being one round of its body: each new ticket is added to the session, so later
   *  messages are checked against it. */
  method StoreNewTickets(db: TicketStore, nums: seq<string>, step: (string, seq<Ticket>) -> Option<Ticket>)
    returns (tickets: seq<Ticket>)
    modifies db
    ensures tickets == Intake(old(db.rows), nums, step)
    ensures db.rows == old(db.rows) + tickets
  {
    tickets := [];
    var i := 0;
    while i < |nums|
      invariant 0 <= i <= |nums|
      invariant tickets == Intake(old(db.rows), nums[..i], step)
      invariant db.rows == old(db.rows) + tickets
    {
      IntakeExtend(old(db.rows), nums, i, step);
      var ticket := step(nums[i], db.rows);
      if ticket.Some? {
        db.rows := db.rows + [ticket.value];
        tickets := tickets + [ticket.value];
      }
      i := i + 1;
    }
    assert nums[..i] == nums;
  }

  /** One configuration's mailbox as a sync finds it. */
  datatype Mailbox = Mailbox(outcome: ConnectOutcome, search: Option<seq<string>>, fetch: string -> Option<RawMessage>)

  /** `fetch_emails` raises only when it logged in and then could not search. */
  predicate FetchRaises(b: Mailbox) {
    b.outcome == LoggedIn && b.search.None?
  }

  /** The tickets one configuration's `fetch_emails` adds against the rows stored so far:
   *  none unless the configuration is active and its mailbox logs in and answers the
   *  search. */
  function SyncRun(rows: seq<Ticket>, active: bool, box: Mailbox, env: Env): seq<Ticket> {
    if active && box.outcome == LoggedIn && box.search.Some?
    then Intake(rows, box.search.value, TicketStep(box.fetch, env))
    else []
  }

  /** `SyncRun` as the step of `SyncTickets`. */
  function SyncRunner(env: Env): (seq<Ticket>, bool, Mailbox) -> seq<Ticket> {
    (rows, active, box) => SyncRun(rows, active, box, env)
  }

  /** The tickets a whole sync adds, configuration by configuration in order, each run
   *  checked against the rows the earlier runs committed. */
  function SyncTickets(rows: seq<Ticket>, active: seq<bool>, boxes: seq<Mailbox>,
                       run: (seq<Ticket>, bool, Mailbox) -> seq<Ticket>): seq<Ticket>
    requires |active| == |boxes|
  {
    if boxes == [] then []
    else
      var n := |boxes| - 1;
      var earlier := SyncTickets(rows, active[..n], boxes[..n], run);
      earlier + run(rows + earlier, active[n], boxes[n])
  }

  /** One more configuration appends its run against the rows stored so far. */
  lemma SyncTicketsStep(rows: seq<Ticket>, active: seq<bool>, boxes: seq<Mailbox>, i: nat,
                        run: (seq<Ticket>, bool, Mailbox) -> seq<Ticket>)
    requires |active| == |boxes| && i < |boxes|
    ensures var earlier := SyncTickets(rows, active[..i], boxes[..i], run);
      SyncTickets(rows, active[..i + 1], boxes[..i + 1], run) == earlier + run(rows + earlier, active[i], boxes[i])
  {
    assert active[..i + 1][..i] == active[..i] && boxes[..i + 1][..i] == boxes[..i];
  }

  /** The rows after one more configuration's run are the rows before the sync followed
   *  by the tickets of the sync so far, that configuration included. */
  lemma SyncStored(rows: seq<Ticket>, stored: seq<Ticket>, active: seq<bool>, boxes: seq<Mailbox>, i: nat, env: Env)
    requires |active| == |boxes| && i < |boxes|
    requires var earlier := SyncTickets(rows, active[..i], boxes[..i], SyncRunner(env));
      stored == rows + earlier + SyncRun(rows + earlier, active[i], boxes[i], env)
    ensures stored == rows + SyncTickets(rows, active[..i + 1], boxes[..i + 1], SyncRunner(env))
  {
    var earlier := SyncTickets(rows, active[..i], boxes[..i], SyncRunner(env));
    var run := SyncRun(rows + earlier, active[i], boxes[i], env);
    SyncTicketsStep(rows, active, boxes, i, SyncRunner(env));
    assert SyncRunner(env)(rows + earlier, active[i], boxes[i]) == run;
    AppendAssoc(rows, earlier, run);
  }

  /** Fresh tickets followed by tickets fresh against them are fresh together. */
  lemma FreshAppend(rows: seq<Ticket>, a: seq<Ticket>, b: seq<Ticket>)
    requires FreshTickets(rows, a) && FreshTickets(rows + a, b)
    ensures FreshTickets(rows, a + b)
  {
    var r := a + b;
    forall i | 0 <= i < |r| ensures !Known(rows, r[i].emailId) {
      if i < |a| {
        assert r[i] == a[i];
      } else {
        assert r[i] == b[i - |a|];
        KnownGrows(rows, a, r[i].emailId);
      }
    }
    forall i, j | 0 <= i < j < |r| ensures r[i].emailId != r[j].emailId {
      if j < |a| {
        assert r[i] == a[i] && r[j] == a[j];
      } else if i >= |a| {
        assert r[i] == b[i - |a|] && r[j] == b[j - |a|];
      } else {
        assert r[i] == a[i] && r[j] == b[j - |a|];
        assert EmailIds(a)[i] == a[i].emailId;
        KnownGrows(rows, a, a[i].emailId);
      }
    }
  }

  /** A whole sync never stores a message-id twice, across configurations as within
   *  one: each configuration's run is checked against the rows the earlier ones
   *  committed. */
  lemma {:induction false} SyncIsFresh(rows: seq<Ticket>, active: seq<bool>, boxes: seq<Mailbox>, env: Env)
    requires |active| == |boxes|
    ensures FreshTickets(rows, SyncTickets(rows, active, boxes, SyncRunner(env)))
  {
    if boxes != [] {
      var n := |boxes| - 1;
      var earlier := SyncTickets(rows, active[..n], boxes[..n], SyncRunner(env));
      SyncIsFresh(rows, active[..n], boxes[..n], env);
      var box := boxes[n];
      if active[n] && box.outcome == LoggedIn && box.search.Some? {
        FetchedTicketsAreFresh(rows + earlier, box.search.value, box.fetch, env);
      }
      assert SyncRunner(env)(rows + earlier, active[n], box) == SyncRun(rows + earlier, active[n], box, env);
      FreshAppend(rows, earlier, SyncRun(rows + earlier, active[n], box, env));
    }
  }

  /** The `try` block of `sync_all_configs` for one configuration: an active one is
   *  fetched with a fresh processor and stamped with `now` unless the fetch raised. */
  method SyncConfig(config: EmailConfig, db: TicketStore, box: Mailbox, env: Env, now: int)
    modifies config, db
    ensures config.isActive == old(config.isActive)
    ensures config.lastSync == (if old(config.isActive) && !FetchRaises(box) then Some(now) else old(config.lastSync))
    ensures db.rows == old(db.rows) + SyncRun(old(db.rows), old(config.isActive), box, env)
  {
    if config.isActive {
      var processor := new EmailProcessor(config);
      var _, raised := processor.FetchEmails(db, box.outcome, box.search, box.fetch, env);
      if !raised {
        config.lastSync := Some(now);
      }
    }
  }

  /** `EmailSyncManager.sync_all_configs()`: the query selects the active configurations,
   *  and each is synced in turn with its own reading of the clock; a failed fetch leaves
   *  its `last_sync` as it was and does not stop the others. `active` names the
   *  `is_active` flags the query sees. */
  method SyncAllConfigs(configs: seq<EmailConfig>, db: TicketStore, boxes: seq<Mailbox>, env: Env,
                        clock: seq<int>, ghost active: seq<bool>)
    requires |boxes| == |configs| && |clock| == |configs| && |active| == |configs|
    requires forall i :: 0 <= i < |configs| ==> configs[i].isActive == active[i]
    requires forall i, j :: 0 <= i < j < |configs| ==> configs[i] != configs[j]
    modifies configs, db
    ensures forall i :: 0 <= i < |configs| ==>
      configs[i].lastSync == (if active[i] && !FetchRaises(boxes[i]) then Some(clock[i]) else old(configs[i].lastSync))
    ensures forall i :: 0 <= i < |configs| ==> configs[i].isActive == active[i]
    ensures db.rows == old(db.rows) + SyncTickets(old(db.rows), active, boxes, SyncRunner(env))
  {
    var i := 0;
    while i < |configs|
      invariant 0 <= i <= |configs|
      invariant forall j :: 0 <= j < |configs| ==> configs[j].isActive == active[j]
      invariant forall j :: 0 <= j < i ==>
        configs[j].lastSync == (if active[j] && !FetchRaises(boxes[j]) then Some(clock[j]) else old(configs[j].lastSync))
      invariant forall j :: i <= j < |configs| ==> configs[j].lastSync == old(configs[j].lastSync)
      invariant db.rows == old(db.rows) + SyncTickets(old(db.rows), active[..i], boxes[..i], SyncRunner(env))
    {
      SyncConfig(configs[i], db, boxes[i], env, clock[i]);
      SyncStored(old(db.rows), db.rows, active, boxes, i, env);
      i := i + 1;
    }
    assert active[..i] == active && boxes[..i] == boxes;
  }
}
