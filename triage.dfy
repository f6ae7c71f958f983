/**
 * Rule-based triage of support tickets (app/utils.py): keyword categorisation, keyword
 * urgency, the sentiment wrapper, the CSV import loop and the dashboard metrics.
 * TextBlob's polarity, pandas' date parsing and `strftime` are foreign and are passed in
 * as functions.
 */
module Triage {
  import opened Wrappers
  import opened Text
  import opened TicketModel

  // ---------------------------------------------------------------- categories

  /** The category table, in the dict's insertion order. */
  const Categories: seq<(string, seq<string>)> := [
    ("Technical Issue", ["error", "bug", "broken", "not working", "failed"]),
    ("Account", ["password", "login", "account", "sign in", "access"]),
    ("Billing", ["payment", "invoice", "charge", "subscription", "price"]),
    ("Feature Request", ["feature", "suggestion", "improve", "would be nice", "can you add"]),
    ("General Inquiry", ["how to", "question", "help with", "support"])
  ]

  /** Some keyword occurs in `text`. */
  predicate AnyIn(keywords: seq<string>, text: string) {
    exists k :: k in keywords && Contains(text, k)
  }

  /** `any(keyword in subject_lower or keyword in body_lower for keyword in keywords)`. */
  predicate Hit(keywords: seq<string>, subject: string, body: string) {
    AnyIn(keywords, subject) || AnyIn(keywords, body)
  }

  /** The category loop with its early return, over already lower-cased text. */
  function FirstCategory(cats: seq<(string, seq<string>)>, subject: string, body: string)
    : (r: (string, string))
    ensures r == ("Other", "General") || (r.1 == "Support" && exists i :: 0 <= i < |cats| && r.0 == cats[i].0)
  {
    if cats == [] then ("Other", "General")
    else if Hit(cats[0].1, subject, body) then (cats[0].0, "Support")
    else
      var r := FirstCategory(cats[1..], subject, body);
      assert r.1 == "Support" ==> exists i :: 0 <= i < |cats[1..]| && r.0 == cats[1..][i].0;
      assert forall i :: 0 <= i < |cats[1..]| ==> cats[1..][i] == cats[i + 1];
      r
  }

  /** `categorize_content(subject, body)`. */
  function CategorizeContent(subject: string, body: string): (r: (string, string))
    ensures r.1 == "Support" <==> r.0 != "Other"
    ensures r.0 == "Other" ==> r.1 == "General"
  {
    FirstCategory(Categories, Lower(subject), Lower(body))
  }

  /** The loop returns the first category whose keywords hit, or ("Other", "General") when
   *  none does. */
  lemma {:induction false} FirstCategoryIsFirstHit(cats: seq<(string, seq<string>)>, subject: string, body: string)
    ensures (forall i :: 0 <= i < |cats| ==> !Hit(cats[i].1, subject, body)) ==>
      FirstCategory(cats, subject, body) == ("Other", "General")
    ensures forall i :: (0 <= i < |cats| && Hit(cats[i].1, subject, body) &&
      (forall j :: 0 <= j < i ==> !Hit(cats[j].1, subject, body))) ==>
      FirstCategory(cats, subject, body) == (cats[i].0, "Support")
  {
    if cats != [] {
      FirstCategoryIsFirstHit(cats[1..], subject, body);
      forall i | 0 <= i < |cats| && Hit(cats[i].1, subject, body) &&
        (forall j :: 0 <= j < i ==> !Hit(cats[j].1, subject, body))
        ensures FirstCategory(cats, subject, body) == (cats[i].0, "Support")
      {
        if i > 0 {
          assert cats[1..][i - 1] == cats[i];
          assert forall j :: 0 <= j < i - 1 ==> cats[1..][j] == cats[j + 1];
        }
      }
      if forall i :: 0 <= i < |cats| ==> !Hit(cats[i].1, subject, body) {
        assert forall i :: 0 <= i < |cats[1..]| ==> cats[1..][i] == cats[i + 1];
      }
    }
  }

  /** `categorize_content` picks the first category in declared order (Technical Issue,
   *  Account, Billing, Feature Request, General Inquiry) with a keyword in the lower-cased
   *  subject or body, with sub-category 'Support'; with no hit it gives ('Other', 'General'). */
  lemma CategorizeFirstMatch(subject: string, body: string, i: nat)
    requires i < |Categories|
    requires Hit(Categories[i].1, Lower(subject), Lower(body))
    requires forall j :: 0 <= j < i ==> !Hit(Categories[j].1, Lower(subject), Lower(body))
    ensures CategorizeContent(subject, body) == (Categories[i].0, "Support")
  {
    FirstCategoryIsFirstHit(Categories, Lower(subject), Lower(body));
  }

  lemma CategorizeNoMatch(subject: string, body: string)
    requires forall j :: 0 <= j < |Categories| ==> !Hit(Categories[j].1, Lower(subject), Lower(body))
    ensures CategorizeContent(subject, body) == ("Other", "General")
  {
    FirstCategoryIsFirstHit(Categories, Lower(subject), Lower(body));
  }

  /** Changing the case of letters in the subject or the body does not change the category. */
  lemma CategorizeIgnoresCase(subject: string, body: string, subject': string, body': string)
    requires SameUpToCase(subject, subject') && SameUpToCase(body, body')
    ensures CategorizeContent(subject, body) == CategorizeContent(subject', body')
  {
    LowerSameUpToCase(subject, subject');
    LowerSameUpToCase(body, body');
  }

  // ---------------------------------------------------------------- urgency

  const UrgentKeywords: seq<string> := ["urgent", "emergency", "critical", "asap", "immediately"]
  const LowKeywords: seq<string> := ["feedback", "suggestion", "feature request", "when possible"]

  /** The text `determine_urgency` searches. */
  function UrgencyText(subject: string, body: string): string {
    Lower(subject + " " + body)
  }

  /** `determine_urgency(subject, body)`. */
  function DetermineUrgency(subject: string, body: string): (r: string)
    ensures r == "High" || r == "Low" || r == "Medium"
  {
    var text := UrgencyText(subject, body);
    if AnyIn(UrgentKeywords, text) then "High"
    else if AnyIn(LowKeywords, text) then "Low"
    else "Medium"
  }

  /** Urgent keywords win over low ones; 'Low' needs a low keyword and no urgent one;
   *  everything else is 'Medium'. */
  lemma UrgencyPrecedence(subject: string, body: string)
    ensures DetermineUrgency(subject, body) == "High" <==> AnyIn(UrgentKeywords, UrgencyText(subject, body))
    ensures DetermineUrgency(subject, body) == "Low" <==>
      !AnyIn(UrgentKeywords, UrgencyText(subject, body)) && AnyIn(LowKeywords, UrgencyText(subject, body))
    ensures DetermineUrgency(subject, body) == "Medium" <==>
      !AnyIn(UrgentKeywords, UrgencyText(subject, body)) && !AnyIn(LowKeywords, UrgencyText(subject, body))
  {
  }

  /** Changing the case of letters in the subject or the body does not change the urgency. */
  lemma UrgencyIgnoresCase(subject: string, body: string, subject': string, body': string)
    requires SameUpToCase(subject, subject') && SameUpToCase(body, body')
    ensures DetermineUrgency(subject, body) == DetermineUrgency(subject', body')
  {
    assert SameUpToCase(subject + " " + body, subject' + " " + body');
    LowerSameUpToCase(subject + " " + body, subject' + " " + body');
  }

  /** The lower-cased join, around the seam, is the lower-cased end of the subject, the
   *  space and the lower-cased start of the body. */
  lemma JoinSeam(subject: string, body: string)
    requires |subject| >= 4 && |body| >= 8
    ensures Lower(subject + " " + body)[|subject| - 4..|subject| + 9]
         == Lower(subject)[|subject| - 4..] + " " + Lower(body)[..8]
  {
    var joined, n := subject + " " + body, |subject|;
    var text := Lower(joined);
    var w, p := Lower(subject)[n - 4..], Lower(body)[..8];
    var key := w + " " + p;
    forall m | 0 <= m < |key| ensures text[n - 4 + m] == key[m] {
      if m < 4 {
        assert text[n - 4 + m] == LowerChar(joined[n - 4 + m]) == LowerChar(subject[n - 4 + m]);
        assert key[m] == w[m] == Lower(subject)[n - 4 + m];
      } else if m > 4 {
        assert text[n - 4 + m] == LowerChar(joined[n - 4 + m]) == LowerChar(body[m - 5]);
        assert key[m] == p[m - 5] == Lower(body)[m - 5];
      }
    }
    assert text[n - 4..n - 4 + |key|] == key;
  }

  /** "when" closing the subject and "possible" opening the body meet across the join. */
  lemma WhenPossibleAcrossJoin(subject: string, body: string)
    requires |subject| >= 4 && Lower(subject)[|subject| - 4..] == "when"
    requires |body| >= 8 && Lower(body)[..8] == "possible"
    ensures Contains(UrgencyText(subject, body), "when possible")
  {
    JoinSeam(subject, body);
    ContainsAt(UrgencyText(subject, body), "when possible", |subject| - 4);
  }

  /** The search runs over `subject + ' ' + body`, so a keyword may straddle the join: a
   *  subject ending in "when" and a body starting with "possible" read as "when possible". */
  lemma UrgencySpansJoin(subject: string, body: string)
    requires |subject| >= 4 && Lower(subject)[|subject| - 4..] == "when"
    requires |body| >= 8 && Lower(body)[..8] == "possible"
    requires !AnyIn(UrgentKeywords, UrgencyText(subject, body))
    ensures DetermineUrgency(subject, body) == "Low"
  {
    WhenPossibleAcrossJoin(subject, body);
    assert LowKeywords[3] == "when possible";
  }

  // ---------------------------------------------------------------- sentiment

  /** `calculate_sentiment(text)`: empty text scores 0.0 without consulting TextBlob. */
  function CalculateSentiment(text: string, polarity: string -> real): (r: real)
    ensures text == "" ==> r == 0.0
    ensures text != "" ==> r == polarity(text)
  {
    if text == "" then 0.0 else polarity(text)
  }

  // ---------------------------------------------------------------- CSV import

  /** A text cell of a DataFrame row: a column the row does not have, pandas' NaN float
   *  (an empty field in the CSV), or a string. */
  datatype Cell = Absent | NaN | Text(s: string)

  /** One DataFrame row. The text columns are cells; the others read as `None` when
   *  absent. */
  datatype CsvRow = CsvRow(
    subject: Cell,
    body: Cell,
    content: Cell,
    date: Option<string>,
    emailId: Option<string>,
    fromAddress: Option<string>,
    toAddress: Option<string>)

  /** The dict `process_csv_data` appends per row. */
  datatype CsvRecord = CsvRecord(
    date: Option<int>,
    mainCategory: string,
    subCategory: string,
    urgencyLevel: string,
    content: string,
    sentimentScore: real,
    emailId: Option<string>,
    subject: string,
    fromAddress: Option<string>,
    toAddress: Option<string>)

  /** `row.get(column, '')`. */
  function GetCell(c: Cell): Cell {
    if c.Absent? then Text("") else c
  }

  /** Python truthiness of a cell value: NaN is a non-zero float, so it is true. */
  predicate Truthy(c: Cell) {
    c.NaN? || (c.Text? && c.s != "")
  }

  /** `row.get('body', '') or row.get('content', '')`: an empty or absent body falls back
   *  to the content column, while a NaN body is kept. */
  function RowBody(row: CsvRow): Cell {
    var body := GetCell(row.body);
    if Truthy(body) then body else GetCell(row.content)
  }

  /** What `subject.lower()` raises in `categorize_content` when a text cell is NaN. */
  const NaNLowerError := "AttributeError: 'float' object has no attribute 'lower'"

  /** The record built for one row from its subject and body texts and its parsed date. */
  function RowRecord(row: CsvRow, subject: string, body: string, date: Option<int>,
                     polarity: string -> real): CsvRecord
  {
    var (mainCat, subCat) := CategorizeContent(subject, body);
    CsvRecord(date, mainCat, subCat, DetermineUrgency(subject, body), body,
              CalculateSentiment(body, polarity), row.emailId, subject, row.fromAddress, row.toAddress)
  }

  /** One row of `process_csv_data`: `categorize_content` runs first and raises on a NaN
   *  subject or body; then `pd.to_datetime` may raise on the date cell. */
  function ParseRow(row: CsvRow, toDatetime: Option<string> -> Result<Option<int>, string>,
                    polarity: string -> real): Result<CsvRecord, string>
  {
    var subject := GetCell(row.subject);
    var body := RowBody(row);
    if !subject.Text? || !body.Text? then Failure(NaNLowerError)
    else
      match toDatetime(row.date)
      case Failure(e) => Failure(e)
      case Success(date) => Success(RowRecord(row, subject.s, body.s, date, polarity))
  }

  function CsvParser(toDatetime: Option<string> -> Result<Option<int>, string>, polarity: string -> real)
    : CsvRow -> Result<CsvRecord, string>
  {
    row => ParseRow(row, toDatetime, polarity)
  }

  /** The rows parsed in order; the first error aborts the whole import. */
  function ImportRows(rows: seq<CsvRow>, parse: CsvRow -> Result<CsvRecord, string>): Result<seq<CsvRecord>, string> {
    if rows == [] then Success([])
    else
      match ImportRows(rows[..|rows| - 1], parse)
      case Failure(e) => Failure(e)
      case Success(records) =>
        match parse(rows[|rows| - 1])
        case Failure(e) => Failure(e)
        case Success(record) => Success(records + [record])
  }

  /** Once a prefix of the rows has failed, the import fails with the same error. */
  lemma {:induction false} ImportStopsAtFailure(rows: seq<CsvRow>, n: nat, parse: CsvRow -> Result<CsvRecord, string>)
    requires n <= |rows| && ImportRows(rows[..n], parse).Failure?
    ensures ImportRows(rows, parse) == ImportRows(rows[..n], parse)
    decreases |rows| - n
  {
    if n < |rows| {
      assert rows[..n + 1][..n] == rows[..n];
      ImportStopsAtFailure(rows, n + 1, parse);
    } else {
      assert rows[..n] == rows;
    }
  }

  /** The import succeeds exactly when every row parses, and then holds each row's record
   *  in order. */
  lemma {:induction false} ImportRowsSucceeds(rows: seq<CsvRow>, parse: CsvRow -> Result<CsvRecord, string>)
    ensures ImportRows(rows, parse).Success? <==> forall i :: 0 <= i < |rows| ==> parse(rows[i]).Success?
    ensures ImportRows(rows, parse).Success? ==>
      |ImportRows(rows, parse).value| == |rows| &&
      forall i :: 0 <= i < |rows| ==> ImportRows(rows, parse).value[i] == parse(rows[i]).value
  {
    if rows != [] {
      var init := rows[..|rows| - 1];
      ImportRowsSucceeds(init, parse);
      assert forall i :: 0 <= i < |init| ==> init[i] == rows[i];
    }
  }

  /** A failed import reports the error of the first row that does not parse. */
  lemma {:induction false} ImportRowsFirstError(rows: seq<CsvRow>, parse: CsvRow -> Result<CsvRecord, string>)
    requires ImportRows(rows, parse).Failure?
    ensures exists i :: 0 <= i < |rows| && parse(rows[i]) == Failure(ImportRows(rows, parse).error) &&
                        forall j :: 0 <= j < i ==> parse(rows[j]).Success?
  {
    var init := rows[..|rows| - 1];
    if ImportRows(init, parse).Failure? {
      ImportRowsFirstError(init, parse);
      var i :| 0 <= i < |init| && parse(init[i]) == Failure(ImportRows(init, parse).error) &&
               forall j :: 0 <= j < i ==> parse(init[j]).Success?;
      assert forall j :: 0 <= j <= i ==> init[j] == rows[j];
    } else {
      ImportRowsSucceeds(init, parse);
      assert forall j :: 0 <= j < |init| ==> init[j] == rows[j];
      assert parse(rows[|rows| - 1]) == Failure(ImportRows(rows, parse).error);
    }
  }

  /** `process_csv_data(df)`. `toDatetime` is `pd.to_datetime` on the date cell; its
   *  failure is the exception that aborts the whole import. */
  method ProcessCsvData(rows: seq<CsvRow>, toDatetime: Option<string> -> Result<Option<int>, string>,
                        polarity: string -> real)
    returns (r: Result<seq<CsvRecord>, string>)
    ensures r == ImportRows(rows, CsvParser(toDatetime, polarity))
  {
    ghost var parse := CsvParser(toDatetime, polarity);
    var processed: seq<CsvRecord> := [];
    var i := 0;
    while i < |rows|
      invariant 0 <= i <= |rows|
      invariant ImportRows(rows[..i], parse) == Success(processed)
    {
      assert rows[..i + 1][..i] == rows[..i];
      assert parse(rows[i]) == ParseRow(rows[i], toDatetime, polarity);
      var subject := GetCell(rows[i].subject);
      var body := RowBody(rows[i]);
      if !subject.Text? || !body.Text? {
        ImportStopsAtFailure(rows, i + 1, parse);
        return Failure(NaNLowerError);
      }
      var date := toDatetime(rows[i].date);
      if date.Failure? {
        ImportStopsAtFailure(rows, i + 1, parse);
        return Failure(date.error);
      }
      processed := processed + [RowRecord(rows[i], subject.s, body.s, date.value, polarity)];
      i := i + 1;
    }
    assert rows[..i] == rows;
    return Success(processed);
  }

  /** How one row fares: a NaN subject, a NaN body, or a NaN content column standing in
   *  for an empty body aborts the import before the date is looked at; otherwise the date
   *  decides, and a parsed row carries the categorisation and urgency of its own subject
   *  and body, the body falling back to the content column, with an empty body scoring
   *  0.0. */
  lemma ParseRowOutcome(row: CsvRow, toDatetime: Option<string> -> Result<Option<int>, string>,
                        polarity: string -> real)
    ensures var blankBody := row.body == Absent || row.body == Text("");
      var nanText := row.subject == NaN || row.body == NaN || (blankBody && row.content == NaN);
      var r := ParseRow(row, toDatetime, polarity);
      var d := toDatetime(row.date);
      && (nanText ==> r == Failure(NaNLowerError))
      && (!nanText && d.Failure? ==> r == Failure(d.error))
      && (!nanText && d.Success? ==>
            && r.Success?
            && r.value.date == d.value
            && r.value.subject == (if row.subject.Text? then row.subject.s else "")
            && r.value.content == (if !blankBody then row.body.s
                                   else if row.content.Text? then row.content.s else "")
            && (r.value.mainCategory, r.value.subCategory) == CategorizeContent(r.value.subject, r.value.content)
            && r.value.urgencyLevel == DetermineUrgency(r.value.subject, r.value.content)
            && (r.value.content == "" ==> r.value.sentimentScore == 0.0)
            && r.value.emailId == row.emailId)
  {
  }

  // ---------------------------------------------------------------- metrics

  /** One counter of a distribution dict. Python dicts keep insertion order, so a
   *  distribution is a list of counters with distinct keys, in order of first sight. */
  datatype Counter = Counter(key: string, count: nat)

  /** `d[k] = d.get(k, 0) + 1`. */
  function Bump(d: seq<Counter>, k: string): seq<Counter> {
    if d == [] then [Counter(k, 1)]
    else if d[0].key == k then [Counter(k, d[0].count + 1)] + d[1..]
    else [d[0]] + Bump(d[1..], k)
  }

  /** `d.get(k, 0)`. */
  function Get(d: seq<Counter>, k: string): nat {
    if d == [] then 0 else if d[0].key == k then d[0].count else Get(d[1..], k)
  }

  /** `sum(d.values())`. */
  function Total(d: seq<Counter>): nat {
    if d == [] then 0 else d[0].count + Total(d[1..])
  }

  /** The keys of a distribution. */
  ghost function KeySet(d: seq<Counter>): set<string> {
    if d == [] then {} else {d[0].key} + KeySet(d[1..])
  }

  /** No key is counted twice. */
  ghost predicate DistinctKeys(d: seq<Counter>) {
    d == [] || (d[0].key !in KeySet(d[1..]) && DistinctKeys(d[1..]))
  }

  /** The distribution built by bumping each key in turn, as the loop does. */
  function Tally(keys: seq<string>): seq<Counter> {
    if keys == [] then [] else Bump(Tally(keys[..|keys| - 1]), keys[|keys| - 1])
  }

  /** How often `k` occurs in `keys`. */
  function Occurrences(keys: seq<string>, k: string): nat {
    if keys == [] then 0
    else Occurrences(keys[..|keys| - 1], k) + (if keys[|keys| - 1] == k then 1 else 0)
  }

  /** Bumping adds one to the total. */
  lemma {:induction false} BumpTotal(d: seq<Counter>, k: string)
    ensures Total(Bump(d, k)) == Total(d) + 1
  {
    if d != [] && d[0].key != k {
      BumpTotal(d[1..], k);
    }
  }

  /** Bumping adds one to the bumped key's count and leaves every other count alone. */
  lemma {:induction false} BumpGet(d: seq<Counter>, k: string, k': string)
    ensures Get(Bump(d, k), k') == Get(d, k') + (if k' == k then 1 else 0)
  {
    if d != [] && d[0].key != k {
      BumpGet(d[1..], k, k');
    }
  }

  /** Bumping adds the bumped key to the keys and keeps them distinct. */
  lemma {:induction false} BumpKeys(d: seq<Counter>, k: string)
    ensures KeySet(Bump(d, k)) == KeySet(d) + {k}
    ensures DistinctKeys(d) ==> DistinctKeys(Bump(d, k))
  {
    if d != [] && d[0].key != k {
      BumpKeys(d[1..], k);
    } else if d != [] {
      assert Bump(d, k)[1..] == d[1..];
    }
  }

  /** A tally has one counter per distinct key, each holding that key's number of
   *  occurrences, and its counts add up to the number of keys. */
  lemma {:induction false} TallyCounts(keys: seq<string>)
    ensures Total(Tally(keys)) == |keys|
    ensures forall k :: Get(Tally(keys), k) == Occurrences(keys, k)
    ensures DistinctKeys(Tally(keys))
    ensures KeySet(Tally(keys)) == set k | k in keys
  {
    if keys != [] {
      var init, last := keys[..|keys| - 1], keys[|keys| - 1];
      TallyCounts(init);
      BumpTotal(Tally(init), last);
      BumpKeys(Tally(init), last);
      forall k ensures Get(Tally(keys), k) == Occurrences(keys, k) {
        BumpGet(Tally(init), last, k);
      }
      assert keys == init + [last];
      assert (set k | k in keys) == (set k | k in init) + {last};
    }
  }

  /** The metrics dict. `averageSentiment` is 0 for no tickets. */
  datatype Metrics = Metrics(
    categoryDistribution: seq<Counter>,
    timeDistribution: seq<Counter>,
    urgencyDistribution: seq<Counter>,
    averageSentiment: real)

  function CategoryKeys(tickets: seq<Ticket>): (ks: seq<string>)
    ensures |ks| == |tickets| && forall i :: 0 <= i < |tickets| ==> ks[i] == tickets[i].mainCategory
  {
    seq(|tickets|, i requires 0 <= i < |tickets| => tickets[i].mainCategory)
  }

  function DayKeys(tickets: seq<Ticket>, dayKey: int -> string): (ks: seq<string>)
    ensures |ks| == |tickets| && forall i :: 0 <= i < |tickets| ==> ks[i] == dayKey(tickets[i].date)
  {
    seq(|tickets|, i requires 0 <= i < |tickets| => dayKey(tickets[i].date))
  }

  function UrgencyKeys(tickets: seq<Ticket>): (ks: seq<string>)
    ensures |ks| == |tickets| && forall i :: 0 <= i < |tickets| ==> ks[i] == tickets[i].urgencyLevel
  {
    seq(|tickets|, i requires 0 <= i < |tickets| => tickets[i].urgencyLevel)
  }

  /** The sum of the sentiment scores, added up front to back. */
  function SumSentiment(tickets: seq<Ticket>): real {
    if tickets == [] then 0.0
    else SumSentiment(tickets[..|tickets| - 1]) + tickets[|tickets| - 1].sentimentScore
  }

  /** `calculate_metrics(tickets)`. `dayKey` is `date.strftime('%Y-%m-%d')`. */
  method CalculateMetrics(tickets: seq<Ticket>, dayKey: int -> string) returns (m: Metrics)
    ensures tickets == [] ==> m == Metrics([], [], [], 0.0)
    ensures m.categoryDistribution == Tally(CategoryKeys(tickets))
    ensures m.timeDistribution == Tally(DayKeys(tickets, dayKey))
    ensures m.urgencyDistribution == Tally(UrgencyKeys(tickets))
    ensures Total(m.categoryDistribution) == |tickets| && Total(m.timeDistribution) == |tickets|
    ensures Total(m.urgencyDistribution) == |tickets|
    ensures forall c :: Get(m.categoryDistribution, c) == Occurrences(CategoryKeys(tickets), c)
    ensures forall u :: Get(m.urgencyDistribution, u) == Occurrences(UrgencyKeys(tickets), u)
    ensures tickets != [] ==> m.averageSentiment == SumSentiment(tickets) / (|tickets| as real)
  {
    m := Metrics([], [], [], 0.0);
    if tickets == [] {
      return;
    }
    var categories, days, urgencies: seq<Counter> := [], [], [];
    var totalSentiment := 0.0;
    var i := 0;
    while i < |tickets|
      invariant 0 <= i <= |tickets|
      invariant categories == Tally(CategoryKeys(tickets)[..i])
      invariant days == Tally(DayKeys(tickets, dayKey)[..i])
      invariant urgencies == Tally(UrgencyKeys(tickets)[..i])
      invariant totalSentiment == SumSentiment(tickets[..i])
    {
      var t := tickets[i];
      assert CategoryKeys(tickets)[..i + 1][..i] == CategoryKeys(tickets)[..i];
      assert DayKeys(tickets, dayKey)[..i + 1][..i] == DayKeys(tickets, dayKey)[..i];
      assert UrgencyKeys(tickets)[..i + 1][..i] == UrgencyKeys(tickets)[..i];
      assert tickets[..i + 1][..i] == tickets[..i];
      categories := Bump(categories, t.mainCategory);
      days := Bump(days, dayKey(t.date));
      urgencies := Bump(urgencies, t.urgencyLevel);
      totalSentiment := totalSentiment + t.sentimentScore;
      i := i + 1;
    }
    assert CategoryKeys(tickets)[..i] == CategoryKeys(tickets);
    assert DayKeys(tickets, dayKey)[..i] == DayKeys(tickets, dayKey);
    assert UrgencyKeys(tickets)[..i] == UrgencyKeys(tickets);
    assert tickets[..i] == tickets;
    TallyCounts(CategoryKeys(tickets));
    TallyCounts(DayKeys(tickets, dayKey));
    TallyCounts(UrgencyKeys(tickets));
    m := Metrics(categories, days, urgencies, totalSentiment / (|tickets| as real));
  }
}
