/**
 * `EmailPoller` (app/email_poller.py): the polling service that reads UNSEEN mail in
 * batches, hands each message to the processor, marks the successes Seen and keeps a
 * running count. The IMAP server, the processor and the database session are inputs;
 * sleeps and console output are not modelled.
 */
module Poller {
  import opened Wrappers

  /** Python's `s[:n]`, a negative `n` counting from the end. */
  function Take<T>(s: seq<T>, n: int): (r: seq<T>)
    ensures |r| <= |s| && r == s[..|r|]
    ensures n >= 0 ==> |r| == (if n <= |s| then n else |s|)
    ensures n < 0 ==> |r| == (if |s| + n >= 0 then |s| + n else 0)
  {
    if n >= 0 then (if n <= |s| then s[..n] else s)
    else if |s| + n >= 0 then s[..|s| + n]
    else []
  }

  /** How fetching one message ends: the fetch (or reading its data) raises, the server
   *  returns no data, or the message is parsed; `inReplyTo` is its In-Reply-To header. */
  datatype Fetch = FetchRaised | FetchEmpty | Fetched(inReplyTo: Option<string>)

  /** What `processor.process_email` does: returns something truthy (and then the commit
   *  succeeds or raises), returns something falsy, or raises. */
  datatype ProcessorOutcome = Truthy(commitSucceeds: bool) | Falsy | Raised

  /** How the database session of one message ends. */
  datatype SessionEnd = Committed | RolledBack

  /** The result of `_process_single_email`, and the session it opened (`None` when the
   *  processor was never invoked). */
  datatype Outcome = Outcome(ok: bool, session: Option<SessionEnd>)

  /** `email_message.get('In-Reply-To')` is truthy. */
  predicate IsReply(f: Fetch) {
    f.Fetched? && f.inReplyTo.Some? && f.inReplyTo.value != ""
  }

  /** `_process_single_email(msg_num, imap_client)`: no data is a failure; a reply is a
   *  success without invoking the processor; otherwise a truthy result commits and
   *  succeeds, and a falsy result, a raise or a failed commit roll back and fail. */
  function ProcessSingleEmail(f: Fetch, p: ProcessorOutcome): (r: Outcome)
    ensures r.session == Some(Committed) ==> r.ok
    ensures r.session.None? <==> !f.Fetched? || IsReply(f)
  {
    if !f.Fetched? then Outcome(false, None)
    else if IsReply(f) then Outcome(true, None)
    else match p
      case Truthy(commitSucceeds) =>
        if commitSucceeds then Outcome(true, Some(Committed)) else Outcome(false, Some(RolledBack))
      case Falsy => Outcome(false, Some(RolledBack))
      case Raised => Outcome(false, Some(RolledBack))
  }

  /** A message succeeds exactly when it is a reply, or when the processor returned
   *  something truthy and the commit went through; every other invoked processor ends in
   *  a rollback. */
  lemma SingleEmailOutcomes(f: Fetch, p: ProcessorOutcome)
    ensures ProcessSingleEmail(f, p).ok <==> IsReply(f) || (f.Fetched? && p == Truthy(true))
    ensures f.Fetched? && !IsReply(f) && p != Truthy(true) ==> ProcessSingleEmail(f, p).session == Some(RolledBack)
    ensures f.Fetched? && !IsReply(f) && p == Truthy(true) ==> ProcessSingleEmail(f, p).session == Some(Committed)
  {
  }

  /** The mailbox a poll finds. `search` is the UNSEEN message numbers, or the error
   *  raised while connecting, logging in, selecting or searching; `storeRaises` says
   *  whether flagging a message Seen raises; `closeError` is an error raised by
   *  close/logout. */
  datatype Inbox = Inbox(search: Result<seq<string>, string>, fetch: string -> Fetch,
                         process: string -> ProcessorOutcome, storeRaises: string -> bool,
                         closeError: Option<string>)

  /** The message number succeeded. */
  predicate Succeeds(inbox: Inbox, n: string) {
    ProcessSingleEmail(inbox.fetch(n), inbox.process(n)).ok
  }

  /** The successes among `nums`, in order. */
  function Successes(inbox: Inbox, nums: seq<string>): (r: seq<string>)
    ensures |r| <= |nums|
  {
    if nums == [] then []
    else
      var last := nums[|nums| - 1];
      Successes(inbox, nums[..|nums| - 1]) + (if Succeeds(inbox, last) then [last] else [])
  }

  /** The successes are messages of the batch that succeeded. */
  lemma {:induction false} SuccessesSucceed(inbox: Inbox, nums: seq<string>)
    ensures forall n :: n in Successes(inbox, nums) ==> n in nums && Succeeds(inbox, n)
  {
    if nums != [] {
      SuccessesSucceed(inbox, nums[..|nums| - 1]);
    }
  }

  /** The messages flagged Seen among `nums`: the successes whose store went through. */
  function Flagged(inbox: Inbox, nums: seq<string>): (r: seq<string>)
    ensures |r| <= |nums|
  {
    if nums == [] then []
    else
      var last := nums[|nums| - 1];
      Flagged(inbox, nums[..|nums| - 1])
        + (if Succeeds(inbox, last) && !inbox.storeRaises(last) then [last] else [])
  }

  lemma BatchStep(inbox: Inbox, nums: seq<string>, i: nat)
    requires i < |nums|
    ensures Successes(inbox, nums[..i + 1])
            == Successes(inbox, nums[..i]) + (if Succeeds(inbox, nums[i]) then [nums[i]] else [])
    ensures Flagged(inbox, nums[..i + 1])
            == Flagged(inbox, nums[..i]) + (if Succeeds(inbox, nums[i]) && !inbox.storeRaises(nums[i]) then [nums[i]] else [])
  {
    assert nums[..i + 1][..i] == nums[..i];
  }

  /** The messages flagged Seen are exactly the successes whose store did not raise. */
  lemma {:induction false} FlaggedAreSuccesses(inbox: Inbox, nums: seq<string>)
    ensures forall n :: n in Flagged(inbox, nums) ==> n in Successes(inbox, nums)
    ensures forall n :: n in Flagged(inbox, nums) ==> !inbox.storeRaises(n)
    ensures forall n :: n in Successes(inbox, nums) && !inbox.storeRaises(n) ==> n in Flagged(inbox, nums)
  {
    if nums != [] {
      FlaggedAreSuccesses(inbox, nums[..|nums| - 1]);
    }
  }

  /** The messages one poll processes: the first `maxEmails` unseen ones, in server order. */
  function Batch(inbox: Inbox, maxEmails: int): seq<string>
    requires inbox.search.Success?
  {
    Take(inbox.search.value, maxEmails)
  }

  /** What one `poll_emails` call does: the error it raises, the messages it flags Seen,
   *  and how much it adds to the processed count. */
  datatype PollResult = PollResult(error: Option<string>, seen: seq<string>, gain: nat)

  function Poll(inbox: Inbox, maxEmails: int): (r: PollResult)
    ensures inbox.search.Failure? ==> r == PollResult(Some(inbox.search.error), [], 0)
    ensures inbox.search.Success? && inbox.search.value == [] ==> r == PollResult(None, [], 0)
  {
    if inbox.search.Failure? then PollResult(Some(inbox.search.error), [], 0)
    else if inbox.search.value == [] then PollResult(None, [], 0)
    else
      var batch := Batch(inbox, maxEmails);
      PollResult(inbox.closeError, Flagged(inbox, batch), |Successes(inbox, batch)|)
  }

  /** A poll never processes more than `max_emails` messages, takes them from the front of
   *  the unseen list, counts only successes, and flags Seen only successes. */
  lemma PollBounds(inbox: Inbox, maxEmails: int)
    requires maxEmails >= 0
    ensures Poll(inbox, maxEmails).gain <= maxEmails
    ensures inbox.search.Success? ==>
      var batch := Batch(inbox, maxEmails);
      |batch| <= maxEmails && batch == inbox.search.value[..|batch|]
    ensures inbox.search.Success? && inbox.search.value != [] ==>
      forall n :: n in Poll(inbox, maxEmails).seen ==> n in Successes(inbox, Batch(inbox, maxEmails))
  {
    if inbox.search.Success? && inbox.search.value != [] {
      FlaggedAreSuccesses(inbox, Batch(inbox, maxEmails));
    }
  }

  /** A reply in the batch is counted and, unless its store raises, flagged Seen, though
   *  the processor never sees it. */
  lemma RepliesCount(inbox: Inbox, maxEmails: int, n: string)
    requires inbox.search.Success? && n in Batch(inbox, maxEmails)
    requires IsReply(inbox.fetch(n))
    ensures n in Successes(inbox, Batch(inbox, maxEmails))
    ensures !inbox.storeRaises(n) ==> n in Flagged(inbox, Batch(inbox, maxEmails))
  {
    InSuccesses(inbox, Batch(inbox, maxEmails), n);
    FlaggedAreSuccesses(inbox, Batch(inbox, maxEmails));
  }

  lemma {:induction false} InSuccesses(inbox: Inbox, nums: seq<string>, n: string)
    requires n in nums && Succeeds(inbox, n)
    ensures n in Successes(inbox, nums)
  {
    var init := nums[..|nums| - 1];
    if n != nums[|nums| - 1] {
      assert nums == init + [nums[|nums| - 1]];
      InSuccesses(inbox, init, n);
    }
  }

  /** One cycle of the polling loop: the mailbox it polls, and whether `stop_polling` is
   *  called before the loop next checks `_running`. */
  datatype Cycle = Cycle(inbox: Inbox, stopRequested: bool)

  /** The number of cycles the loop runs: up to and including the first one during which
   *  a stop is requested. */
  function CyclesRun(cycles: seq<Cycle>): (n: nat)
    ensures n <= |cycles|
    ensures forall k :: 0 <= k < n - 1 ==> !cycles[k].stopRequested
    ensures n < |cycles| ==> n > 0 && cycles[n - 1].stopRequested
  {
    if cycles == [] then 0
    else if cycles[0].stopRequested then 1
    else 1 + CyclesRun(cycles[1..])
  }

  /** The count added by a run of cycles. */
  function TotalGain(cycles: seq<Cycle>, maxEmails: int): nat {
    if cycles == [] then 0 else TotalGain(cycles[..|cycles| - 1], maxEmails) + Poll(cycles[|cycles| - 1].inbox, maxEmails).gain
  }

  lemma TotalGainStep(cycles: seq<Cycle>, i: nat, maxEmails: int)
    requires i < |cycles|
    ensures TotalGain(cycles[..i + 1], maxEmails) == TotalGain(cycles[..i], maxEmails) + Poll(cycles[i].inbox, maxEmails).gain
  {
    assert cycles[..i + 1][..i] == cycles[..i];
  }

  class EmailPoller {
    const imapServer: string
    const imapPort: int
    const emailUser: string
    const emailPassword: string
    const fetchInterval: int
    const maxEmails: int
    var running: bool
    var lastError: Option<string>
    var processedCount: nat

    /** A poller built from the settings: port 993, idle, no error, nothing processed. */
    constructor (server: string, user: string, password: string, fetchInterval: int, maxEmails: int)
      ensures imapServer == server && imapPort == 993 && emailUser == user && emailPassword == password
      ensures this.fetchInterval == fetchInterval && this.maxEmails == maxEmails
      ensures !running && lastError.None? && processedCount == 0
    {
      imapServer := server;
      imapPort := 993;
      emailUser := user;
      emailPassword := password;
      this.fetchInterval := fetchInterval;
      this.maxEmails := maxEmails;
      running := false;
      lastError := None;
      processedCount := 0;
    }

    /** `poll_emails()`. Returns the error it raises (`None` when it returns normally) and
     *  the message numbers it flagged Seen; the count grows by one per success, before
     *  the Seen flag is stored, so a failed store does not undo it. An empty search
     *  returns before close and logout. */
    method PollEmails(inbox: Inbox) returns (error: Option<string>, seen: seq<string>)
      modifies this
      ensures processedCount >= old(processedCount)
      ensures PollResult(error, seen, processedCount - old(processedCount)) == Poll(inbox, maxEmails)
      ensures running == old(running) && lastError == old(lastError)
    {
      if inbox.search.Failure? {
        return Some(inbox.search.error), [];
      }
      var messageNumbers := inbox.search.value;
      if messageNumbers == [] {
        return None, [];
      }
      var batch := Take(messageNumbers, maxEmails);
      seen := [];
      var i := 0;
      while i < |batch|
        invariant 0 <= i <= |batch|
        invariant processedCount == old(processedCount) + |Successes(inbox, batch[..i])|
        invariant seen == Flagged(inbox, batch[..i])
        invariant running == old(running) && lastError == old(lastError)
      {
        BatchStep(inbox, batch, i);
        var outcome := ProcessSingleEmail(inbox.fetch(batch[i]), inbox.process(batch[i]));
        assert outcome.ok == Succeeds(inbox, batch[i]);
        if outcome.ok {
          processedCount := processedCount + 1;
          if !inbox.storeRaises(batch[i]) {
            seen := seen + [batch[i]];
          }
        }
        i := i + 1;
      }
      assert batch[..i] == batch == Batch(inbox, maxEmails);
      error := inbox.closeError;
    }

    /** `stop_polling()`. */
    method StopPolling()
      modifies this
      ensures !running && lastError == old(lastError) && processedCount == old(processedCount)
    {
      running := false;
    }

    /** `start_polling()` over the cycles given: each cycle polls once and records the
     *  outcome in `_last_error`; the loop stops at its first check after a stop request.
     *  Without one it runs until the given cycles are used up. */
    method StartPolling(cycles: seq<Cycle>)
      modifies this
      ensures var n := CyclesRun(cycles);
        && (running <==> forall k :: 0 <= k < |cycles| ==> !cycles[k].stopRequested)
        && lastError == (if n == 0 then old(lastError) else Poll(cycles[n - 1].inbox, maxEmails).error)
        && processedCount == old(processedCount) + TotalGain(cycles[..n], maxEmails)
    {
      running := true;
      ghost var n := CyclesRun(cycles);
      var i := 0;
      while running && i < |cycles|
        invariant 0 <= i <= n
        invariant running <==> i < n || (i == |cycles| && forall k :: 0 <= k < |cycles| ==> !cycles[k].stopRequested)
        invariant !running ==> i == n
        invariant lastError == (if i == 0 then old(lastError) else Poll(cycles[i - 1].inbox, maxEmails).error)
        invariant processedCount == old(processedCount) + TotalGain(cycles[..i], maxEmails)
      {
        TotalGainStep(cycles, i, maxEmails);
        var error, _ := PollEmails(cycles[i].inbox);
        lastError := error;
        if cycles[i].stopRequested {
          StopPolling();
        }
        i := i + 1;
      }
    }
  }

  /** The first chunk `decode_header` yields, as `_decode_header` reads it: a `str`, or
   *  `bytes` decoded leniently with its declared codec (`None` when the codec is
   *  unknown, which raises). */
  datatype FirstChunk = Text(text: string) | Bytes(lenient: Option<string>)

  /** `_decode_header(header)`. `decodeHeader` gives the chunks, or `None` where
   *  `decode_header` raises. An empty header gives ""; any failure gives the header
   *  unchanged; otherwise only the first chunk is kept. */
  function DecodeHeader(header: string, decodeHeader: string -> Option<seq<FirstChunk>>): (r: string)
    ensures header == "" ==> r == ""
    ensures header != "" && (decodeHeader(header).None? || decodeHeader(header).value == []) ==> r == header
    ensures header != "" && decodeHeader(header).Some? && decodeHeader(header).value != [] ==>
      match decodeHeader(header).value[0]
      case Text(t) => r == t
      case Bytes(lenient) => r == lenient.GetOr(header)
  {
    if header == "" then ""
    else match decodeHeader(header)
      case None => header
      case Some(chunks) =>
        if chunks == [] then header
        else match chunks[0]
          case Text(t) => t
          case Bytes(lenient) => if lenient.Some? then lenient.value else header
  }
}
