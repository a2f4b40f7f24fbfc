/** A search job: the refresh with bounded retry on "not ready", the poll
    that waits for a dispatch state, the control commands, and result
    retrieval, all against a scripted session. */
module Jobs {
  import opened Wrappers
  import opened Resources
  import opened Http

  /** The dispatch states of a search job, in their declared order. */
  datatype DispatchState = NoState | Queued | Parsing | Running | Paused | Finalizing | Done | Failed

  function Rank(state: DispatchState): nat
  {
    match state
    case NoState => 0
    case Queued => 1
    case Parsing => 2
    case Running => 3
    case Paused => 4
    case Finalizing => 5
    case Done => 6
    case Failed => 7
  }

  /** `a < b` on dispatch states. */
  predicate Below(a: DispatchState, b: DispatchState)
  {
    Rank(a) < Rank(b)
  }

  /** What a job currently holds: nothing yet, or the snapshot of one entry. */
  datatype EntitySnapshot = MissingSnapshot | EntrySnapshot(entry: Entry)

  /** The attribute bag a job's snapshot exposes. */
  function Attributes(snapshot: EntitySnapshot): Bag
  {
    match snapshot
    case MissingSnapshot => map[]
    case EntrySnapshot(entry) => ContentBag(entry.content)
  }

  /** The `DispatchState` property of a snapshot. */
  function StateOf(snapshot: EntitySnapshot, converter: Converter<DispatchState>): Result<DispatchState, Error>
  {
    GetTyped(Attributes(snapshot), "DispatchState", converter)
  }

  // ---------------------------------------------------------------------
  // One GET and the retry around it
  // ---------------------------------------------------------------------

  /** What one GET makes of a response: 204 is "not ready", any other
      non-2xx status is a request error, and a 2xx body must be a feed of
      exactly one entry or a bare entry. */
  function ReadEntry(response: Response): (r: Result<Entry, Error>)
    ensures r == Failure(RequestError(response.status)) <==>
      response.status == NoContent || !IsSuccessStatus(response.status)
    ensures r.Failure? ==> r.error == RequestError(response.status) || r.error == InvalidData
    ensures r.Success? ==>
      response.body == EntryDocument(r.value)
      || (response.body.FeedDocument? && response.body.feed.entries == [r.value])
  {
    if response.status == NoContent then Failure(RequestError(NoContent))
    else if !IsSuccessStatus(response.status) then Failure(RequestError(response.status))
    else match response.body
      case NoElement => Failure(InvalidData)
      case FeedDocument(feed) =>
        if |feed.entries| != 1 then Failure(InvalidData) else Success(feed.entries[0])
      case EntryDocument(entry) => Success(entry)
  }

  /** One attempt: a failed exchange, or what the response reads as. */
  function Attempt(response: Result<Response, Error>): (r: Result<Entry, Error>)
    ensures response.Failure? ==> r == Failure(response.error)
    ensures response.Success? ==> (r == Failure(RequestError(NoContent)) <==> response.value.status == NoContent)
    ensures r.Success? ==> response.Success? && IsSuccessStatus(response.value.status)
  {
    if response.Failure? then Failure(response.error) else ReadEntry(response.value)
  }

  /** A one-entry feed and a bare entry read as the same entry; a feed of any
      other size, or a body that is no element, is invalid data. */
  lemma FeedAndEntryAgree(status: int, entry: Entry, feed: Feed)
    requires IsSuccessStatus(status) && status != NoContent
    ensures feed.entries == [entry] ==> ReadEntry(Response(status, FeedDocument(feed))) == Success(entry)
    ensures ReadEntry(Response(status, EntryDocument(entry))) == Success(entry)
    ensures |feed.entries| != 1 ==> ReadEntry(Response(status, FeedDocument(feed))) == Failure(InvalidData)
    ensures ReadEntry(Response(status, NoElement)) == Failure(InvalidData)
  {
  }

  /** A status outside 2xx is surfaced as a request error carrying it. */
  lemma FailureStatusSurfaces(response: Response)
    requires !IsSuccessStatus(response.status)
    ensures ReadEntry(response) == Failure(RequestError(response.status))
  {
  }

  /** What one refresh came to: the entry read or the error thrown, the
      responses left unread, and the number of GETs it issued. */
  datatype Refresh = Refresh(result: Result<Entry, Error>, rest: seq<Response>, attempts: nat)

  /** A refresh that gave up on "not ready". */
  predicate NotReady(r: Refresh)
  {
    r.result == Failure(RequestError(NoContent))
  }

  /** The retry loop from the point where `tries` attempts remain, `last` is
      the not-ready error caught so far and `attempts` GETs were issued.
      Only a not-ready error is caught; while tries remain another GET
      follows, and when none remain the error is rethrown. */
  function RetryFrom(script: seq<Response>, tries: nat, last: Option<Error>, attempts: nat): (o: Refresh)
    requires tries > 0 || last.Some?
    ensures |o.rest| <= |script|
    ensures o.result.Success? ==> |o.rest| < |script|
    ensures attempts <= o.attempts <= attempts + tries
    ensures tries > 0 ==> attempts < o.attempts
    decreases tries
  {
    if tries == 0 then Refresh(Failure(last.value), script, attempts)
    else
      var attempt := Attempt(Exchange(script).0);
      if attempt == Failure(RequestError(NoContent))
      then RetryFrom(Exchange(script).1, tries - 1, Some(attempt.error), attempts + 1)
      else Refresh(attempt, Exchange(script).1, attempts + 1)
  }

  /** `GetAsync` of a job: up to three attempts. */
  function RefreshJob(script: seq<Response>): (r: Refresh)
    ensures 1 <= r.attempts <= 3
    ensures |r.rest| <= |script|
    ensures r.result.Success? ==> |r.rest| < |script|
  {
    RetryFrom(script, 3, None, 0)
  }

  /** `n` rounds of a GET followed by a pause. */
  function Pairs(get: Event, n: nat): (log: seq<Event>)
    ensures |log| == 2 * n
  {
    if n == 0 then [] else Pairs(get, n - 1) + [get, Delay]
  }

  /** What a refresh sends: one GET per attempt, each not-ready answer
      followed by a pause; only the last attempt can have had another answer. */
  function RefreshLog(get: Event, r: Refresh): seq<Event>
  {
    if r.attempts == 0 then []
    else Pairs(get, r.attempts - 1) + [get] + (if NotReady(r) then [Delay] else [])
  }

  lemma {:induction false} PairsCounts(get: Event, n: nat)
    requires get.Request? && get.verb == GET
    ensures Gets(Pairs(get, n)) == n && Delays(Pairs(get, n)) == n
  {
    if n > 0 {
      PairsCounts(get, n - 1);
      CountsDistribute(Pairs(get, n - 1), [get, Delay]);
      assert [get, Delay][..1] == [get];
    }
  }

  /** A refresh's log holds one GET per attempt, and a pause for each GET
      but the last unless it gave up on "not ready". */
  lemma RefreshLogCounts(get: Event, r: Refresh)
    requires get.Request? && get.verb == GET && r.attempts > 0
    ensures Gets(RefreshLog(get, r)) == r.attempts
    ensures Delays(RefreshLog(get, r)) == if NotReady(r) then r.attempts else r.attempts - 1
  {
    var pairs := Pairs(get, r.attempts - 1);
    PairsCounts(get, r.attempts - 1);
    CountsDistribute(pairs, [get]);
    assert Gets([get]) == 1 && Delays([get]) == 0;
    if NotReady(r) {
      CountsDistribute(pairs + [get], [Delay]);
      assert Gets([Delay]) == 0 && Delays([Delay]) == 1;
      assert RefreshLog(get, r) == pairs + [get] + [Delay];
    } else {
      assert RefreshLog(get, r) == pairs + [get] + [];
      assert pairs + [get] + [] == pairs + [get];
    }
  }

  /** A refresh issues between one and three GETs. */
  lemma RefreshAtMostThreeGets(get: Event, script: seq<Response>)
    requires get.Request? && get.verb == GET
    ensures 1 <= Gets(RefreshLog(get, RefreshJob(script))) <= 3
  {
    RefreshLogCounts(get, RefreshJob(script));
  }

  /** Only "not ready" is retried: any other outcome of the first GET,
      success, a failure status, invalid data or a failed exchange, ends the
      refresh after that one GET. */
  lemma OnlyNotReadyIsRetried(script: seq<Response>)
    requires Attempt(Exchange(script).0) != Failure(RequestError(NoContent))
    ensures RefreshJob(script) == Refresh(Attempt(Exchange(script).0), Exchange(script).1, 1)
  {
  }

  /** Three "not ready" answers in a row: three GETs, each followed by a
      pause, and then the last not-ready error is rethrown. */
  lemma ThreeNotReadyRethrows(get: Event, script: seq<Response>)
    requires |script| >= 3
    requires script[0].status == NoContent && script[1].status == NoContent && script[2].status == NoContent
    ensures RefreshJob(script) == Refresh(Failure(RequestError(NoContent)), script[3..], 3)
    ensures RefreshLog(get, RefreshJob(script)) == [get, Delay, get, Delay, get, Delay]
  {
    var e := RequestError(NoContent);
    assert script[1..][1..][1..] == script[3..];
    assert RetryFrom(script[2..], 1, Some(e), 2) == Refresh(Failure(e), script[3..], 3);
    assert RetryFrom(script[1..], 2, Some(e), 1) == Refresh(Failure(e), script[3..], 3);
    assert Pairs(get, 2) == [get, Delay, get, Delay];
  }

  /** Two "not ready" answers and then an entry: the refresh succeeds with
      that entry after exactly three GETs and two pauses. */
  lemma NotReadyTwiceThenEntry(get: Event, script: seq<Response>, entry: Entry)
    requires |script| >= 3
    requires script[0].status == NoContent && script[1].status == NoContent
    requires ReadEntry(script[2]) == Success(entry)
    ensures RefreshJob(script) == Refresh(Success(entry), script[3..], 3)
    ensures RefreshLog(get, RefreshJob(script)) == [get, Delay, get, Delay, get]
  {
    var e := RequestError(NoContent);
    assert script[1..][1..][1..] == script[3..];
    assert RetryFrom(script[2..], 1, Some(e), 2) == Refresh(Success(entry), script[3..], 3);
    assert RetryFrom(script[1..], 2, Some(e), 1) == Refresh(Success(entry), script[3..], 3);
    assert Pairs(get, 2) == [get, Delay, get, Delay];
  }

  // ---------------------------------------------------------------------
  // Waiting for a dispatch state
  // ---------------------------------------------------------------------

  /** What a poll came to: the error that ended it, if any, the snapshot it
      left, the responses left unread and the refreshes it made, in order. */
  datatype Transition = Transition(error: Option<Error>, snapshot: EntitySnapshot, rest: seq<Response>,
                                   rounds: seq<Refresh>)

  /** `TransitionAsync(required)` from a job's snapshot: while the state is
      below `required`, pause and refresh; a state that cannot be read or a
      refresh that throws ends it with that error. */
  function AwaitState(converter: Converter<DispatchState>, required: DispatchState,
                      snapshot: EntitySnapshot, script: seq<Response>): (t: Transition)
    ensures |t.rest| <= |script|
    decreases |script|
  {
    match StateOf(snapshot, converter)
    case Failure(e) => Transition(Some(e), snapshot, script, [])
    case Success(state) =>
      if !Below(state, required) then Transition(None, snapshot, script, [])
      else
        var r := RefreshJob(script);
        if r.result.Failure? then Transition(Some(r.result.error), snapshot, r.rest, [r])
        else
          var t := AwaitState(converter, required, EntrySnapshot(r.result.value), r.rest);
          t.(rounds := [r] + t.rounds)
  }

  /** What a poll sends: per refresh, a pause and then the refresh's own log. */
  function PollLog(get: Event, rounds: seq<Refresh>): seq<Event>
  {
    if rounds == [] then []
    else PollLog(get, rounds[..|rounds| - 1]) + [Delay] + RefreshLog(get, rounds[|rounds| - 1])
  }

  /** A log `prefix` followed by what the refreshes in `rounds` send. */
  function PollLogAfter(prefix: seq<Event>, get: Event, rounds: seq<Refresh>): seq<Event>
  {
    if rounds == [] then prefix
    else PollLogAfter(prefix, get, rounds[..|rounds| - 1]) + [Delay] + RefreshLog(get, rounds[|rounds| - 1])
  }

  lemma {:induction false} PollLogAfterAppends(prefix: seq<Event>, get: Event, rounds: seq<Refresh>)
    ensures PollLogAfter(prefix, get, rounds) == prefix + PollLog(get, rounds)
    decreases |rounds|
  {
    if rounds != [] {
      var init, last := rounds[..|rounds| - 1], rounds[|rounds| - 1];
      PollLogAfterAppends(prefix, get, init);
      assert prefix + PollLog(get, init) + [Delay] + RefreshLog(get, last)
        == prefix + (PollLog(get, init) + [Delay] + RefreshLog(get, last));
    } else {
      assert prefix + [] == prefix;
    }
  }

  /** A job already at or past the required state is left alone: no pause,
      no refresh, no request. */
  lemma AwaitStateReachedIsNoop(converter: Converter<DispatchState>, required: DispatchState,
                                snapshot: EntitySnapshot, script: seq<Response>)
    requires StateOf(snapshot, converter).Success? && !Below(StateOf(snapshot, converter).value, required)
    ensures AwaitState(converter, required, snapshot, script) == Transition(None, snapshot, script, [])
  {
  }

  /** The refreshes `rounds` are the first ones a poll from `snapshot0`
      and `script0` makes, each from a state below `required` and each
      reading an entry, and they leave the snapshot `snapshot` and the
      responses `script`. */
  ghost predicate Polled(converter: Converter<DispatchState>, required: DispatchState,
                         snapshot0: EntitySnapshot, script0: seq<Response>, rounds: seq<Refresh>,
                         snapshot: EntitySnapshot, script: seq<Response>)
    decreases |rounds|
  {
    if rounds == [] then snapshot == snapshot0 && script == script0
    else
      && StateOf(snapshot0, converter).Success? && Below(StateOf(snapshot0, converter).value, required)
      && rounds[0] == RefreshJob(script0) && rounds[0].result.Success?
      && Polled(converter, required, EntrySnapshot(rounds[0].result.value), rounds[0].rest, rounds[1..],
                snapshot, script)
  }

  /** One more refresh that reads an entry, taken from a state below
      `required`, extends the poll. */
  lemma {:induction false} PolledExtends(converter: Converter<DispatchState>, required: DispatchState,
                                         snapshot0: EntitySnapshot, script0: seq<Response>, rounds: seq<Refresh>,
                                         snapshot: EntitySnapshot, script: seq<Response>)
    requires Polled(converter, required, snapshot0, script0, rounds, snapshot, script)
    requires StateOf(snapshot, converter).Success? && Below(StateOf(snapshot, converter).value, required)
    requires RefreshJob(script).result.Success?
    ensures Polled(converter, required, snapshot0, script0, rounds + [RefreshJob(script)],
                   EntrySnapshot(RefreshJob(script).result.value), RefreshJob(script).rest)
    decreases |rounds|
  {
    var r := RefreshJob(script);
    if rounds == [] {
      assert [r][1..] == [];
    } else {
      assert (rounds + [r])[0] == rounds[0];
      assert (rounds + [r])[1..] == rounds[1..] + [r];
      PolledExtends(converter, required, EntrySnapshot(rounds[0].result.value), rounds[0].rest, rounds[1..],
                    snapshot, script);
    }
  }

  /** A refresh that reads an entry, taken from a state below `required`,
      is the poll's first round, and the poll goes on from that entry. */
  lemma AwaitStateSteps(converter: Converter<DispatchState>, required: DispatchState,
                        snapshot: EntitySnapshot, script: seq<Response>)
    requires StateOf(snapshot, converter).Success? && Below(StateOf(snapshot, converter).value, required)
    requires RefreshJob(script).result.Success?
    ensures var r := RefreshJob(script);
      var t := AwaitState(converter, required, EntrySnapshot(r.result.value), r.rest);
      AwaitState(converter, required, snapshot, script) == t.(rounds := [r] + t.rounds)
  {
  }

  /** A poll that has made the refreshes `rounds` goes on as a poll from
      where they left it. */
  lemma {:induction false} PolledResumes(converter: Converter<DispatchState>, required: DispatchState,
                                         snapshot0: EntitySnapshot, script0: seq<Response>, rounds: seq<Refresh>,
                                         snapshot: EntitySnapshot, script: seq<Response>)
    requires Polled(converter, required, snapshot0, script0, rounds, snapshot, script)
    ensures var t := AwaitState(converter, required, snapshot, script);
      AwaitState(converter, required, snapshot0, script0) == t.(rounds := rounds + t.rounds)
    decreases |rounds|
  {
    var t := AwaitState(converter, required, snapshot, script);
    if rounds == [] {
      assert [] + t.rounds == t.rounds;
    } else {
      var r, later := rounds[0], rounds[1..];
      var t1 := AwaitState(converter, required, EntrySnapshot(r.result.value), r.rest);
      AwaitStateSteps(converter, required, snapshot0, script0);
      PolledResumes(converter, required, EntrySnapshot(r.result.value), r.rest, later, snapshot, script);
      assert t1 == t.(rounds := later + t.rounds);
      assert [r] + (later + t.rounds) == rounds + t.rounds;
    }
  }

  /** A poll that has made the refreshes `rounds` and now reads a state it
      cannot use, or one not below `required`, ends there, with no further
      refresh. */
  lemma PolledEnds(converter: Converter<DispatchState>, required: DispatchState,
                   snapshot0: EntitySnapshot, script0: seq<Response>, rounds: seq<Refresh>,
                   snapshot: EntitySnapshot, script: seq<Response>)
    requires Polled(converter, required, snapshot0, script0, rounds, snapshot, script)
    requires StateOf(snapshot, converter).Failure? || !Below(StateOf(snapshot, converter).value, required)
    ensures AwaitState(converter, required, snapshot0, script0)
      == Transition(if StateOf(snapshot, converter).Failure? then Some(StateOf(snapshot, converter).error) else None,
                    snapshot, script, rounds)
  {
    PolledResumes(converter, required, snapshot0, script0, rounds, snapshot, script);
    assert rounds + [] == rounds;
  }

  /** The poll ends without error only once the job's state has reached the
      required one. */
  lemma {:induction false} AwaitStateReachesThreshold(converter: Converter<DispatchState>, required: DispatchState,
                                                      snapshot: EntitySnapshot, script: seq<Response>)
    ensures var o := AwaitState(converter, required, snapshot, script);
      o.error.None? ==> StateOf(o.snapshot, converter).Success? && !Below(StateOf(o.snapshot, converter).value, required)
    decreases |script|
  {
    var read := StateOf(snapshot, converter);
    if read.Success? && Below(read.value, required) {
      var r := RefreshJob(script);
      if r.result.Success? {
        AwaitStateReachesThreshold(converter, required, EntrySnapshot(r.result.value), r.rest);
      }
    }
  }

  /** Every refresh in `rounds` made one to three attempts. */
  predicate AttemptsWithin(rounds: seq<Refresh>)
  {
    forall k :: 0 <= k < |rounds| ==> 1 <= rounds[k].attempts <= 3
  }

  /** Every refresh of a poll makes one to three attempts. */
  lemma {:induction false} AwaitStateRoundsBounded(converter: Converter<DispatchState>, required: DispatchState,
                                                   snapshot: EntitySnapshot, script: seq<Response>)
    ensures AttemptsWithin(AwaitState(converter, required, snapshot, script).rounds)
    decreases |script|
  {
    var read := StateOf(snapshot, converter);
    if read.Success? && Below(read.value, required) {
      var r := RefreshJob(script);
      if r.result.Success? {
        var t := AwaitState(converter, required, EntrySnapshot(r.result.value), r.rest);
        AwaitStateRoundsBounded(converter, required, EntrySnapshot(r.result.value), r.rest);
        assert AttemptsWithin([r] + t.rounds) by {
          forall k | 0 <= k < |[r] + t.rounds|
            ensures 1 <= ([r] + t.rounds)[k].attempts <= 3
          {
            if k > 0 {
              assert ([r] + t.rounds)[k] == t.rounds[k - 1];
            }
          }
        }
      }
    }
  }

  /** A log of refreshes of one to three attempts each holds at least one
      and at most three GETs per refresh, and at least one pause per refresh. */
  lemma {:induction false} PollLogCounts(get: Event, rounds: seq<Refresh>)
    requires get.Request? && get.verb == GET
    requires AttemptsWithin(rounds)
    ensures |rounds| <= Gets(PollLog(get, rounds)) <= 3 * |rounds|
    ensures |rounds| <= Delays(PollLog(get, rounds))
    decreases |rounds|
  {
    if rounds != [] {
      var init, last := rounds[..|rounds| - 1], rounds[|rounds| - 1];
      PollLogCounts(get, init);
      RefreshLogCounts(get, last);
      CountsDistribute(PollLog(get, init), [Delay]);
      CountsDistribute(PollLog(get, init) + [Delay], RefreshLog(get, last));
      assert Gets([Delay]) == 0 && Delays([Delay]) == 1;
    }
  }

  /** A poll makes as many pauses as refreshes at least, and one to three
      GETs per refresh. */
  lemma AwaitStateCounts(get: Event, converter: Converter<DispatchState>, required: DispatchState,
                         snapshot: EntitySnapshot, script: seq<Response>)
    requires get.Request? && get.verb == GET
    ensures var o := AwaitState(converter, required, snapshot, script);
      && |o.rounds| <= Gets(PollLog(get, o.rounds)) <= 3 * |o.rounds|
      && |o.rounds| <= Delays(PollLog(get, o.rounds))
  {
    AwaitStateRoundsBounded(converter, required, snapshot, script);
    PollLogCounts(get, AwaitState(converter, required, snapshot, script).rounds);
  }

  /** Three refreshes that each read an entry at the first attempt send a
      pause and one GET apiece. */
  lemma PollLogOfFirstAttempts(get: Event, r1: Refresh, r2: Refresh, r3: Refresh)
    requires r1.attempts == 1 && r1.result.Success?
    requires r2.attempts == 1 && r2.result.Success?
    requires r3.attempts == 1 && r3.result.Success?
    ensures PollLog(get, [r1, r2, r3]) == [Delay, get, Delay, get, Delay, get]
  {
    assert RefreshLog(get, r1) == [get] && RefreshLog(get, r2) == [get] && RefreshLog(get, r3) == [get];
    assert [r1, r2, r3][..2] == [r1, r2] && [r1, r2][..1] == [r1] && [r1][..0] == [];
    assert PollLog(get, [r1]) == [Delay, get];
    assert PollLog(get, [r1, r2]) == [Delay, get, Delay, get];
  }

  /** A 200 response carrying an entry, read while the state is below
      `required`, is a round of one GET that moves the poll to that entry. */
  lemma EntryRound(converter: Converter<DispatchState>, required: DispatchState,
                   snapshot: EntitySnapshot, script: seq<Response>)
    requires script != [] && script[0].status == OK && script[0].body.EntryDocument?
    requires StateOf(snapshot, converter).Success? && Below(StateOf(snapshot, converter).value, required)
    ensures var r := Refresh(Success(script[0].body.entry), script[1..], 1);
      var t := AwaitState(converter, required, EntrySnapshot(script[0].body.entry), script[1..]);
      AwaitState(converter, required, snapshot, script) == t.(rounds := [r] + t.rounds)
  {
    assert RefreshJob(script) == Refresh(Success(script[0].body.entry), script[1..], 1);
  }

  /** From `Queued`, with the server answering three refreshes with entries
      in the states parsing, running and done, waiting for `Done` takes
      exactly three refreshes of one GET each and ends on the last entry. */
  lemma AwaitDoneFromQueued(get: Event, converter: Converter<DispatchState>, queued: EntitySnapshot,
                            parsing: Entry, running: Entry, done: Entry)
    requires StateOf(queued, converter) == Success(Queued)
    requires StateOf(EntrySnapshot(parsing), converter) == Success(Parsing)
    requires StateOf(EntrySnapshot(running), converter) == Success(Running)
    requires StateOf(EntrySnapshot(done), converter) == Success(Done)
    ensures var script := [Response(OK, EntryDocument(parsing)), Response(OK, EntryDocument(running)),
                           Response(OK, EntryDocument(done))];
      var o := AwaitState(converter, Done, queued, script);
      && o.error == None && o.snapshot == EntrySnapshot(done) && o.rest == []
      && |o.rounds| == 3
      && PollLog(get, o.rounds) == [Delay, get, Delay, get, Delay, get]
  {
    var script := [Response(OK, EntryDocument(parsing)), Response(OK, EntryDocument(running)),
                   Response(OK, EntryDocument(done))];
    var r1, r2, r3 := Refresh(Success(parsing), script[1..], 1), Refresh(Success(running), script[2..], 1),
                      Refresh(Success(done), [], 1);
    assert script[1..][1..] == script[2..] && script[2..][1..] == [];
    AwaitStateReachedIsNoop(converter, Done, EntrySnapshot(done), []);
    EntryRound(converter, Done, EntrySnapshot(running), script[2..]);
    EntryRound(converter, Done, EntrySnapshot(parsing), script[1..]);
    EntryRound(converter, Done, queued, script);
    assert [r1] + ([r2] + ([r3] + [])) == [r1, r2, r3];
    PollLogOfFirstAttempts(get, r1, r2, r3);
  }

  // ---------------------------------------------------------------------
  // Control commands
  // ---------------------------------------------------------------------

  /** A 32-bit signed integer, the type of the source's `int` parameters. */
  newtype Int32 = x: int | -0x8000_0000 <= x < 0x8000_0000

  function DigitChar(d: nat): (c: char)
    requires d < 10
    ensures '0' <= c <= '9'
  {
    (48 + d) as char
  }

  /** The decimal digits of `n`, most significant first, with no leading zero. */
  function Decimal(n: nat): (s: string)
    ensures 1 <= |s|
    ensures n >= 10 ==> |s| >= 2
    ensures forall i :: 0 <= i < |s| ==> '0' <= s[i] <= '9'
    decreases n
  {
    if n < 10 then [DigitChar(n)] else Decimal(n / 10) + [DigitChar(n % 10)]
  }

  /** `int.ToString()`: optional minus sign, then the decimal digits. */
  function Int32ToString(i: Int32): (s: string)
    ensures 1 <= |s| && (s[0] == '-' <==> i < 0)
  {
    if i < 0 then "-" + Decimal(-(i as int)) else Decimal(i as int)
  }

  lemma {:induction false} DecimalInjective(a: nat, b: nat)
    requires Decimal(a) == Decimal(b)
    ensures a == b
    decreases a
  {
    if a < 10 && b < 10 {
      assert Decimal(a)[0] == DigitChar(a);
    } else if a >= 10 && b >= 10 {
      var sa, sb := Decimal(a), Decimal(b);
      assert sa[|sa| - 1] == DigitChar(a % 10) && sb[|sb| - 1] == DigitChar(b % 10);
      assert sa[..|sa| - 1] == Decimal(a / 10);
      assert sb[..|sb| - 1] == Decimal(b / 10);
      DecimalInjective(a / 10, b / 10);
    }
  }

  /** Distinct integers print differently. */
  lemma Int32ToStringInjective(a: Int32, b: Int32)
    requires Int32ToString(a) == Int32ToString(b)
    ensures a == b
  {
    if a < 0 && b < 0 {
      assert Int32ToString(a)[1..] == Decimal(-(a as int));
      assert Int32ToString(b)[1..] == Decimal(-(b as int));
      DecimalInjective(-(a as int), -(b as int));
    } else if a >= 0 && b >= 0 {
      DecimalInjective(a as int, b as int);
    }
  }

  /** The job control commands. */
  datatype ControlAction =
    | Cancel
    | DisablePreview
    | EnablePreview
    | Finalize
    | Pause
    | Save
    | SetPriority(priority: Int32)
    | SetTtl(ttl: Int32)
    | Touch(ttl: Int32)
    | Unpause
    | Unsave

  /** The value of the `action` argument each command posts. */
  function ActionName(action: ControlAction): (name: string)
    ensures name != ""
    ensures forall i :: 0 <= i < |name| ==> 'a' <= name[i] <= 'z' || name[i] == '_'
  {
    match action
    case Cancel => "cancel"
    case DisablePreview => "disable_preview"
    case EnablePreview => "enable_preview"
    case Finalize => "finalize"
    case Pause => "pause"
    case Save => "save"
    case SetPriority(_) => "priority"
    case SetTtl(_) => "setttl"
    case Touch(_) => "touch"
    case Unpause => "unpause"
    case Unsave => "unsave"
  }

  /** The argument list each command posts to the `control` sub-resource. */
  function ControlArguments(action: ControlAction): (args: seq<Argument>)
    ensures 1 <= |args| <= 2
    ensures args[0] == Argument("action", ActionName(action))
    ensures |args| == 2 <==> action.SetPriority? || action.SetTtl? || action.Touch?
  {
    match action
    case SetPriority(priority) => [Argument("action", "priority"), Argument("priority", Int32ToString(priority))]
    case SetTtl(ttl) => [Argument("action", "setttl"), Argument("ttl", Int32ToString(ttl))]
    case Touch(ttl) => [Argument("action", "touch"), Argument("ttl", Int32ToString(ttl))]
    case _ => [Argument("action", ActionName(action))]
  }

  /** Different commands, or one command with different parameters, post
      different argument lists. */
  lemma ControlArgumentsInjective(a: ControlAction, b: ControlAction)
    requires ControlArguments(a) == ControlArguments(b)
    ensures a == b
  {
    assert ActionName(a) == ActionName(b);
    match a
    case SetPriority(p) => Int32ToStringInjective(p, b.priority);
    case SetTtl(t) => Int32ToStringInjective(t, b.ttl);
    case Touch(t) => Int32ToStringInjective(t, b.ttl);
    case _ =>
  }

  /** `SetTtlAsync(600)` posts `action=setttl` and `ttl=600`. */
  lemma SetTtlArguments()
    ensures ControlArguments(SetTtl(600)) == [Argument("action", "setttl"), Argument("ttl", "600")]
  {
    assert Decimal(6) == "6";
    assert Decimal(60) == "60";
    assert Decimal(600) == "600";
  }

  /** The search-result sub-resources. */
  datatype ResultsKind = Results | Events | Preview

  /** The state each retrieval waits for: final results and events wait for
      `Done`, the preview only for `Running`. */
  function RequiredState(kind: ResultsKind): (state: DispatchState)
    ensures kind == Preview ==> state == Running
    ensures kind != Preview ==> state == Done
  {
    if kind == Preview then Running else Done
  }

  /** The sub-resource each retrieval reads. */
  function ResultsEndpoint(kind: ResultsKind): (segment: string)
    ensures segment != ""
    ensures kind == Preview <==> segment == "results_preview"
  {
    match kind
    case Results => "results"
    case Events => "events"
    case Preview => "results_preview"
  }

  // ---------------------------------------------------------------------
  // Job
  // ---------------------------------------------------------------------

  /** A search job on a server session. */
  class Job {
    const context: Context
    const ns: Namespace
    const collection: ResourceName
    const name: string
    const resourceName: ResourceName
    const stateConverter: Converter<DispatchState>
    var snapshot: EntitySnapshot

    ghost predicate Valid()
    {
      resourceName == collection + [name]
    }

    /** `new Job(context, namespace, name)` within the job collection. */
    constructor (context: Context, ns: Namespace, collection: ResourceName, name: string,
                 stateConverter: Converter<DispatchState>)
      requires name != ""
      ensures Valid()
      ensures this.context == context && this.ns == ns && this.collection == collection && this.name == name
      ensures this.stateConverter == stateConverter && snapshot == MissingSnapshot
    {
      this.context := context;
      this.ns := ns;
      this.collection := collection;
      this.name := name;
      this.resourceName := collection + [name];
      this.stateConverter := stateConverter;
      this.snapshot := MissingSnapshot;
    }

    /** `Sid`: the job's name, the last segment of its resource name. */
    function Sid(): (sid: string)
      requires Valid()
      ensures resourceName == collection + [sid]
      ensures sid == resourceName[|resourceName| - 1]
    {
      name
    }

    /** Every typed property getter: the converted attribute of the current
        snapshot, the converter's default when it is absent. */
    function GetValue<T>(attribute: string, converter: Converter<T>): (r: Result<T, Error>)
      reads this
      ensures attribute !in Attributes(snapshot) ==> r == Success(converter.defaultValue)
      ensures r.Failure? <==> attribute in Attributes(snapshot) && converter.convert(Attributes(snapshot)[attribute]).None?
      ensures r.Failure? ==> r.error == InvalidData
      ensures attribute in Attributes(snapshot) && r.Success? ==>
        converter.convert(Attributes(snapshot)[attribute]) == Some(r.value)
    {
      GetTyped(Attributes(snapshot), attribute, converter)
    }

    /** The `DispatchState` property. */
    function GetDispatchState(): (r: Result<DispatchState, Error>)
      reads this
      ensures r == GetValue("DispatchState", stateConverter)
      ensures snapshot == MissingSnapshot ==> r == Success(stateConverter.defaultValue)
    {
      StateOf(snapshot, stateConverter)
    }

    /** The GET a refresh of this job sends. */
    function Refetch(): (get: Event)
      ensures get.Request? && get.verb == GET && get.path == resourceName
    {
      Request(GET, ns, resourceName, [])
    }

    /** `GetAsync`: refreshes the snapshot, retrying only "not ready". */
    method GetAsync() returns (err: Option<Error>)
      modifies this`snapshot, context
      ensures var o := RefreshJob(old(context.responses));
        && context.responses == o.rest
        && context.trace == old(context.trace) + RefreshLog(Refetch(), o)
        && (o.result.Success? ==> err == None && snapshot == EntrySnapshot(o.result.value))
        && (o.result.Failure? ==> err == Some(o.result.error) && snapshot == old(snapshot))
    {
      ghost var target := RefreshJob(context.responses);
      var requestException: Option<Error> := None;
      var i := 3;
      while i > 0
        invariant 0 <= i <= 3
        invariant i < 3 ==> requestException == Some(RequestError(NoContent))
        invariant RetryFrom(context.responses, i, requestException, 3 - i) == target
        invariant context.trace == old(context.trace) + Pairs(Refetch(), 3 - i)
        invariant snapshot == old(snapshot)
        decreases i
      {
        var response := context.Send(GET, ns, resourceName, []);
        var attempt := Attempt(response);
        if attempt.Success? {
          snapshot := EntrySnapshot(attempt.value);
          return None;
        }
        if attempt.error != RequestError(NoContent) {
          return Some(attempt.error);
        }
        requestException := Some(attempt.error);
        context.Pause();
        assert old(context.trace) + Pairs(Refetch(), 3 - i) + [Refetch()] + [Delay]
          == old(context.trace) + Pairs(Refetch(), 3 - i + 1);
        i := i - 1;
      }
      assert Pairs(Refetch(), 3) == Pairs(Refetch(), 2) + [Refetch()] + [Delay];
      assert RefreshLog(Refetch(), target) == Pairs(Refetch(), 2) + [Refetch()] + [Delay];
      return requestException;
    }

    /** One pass of the loop in `TransitionAsync`: the half-second pause,
        then a refresh. `rounds` are the refreshes the wait from `snapshot0`
        and `script0` has made so far, and the state is still below
        `required`; the pass either extends them or ends the wait with the
        refresh's error. */
    method AwaitRound(ghost required: DispatchState, ghost snapshot0: EntitySnapshot,
                      ghost script0: seq<Response>, ghost rounds: seq<Refresh>)
      returns (err: Option<Error>, ghost r: Refresh)
      requires Polled(stateConverter, required, snapshot0, script0, rounds, snapshot, context.responses)
      requires GetDispatchState().Success? && Below(GetDispatchState().value, required)
      modifies this`snapshot, context
      ensures r == RefreshJob(old(context.responses))
      ensures context.trace == old(context.trace) + [Delay] + RefreshLog(Refetch(), r)
      ensures err.None? ==> |context.responses| < |old(context.responses)|
      ensures err.None? ==> Polled(stateConverter, required, snapshot0, script0, rounds + [r], snapshot, context.responses)
      ensures err.Some? ==> AwaitState(stateConverter, required, snapshot0, script0)
                            == Transition(err, snapshot, context.responses, rounds + [r])
    {
      ghost var before, current := context.responses, snapshot;
      r := RefreshJob(before);
      context.Pause();
      err := GetAsync();
      if err.Some? {
        PolledResumes(stateConverter, required, snapshot0, script0, rounds, current, before);
      } else {
        PolledExtends(stateConverter, required, snapshot0, script0, rounds, current, before);
      }
    }

    /** `TransitionAsync(required)`: pauses and refreshes until the dispatch
        state is at least `required`. */
    method TransitionAsync(required: DispatchState) returns (err: Option<Error>)
      modifies this`snapshot, context
      ensures var o := AwaitState(stateConverter, required, old(snapshot), old(context.responses));
        && err == o.error
        && snapshot == o.snapshot
        && context.responses == o.rest
        && context.trace == old(context.trace) + PollLog(Refetch(), o.rounds)
      ensures err.None? ==> GetDispatchState().Success? && !Below(GetDispatchState().value, required)
    {
      ghost var rounds: seq<Refresh> := [];
      err := None;
      while true
        invariant err == None
        invariant Polled(stateConverter, required, old(snapshot), old(context.responses), rounds,
                         snapshot, context.responses)
        invariant context.trace == PollLogAfter(old(context.trace), Refetch(), rounds)
        decreases |context.responses|
      {
        var state := GetDispatchState();
        if state.Failure? || !Below(state.value, required) {
          if state.Failure? {
            err := Some(state.error);
          }
          PolledEnds(stateConverter, required, old(snapshot), old(context.responses), rounds,
                     snapshot, context.responses);
          break;
        }
        ghost var r;
        err, r := AwaitRound(required, old(snapshot), old(context.responses), rounds);
        assert (rounds + [r])[..|rounds|] == rounds;
        rounds := rounds + [r];
        if err.Some? {
          break;
        }
      }
      PollLogAfterAppends(old(context.trace), Refetch(), rounds);
    }

    /** `PostControlCommandAsync`: POSTs to the `control` sub-resource and
        requires 200 OK. */
    method PostControlCommand(args: seq<Argument>) returns (err: Option<Error>)
      modifies context
      ensures var (response, rest) := Exchange(old(context.responses));
        && err == ExpectStatus(response, OK)
        && context.responses == rest
        && context.trace == old(context.trace) + [Request(POST, ns, resourceName + ["control"], args)]
    {
      var response := context.Send(POST, ns, resourceName + ["control"], args);
      err := ExpectStatus(response, OK);
    }

    /** `CancelAsync` … `UnsaveAsync`, `SetPriorityAsync`, `SetTtlAsync`,
        `TouchAsync`: wait for `Running`, then post the command. */
    method Control(action: ControlAction) returns (err: Option<Error>)
      modifies this`snapshot, context
      ensures var t := AwaitState(stateConverter, Running, old(snapshot), old(context.responses));
        && snapshot == t.snapshot
        && (t.error.Some? ==> err == t.error && context.responses == t.rest
                              && context.trace == old(context.trace) + PollLog(Refetch(), t.rounds))
        && (t.error.None? ==>
              var (response, rest) := Exchange(t.rest);
              && err == ExpectStatus(response, OK)
              && context.responses == rest
              && context.trace == old(context.trace) + PollLog(Refetch(), t.rounds)
                                  + [Request(POST, ns, resourceName + ["control"], ControlArguments(action))])
      ensures err.None? ==> GetDispatchState().Success? && !Below(GetDispatchState().value, Running)
    {
      err := TransitionAsync(Running);
      if err.Some? {
        return;
      }
      err := PostControlCommand(ControlArguments(action));
    }

    /** `GetSearchResultsAsync`, `GetSearchResultsEventsAsync`,
        `GetSearchResultsPreviewAsync`: wait for the state the kind needs,
        then GET its sub-resource; the response is handed to the result
        reader unchecked. */
    method GetSearchResults(kind: ResultsKind, args: seq<Argument>) returns (r: Result<Response, Error>)
      modifies this`snapshot, context
      ensures var t := AwaitState(stateConverter, RequiredState(kind), old(snapshot), old(context.responses));
        && snapshot == t.snapshot
        && (t.error.Some? ==> r == Failure(t.error.value) && context.responses == t.rest
                              && context.trace == old(context.trace) + PollLog(Refetch(), t.rounds))
        && (t.error.None? ==>
              && (r, context.responses) == Exchange(t.rest)
              && context.trace == old(context.trace) + PollLog(Refetch(), t.rounds)
                                  + [Request(GET, ns, resourceName + [ResultsEndpoint(kind)], args)])
      ensures r.Success? ==> GetDispatchState().Success? && !Below(GetDispatchState().value, RequiredState(kind))
    {
      var err := TransitionAsync(RequiredState(kind));
      if err.Some? {
        return Failure(err.value);
      }
      r := context.Send(GET, ns, resourceName + [ResultsEndpoint(kind)], args);
    }

    /** `RemoveAsync`: DELETE the job, requiring 200 OK; no state is awaited. */
    method RemoveAsync() returns (err: Option<Error>)
      modifies context
      ensures var (response, rest) := Exchange(old(context.responses));
        && err == ExpectStatus(response, OK)
        && context.responses == rest
        && context.trace == old(context.trace) + [Request(DELETE, ns, resourceName, [])]
    {
      var response := context.Send(DELETE, ns, resourceName, []);
      err := ExpectStatus(response, OK);
    }

    /** `UpdateJobArgs`: POST the arguments to the job itself, requiring
        200 OK; no state is awaited. */
    method UpdateJobArgs(args: seq<Argument>) returns (err: Option<Error>)
      modifies context
      ensures var (response, rest) := Exchange(old(context.responses));
        && err == ExpectStatus(response, OK)
        && context.responses == rest
        && context.trace == old(context.trace) + [Request(POST, ns, resourceName, args)]
    {
      var response := context.Send(POST, ns, resourceName, args);
      err := ExpectStatus(response, OK);
    }
  }
}
