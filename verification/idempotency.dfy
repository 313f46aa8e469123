/**
 * The idempotency protocol for one key on one endpoint: concurrent requests,
 * crashes, reclaims of stale claims and the expiry sweep
 * (apps/api/src/plugins/idempotency.ts).
 */
module Idempotency {
  import opened Basics

  const STALE_IN_PROGRESS_MS: int := 300_000
  const HOUR_MS: int := 3_600_000
  const MAX_KEY_LENGTH := 255

  type Hash = string

  datatype Response = Response(status: int, body: string)

  /** The stored row; it is COMPLETED when it holds a response, IN_PROGRESS otherwise. */
  datatype Row = Row(id: nat, hash: Hash, response: Option<Response>, createdAt: int, expiresAt: int)

  // -- the table ------------------------------------------------------------------------

  /** The row under the unique (organization, key, endpoint), and the next fresh row id. */
  datatype Table = Table(row: Option<Row>, nextId: nat)

  function Insert(t: Table, hash: Hash, now: int, expiresAt: int): Result<Table> {
    if t.row.Some? then Err(RequestInProgress)
    else Ok(Table(Some(Row(t.nextId, hash, None, now, expiresAt)), t.nextId + 1))
  }

  /** Delete the row if it is still the one that was read, and still in progress. */
  function Reclaim(t: Table, id: nat): Table {
    if t.row.Some? && t.row.value.id == id && t.row.value.response.None? then t.(row := None) else t
  }

  /** `complete` finds the row by key, whoever claimed it and whatever it holds. */
  function Complete(t: Table, response: Response): Table {
    if t.row.Some? then t.(row := Some(t.row.value.(response := Some(response)))) else t
  }

  /** `releaseIdempotency` deletes by key too, but only a row in progress. */
  function Release(t: Table): Table {
    if t.row.Some? && t.row.value.response.None? then t.(row := None) else t
  }

  function Sweep(t: Table, now: int): Table {
    if t.row.Some? && t.row.value.expiresAt <= now then t.(row := None) else t
  }

  /** The table as the database keeps it. */
  class KeyTable {
    var row: Option<Row>
    var nextId: nat

    function Contents(): Table
      reads this
    {
      Table(row, nextId)
    }

    constructor ()
      ensures Contents() == Table(None, 0)
    {
      row, nextId := None, 0;
    }

    method InsertRow(hash: Hash, now: int, expiresAt: int) returns (error: Option<ErrorCode>)
      modifies this
      ensures match Insert(old(Contents()), hash, now, expiresAt)
              case Ok(t) => error == None && Contents() == t
              case Err(code) => error == Some(code) && Contents() == old(Contents())
    {
      if row.Some? { return Some(RequestInProgress); }
      row, nextId := Some(Row(nextId, hash, None, now, expiresAt)), nextId + 1;
      error := None;
    }

    method DeleteInProgress(id: nat)
      modifies this`row
      ensures Contents() == Reclaim(old(Contents()), id)
    {
      if row.Some? && row.value.id == id && row.value.response.None? { row := None; }
    }

    /**
     * `withIdempotency` with nothing else running: a claim, a replay or a
     * refusal, and the table each leaves.
     */
    method WithIdempotency(key: string, hash: Hash, ttlHours: nat, now: int) returns (r: Result<Option<Response>>)
      modifies this
      ensures |key| > 255 ==> r == Err(ValidationError) && Contents() == old(Contents())
      ensures 0 < |key| <= 255 ==>
                match Admit(old(Contents()), hash, ttlHours, now)
                case Ok((t, replay)) => r == Ok(replay) && Contents() == t
                case Err(code) => r == Err(code) && Contents() == old(Contents())
      ensures key == "" ==> r == Ok(None) && Contents() == old(Contents())
    {
      if key == "" { return Ok(None); }
      if |key| > MAX_KEY_LENGTH { return Err(ValidationError); }
      var expiresAt := now + ttlHours * HOUR_MS;
      if row.Some? {
        var existing := row.value;
        if existing.hash != hash { return Err(IdempotencyKeyReuse); }
        if existing.response.Some? { return Ok(existing.response); }
        if now - existing.createdAt <= STALE_IN_PROGRESS_MS { return Err(RequestInProgress); }
        DeleteInProgress(existing.id);
      }
      var error := InsertRow(hash, now, expiresAt);
      assert error == None;
      r := Ok(None);
    }
  }

  /** The table a lone request leaves, with the response it replays if any. */
  function Admit(t: Table, hash: Hash, ttlHours: nat, now: int): Result<(Table, Option<Response>)> {
    var expiresAt := now + ttlHours * HOUR_MS;
    match Judged(t.row, hash, now)
    case Replay(response) => Ok((t, Some(response)))
    case Refuse(code) => Err(code)
    case Replace(id) => var claimed :- Insert(Reclaim(t, id), hash, now, expiresAt); Ok((claimed, None))
    case Proceed => var claimed :- Insert(t, hash, now, expiresAt); Ok((claimed, None))
  }

  // -- requests ---------------------------------------------------------------------------

  datatype Verdict = Replay(response: Response) | Refuse(code: ErrorCode) | Replace(id: nat) | Proceed

  /** What a request decides from the row it read. */
  function Judged(seen: Option<Row>, hash: Hash, now: int): Verdict {
    if seen.None? then Proceed
    else if seen.value.hash != hash then Refuse(IdempotencyKeyReuse)
    else if seen.value.response.Some? then Replay(seen.value.response.value)
    else if now - seen.value.createdAt > STALE_IN_PROGRESS_MS then Replace(seen.value.id)
    else Refuse(RequestInProgress)
  }

  datatype Reply = Replayed(response: Response) | Served(response: Response) | Refused(code: ErrorCode) | HandlerFailed

  /** Where a request is between two of its database actions. */
  datatype Pc =
    | Arrived
    | Saw(row: Option<Row>)
    | Reclaiming(id: nat)
    | Claiming
    | Handling(claim: nat, since: int)
    | Replied(reply: Reply)
    | Crashed

  datatype Call = Call(hash: Hash, expiresAt: int, pc: Pc)

  datatype System = System(now: int, table: Table, calls: map<nat, Call>)

  datatype Event =
    | Tick(to: int)
    | Arrive(q: nat, hash: Hash, ttlHours: nat)
    | Look(q: nat)
    | Judge(q: nat)
    | DeleteStale(q: nat)
    | Claim(q: nat)
    | Finish(q: nat, response: Response, stored: bool)
    | Fail(q: nat, released: bool)
    | Crash(q: nat)
    | SweepKeys

  predicate At(s: System, q: nat) { q in s.calls }

  function Goto(s: System, q: nat, pc: Pc): System
    requires At(s, q)
  {
    s.(calls := s.calls[q := s.calls[q].(pc := pc)])
  }

  /** One action of one request, the clock or the sweep; an action that is not next changes nothing. */
  function Step(s: System, e: Event): System {
    match e
    case Tick(to) => if to >= s.now then s.(now := to) else s
    case SweepKeys => s.(table := Sweep(s.table, s.now))
    case Arrive(q, hash, ttlHours) =>
      if At(s, q) then s else s.(calls := s.calls[q := Call(hash, s.now + ttlHours * HOUR_MS, Arrived)])
    case Look(q) => if At(s, q) && s.calls[q].pc.Arrived? then Goto(s, q, Saw(s.table.row)) else s
    case Judge(q) => if At(s, q) && s.calls[q].pc.Saw? then Goto(s, q, AfterVerdict(Judged(s.calls[q].pc.row, s.calls[q].hash, s.now))) else s
    case DeleteStale(q) =>
      if At(s, q) && s.calls[q].pc.Reclaiming?
      then Goto(s, q, Claiming).(table := Reclaim(s.table, s.calls[q].pc.id)) else s
    case Claim(q) => if At(s, q) && s.calls[q].pc.Claiming? then ClaimStep(s, q) else s
    case Finish(q, response, stored) =>
      if At(s, q) && s.calls[q].pc.Handling?
      then Goto(s, q, Replied(Served(response))).(table := if stored then Complete(s.table, response) else s.table) else s
    case Fail(q, released) =>
      if At(s, q) && s.calls[q].pc.Handling?
      then Goto(s, q, Replied(HandlerFailed)).(table := if released then Release(s.table) else s.table) else s
    case Crash(q) => if At(s, q) && !s.calls[q].pc.Replied? then Goto(s, q, Crashed) else s
  }

  function AfterVerdict(v: Verdict): Pc {
    match v
    case Replay(response) => Replied(Replayed(response))
    case Refuse(code) => Replied(Refused(code))
    case Replace(id) => Reclaiming(id)
    case Proceed => Claiming
  }

  function ClaimStep(s: System, q: nat): System
    requires At(s, q)
  {
    var c := s.calls[q];
    match Insert(s.table, c.hash, s.now, c.expiresAt)
    case Ok(t) => Goto(s, q, Handling(s.table.nextId, s.now)).(table := t)
    case Err(code) => Goto(s, q, Replied(Refused(code)))
  }

  function Run(s: System, es: seq<Event>): System {
    if es == [] then s else Step(Run(s, es[..|es| - 1]), es[|es| - 1])
  }

  const Start: System := System(0, Table(None, 0), map[])

  // -- no two handlers ----------------------------------------------------------------------

  predicate Live(s: System, q: nat) { At(s, q) && s.calls[q].pc.Handling? }

  /**
   * The timing the protocol relies on: a handler that has not crashed makes its
   * last database write within the staleness window of its claim, and a claim is
   * made at least that long before the key it inserts expires.
   */
  ghost predicate Timely(s: System, e: Event) {
    match e
    case Tick(to) => forall q :: Live(s, q) ==> to <= s.calls[q].pc.since + STALE_IN_PROGRESS_MS
    case Claim(q) => At(s, q) ==> s.now + STALE_IN_PROGRESS_MS < s.calls[q].expiresAt
    case _ => true
  }

  ghost predicate TimelyRun(s: System, es: seq<Event>) {
    es == [] || (TimelyRun(s, es[..|es| - 1]) && Timely(Run(s, es[..|es| - 1]), es[|es| - 1]))
  }

  /** What one request's position says about the row. */
  predicate Consistent(s: System, q: nat)
    requires At(s, q)
  {
    var row := s.table.row;
    match s.calls[q].pc
    case Handling(claim, since) =>
      && row.Some? && row.value.id == claim && row.value.response.None?
      && row.value.hash == s.calls[q].hash && row.value.expiresAt == s.calls[q].expiresAt
      && row.value.createdAt == since && since + STALE_IN_PROGRESS_MS < row.value.expiresAt
      && s.now <= since + STALE_IN_PROGRESS_MS
    case Reclaiming(id) =>
      && id < s.table.nextId
      && (row.Some? && row.value.id == id ==> row.value.createdAt + STALE_IN_PROGRESS_MS < s.now)
    case Saw(seen) =>
      seen.Some? ==> && seen.value.id < s.table.nextId
                     && (row.Some? && row.value.id == seen.value.id ==> seen.value.createdAt == row.value.createdAt)
    case _ => true
  }

  ghost predicate Safe(s: System) {
    && (s.table.row.Some? ==> s.table.row.value.id < s.table.nextId)
    && (forall q :: At(s, q) ==> Consistent(s, q))
    && (forall q, q' :: Live(s, q) && Live(s, q') ==> q == q')
  }

  lemma StepKeepsConsistent(s: System, e: Event, q: nat)
    requires Safe(s) && Timely(s, e) && At(Step(s, e), q)
    ensures Consistent(Step(s, e), q)
  {
    if At(s, q) { assert Consistent(s, q); }
    if e.Finish? || e.Fail? || e.DeleteStale? || e.Claim? {
      if At(s, e.q) { assert Consistent(s, e.q); }
      assert Live(s, e.q) && Live(s, q) ==> q == e.q;
    }
  }

  lemma StepKeepsOneHandler(s: System, e: Event, q: nat, q': nat)
    requires Safe(s) && Live(Step(s, e), q) && Live(Step(s, e), q')
    ensures q == q'
  {
    assert Live(s, q) ==> Consistent(s, q);
    assert Live(s, q') ==> Consistent(s, q');
  }

  /** Whoever acts, every request stays consistent with the row, and one handler at most is live. */
  lemma StepKeepsSafe(s: System, e: Event)
    requires Safe(s) && Timely(s, e)
    ensures Safe(Step(s, e))
  {
    var s' := Step(s, e);
    forall q | At(s', q) ensures Consistent(s', q) { StepKeepsConsistent(s, e, q); }
    forall q, q' | Live(s', q) && Live(s', q') ensures q == q' { StepKeepsOneHandler(s, e, q, q'); }
  }

  lemma {:induction false} RunIsSafe(s: System, es: seq<Event>)
    requires Safe(s) && TimelyRun(s, es)
    ensures Safe(Run(s, es))
    decreases |es|
  {
    hide Safe, Step, Timely;
    if es != [] {
      RunIsSafe(s, es[..|es| - 1]);
      StepKeepsSafe(Run(s, es[..|es| - 1]), es[|es| - 1]);
    }
  }

  /** Over all interleavings with timely handlers, no two handlers for one key ever overlap. */
  lemma HandlersNeverOverlap(es: seq<Event>, q: nat, q': nat)
    requires TimelyRun(Start, es)
    ensures Live(Run(Start, es), q) && Live(Run(Start, es), q') ==> q == q'
  {
    hide Run;
    RunIsSafe(Start, es);
  }

  lemma StartIsSafe()
    ensures Safe(Start)
  {}

  // -- one answer ---------------------------------------------------------------------------

  predicate Done(t: Table) { t.row.Some? && t.row.value.response.Some? }

  /** The expiry sweep does not run once the row has expired. (Reads never look at the expiry.) */
  predicate Unswept(s: System, es: seq<Event>, expiresAt: int) {
    es == [] || (Unswept(s, es[..|es| - 1], expiresAt)
                 && (es[|es| - 1].SweepKeys? ==> Run(s, es[..|es| - 1]).now < expiresAt))
  }

  /** A request that had not read the row when it was completed. */
  predicate Fresh(s: System, q: nat) { !At(s, q) || s.calls[q].pc.Arrived? }

  /** The row `row` answers request `q`: no handler, and only this reply or a refusal of a different body. */
  predicate AnsweredBy(s: System, q: nat, row: Row)
    requires row.response.Some?
  {
    At(s, q) ==>
      var c := s.calls[q];
      c.pc in {Arrived, Saw(Some(row)), Crashed}
      || c.pc == Replied(if c.hash == row.hash then Replayed(row.response.value) else Refused(IdempotencyKeyReuse))
  }

  /** Since `start`: the row stands, nothing is running, and requests fresh at `start` are answered from it. */
  ghost predicate Settled(start: System, s: System, row: Row)
    requires row.response.Some?
  {
    && s.table.row == Some(row)
    && (forall q :: !Live(s, q))
    && (forall q :: !Fresh(start, q) ==> At(s, q))
    && (forall q :: Fresh(start, q) ==> AnsweredBy(s, q, row))
  }

  lemma StepKeepsSettled(start: System, s: System, row: Row, e: Event)
    requires row.response.Some? && Settled(start, s, row) && (e.SweepKeys? ==> s.now < row.expiresAt)
    ensures Settled(start, Step(s, e), row)
  {
    var s' := Step(s, e);
    if e.Finish? || e.Fail? { assert !Live(s, e.q); }
    forall q ensures !Live(s', q) {
      assert !Live(s, q);
      if e.Claim? { assert !Live(s, e.q); }
    }
    forall q | Fresh(start, q) ensures AnsweredBy(s', q, row) {
      assert AnsweredBy(s, q, row);
    }
  }

  lemma {:induction false} RunKeepsSettled(start: System, row: Row, es: seq<Event>)
    requires row.response.Some? && Settled(start, start, row) && Unswept(start, es, row.expiresAt)
    ensures Settled(start, Run(start, es), row)
    decreases |es|
  {
    hide Settled, Step;
    if es != [] {
      RunKeepsSettled(start, row, es[..|es| - 1]);
      StepKeepsSettled(start, Run(start, es[..|es| - 1]), row, es[|es| - 1]);
    }
  }

  /**
   * From its first completion until it is swept, a key has one answer: the row
   * never changes, no handler runs, and every request that reads the row from
   * then on replays that response, or is refused when its body differs.
   */
  lemma CompletedKeyHasOneAnswer(es: seq<Event>, later: seq<Event>, q: nat)
    requires TimelyRun(Start, es) && Done(Run(Start, es).table)
    requires Unswept(Run(Start, es), later, Run(Start, es).table.row.value.expiresAt)
    ensures var s := Run(Start, es);
            var s' := Run(s, later);
            && s'.table.row == s.table.row && !Live(s', q)
            && (Fresh(s, q) ==> AnsweredBy(s', q, s.table.row.value))
  {
    hide Run;
    RunIsSafe(Start, es);
    var s := Run(Start, es);
    forall q ensures !Live(s, q) {
      if At(s, q) { assert Consistent(s, q); }
    }
    RunKeepsSettled(s, s.table.row.value, later);
  }

  // -- the answer is the one that was served -----------------------------------------------------

  /** A response on the row is one that a request with the row's body was itself served. */
  ghost predicate AnswerWasServed(s: System) {
    Done(s.table) ==>
      exists q :: At(s, q) && s.calls[q].hash == s.table.row.value.hash
                  && s.calls[q].pc == Replied(Served(s.table.row.value.response.value))
  }

  lemma StepKeepsAnswerServed(s: System, e: Event)
    requires Safe(s) && AnswerWasServed(s)
    ensures AnswerWasServed(Step(s, e))
  {
    var s' := Step(s, e);
    if Done(s'.table) {
      if e.Finish? && Live(s, e.q) {
        assert Consistent(s, e.q);
        assert At(s', e.q);
      } else {
        var row := s'.table.row.value;
        var q :| At(s, q) && s.calls[q].hash == row.hash && s.calls[q].pc == Replied(Served(row.response.value));
        assert s'.calls[q] == s.calls[q];
      }
    }
  }

  /**
   * However requests interleave, a response that the key holds is exactly what
   * its own handler answered its own caller, for a request with the same body.
   */
  lemma {:induction false} StoredAnswerWasServed(es: seq<Event>)
    requires TimelyRun(Start, es)
    ensures AnswerWasServed(Run(Start, es))
    decreases |es|
  {
    hide Safe, Step, Timely;
    if es != [] {
      StoredAnswerWasServed(es[..|es| - 1]);
      StartIsSafe();
      RunIsSafe(Start, es[..|es| - 1]);
      StepKeepsAnswerServed(Run(Start, es[..|es| - 1]), es[|es| - 1]);
    }
  }

  lemma FinishStores(s: System, q: nat, response: Response)
    requires Safe(s) && Live(s, q)
    ensures s.table.row.Some?
    ensures var s', row := Step(s, Finish(q, response, true)), s.table.row.value;
            && s'.table.row == Some(Row(row.id, s.calls[q].hash, Some(response), row.createdAt, s.calls[q].expiresAt))
            && At(s', q) && s'.calls[q].pc == Replied(Served(response))
  {
    assert Consistent(s, q);
  }

  /**
   * What one caller was served is what every later caller with that body gets:
   * after the handler finishes and its answer is stored, and until the key is
   * swept, a request that comes with the same body replays that answer, and one
   * with another body is refused.
   */
  lemma RetryReplaysWhatWasServed(es: seq<Event>, first: nat, response: Response, later: seq<Event>, q: nat, hash: Hash, ttlHours: nat)
    requires TimelyRun(Start, es) && Live(Run(Start, es), first)
    requires var served := Run(Start, es + [Finish(first, response, true)]);
             Unswept(served, later, Run(Start, es).calls[first].expiresAt) && !At(Run(served, later), q)
    ensures var before, served := Run(Start, es), Run(Start, es + [Finish(first, response, true)]);
            var retried := Run(Run(served, later), [Arrive(q, hash, ttlHours), Look(q), Judge(q)]);
            && At(served, first) && served.calls[first].pc == Replied(Served(response))
            && At(retried, q)
            && retried.calls[q].pc == Replied(if hash == before.calls[first].hash then Replayed(response) else Refused(IdempotencyKeyReuse))
  {
    hide Run, Step, Safe;
    var finish := Finish(first, response, true);
    StartIsSafe();
    RunLast(Start, es, finish);
    RunIsSafe(Start, es);
    FinishStores(Run(Start, es), first, response);
    FinishIsTimely(es, finish);
    CompletedKeyHasOneAnswer(es + [finish], later, q);
    Asking(Run(Run(Start, es + [finish]), later), q, hash, ttlHours);
  }

  lemma FinishIsTimely(es: seq<Event>, e: Event)
    requires TimelyRun(Start, es) && !e.Tick? && !e.Claim?
    ensures TimelyRun(Start, es + [e])
  {
    assert (es + [e])[..|es|] == es;
  }

  /** A handler that fails and lets go of its claim leaves the key free for the next request, whatever its body. */
  lemma FailureFreesTheKey(es: seq<Event>, failed: nat, q: nat, hash: Hash, ttlHours: nat)
    requires TimelyRun(Start, es) && Live(Run(Start, es), failed) && !At(Run(Start, es), q)
    ensures var freed := Step(Run(Start, es), Fail(failed, true));
            var s' := Run(Run(freed, [Arrive(q, hash, ttlHours), Look(q), Judge(q)]), [DeleteStale(q), Claim(q), Tick(freed.now)]);
            && freed.table.row == None
            && Live(s', q)
            && s'.table.row == Some(Row(freed.table.nextId, hash, None, freed.now, freed.now + ttlHours * HOUR_MS))
  {
    hide Run;
    RunIsSafe(Start, es);
    var s := Run(Start, es);
    assert Consistent(s, failed);
    FreeKeyIsClaimed(Step(s, Fail(failed, true)), q, hash, ttlHours);
  }

  /** A request for a free key claims it, for its body and its lifetime, and runs its handler. */
  lemma FreeKeyIsClaimed(s: System, q: nat, hash: Hash, ttlHours: nat)
    requires !At(s, q) && s.table.row.None?
    ensures var s' := Run(Run(s, [Arrive(q, hash, ttlHours), Look(q), Judge(q)]), [DeleteStale(q), Claim(q), Tick(s.now)]);
            && Live(s', q)
            && s'.table.row == Some(Row(s.table.nextId, hash, None, s.now, s.now + ttlHours * 3_600_000))
  {
    hide Run, Step;
    Asking(s, q, hash, ttlHours);
    RestOfClaim(Run(s, [Arrive(q, hash, ttlHours), Look(q), Judge(q)]), q);
  }

  /** The sweep forgets a key, and its answer with it, exactly once the lifetime its request asked for is over. */
  lemma SweepForgetsExactlyWhen(s: System, q: nat, hash: Hash, ttlHours: nat)
    requires !At(s, q) && Done(s.table) && hash == s.table.row.value.hash
    ensures var swept := Step(s, SweepKeys);
            var s' := Run(Run(swept, [Arrive(q, hash, ttlHours), Look(q), Judge(q)]), [DeleteStale(q), Claim(q), Tick(s.now)]);
            && (s.table.row.value.expiresAt <= s.now <==> Live(s', q))
            && (s.now < s.table.row.value.expiresAt ==> At(s', q) && s'.calls[q].pc == Replied(Replayed(s.table.row.value.response.value)))
  {
    hide Run;
    var swept := Step(s, SweepKeys);
    if swept.table.row.None? {
      FreeKeyIsClaimed(swept, q, hash, ttlHours);
    } else {
      Asking(swept, q, hash, ttlHours);
      RestOfClaim(Run(swept, [Arrive(q, hash, ttlHours), Look(q), Judge(q)]), q);
    }
  }

  // -- whatever the timing ----------------------------------------------------------------------

  lemma StepKeepsCompleted(s: System, e: Event)
    requires Done(s.table) && (e.SweepKeys? ==> s.now < s.table.row.value.expiresAt)
    ensures var row, row' := s.table.row.value, Step(s, e).table.row;
            && row'.Some? && row' == Some(row.(response := row'.value.response)) && row'.value.response.Some?
            && (row'.value.response == row.response || (e.Finish? && e.stored && Live(s, e.q) && row'.value.response == Some(e.response)))
  {}

  /**
   * However late handlers are, a completed key is not let go of before its
   * lifetime is over: not by a handler that fails, not by a request that takes
   * its row for stale. A late handler that finishes is all that can touch it, and
   * then only to put another answer in its place.
   */
  lemma {:induction false} CompletedKeyIsKept(s: System, es: seq<Event>)
    requires Done(s.table) && Unswept(s, es, s.table.row.value.expiresAt)
    ensures var row, row' := s.table.row.value, Run(s, es).table.row;
            && row'.Some? && row'.value.response.Some? && row' == Some(row.(response := row'.value.response))
            && ((forall i :: 0 <= i < |es| ==> !es[i].Finish?) ==> row'.value == row)
    decreases |es|
  {
    hide Step;
    if es != [] {
      CompletedKeyIsKept(s, es[..|es| - 1]);
      StepKeepsCompleted(Run(s, es[..|es| - 1]), es[|es| - 1]);
    }
  }

  // -- claims that are never finished ---------------------------------------------------------

  lemma RunLast(s: System, es: seq<Event>, e: Event)
    ensures Run(s, es + [e]) == Step(Run(s, es), e)
  {
    assert (es + [e])[..|es|] == es;
  }

  lemma RunSteps(s: System, a: Event, b: Event, c: Event)
    ensures Run(s, [a, b, c]) == Step(Step(Step(s, a), b), c)
  {
    hide Step;
    RunLast(s, [], a);
    assert [] + [a] == [a];
    RunLast(s, [a], b);
    assert [a] + [b] == [a, b];
    RunLast(s, [a, b], c);
    assert [a, b] + [c] == [a, b, c];
  }

  /** Where a request stands once it has read the row and judged it, with nothing in between. */
  lemma Asking(s: System, q: nat, hash: Hash, ttlHours: nat)
    requires !At(s, q)
    ensures Run(s, [Arrive(q, hash, ttlHours), Look(q), Judge(q)])
            == s.(calls := s.calls[q := Call(hash, s.now + ttlHours * HOUR_MS, AfterVerdict(Judged(s.table.row, hash, s.now)))])
  {
    hide Judged, AfterVerdict;
    RunSteps(s, Arrive(q, hash, ttlHours), Look(q), Judge(q));
    var arrived := Step(s, Arrive(q, hash, ttlHours));
    assert Step(arrived, Look(q)).calls[q].pc == Saw(s.table.row);
  }

  /** What the remaining steps make of each verdict. */
  lemma RestOfClaim(s: System, q: nat)
    requires At(s, q) && (s.calls[q].pc.Claiming? || s.calls[q].pc.Reclaiming? || s.calls[q].pc.Replied?)
    ensures var s' := Run(s, [DeleteStale(q), Claim(q), Tick(s.now)]);
            var table := if s.calls[q].pc.Reclaiming? then Reclaim(s.table, s.calls[q].pc.id) else s.table;
            && At(s', q) && s'.now == s.now
            && if s.calls[q].pc.Replied? then s' == s
               else match Insert(table, s.calls[q].hash, s.now, s.calls[q].expiresAt)
                    case Ok(t) => s'.calls[q].pc == Handling(table.nextId, s.now) && s'.table == t
                    case Err(code) => s'.calls[q].pc == Replied(Refused(code)) && s'.table == table
  {
    hide Insert, Reclaim;
    RunSteps(s, DeleteStale(q), Claim(q), Tick(s.now));
  }

  /** A request that nothing interleaves with is admitted exactly as `Admit` says. */
  lemma LoneRequest(s: System, q: nat, hash: Hash, ttlHours: nat)
    requires !At(s, q)
    ensures var asked := Run(s, [Arrive(q, hash, ttlHours), Look(q), Judge(q)]);
            var s' := Run(asked, [DeleteStale(q), Claim(q), Tick(s.now)]);
            && At(s', q)
            && match Admit(s.table, hash, ttlHours, s.now)
               case Ok((t, Some(response))) => s'.calls[q].pc == Replied(Replayed(response)) && s'.table == t
               case Ok((t, None)) => Live(s', q) && s'.table == t
               case Err(code) => s'.calls[q].pc == Replied(Refused(code)) && s'.table == s.table
  {
    hide Run, Step;
    Asking(s, q, hash, ttlHours);
    RestOfClaim(Run(s, [Arrive(q, hash, ttlHours), Look(q), Judge(q)]), q);
  }

  /** What a request with the same body meets when a crashed claim still holds the key. */
  lemma CrashedClaim(s: System, q: nat, ttlHours: nat)
    requires !At(s, q) && s.table.row.Some? && s.table.row.value.response.None?
    ensures var row := s.table.row.value;
            var asked := Run(s, [Arrive(q, row.hash, ttlHours), Look(q), Judge(q)]);
            if s.now - row.createdAt > 300_000
            then Live(Run(asked, [DeleteStale(q), Claim(q), Tick(s.now)]), q)
            else At(asked, q) && asked.calls[q].pc == Replied(Refused(RequestInProgress)) && asked.table == s.table
  {
    hide Run, Step;
    Asking(s, q, s.table.row.value.hash, ttlHours);
    if s.now - s.table.row.value.createdAt > STALE_IN_PROGRESS_MS {
      RestOfClaim(Run(s, [Arrive(q, s.table.row.value.hash, ttlHours), Look(q), Judge(q)]), q);
    }
  }

  /** Why handlers must be timely: one that outlives the window is overlapped by the next request. */
  lemma SlowHandlerIsOverlapped(s: System, slow: nat, q: nat, ttlHours: nat)
    requires Live(s, slow) && Consistent(s, slow) && !At(s, q)
    ensures var late := s.(now := s.calls[slow].pc.since + STALE_IN_PROGRESS_MS + 1);
            var asked := Run(late, [Arrive(q, s.table.row.value.hash, ttlHours), Look(q), Judge(q)]);
            var both := Run(asked, [DeleteStale(q), Claim(q), Tick(late.now)]);
            && Step(s, Tick(late.now)) == late
            && Live(both, slow) && Live(both, q) && slow != q
  {
    var late := s.(now := s.calls[slow].pc.since + STALE_IN_PROGRESS_MS + 1);
    CrashedClaim(late, q, ttlHours);
    var row := s.table.row.value;
    RunSteps(late, Arrive(q, row.hash, ttlHours), Look(q), Judge(q));
    RunSteps(Run(late, [Arrive(q, row.hash, ttlHours), Look(q), Judge(q)]), DeleteStale(q), Claim(q), Tick(late.now));
  }
}
