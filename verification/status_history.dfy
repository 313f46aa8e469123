/**
 * Applying a status change by compare-and-swap, and the audit rows it leaves
 * (packages/billing/src/transitions.ts).
 */
module StatusHistory {
  import opened Basics
  import opened StateMachine

  /** Rows of the transition table. Noted rows record an event that moves nothing. */
  datatype LogRow = Initial(status: Status) | Applied(from: Status, to: Status) | Noted(status: Status)

  /** The status column of one subscription and its audit rows, oldest first. */
  datatype History = History(status: Status, log: seq<LogRow>)

  /** `recordInitialStatus` on a new subscription. */
  function Begin(status: Status): History { History(status, [Initial(status)]) }

  /**
   * `applyTransition`: `from` was read by the caller at some earlier time. The
   * move must be in the table, and the row must still hold `from`.
   */
  function ApplyTransition(h: History, from: Status, to: Status): Result<History> {
    if !CanTransition(from, to) then Err(InvalidStateTransition)
    else if h.status != from then Err(InvalidStateTransition)
    else Ok(History(to, h.log + [Applied(from, to)]))
  }

  /** A row written beside a status that does not change. */
  function Note(h: History, status: Status): History {
    h.(log := h.log + [Noted(status)])
  }

  /** The status the applied rows end on, or None if they do not chain along the table. */
  function ChainEnd(log: seq<LogRow>): Option<Status> {
    if log == [] then None
    else
      var before := ChainEnd(log[..|log| - 1]);
      match log[|log| - 1]
      case Initial(status) => if |log| == 1 then Some(status) else None
      case Applied(from, to) => if before == Some(from) && CanTransition(from, to) then Some(to) else None
      case Noted(_) => before
  }

  /** The audit rows are a legal path from the initial status to the current one. */
  predicate LegalPath(h: History) { ChainEnd(h.log) == Some(h.status) }

  /** What one caller does: a late write of a status it read early, or a note. */
  datatype Write = Swap(seen: Status, to: Status) | Remark(seen: Status)

  /** A refused write rolls its transaction back and leaves the history as it was. */
  function Perform(h: History, w: Write): History {
    match w
    case Swap(seen, to) => var r := ApplyTransition(h, seen, to); if r.Ok? then r.value else h
    case Remark(seen) => Note(h, seen)
  }

  function PerformAll(h: History, ws: seq<Write>): History {
    if ws == [] then h else Perform(PerformAll(h, ws[..|ws| - 1]), ws[|ws| - 1])
  }

  lemma PerformKeepsPath(h: History, w: Write)
    requires LegalPath(h)
    ensures LegalPath(Perform(h, w))
  {
    var h' := Perform(h, w);
    assert h'.log != h.log ==> h'.log[..|h'.log| - 1] == h.log;
  }

  /**
   * Whatever the callers read and however their writes interleave, the audit
   * rows chain from the initial status along table edges to the current status.
   */
  lemma {:induction false} HistoryIsALegalPath(initial: Status, ws: seq<Write>)
    ensures LegalPath(PerformAll(Begin(initial), ws))
    decreases |ws|
  {
    if ws != [] {
      HistoryIsALegalPath(initial, ws[..|ws| - 1]);
      PerformKeepsPath(PerformAll(Begin(initial), ws[..|ws| - 1]), ws[|ws| - 1]);
    }
  }

  /** CANCELED and EXPIRED are absorbing: no run of writes leaves them. */
  lemma {:induction false} TerminalIsAbsorbing(h: History, ws: seq<Write>)
    requires IsTerminal(h.status)
    ensures PerformAll(h, ws).status == h.status
    decreases |ws|
  {
    if ws != [] { TerminalIsAbsorbing(h, ws[..|ws| - 1]); }
  }

  /** How many status moves a history has recorded. */
  function Moves(log: seq<LogRow>): nat {
    if log == [] then 0 else Moves(log[..|log| - 1]) + (if log[|log| - 1].Applied? then 1 else 0)
  }

  /**
   * INCOMPLETE and TRIALING are never entered again: a caller that read one of
   * them and still finds it when it writes has raced nobody. (The other live
   * statuses can be left and re-entered behind a reader's back.)
   */
  lemma {:induction false} NoReentry(h: History, ws: seq<Write>)
    requires h.status in {INCOMPLETE, TRIALING}
    ensures var now := PerformAll(h, ws);
            && Moves(now.log) >= Moves(h.log)
            && (now.status == h.status <==> Moves(now.log) == Moves(h.log))
            && (now.status != h.status ==> now.status !in {INCOMPLETE, TRIALING})
    decreases |ws|
  {
    hide Perform, CanTransition, Moves;
    if ws != [] {
      NoReentry(h, ws[..|ws| - 1]);
      MovesOfPerform(PerformAll(h, ws[..|ws| - 1]), ws[|ws| - 1]);
    }
  }

  /** One write either moves the status along an edge and is counted, or changes nothing. */
  lemma MovesOfPerform(h: History, w: Write)
    ensures var h' := Perform(h, w);
            || (h'.status == h.status && Moves(h'.log) == Moves(h.log))
            || (CanTransition(h.status, h'.status) && h'.status !in {INCOMPLETE, TRIALING} && Moves(h'.log) == Moves(h.log) + 1)
  {
    var h' := Perform(h, w);
    assert h'.log != h.log ==> h'.log[..|h'.log| - 1] == h.log;
  }

  /** Once a status has been written over, it takes a chain of table edges to see it again. */
  predicate Reachable(from: Status, to: Status, path: seq<Status>)
    decreases |path|
  {
    if path == [] then from == to
    else CanTransition(from, path[0]) && Reachable(path[0], to, path[1..])
  }

  ghost predicate CanReach(from: Status, to: Status) { exists path :: Reachable(from, to, path) }

  lemma {:induction false} ReachOneMore(from: Status, mid: Status, to: Status, path: seq<Status>)
    requires Reachable(from, mid, path) && CanTransition(mid, to)
    ensures Reachable(from, to, path + [to])
    decreases |path|
  {
    if path != [] {
      ReachOneMore(path[0], mid, to, path[1..]);
      assert (path + [to])[1..] == path[1..] + [to];
    } else {
      assert ([] + [to])[1..] == [];
    }
  }

  /** Every status a run of writes can produce is reachable in the table. */
  lemma {:induction false} RunsFollowTheTable(h: History, ws: seq<Write>)
    ensures CanReach(h.status, PerformAll(h, ws).status)
    decreases |ws|
  {
    if ws == [] {
      assert Reachable(h.status, h.status, []);
    } else {
      var before := PerformAll(h, ws[..|ws| - 1]);
      RunsFollowTheTable(h, ws[..|ws| - 1]);
      var path :| Reachable(h.status, before.status, path);
      var after := Perform(before, ws[|ws| - 1]);
      if after.status != before.status {
        ReachOneMore(h.status, before.status, after.status, path);
      } else {
        assert Reachable(h.status, after.status, path);
      }
    }
  }

  /** The table read by target: what a subscription can have been before it is what it is. */
  function Before(to: Status): set<Status> {
    match to
    case INCOMPLETE => {}
    case TRIALING => {}
    case ACTIVE => {INCOMPLETE, TRIALING, ACTIVE, PAST_DUE, GRACE_PERIOD, PAUSED, UNPAID}
    case PAST_DUE => {TRIALING, ACTIVE}
    case GRACE_PERIOD => {PAST_DUE}
    case PAUSED => {TRIALING, ACTIVE, PAST_DUE, GRACE_PERIOD}
    case UNPAID => {PAST_DUE, GRACE_PERIOD}
    case CANCELED => {INCOMPLETE, TRIALING, ACTIVE, PAST_DUE, GRACE_PERIOD, PAUSED, UNPAID}
    case EXPIRED => {INCOMPLETE, TRIALING, ACTIVE, PAUSED, UNPAID}
  }

  /** A write is accepted exactly when the row still holds what its writer read, and that may come before its target. */
  lemma AcceptedExactlyWhen(h: History, seen: Status, to: Status)
    ensures ApplyTransition(h, seen, to).Ok? <==> h.status == seen && seen in Before(to)
    ensures ApplyTransition(h, seen, to).Ok? ==>
              ApplyTransition(h, seen, to).value.status == to && ApplyTransition(h, seen, to).value.log == h.log + [Applied(seen, to)]
  {}
}
