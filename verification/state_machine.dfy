/** Subscription statuses and the table of legal moves (packages/billing/src/state-machine.ts). */
module StateMachine {
  import opened Basics

  datatype Status =
    | INCOMPLETE | TRIALING | ACTIVE | PAST_DUE | GRACE_PERIOD
    | PAUSED | UNPAID | CANCELED | EXPIRED

  function Transitions(from: Status): set<Status> {
    match from
    case INCOMPLETE => {ACTIVE, CANCELED, EXPIRED}
    case TRIALING => {ACTIVE, PAST_DUE, PAUSED, CANCELED, EXPIRED}
    case ACTIVE => {ACTIVE, PAST_DUE, PAUSED, CANCELED, EXPIRED}
    case PAST_DUE => {GRACE_PERIOD, ACTIVE, UNPAID, PAUSED, CANCELED}
    case GRACE_PERIOD => {ACTIVE, UNPAID, PAUSED, CANCELED}
    case PAUSED => {ACTIVE, CANCELED, EXPIRED}
    case UNPAID => {ACTIVE, CANCELED, EXPIRED}
    case CANCELED => {}
    case EXPIRED => {}
  }

  predicate CanTransition(from: Status, to: Status) { to in Transitions(from) }

  predicate IsTerminal(s: Status) { s in {CANCELED, EXPIRED} }
}
