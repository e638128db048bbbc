/** What can be read off a circle's event log: tallies, the published schedule, the round counter. */
module Journal {
  import opened Storage

  /** What to count, or to add up, over a log. */
  datatype Query =
    | Paid(p: Account, r: Account)     // contributions made by p to r
    | PaidTo(r: Account)               // contributions made by anyone to r
    | Covered(p: Account, r: Account)  // full deductions from p's deposit in favour of r
    | Missed(p: Account, r: Account)   // defaults of p towards r
    | Docked(p: Account, r: Account)   // deductions, full or partial, from p's deposit for r
    | PaidBy(p: Account)
    | CoveredFor(p: Account)
    | MissedBy(p: Account)
    | Added(p: Account)                // amounts p paid into their deposit
    | Returned(p: Account)             // amounts of deposit p got back
    | Taken(p: Account)                // amounts deducted from p's deposit
    | RoundStarts                      // rounds announced, the first one included

  function If(b: bool): nat {
    if b then 1 else 0
  }

  function Weight(e: Event, q: Query): nat {
    match e
    case ContributionMade(p, r, _) => If(q == Paid(p, r) || q == PaidTo(r) || q == PaidBy(p))
    case DepositDeducted(p, r, amount, full) =>
      if q == Taken(p) then amount else If(q == Docked(p, r) || (full && (q == Covered(p, r) || q == CoveredFor(p))))
    case ParticipantDefaulted(r, p) => If(q == Missed(p, r) || q == MissedBy(p))
    case SecurityDepositContribution(p, amount) => if q == Added(p) then amount else 0
    case SecurityDepositClaimed(p, amount) => if q == Returned(p) then amount else 0
    case RoscaStarted(_, _, _, _) => If(q == RoundStarts)
    case NewRoundStarted(_, _) => If(q == RoundStarts)
    case _ => 0
  }

  ghost function Tally(log: seq<Event>, q: Query): nat {
    if log == [] then 0 else Tally(log[..|log| - 1], q) + Weight(log[|log| - 1], q)
  }

  /** The rounds of the last `RoscaStarted`; empty before the start. */
  ghost function Published(log: seq<Event>): seq<RoundInfo> {
    if log == [] then []
    else if log[|log| - 1].RoscaStarted? then log[|log| - 1].rounds
    else Published(log[..|log| - 1])
  }

  lemma Push(log: seq<Event>, e: Event)
    ensures forall q :: Tally(log + [e], q) == Tally(log, q) + Weight(e, q)
    ensures Published(log + [e]) == if e.RoscaStarted? then e.rounds else Published(log)
  {
    assert (log + [e])[..|log|] == log;
  }

  /** How often p is accounted for in the round that pays r. */
  ghost function Marks(log: seq<Event>, p: Account, r: Account): nat {
    Tally(log, Paid(p, r)) + Tally(log, Covered(p, r)) + Tally(log, Missed(p, r))
  }
}
