/**
 * The applicant card of the employer dashboard
 * (src/components/dashboard/ApplicationItem.tsx): the review workflow as the
 * buttons it offers, and the displayed applicant name.
 */
module ApplicationItem {
  import opened Remote
  import opened Domain

  /**
   * The statuses the card's buttons move an application to, in button order.
   * Without an `onUpdateStatus` callback no button is rendered at all.
   */
  function OfferedTransitions(status: Status, hasCallback: bool): (r: seq<Status>)
    ensures |r| <= 2
    ensures Pending !in r
  {
    if !hasCallback then []
    else
      match status
      case Pending => [Reviewing, Rejected]
      case Reviewing => [Accepted, Rejected]
      case Accepted => []
      case Rejected => []
  }

  /** A button on the card moves an application from `from` to `to`. */
  predicate Offers(from: Status, to: Status)
  {
    to in OfferedTransitions(from, true)
  }

  /** A status is terminal when the card offers no button for it. */
  predicate IsTerminal(s: Status)
  {
    OfferedTransitions(s, true) == []
  }

  /** The workflow stage: pending, then reviewing, then a decision. */
  function Rank(s: Status): (r: nat)
    ensures r <= 2
  {
    match s
    case Pending => 0
    case Reviewing => 1
    case Accepted => 2
    case Rejected => 2
  }

  /** The transition table, read both ways: exactly these moves are offered. */
  lemma OffersExactly(from: Status, to: Status)
    ensures Offers(from, to) <==>
      || (from == Pending && (to == Reviewing || to == Rejected))
      || (from == Reviewing && (to == Accepted || to == Rejected))
  {
  }

  /** Exactly the two decisions are terminal. */
  lemma TerminalIffDecided(s: Status)
    ensures IsTerminal(s) <==> (s == Accepted || s == Rejected)
  {
  }

  /** Without a callback the card offers nothing, whatever the status. */
  lemma NoCallbackNoTransitions(s: Status)
    ensures OfferedTransitions(s, false) == []
  {
  }

  /** Every offered move goes strictly forward in the workflow. */
  lemma OffersIncreaseRank(from: Status, to: Status)
    requires Offers(from, to)
    ensures Rank(from) < Rank(to)
  {
  }

  /** A sequence of statuses in which each step is a button the card offers. */
  ghost predicate IsOfferedChain(ss: seq<Status>)
  {
    forall i :: 0 <= i < |ss| - 1 ==> Offers(ss[i], ss[i + 1])
  }

  /** Along a chain of offered moves the rank grows by at least one per step. */
  lemma {:induction false} ChainRankGrows(ss: seq<Status>, i: nat, j: nat)
    requires IsOfferedChain(ss)
    requires i <= j < |ss|
    ensures Rank(ss[i]) + (j - i) <= Rank(ss[j])
    decreases j - i
  {
    if i < j {
      ChainRankGrows(ss, i, j - 1);
      OffersIncreaseRank(ss[j - 1], ss[j]);
    }
  }

  /** Along a chain the rank strictly increases, so `pending` is never re-entered
      and no chain has more than three statuses. */
  lemma ChainIsStrictlyForward(ss: seq<Status>)
    requires IsOfferedChain(ss)
    ensures forall i, j :: 0 <= i < j < |ss| ==> Rank(ss[i]) < Rank(ss[j])
    ensures forall k :: 0 < k < |ss| ==> ss[k] != Pending
    ensures |ss| <= 3
  {
    forall i, j | 0 <= i < j < |ss| ensures Rank(ss[i]) < Rank(ss[j]) {
      ChainRankGrows(ss, i, j);
    }
    forall k | 0 < k < |ss| ensures ss[k] != Pending {
      ChainRankGrows(ss, 0, k);
    }
    if |ss| > 3 {
      ChainRankGrows(ss, 0, 3);
    }
  }

  /** The name shown on the card: `full_name`, or 'Applicant' when there is no
      profile or its name is empty (JavaScript `||` treats "" as false). */
  function DisplayName(applicant: Option<Profile>): (r: string)
    ensures r != []
    ensures applicant.Some? && applicant.value.full_name != [] ==> r == applicant.value.full_name
    ensures applicant.None? || applicant.value.full_name == [] ==> r == "Applicant"
  {
    if applicant.Some? && applicant.value.full_name != "" then applicant.value.full_name else "Applicant"
  }
}
