/**
  `CollectionsAgent`: accounts prioritised by outstanding amount (a stable sort, largest
  first, a missing amount counting as 0), reminder drafting, and action routing.
*/
module Collections {
  import opened Wrappers
  import StableSort

  /** An account record; `fields` stands for every key other than "outstanding". */
  datatype Account = Account(fields: map<string, string>, outstanding: Option<real>)

  /** `a.get("outstanding", 0)`. */
  function Outstanding(a: Account): real {
    a.outstanding.GetOr(0.0)
  }

  datatype Reply =
    | Prioritized(count: nat, priorityList: seq<Account>)
    | Reminder(recipient: Option<string>, message: string)
    | Failure(message: string)

  /** `_prioritize_accounts`; an absent "accounts" parameter is the empty list. */
  function Prioritize(accounts: Option<seq<Account>>): (r: Reply)
    ensures r.Prioritized?
    ensures r.count == |r.priorityList| == |accounts.GetOr([])|
  {
    var sorted := StableSort.SortDesc(accounts.GetOr([]), Outstanding);
    Prioritized(|sorted|, sorted)
  }

  /** The priority list holds exactly the input accounts, each as often as in the input. */
  lemma PrioritizePermutation(accounts: seq<Account>)
    ensures multiset(Prioritize(Some(accounts)).priorityList) == multiset(accounts)
  {
    StableSort.SortDescPerm(accounts, Outstanding);
  }

  /** The priority list is ordered by outstanding amount, largest first, missing amounts as 0. */
  lemma PrioritizeOrdered(accounts: seq<Account>)
    ensures var l := Prioritize(Some(accounts)).priorityList;
      forall i, j :: 0 <= i < j < |l| ==> Outstanding(l[i]) >= Outstanding(l[j])
  {
    StableSort.SortDescSorted(accounts, Outstanding);
  }

  /** Accounts with equal outstanding amounts keep their input order. */
  lemma PrioritizeStable(accounts: seq<Account>, amount: real)
    ensures StableSort.WithKey(Prioritize(Some(accounts)).priorityList, Outstanding, amount)
         == StableSort.WithKey(accounts, Outstanding, amount)
  {
    StableSort.SortDescStable(accounts, Outstanding, amount);
  }

  /** An account without an amount ranks with the zero-balance accounts, below every positive one. */
  lemma MissingRanksAsZero(accounts: seq<Account>, i: nat, j: nat)
    requires var l := Prioritize(Some(accounts)).priorityList;
      i < |l| && j < |l| && l[i].outstanding.None? && Outstanding(l[j]) > 0.0
    ensures j < i
  {
    PrioritizeOrdered(accounts);
  }

  /** `str(amount)` for the reminder text: the amount's text, or "None" when absent. */
  function AmountText(amount: Option<string>): string {
    amount.GetOr("None")
  }

  /** `_draft_reminder`: echoes the recipient and names the amount. */
  function DraftReminder(recipient: Option<string>, amount: Option<string>): (r: Reply)
    ensures r.Reminder? && r.recipient == recipient
    ensures |r.message| >= |"Reminder drafted for "|
    ensures r.message[..|"Reminder drafted for "|] == "Reminder drafted for "
    ensures r.message[|"Reminder drafted for "|..] == AmountText(amount)
  {
    Reminder(recipient, "Reminder drafted for " + AmountText(amount))
  }

  /** `execute`: the two actions, and an error naming any other action. */
  function Execute(action: Option<string>, accounts: Option<seq<Account>>, recipient: Option<string>, amount: Option<string>): (r: Reply)
    ensures action == Some("prioritize_accounts") ==> r == Prioritize(accounts)
    ensures action == Some("draft_reminder") ==> r == DraftReminder(recipient, amount)
    ensures action != Some("prioritize_accounts") && action != Some("draft_reminder") ==>
      r == Failure("Unknown action '" + (if action.Some? then action.value else "None") + "' for CollectionsAgent")
  {
    if action == Some("prioritize_accounts") then Prioritize(accounts)
    else if action == Some("draft_reminder") then DraftReminder(recipient, amount)
    else Failure("Unknown action '" + (if action.Some? then action.value else "None") + "' for CollectionsAgent")
  }
}
