/**
 * The balance line of the `Friend` component. The source renders three
 * independent conditional paragraphs, one per sign test; this module keeps
 * them as written and proves that exactly one of them appears.
 */
module BalanceStatus {
  import opened FriendRegistry

  /** "You owe {name} {amount}$", "{name} owes you {amount}$", "You and {name} are even". */
  datatype Status = YouOwe(amount: nat) | OwesYou(amount: nat) | Even

  /** The paragraphs rendered for `balance`, in order: `balance < 0 &&`, `balance > 0 &&`, `balance == 0 &&`. */
  function StatusLines(balance: int): (r: seq<Status>)
    ensures forall i :: 0 <= i < |r| ==>
      (r[i].YouOwe? ==> balance < 0) && (r[i].OwesYou? ==> balance > 0) && (r[i].Even? ==> balance == 0)
  {
    (if balance < 0 then [YouOwe(-balance)] else [])
    + (if balance > 0 then [OwesYou(balance)] else [])
    + (if balance == 0 then [Even] else [])
  }

  /** The classification by sign, amounts shown as absolute values. */
  function Classify(balance: int): (r: Status)
    ensures r.YouOwe? <==> balance < 0
    ensures r.OwesYou? <==> balance > 0
    ensures r.Even? <==> balance == 0
    ensures !r.Even? ==> r.amount > 0 && (r.amount == balance || r.amount == -balance)
  {
    if balance < 0 then YouOwe(-balance)
    else if balance > 0 then OwesYou(balance)
    else Even
  }

  /** For every balance exactly one paragraph is rendered, and it is the sign's classification. */
  lemma ExactlyOneLine(balance: int)
    ensures StatusLines(balance) == [Classify(balance)]
  {
  }

  /** The line shown for a friend. */
  function FriendStatus(f: Friend): (r: Status)
    ensures StatusLines(f.balance) == [r]
  {
    ExactlyOneLine(f.balance);
    Classify(f.balance)
  }
}
