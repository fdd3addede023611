/**
 * The `FormSplitBill` component: the bill, the user's share and who pays,
 * the derived share of the friend, the guard on entering the user's share,
 * and the submit handler that turns the form into one balance delta for the
 * selected friend. An empty numeric field (`""`) is modelled as 0, which is
 * how the source's comparisons and truthiness tests treat it.
 */
module BillSplit {
  import opened Wrappers
  import opened FriendRegistry

  /** The two options of the "Who is paying the bill" select (`"user"`, `"friend"`). */
  datatype WhoIsPaying = UserPays | FriendPays

  /** `paidByFriend`: absent (`""`) while the bill is unset, else what is left of the bill after the user's share. */
  function PaidByFriend(bill: int, paidByUser: int): (r: Option<int>)
    ensures r.None? <==> bill == 0
    ensures r.Some? ==> r.value + paidByUser == bill
  {
    if bill != 0 then Some(bill - paidByUser) else None
  }

  /**
   * handlePaidByUser: an entered amount above the bill is refused and the
   * previous share kept; any other amount (negative ones included) is taken.
   */
  function AcceptPaidByUser(bill: int, current: int, amount: int): (r: int)
    ensures r == amount <==> amount <= bill || amount == current
    ensures r != amount ==> r == current
    ensures current <= bill ==> r <= bill
  {
    if amount > bill then current else amount
  }

  /** While the user's share does not exceed the bill, the friend's share is not negative. */
  lemma ShareNotNegative(bill: int, current: int, amount: int)
    requires bill != 0 && current <= bill
    ensures PaidByFriend(bill, AcceptPaidByUser(bill, current, amount)).value >= 0
  {
  }

  /** The guard `!bill || !paidByUser`: submitting needs both amounts set and non-zero. */
  predicate CanSubmit(bill: int, paidByUser: int)
    ensures CanSubmit(bill, paidByUser) ==> PaidByFriend(bill, paidByUser).Some?
  {
    bill != 0 && paidByUser != 0
  }

  /**
   * The pure part of handleSubmit: nothing when the guard fails, otherwise
   * the delta `paidByFriend` when the user pays and `-paidByUser` when the friend pays.
   */
  function SubmitDelta(bill: int, paidByUser: int, who: WhoIsPaying): (r: Option<int>)
    ensures r.None? <==> !CanSubmit(bill, paidByUser)
    ensures r.Some? && who == UserPays ==> r.value + paidByUser == bill
    ensures r.Some? && who == FriendPays ==> r.value == -paidByUser
  {
    if !CanSubmit(bill, paidByUser) then None
    else if who == UserPays then PaidByFriend(bill, paidByUser)
    else Some(-paidByUser)
  }

  /** The two payers' deltas differ by exactly the bill: the friend owes their share, or the user owes what the friend fronted. */
  lemma PayerDifference(bill: int, paidByUser: int)
    requires CanSubmit(bill, paidByUser)
    ensures SubmitDelta(bill, paidByUser, UserPays).value - SubmitDelta(bill, paidByUser, FriendPays).value == bill
  {
  }

  /** Bill 100 and a user share of 30 give +70 when the user pays and -30 when the friend pays; an unset bill gives nothing. */
  lemma SubmitDeltaExamples()
    ensures SubmitDelta(100, 30, UserPays) == Some(70)
    ensures SubmitDelta(100, 30, FriendPays) == Some(-30)
    ensures SubmitDelta(0, 30, UserPays) == None
    ensures SubmitDelta(100, 0, FriendPays) == None
  {
  }

  /** With bill 50, entering 80 keeps the previous share; entering 20 takes it. */
  lemma OverpaymentExamples()
    ensures AcceptPaidByUser(50, 0, 80) == 0
    ensures AcceptPaidByUser(50, 10, 80) == 10
    ensures AcceptPaidByUser(50, 10, 20) == 20
  {
  }

  /**
   * The guard runs only when the user's share is entered: bill 100, share 80,
   * then the bill lowered to 50 leaves the friend's share at -30.
   */
  lemma LoweringBillAfterShare()
    ensures PaidByFriend(50, AcceptPaidByUser(100, 0, 80)) == Some(-30)
  {
  }

  /** The form state of `FormSplitBill` (a fresh form per selected friend). */
  class SplitBillForm {
    var bill: int
    var paidByUser: int
    var whoIsPaying: WhoIsPaying

    constructor ()
      ensures bill == 0 && paidByUser == 0 && whoIsPaying == UserPays
    {
      bill := 0;
      paidByUser := 0;
      whoIsPaying := UserPays;
    }

    /** The bill field's onChange: no check against the user's share. */
    method SetBill(value: int)
      modifies this
      ensures bill == value && paidByUser == old(paidByUser) && whoIsPaying == old(whoIsPaying)
    {
      bill := value;
    }

    /** handlePaidByUser. */
    method HandlePaidByUser(amount: int)
      modifies this
      ensures paidByUser == AcceptPaidByUser(old(bill), old(paidByUser), amount)
      ensures bill == old(bill) && whoIsPaying == old(whoIsPaying)
      ensures old(paidByUser) <= bill ==> paidByUser <= bill
    {
      paidByUser := AcceptPaidByUser(bill, paidByUser, amount);
    }

    /** The select's onChange. */
    method SetWhoIsPaying(value: WhoIsPaying)
      modifies this
      ensures whoIsPaying == value && bill == old(bill) && paidByUser == old(paidByUser)
    {
      whoIsPaying := value;
    }

    /**
     * handleSubmit: when the guard fails no balance changes; otherwise the
     * selected friend's balance moves by the delta for the current payer.
     * The form is rendered only while a friend is selected.
     */
    method HandleSubmit(app: App)
      requires app.selectedFriend.Some?
      modifies app
      ensures app.selectedFriend == old(app.selectedFriend) && app.showAddFriend == old(app.showAddFriend)
      ensures app.friends == match SubmitDelta(bill, paidByUser, whoIsPaying)
        case None => old(app.friends)
        case Some(delta) => ApplyDelta(old(app.friends), old(app.selectedFriend).value.id, delta)
      ensures old(app.Valid()) ==> app.Valid()
    {
      var delta := SubmitDelta(bill, paidByUser, whoIsPaying);
      if delta.Some? {
        app.SplitBill(delta.value);
      }
    }
  }
}
