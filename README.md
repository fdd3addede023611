# eat-n-split: the friend / balance / selection state machine

The application keeps a list of friends, each with a running balance, lets the
user add a friend, select one, and split a bill with the selected friend. This
project models the state-transition logic of `src/App.jsx` and proves what the
handlers promise. Rendering is not modelled.

- `FriendRegistry` — the `Friend` record and the `App` component's state cells
  (`friends`, `selectedFriend`, `showAddFriend`) as the class `App`. Its four
  handlers (addFriend, selectFriend, splitBill, the add-form button) are methods.
  The three list and selection handlers assign the value of a pure function
  (`Append`, `Toggle` or `ApplyDelta`); the add-form button negates its flag. `App.Valid()` says that ids are unique and that the selection
  names a listed friend. Every method keeps it, given its stated conditions.
- `AddFriend` — the `FormAddFriend` component as the class `AddFriendForm`
  (fields `name`, `image`). `NewFriend` holds the presence check and builds the
  record. `ImageFor` builds the `${image}?=${id}` avatar URL.
- `BillSplit` — the `FormSplitBill` component as the class `SplitBillForm`
  (fields `bill`, `paidByUser`, `whoIsPaying`). `PaidByFriend` derives the
  friend's share. `AcceptPaidByUser` is the overpayment guard. `SubmitDelta`
  holds the submit guard and the delta rule.
- `BalanceStatus` — the balance paragraphs of `Friend`. `StatusLines` keeps the
  three independent sign tests as written. `Classify` is the reference
  classification, and `ExactlyOneLine` connects the two.
- `Wrappers` — `Option`, which stands for `null` and for the empty-string
  placeholders.

Representation choices:
- Ids are strings. The seed friends' numeric ids are written in decimal.
- An unset numeric field (`""`) is 0. The source's comparisons treat it that way too:
  `amount > ""` compares with 0, and `!bill` holds for both.
- `whoIsPaying` is a two-valued datatype, because the select offers only `"user"` and `"friend"`.
- `crypto.randomUUID()` becomes the `id` parameter of `AddFriendForm.HandleSubmit`.
  Its precondition says the id is not yet in the list, which is what the generator is relied on for.
- `App.SplitBill` and `SplitBillForm.HandleSubmit` require a selection.
  `FormSplitBill` is rendered only under `selectedFriend &&` (`src/App.jsx:69-75`),
  and `splitBill` reads `selectedFriend.id`.

Behaviour of the code worth noting:
- A split whose id is in no record changes nothing (`ApplyDeltaAbsent`). The code raises no not-found error.
- After a split, `selectedFriend` still holds the record as it was when it was clicked.
  `App.SplitBill` keeps that snapshot unchanged.
- The overpayment guard runs only when the user's share is entered. Lowering the bill
  afterwards can make the friend's share negative (`LoweringBillAfterShare`).
  Negative shares are accepted (`AcceptPaidByUser`).

## Model

| member | source | states |
|---|---|---|
| FriendRegistry.InitialFriends | src/App.jsx:3-22 | the body is the seed data of lines 3-22 (ids as decimal strings); the ensures give three records with unique ids, which the constructor's `Valid()` needs |
| FriendRegistry.IsSelected | src/App.jsx:96 | a friend is shown as selected when the selection carries its id; the friend just selected is shown selected, and nothing is shown selected without a selection |
| FriendRegistry.Append | src/App.jsx:30 | the list grows by one; the old list is the unchanged prefix, the new friend is last; the ids are the old ones plus the new one |
| FriendRegistry.AppendUnique | src/App.jsx:29-32 | after an append the ids are unique exactly when they were before and the new id was fresh |
| FriendRegistry.Toggle | src/App.jsx:35 | no selection exactly when the current one had the friend's id, otherwise that friend; the friend's shown-as-selected state flips |
| FriendRegistry.ToggleTwice | src/App.jsx:34-37 | selecting the same friend twice returns to no selection, unless it was selected at the start, in which case it is selected again |
| FriendRegistry.AtMostOneSelected | src/App.jsx:96 | with unique ids at most one listed friend is shown as selected |
| FriendRegistry.Adjust | src/App.jsx:42-48 | the record copy: id, name and image kept; the balance grows by the value exactly when the id is the selected one |
| FriendRegistry.ApplyDelta | src/App.jsx:41-48 | length kept; id, name and image of every record kept; the balance grows by the value exactly where the id matches the selection; every other record is copied unchanged |
| FriendRegistry.ApplyDeltaKeepsIds | src/App.jsx:41-48 | a split keeps the set of ids, and keeps them unique exactly when they were |
| FriendRegistry.ApplyDeltaTotal | src/App.jsx:39-51 | the balance total moves by the value times the number of records with the selected id |
| FriendRegistry.UniqueOccurrence | src/App.jsx:42 | with unique ids a listed id matches exactly one record |
| FriendRegistry.SplitBillTotal | src/App.jsx:39-51 | with unique ids and a listed selection the total moves by exactly the value |
| FriendRegistry.ApplyDeltaAbsent | src/App.jsx:42-44 | a selection id that is in no record leaves the list unchanged |
| FriendRegistry.ApplyDeltaAdditive | src/App.jsx:47 | two splits on the same selection equal one split by their sum |
| FriendRegistry.ApplyDeltaZero | src/App.jsx:47 | a zero split leaves the list unchanged |
| FriendRegistry.SplitBillExample | src/App.jsx:39-51 | A at 5 and B at -3, +10 on A: A at 15, B still -3 |
| FriendRegistry.App.constructor | src/App.jsx:25-27 | add form hidden, the seed friends, no selection; the invariant holds |
| FriendRegistry.App.AddFriend | src/App.jsx:29-32 | friends become the append of the new friend, the add form closes, the selection is kept; the invariant survives a fresh id |
| FriendRegistry.App.SelectFriend | src/App.jsx:34-37 | the selection becomes the toggle on the friend, the add form closes, friends unchanged; the invariant survives selecting a listed friend |
| FriendRegistry.App.ToggleAddFriend | src/App.jsx:64 | the add-form flag flips, nothing else changes |
| FriendRegistry.App.SplitBill | src/App.jsx:39-51 | friends become the split on the selected id; selection snapshot and add-form flag kept; the invariant is kept and the total moves by the value |
| AddFriend.ImageFor | src/App.jsx:145 | the URL is the template, then "?=", then the id |
| AddFriend.ImageForInjective | src/App.jsx:145 | under one template distinct ids give distinct URLs |
| AddFriend.NewFriend | src/App.jsx:139-147 | no record exactly when the name or the image is empty; otherwise the given id and name, the id-tagged image, balance 0 |
| AddFriend.AddFriendForm.constructor | src/App.jsx:132-133 | empty name, default avatar template |
| AddFriend.AddFriendForm.SetName | src/App.jsx:160 | the name becomes the entered text |
| AddFriend.AddFriendForm.SetImage | src/App.jsx:167 | the image becomes the entered text |
| AddFriend.AddFriendForm.HandleSubmit | src/App.jsx:135-153 | with an empty field nothing changes; otherwise the new friend is appended last with balance 0, the add form closes, both fields reset; the invariant is kept |
| BillSplit.PaidByFriend | src/App.jsx:179 | absent exactly while the bill is unset; otherwise the two shares add up to the bill |
| BillSplit.AcceptPaidByUser | src/App.jsx:182-185 | the amount is taken exactly when it does not exceed the bill (or equals the old share); otherwise the old share is kept; a share within the bill stays within it |
| BillSplit.ShareNotNegative | src/App.jsx:179-185 | while the user's share is within the bill the friend's share is not negative |
| BillSplit.CanSubmit | src/App.jsx:190 | the guard passes when both the bill and the user's share are set and non-zero; then the friend's share is defined |
| BillSplit.SubmitDelta | src/App.jsx:190-192 | no delta exactly when the bill or the user's share is 0 or unset; the user paying gives the friend's share, the friend paying gives minus the user's share |
| BillSplit.PayerDifference | src/App.jsx:192 | the two payers' deltas differ by exactly the bill |
| BillSplit.SubmitDeltaExamples | src/App.jsx:190-192 | bill 100, share 30: +70 or -30; an unset bill or share gives nothing |
| BillSplit.OverpaymentExamples | src/App.jsx:184 | bill 50: entering 80 keeps the previous share, entering 20 takes it |
| BillSplit.LoweringBillAfterShare | src/App.jsx:179-185 | share 80 taken under bill 100; the bill lowered to 50 leaves a friend's share of -30 |
| BillSplit.SplitBillForm.constructor | src/App.jsx:177-180 | bill and share unset, the user pays |
| BillSplit.SplitBillForm.SetBill | src/App.jsx:203 | the bill becomes the entered value, nothing else changes |
| BillSplit.SplitBillForm.HandlePaidByUser | src/App.jsx:182-185 | the share becomes the guarded amount; a share within the bill stays within it |
| BillSplit.SplitBillForm.SetWhoIsPaying | src/App.jsx:215 | the payer becomes the selected option |
| BillSplit.SplitBillForm.HandleSubmit | src/App.jsx:187-193 | friends are unchanged when the guard fails; otherwise they become the split on the selected id by the submitted delta (bill minus share when the user pays, minus the share when the friend pays); selection, flag and invariant kept |
| BalanceStatus.StatusLines | src/App.jsx:104-114 | the paragraphs as written, one per independent sign test in render order; each rendered paragraph appears only under its own sign |
| BalanceStatus.Classify | src/App.jsx:104-114 | "you owe" exactly for a negative balance, "owes you" exactly for a positive one, "even" exactly for zero; amounts are the absolute value |
| BalanceStatus.ExactlyOneLine | src/App.jsx:104-114 | the three independent sign tests render exactly one paragraph, the classified one |
| BalanceStatus.FriendStatus | src/App.jsx:95-114 | the line shown for a friend is the single rendered paragraph |

## Left out

- Rendering: JSX, CSS classes, labels, button captions and the disabled friend-share field are not modelled.
- `e.preventDefault()` and React event objects are browser plumbing.
- `crypto.randomUUID()` is a foreign call. Its result is a parameter, and its freshness is a precondition.
- String-to-number coercion (`Number(...)`, unary `+`) and `NaN` are not modelled. Numeric fields are integers, and 0 means unset.
- Balances are integers, not IEEE floats. Fractional amounts are not modelled.
- React's mounting and unmounting of the two forms is not modelled. `FormSplitBill` remounts on a new `key` (line 73) and unmounts when the selection is cleared (line 69); `FormAddFriend` unmounts when `showAddFriend` becomes false (line 62). Each form object stands for one mounted form: closing a form discards it, and reopening it is a new object, starting from its constructor's state. `AddFriendForm.HandleSubmit` therefore has no condition on `showAddFriend`.
- `useState` scheduling and updater batching are not modelled: each handler is one atomic transition.
- `InitialFriends`: the body is the seed data; its ensures state only that it has three records with unique ids, which the constructor's `Valid()` needs.
- The name in the balance messages is not modelled. `Status` carries only the kind and the amount.
