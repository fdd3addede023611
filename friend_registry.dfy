/**
 * The state held by the `App` component of src/App.jsx: the ordered list of
 * friends, the selected friend (a snapshot of the record that was clicked, or
 * nothing) and the visibility flag of the add-friend form. Each handler of the
 * component is one atomic transition of the class `App`; the new value of each
 * state cell is computed by a pure function over `seq<Friend>`.
 */
module FriendRegistry {
  import opened Wrappers

  /** One friend record: `{ id, name, image, balance }`. */
  datatype Friend = Friend(id: string, name: string, image: string, balance: int)

  /** Some record of `fs` carries `id`. */
  predicate HasId(fs: seq<Friend>, id: string) {
    exists k :: 0 <= k < |fs| && fs[k].id == id
  }

  /** No two records of `fs` share an id. */
  predicate UniqueIds(fs: seq<Friend>) {
    forall i, j :: 0 <= i < |fs| && 0 <= j < |fs| && fs[i].id == fs[j].id ==> i == j
  }

  /** `selectedFriend?.id === friend.id`: whether `f` is shown as selected. */
  function IsSelected(sel: Option<Friend>, f: Friend): (r: bool)
    ensures sel == Some(f) ==> r
    ensures r ==> sel.Some?
  {
    sel.Some? && sel.value.id == f.id
  }

  /** The selection is empty or names a friend of the list. */
  predicate SelectionKnown(fs: seq<Friend>, sel: Option<Friend>) {
    sel.Some? ==> HasId(fs, sel.value.id)
  }

  /** Sum of all balances. */
  function Total(fs: seq<Friend>): int {
    if fs == [] then 0 else fs[0].balance + Total(fs[1..])
  }

  /** How many records of `fs` carry `id`. */
  function Occurrences(fs: seq<Friend>, id: string): nat {
    if fs == [] then 0 else (if fs[0].id == id then 1 else 0) + Occurrences(fs[1..], id)
  }

  /** The seed list of the component. */
  function InitialFriends(): (r: seq<Friend>)
    ensures |r| == 3 && UniqueIds(r)
  {
    [ Friend("118836", "Umer", "https://i.pravatar.cc/48?u=118836", -7),
      Friend("933372", "Alisa", "https://i.pravatar.cc/48?u=933372", 20),
      Friend("499476", "Daud", "https://i.pravatar.cc/48?u=499476", 0) ]
  }

  /** The spread-append `[...friends, friend]` of addFriend. */
  function Append(fs: seq<Friend>, f: Friend): (r: seq<Friend>)
    ensures |r| == |fs| + 1
    ensures r[..|fs|] == fs && r[|fs|] == f
    ensures forall id :: HasId(r, id) <==> HasId(fs, id) || id == f.id
  {
    var r := fs + [f];
    assert forall id :: HasId(fs, id) ==> HasId(r, id) by {
      forall id | HasId(fs, id) ensures HasId(r, id) {
        var k :| 0 <= k < |fs| && fs[k].id == id;
        assert r[k] == fs[k];
      }
    }
    assert HasId(r, f.id) by { assert r[|fs|] == f; }
    r
  }

  /** The updater `cur?.id === friend.id ? null : friend` of selectFriend. */
  function Toggle(cur: Option<Friend>, f: Friend): (r: Option<Friend>)
    ensures r == None <==> IsSelected(cur, f)
    ensures r != None ==> r == Some(f)
    ensures IsSelected(r, f) <==> !IsSelected(cur, f)
  {
    if IsSelected(cur, f) then None else Some(f)
  }

  /** The record copy `{ ...friend, balance: friend.balance + value }` applied when the id matches. */
  function Adjust(f: Friend, sel: string, value: int): (r: Friend)
    ensures r.id == f.id && r.name == f.name && r.image == f.image
    ensures r.balance == f.balance + (if f.id == sel then value else 0)
  {
    if f.id != sel then f else f.(balance := f.balance + value)
  }

  /** The `friends.map(...)` of splitBill: add `value` to every record whose id is `sel`. */
  function ApplyDelta(fs: seq<Friend>, sel: string, value: int): (r: seq<Friend>)
    ensures |r| == |fs|
    ensures forall k :: 0 <= k < |fs| ==>
      r[k].id == fs[k].id && r[k].name == fs[k].name && r[k].image == fs[k].image
    ensures forall k :: 0 <= k < |fs| ==>
      r[k].balance == fs[k].balance + (if fs[k].id == sel then value else 0)
    ensures forall k :: 0 <= k < |fs| && fs[k].id != sel ==> r[k] == fs[k]
  {
    if fs == [] then [] else [Adjust(fs[0], sel, value)] + ApplyDelta(fs[1..], sel, value)
  }

  lemma ApplyDeltaTail(fs: seq<Friend>, sel: string, value: int)
    requires fs != []
    ensures ApplyDelta(fs, sel, value)[1..] == ApplyDelta(fs[1..], sel, value)
  {
  }

  /** splitBill keeps the set of ids, so a list with unique ids keeps them and a known selection stays known. */
  lemma ApplyDeltaKeepsIds(fs: seq<Friend>, sel: string, value: int, id: string)
    ensures HasId(ApplyDelta(fs, sel, value), id) <==> HasId(fs, id)
    ensures UniqueIds(ApplyDelta(fs, sel, value)) <==> UniqueIds(fs)
  {
    var r := ApplyDelta(fs, sel, value);
    if HasId(fs, id) {
      var k :| 0 <= k < |fs| && fs[k].id == id;
      assert r[k].id == id;
    }
    if HasId(r, id) {
      var k :| 0 <= k < |r| && r[k].id == id;
      assert fs[k].id == id;
    }
  }

  /** The balance total moves by `value` once per record carrying `sel`. */
  lemma {:induction false} ApplyDeltaTotal(fs: seq<Friend>, sel: string, value: int)
    ensures Total(ApplyDelta(fs, sel, value)) == Total(fs) + value * Occurrences(fs, sel)
  {
    if fs != [] {
      ApplyDeltaTail(fs, sel, value);
      ApplyDeltaTotal(fs[1..], sel, value);
    }
  }

  /** Dropping the head of a list keeps only ids that the list has. */
  lemma TailIds(fs: seq<Friend>, id: string)
    requires fs != []
    ensures HasId(fs, id) <==> fs[0].id == id || HasId(fs[1..], id)
  {
    if HasId(fs[1..], id) {
      var j :| 0 <= j < |fs[1..]| && fs[1..][j].id == id;
      assert fs[j + 1].id == id;
    }
    if HasId(fs, id) && fs[0].id != id {
      var j :| 0 <= j < |fs| && fs[j].id == id;
      assert fs[1..][j - 1].id == id;
    }
  }

  /** A list without `id` has no record carrying it. */
  lemma {:induction false} AbsentOccurrences(fs: seq<Friend>, id: string)
    requires !HasId(fs, id)
    ensures Occurrences(fs, id) == 0
  {
    if fs != [] {
      TailIds(fs, id);
      AbsentOccurrences(fs[1..], id);
    }
  }

  /** With unique ids, an id of the list occurs exactly once. */
  lemma {:induction false} UniqueOccurrence(fs: seq<Friend>, id: string)
    requires UniqueIds(fs) && HasId(fs, id)
    ensures Occurrences(fs, id) == 1
  {
    TailIds(fs, id);
    assert UniqueIds(fs[1..]) by {
      forall i, j | 0 <= i < |fs| - 1 && 0 <= j < |fs| - 1 && fs[1..][i].id == fs[1..][j].id
        ensures i == j
      {
        assert fs[i + 1].id == fs[j + 1].id;
      }
    }
    if fs[0].id == id {
      assert !HasId(fs[1..], id) by {
        forall j | 0 <= j < |fs| - 1 ensures fs[1..][j].id != id {
          assert fs[1..][j] == fs[j + 1];
        }
      }
      AbsentOccurrences(fs[1..], id);
    } else {
      UniqueOccurrence(fs[1..], id);
    }
  }

  /** splitBill on a well-formed list with a known selection moves the total by exactly `value`. */
  lemma SplitBillTotal(fs: seq<Friend>, sel: string, value: int)
    requires UniqueIds(fs) && HasId(fs, sel)
    ensures Total(ApplyDelta(fs, sel, value)) == Total(fs) + value
  {
    ApplyDeltaTotal(fs, sel, value);
    UniqueOccurrence(fs, sel);
  }

  /** With no record carrying `sel`, splitBill silently changes nothing (there is no not-found error). */
  lemma ApplyDeltaAbsent(fs: seq<Friend>, sel: string, value: int)
    requires !HasId(fs, sel)
    ensures ApplyDelta(fs, sel, value) == fs
  {
    var r := ApplyDelta(fs, sel, value);
    forall k | 0 <= k < |fs| ensures r[k] == fs[k] {
      assert fs[k].id != sel;
    }
  }

  /** Two splits on the same selection add up. */
  lemma ApplyDeltaAdditive(fs: seq<Friend>, sel: string, a: int, b: int)
    ensures ApplyDelta(ApplyDelta(fs, sel, a), sel, b) == ApplyDelta(fs, sel, a + b)
  {
    var r0 := ApplyDelta(fs, sel, a);
    var r1 := ApplyDelta(r0, sel, b);
    var r2 := ApplyDelta(fs, sel, a + b);
    forall k | 0 <= k < |fs| ensures r1[k] == r2[k] {
      assert r0[k].id == fs[k].id;
      assert r1[k].id == r2[k].id && r1[k].name == r2[k].name && r1[k].image == r2[k].image;
      assert r1[k].balance == r2[k].balance;
    }
  }

  /** A zero split is the identity. */
  lemma ApplyDeltaZero(fs: seq<Friend>, sel: string)
    ensures ApplyDelta(fs, sel, 0) == fs
  {
    var z := ApplyDelta(fs, sel, 0);
    forall k | 0 <= k < |fs| ensures z[k] == fs[k] {
      assert z[k].id == fs[k].id && z[k].name == fs[k].name && z[k].image == fs[k].image;
      assert z[k].balance == fs[k].balance;
    }
  }

  /** Appending keeps ids unique exactly when the new id is fresh. */
  lemma AppendUnique(fs: seq<Friend>, f: Friend)
    ensures UniqueIds(Append(fs, f)) <==> UniqueIds(fs) && !HasId(fs, f.id)
  {
    var r := Append(fs, f);
    var n := |fs|;
    assert forall i :: 0 <= i < n ==> r[i] == fs[i];
    if UniqueIds(r) {
      forall i | 0 <= i < n ensures fs[i].id != f.id {
        assert r[i].id == fs[i].id && r[n].id == f.id;
      }
    }
  }

  /** Selecting the same friend twice: from any other selection the result is no selection. */
  lemma ToggleTwice(cur: Option<Friend>, f: Friend)
    ensures Toggle(Toggle(cur, f), f) == if IsSelected(cur, f) then Some(f) else None
    ensures Toggle(Toggle(None, f), f) == None
  {
  }

  /** With unique ids, at most one friend of the list is shown as selected. */
  lemma AtMostOneSelected(fs: seq<Friend>, sel: Option<Friend>, i: int, j: int)
    requires UniqueIds(fs) && 0 <= i < |fs| && 0 <= j < |fs|
    requires IsSelected(sel, fs[i]) && IsSelected(sel, fs[j])
    ensures i == j
  {
  }

  /** Friends A (balance 5) and B (balance -3); a split of +10 on A gives 15 and leaves B at -3. */
  lemma SplitBillExample()
    ensures ApplyDelta([Friend("a", "A", "ia", 5), Friend("b", "B", "ib", -3)], "a", 10)
         == [Friend("a", "A", "ia", 15), Friend("b", "B", "ib", -3)]
  {
    var r := ApplyDelta([Friend("a", "A", "ia", 5), Friend("b", "B", "ib", -3)], "a", 10);
    assert r[0] == Friend("a", "A", "ia", 15);
    assert r[1] == Friend("b", "B", "ib", -3);
  }

  /** The state cells `showAddFriend`, `friends` and `selectedFriend` of the `App` component. */
  class App {
    var showAddFriend: bool
    var friends: seq<Friend>
    var selectedFriend: Option<Friend>

    /** Ids are unique and the selection, if any, names a listed friend. */
    ghost predicate Valid()
      reads this
    {
      UniqueIds(friends) && SelectionKnown(friends, selectedFriend)
    }

    /** The initial `useState` values. */
    constructor ()
      ensures friends == InitialFriends() && selectedFriend == None && !showAddFriend
      ensures Valid()
    {
      showAddFriend := false;
      friends := InitialFriends();
      selectedFriend := None;
    }

    /** addFriend: append the record and close the add form. */
    method AddFriend(f: Friend)
      modifies this
      ensures friends == Append(old(friends), f)
      ensures selectedFriend == old(selectedFriend) && !showAddFriend
      ensures old(Valid()) && !HasId(old(friends), f.id) ==> Valid()
    {
      friends := Append(friends, f);
      showAddFriend := false;
      AppendUnique(old(friends), f);
    }

    /** selectFriend: toggle the selection on `f`'s id and close the add form. */
    method SelectFriend(f: Friend)
      modifies this
      ensures selectedFriend == Toggle(old(selectedFriend), f)
      ensures friends == old(friends) && !showAddFriend
      ensures old(Valid()) && HasId(friends, f.id) ==> Valid()
    {
      selectedFriend := Toggle(selectedFriend, f);
      showAddFriend := false;
    }

    /** The "Add Friend" / "Close" button: flip the add-form flag. */
    method ToggleAddFriend()
      modifies this
      ensures showAddFriend == !old(showAddFriend)
      ensures friends == old(friends) && selectedFriend == old(selectedFriend)
    {
      showAddFriend := !showAddFriend;
    }

    /** splitBill: add `value` to the selected friend's balance; the selection keeps its old snapshot. */
    method SplitBill(value: int)
      requires selectedFriend.Some?
      modifies this
      ensures friends == ApplyDelta(old(friends), old(selectedFriend).value.id, value)
      ensures selectedFriend == old(selectedFriend) && showAddFriend == old(showAddFriend)
      ensures old(Valid()) ==> Valid() && Total(friends) == old(Total(friends)) + value
    {
      var sel := selectedFriend.value.id;
      ghost var before := friends;
      friends := ApplyDelta(friends, sel, value);
      if old(Valid()) {
        ApplyDeltaKeepsIds(before, sel, value, sel);
        SplitBillTotal(before, sel, value);
      }
    }
  }
}
