/**
 * The `FormAddFriend` component: its two text fields and its submit handler,
 * which checks that both fields are filled, builds the new record around a
 * fresh id and hands it to the `App`'s addFriend. The id comes from
 * `crypto.randomUUID()`; here it is a parameter whose freshness is that
 * generator's promise.
 */
module AddFriend {
  import opened Wrappers
  import opened FriendRegistry

  /** The avatar template the image field starts with (and is reset to). */
  const DefaultImage: string := "https://i.pravatar.cc/48"

  /** The avatar URL `${image}?=${id}`: the template, the query marker "?=", and the id. */
  function ImageFor(template: string, id: string): (r: string)
    ensures |r| == |template| + 2 + |id|
    ensures r[..|template|] == template
    ensures r[|template|..|template| + 2] == "?="
    ensures r[|template| + 2..] == id
  {
    template + "?=" + id
  }

  /** Under one template, distinct ids give distinct avatar URLs. */
  lemma ImageForInjective(template: string, id1: string, id2: string)
    requires ImageFor(template, id1) == ImageFor(template, id2)
    ensures id1 == id2
  {
    var u := ImageFor(template, id1);
    assert id1 == u[|template| + 2..] == id2;
  }

  /**
   * The pure part of handleSubmit: nothing when `name` or `image` is empty,
   * otherwise the new record with the given id, the id-tagged image and a zero balance.
   */
  function NewFriend(name: string, image: string, id: string): (r: Option<Friend>)
    ensures r.None? <==> name == "" || image == ""
    ensures r.Some? ==> r.value.id == id && r.value.name == name && r.value.balance == 0
    ensures r.Some? ==> r.value.image == ImageFor(image, id)
  {
    if name == "" || image == "" then None
    else Some(Friend(id, name, ImageFor(image, id), 0))
  }

  /** The form state of `FormAddFriend`. */
  class AddFriendForm {
    var name: string
    var image: string

    constructor ()
      ensures name == "" && image == DefaultImage
    {
      name := "";
      image := DefaultImage;
    }

    /** The name field's onChange. */
    method SetName(value: string)
      modifies this
      ensures name == value && image == old(image)
    {
      name := value;
    }

    /** The image field's onChange. */
    method SetImage(value: string)
      modifies this
      ensures image == value && name == old(name)
    {
      image := value;
    }

    /**
     * handleSubmit with `id` standing for `crypto.randomUUID()`: with an empty
     * field nothing changes; otherwise the new friend is appended, the add
     * form is closed and both fields are reset.
     */
    method HandleSubmit(app: App, id: string)
      requires !HasId(app.friends, id)
      modifies this, app
      ensures app.selectedFriend == old(app.selectedFriend)
      ensures old(name) == "" || old(image) == "" ==>
        app.friends == old(app.friends) && app.showAddFriend == old(app.showAddFriend)
        && name == old(name) && image == old(image)
      ensures old(name) != "" && old(image) != "" ==>
        && |app.friends| == |old(app.friends)| + 1
        && app.friends[..|old(app.friends)|] == old(app.friends)
        && app.friends[|old(app.friends)|] == Friend(id, old(name), ImageFor(old(image), id), 0)
        && !app.showAddFriend && name == "" && image == DefaultImage
      ensures old(app.Valid()) ==> app.Valid()
    {
      var created := NewFriend(name, image, id);
      if created.None? {
        return;
      }
      app.AddFriend(created.value);
      name := "";
      image := DefaultImage;
    }
  }
}
