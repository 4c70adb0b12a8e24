/**
 * The category page: the categories loaded from the API, the name typed for
 * a new category, and the one category being edited (its id and the name typed
 * for it). Server replies are parameters of the handlers; `None` stands for a
 * request, or the parsing of its reply, that threw.
 */
module Categories {
  import opened Wrappers
  import Text
  import Seqs

  /** A category record as the API returns it; `id` is only compared for equality. */
  datatype Category = Category(id: int, name: string)

  /**
   * `categories.filter(c => c.id !== id)`. The book page has its own copy of
   * this filter over its own record type (`BookList.WithoutId`).
   */
  function WithoutId(cs: seq<Category>, id: int): (r: seq<Category>)
    ensures Seqs.IsSubsequence(r, cs)
    ensures forall c :: c in r <==> c in cs && c.id != id
  {
    if cs == [] then []
    else if cs[0].id != id then [cs[0]] + WithoutId(cs[1..], id)
    else WithoutId(cs[1..], id)
  }

  /** `categories.map(c => c.id === id ? updated : c)`. */
  function ReplaceById(cs: seq<Category>, id: int, updated: Category): (r: seq<Category>)
    ensures |r| == |cs|
    ensures forall i :: 0 <= i < |cs| ==> r[i] == (if cs[i].id == id then updated else cs[i])
  {
    if cs == [] then [] else [if cs[0].id == id then updated else cs[0]] + ReplaceById(cs[1..], id, updated)
  }

  /** Removing from a concatenation removes from each part: the kept categories stay in their order. */
  lemma {:induction false} WithoutIdAppend(a: seq<Category>, b: seq<Category>, id: int)
    ensures WithoutId(a + b, id) == WithoutId(a, id) + WithoutId(b, id)
  {
    if a != [] {
      assert (a + b)[1..] == a[1..] + b;
      WithoutIdAppend(a[1..], b, id);
    } else {
      assert a + b == b;
    }
  }

  /** Removing an id that no category carries changes nothing. */
  lemma {:induction false} WithoutAbsentId(cs: seq<Category>, id: int)
    requires forall c :: c in cs ==> c.id != id
    ensures WithoutId(cs, id) == cs
  {
    if cs != [] {
      WithoutAbsentId(cs[1..], id);
    }
  }

  /** Replacing by id with the same record twice is replacing once. */
  lemma ReplaceIdempotent(cs: seq<Category>, id: int, updated: Category)
    ensures ReplaceById(ReplaceById(cs, id, updated), id, updated) == ReplaceById(cs, id, updated)
  {
  }

  /** Replacing an id that no category carries changes nothing. */
  lemma ReplaceAbsentId(cs: seq<Category>, id: int, updated: Category)
    requires forall c :: c in cs ==> c.id != id
    ensures ReplaceById(cs, id, updated) == cs
  {
  }

  /** The page's state. */
  class Editor {
    var categories: seq<Category>
    var newName: string
    var editingId: Option<int>
    var editingName: string

    /** The initial state of the `useState` calls. */
    constructor ()
      ensures categories == [] && newName == "" && editingId == None && editingName == ""
    {
      categories, newName, editingId, editingName := [], "", None, "";
    }

    /** The load effect: the list the API returned, if the request and parsing succeeded. */
    method Load(data: Option<seq<Category>>)
      modifies this`categories
      ensures categories == if data.Some? then data.value else old(categories)
    {
      if data.Some? {
        categories := data.value;
      }
    }

    /** The new-name input's `onChange`. */
    method SetNewName(name: string)
      modifies this`newName
      ensures newName == name
    {
      newName := name;
    }

    /** The edit input's `onChange`. */
    method SetEditingName(name: string)
      modifies this`editingName
      ensures editingName == name
    {
      editingName := name;
    }

    /**
     * `addCategory`: a blank `newName` sends nothing and changes nothing;
     * otherwise the untrimmed name is POSTed, and once the created record
     * arrives it is appended and `newName` is cleared.
     */
    method AddCategory(created: Option<Category>) returns (sent: Option<string>)
      modifies this`categories, this`newName
      ensures sent == if Text.IsBlank(old(newName)) then None else Some(old(newName))
      ensures sent.None? || created.None? ==> categories == old(categories) && newName == old(newName)
      ensures sent.Some? && created.Some? ==>
                categories == old(categories) + [created.value] && newName == ""
    {
      Text.TrimEmptyIffBlank(newName);
      if Text.Trim(newName) == [] {
        return None;
      }
      sent := Some(newName);
      if created.Some? {
        categories := categories + [created.value];
        newName := "";
      }
    }

    /**
     * `deleteCategory(id)`: once the DELETE has been answered (whatever its
     * status), every category with that id is removed.
     */
    method DeleteCategory(id: int, answered: bool)
      modifies this`categories
      ensures categories == if answered then WithoutId(old(categories), id) else old(categories)
      ensures answered ==> forall c :: c in categories ==> c.id != id
    {
      if answered {
        categories := WithoutId(categories, id);
      }
    }

    /** `startEditing(id, name)`: enter edit mode for `id` with `name` in the input. */
    method StartEditing(id: int, name: string)
      modifies this`editingId, this`editingName
      ensures editingId == Some(id) && editingName == name
    {
      editingId := Some(id);
      editingName := name;
    }

    /**
     * `saveEdit(id)`: a blank `editingName` sends nothing and keeps edit mode;
     * otherwise the untrimmed name is PUT, and once the updated record arrives
     * it replaces every category with that id and edit mode is left.
     */
    method SaveEdit(id: int, updated: Option<Category>) returns (sent: Option<string>)
      modifies this`categories, this`editingId, this`editingName
      ensures sent == if Text.IsBlank(old(editingName)) then None else Some(old(editingName))
      ensures sent.None? || updated.None? ==>
                categories == old(categories) && editingId == old(editingId) && editingName == old(editingName)
      ensures sent.Some? && updated.Some? ==>
                categories == ReplaceById(old(categories), id, updated.value)
                && editingId == None && editingName == ""
    {
      Text.TrimEmptyIffBlank(editingName);
      if Text.Trim(editingName) == [] {
        return None;
      }
      sent := Some(editingName);
      if updated.Some? {
        categories := ReplaceById(categories, id, updated.value);
        editingId := None;
        editingName := "";
      }
    }

    /** The cancel button: leaves edit mode; the typed name is kept. */
    method CancelEdit()
      modifies this`editingId
      ensures editingId == None
    {
      editingId := None;
    }
  }
}
