/** The category-list logic of the settings page (03-frontend/src/pages/Settings.jsx): adding a
    category from the input box, and reordering by drag and drop. Rendering is not modelled. */
module SettingsPage {

  import opened Wrappers
  import opened Lists
  import opened Records
  import opened LocalStore

  /** The characters `String.prototype.trim` strips: white space and line terminators. */
  predicate IsWhitespace(c: char)
  {
    c == ' ' || c == '\t' || c == '\n' || c == '\r' || c == '\U{000B}' || c == '\U{000C}' ||
    c == '\U{00A0}' || c == '\U{1680}' || ('\U{2000}' <= c <= '\U{200A}') || c == '\U{2028}' ||
    c == '\U{2029}' || c == '\U{202F}' || c == '\U{205F}' || c == '\U{3000}' || c == '\U{FEFF}'
  }

  /** s without its leading white space. */
  function TrimStart(s: string): (r: string)
    ensures |r| <= |s| && r == s[|s| - |r|..]
    ensures r == [] || !IsWhitespace(r[0])
    ensures forall i :: 0 <= i < |s| - |r| ==> IsWhitespace(s[i])
  {
    if s != [] && IsWhitespace(s[0]) then TrimStart(s[1..]) else s
  }

  /** s without its trailing white space. */
  function TrimEnd(s: string): (r: string)
    ensures |r| <= |s| && r == s[..|r|]
    ensures r == [] || !IsWhitespace(r[|r| - 1])
    ensures forall i :: |r| <= i < |s| ==> IsWhitespace(s[i])
  {
    if s != [] && IsWhitespace(s[|s| - 1]) then TrimEnd(s[..|s| - 1]) else s
  }

  /** `s.trim()`: s without its leading and trailing white space. What is left neither starts nor ends
      with white space, and nothing is left exactly when s is all white space. */
  function Trim(s: string): (r: string)
    ensures r == [] || (!IsWhitespace(r[0]) && !IsWhitespace(r[|r| - 1]))
    ensures r == [] <==> forall i :: 0 <= i < |s| ==> IsWhitespace(s[i])
  {
    TrimEmptyIffAllWhitespace(s);
    TrimEnd(TrimStart(s))
  }

  lemma TrimEmptyIffAllWhitespace(s: string)
    ensures TrimEnd(TrimStart(s)) == [] <==> forall i :: 0 <= i < |s| ==> IsWhitespace(s[i])
  {
    if forall i :: 0 <= i < |s| ==> IsWhitespace(s[i]) {
      AllWhitespaceTrimsAway(s);
    } else {
      var k :| 0 <= k < |s| && !IsWhitespace(s[k]);
      NonWhitespaceSurvives(s, k);
    }
  }

  lemma NonWhitespaceSurvives(s: string, k: int)
    requires 0 <= k < |s| && !IsWhitespace(s[k])
    ensures TrimEnd(TrimStart(s)) != []
  {
    var t := TrimStart(s);
    assert k >= |s| - |t|;
    assert t[k - (|s| - |t|)] == s[k];
  }

  lemma {:induction false} AllWhitespaceTrimsAway(s: string)
    requires forall i :: 0 <= i < |s| ==> IsWhitespace(s[i])
    ensures TrimStart(s) == []
  {
    if s != [] {
      assert IsWhitespace(s[0]);
      assert forall i :: 0 <= i < |s[1..]| ==> s[1..][i] == s[i + 1];
      AllWhitespaceTrimsAway(s[1..]);
    }
  }

  /** `!s.trim()`: the trimmed string is the empty string, the one falsy string; that is, every
      character of s is white space. */
  predicate IsBlank(s: string): (b: bool)
    ensures b <==> forall i :: 0 <= i < |s| ==> IsWhitespace(s[i])
  {
    Trim(s) == ""
  }

  /** The list after `splice(from, 1)` and then `splice(to, 0, item)`: the element at `from` moved to `to`. */
  function Moved<T>(s: seq<T>, from: nat, to: nat): (r: seq<T>)
    requires from < |s| && to < |s|
    ensures |r| == |s|
  {
    InsertAt(RemoveAt(s, from), to, s[from])
  }

  /** The move is a permutation that puts the dragged element at the target position. */
  lemma MovedIsPermutation<T>(s: seq<T>, from: nat, to: nat)
    requires from < |s| && to < |s|
    ensures multiset(Moved(s, from, to)) == multiset(s)
    ensures Moved(s, from, to)[to] == s[from]
  {
  }

  /** Without the dragged element, the list is as before: the others keep their relative order. */
  lemma MovedKeepsOthersInOrder<T>(s: seq<T>, from: nat, to: nat)
    requires from < |s| && to < |s|
    ensures RemoveAt(Moved(s, from, to), to) == RemoveAt(s, from)
  {
    var r, rest := Moved(s, from, to), RemoveAt(s, from);
    assert forall j :: 0 <= j < |rest| ==> RemoveAt(r, to)[j] == rest[j];
  }

  /** Dragging the element back from the target to its origin restores the list. */
  lemma MoveBackRestores<T>(s: seq<T>, from: nat, to: nat)
    requires from < |s| && to < |s|
    ensures Moved(Moved(s, from, to), to, from) == s
  {
    var r := Moved(s, from, to);
    MovedKeepsOthersInOrder(s, from, to);
    var back := Moved(r, to, from);
    assert RemoveAt(r, to) == RemoveAt(s, from);
    forall j | 0 <= j < |s|
      ensures back[j] == s[j]
    {
      if j < from {
        assert back[j] == RemoveAt(s, from)[j];
      } else if j > from {
        assert back[j] == RemoveAt(s, from)[j - 1];
      }
    }
  }

  /** `categories.map((cat, idx) => ({ ...cat, sort_order: idx }))`. */
  function Renumbered(categories: seq<Category>): (r: seq<Category>)
    ensures |r| == |categories|
    ensures forall i :: 0 <= i < |r| ==> r[i].sortOrder == i
    ensures forall i :: 0 <= i < |r| ==> r[i].(sortOrder := 0) == categories[i].(sortOrder := 0)
  {
    seq(|categories|, i requires 0 <= i < |categories| => categories[i].(sortOrder := i))
  }

  /** The sort orders the categories carry. */
  function SortOrders(categories: seq<Category>): set<int>
  {
    set c | c in categories :: c.sortOrder
  }

  /** After renumbering, the sort orders are exactly 0..n-1, and renumbering again changes nothing. */
  lemma RenumberedOrders(categories: seq<Category>)
    ensures forall k :: k in SortOrders(Renumbered(categories)) <==> 0 <= k < |categories|
    ensures Renumbered(Renumbered(categories)) == Renumbered(categories)
  {
    var r := Renumbered(categories);
    forall k | 0 <= k < |r|
      ensures k in SortOrders(r)
    {
      assert r[k] in r;
    }
  }

  /** The category the input box adds: an expense category placed after the current ones; the store
      replaces the id. */
  function NewCategory(name: string, count: nat): (c: Category)
    ensures c.name == name && c.kind == ExpenseType
    ensures c.sortOrder == count + 1
  {
    Category(0, name, ExpenseType, count + 1)
  }

  /** After a reorder has renumbered the list to 0..n-1, a category added next sorts after all of
      them, with n itself left unused. */
  lemma NewCategorySortsLast(categories: seq<Category>, name: string)
    ensures forall k :: k in SortOrders(Renumbered(categories)) ==> k < NewCategory(name, |categories|).sortOrder
    ensures |categories| !in SortOrders(Renumbered(categories))
  {
    RenumberedOrders(categories);
  }

  /** The settings page: the category input box and the drag refs. */
  class Settings {
    var newCategory: string
    var dragItem: Option<int>      // dragItem.current; None for null
    var dragOverItem: Option<int>  // dragOverItem.current
    const store: Store

    constructor(store: Store)
      ensures this.store == store && newCategory == "" && dragItem.None? && dragOverItem.None?
    {
      this.store := store;
      newCategory := "";
      dragItem := None;
      dragOverItem := None;
    }

    /** handleAddCategory: a blank name does nothing; otherwise the category is added and the box cleared. */
    method HandleAddCategory(freshId: int)
      requires store.Valid()
      modifies this, store
      ensures store.Valid()
      ensures IsBlank(old(newCategory)) ==> newCategory == old(newCategory) && store.categories == old(store.categories)
      ensures !IsBlank(old(newCategory)) ==>
                newCategory == "" &&
                store.categories == old(store.categories) + [Category(freshId, old(newCategory), ExpenseType, |old(store.categories)| + 1)]
      ensures store.expenses == old(store.expenses) && store.expenseHistory == old(store.expenseHistory)
      ensures store.paymentMethods == old(store.paymentMethods)
      ensures dragItem == old(dragItem) && dragOverItem == old(dragOverItem)
    {
      if IsBlank(newCategory) {
        return;
      }
      store.AddCategory(NewCategory(newCategory, |store.categories|), freshId);
      newCategory := "";
    }

    /** handleDragStart(position). */
    method HandleDragStart(position: int)
      modifies this
      ensures dragItem == Some(position)
      ensures newCategory == old(newCategory) && dragOverItem == old(dragOverItem)
    {
      dragItem := Some(position);
    }

    /** handleDragEnter(position): the dragged category moves to the hovered position, which becomes the
        dragged one. Both positions are indices of the rendered list. */
    method HandleDragEnter(position: nat)
      requires store.Valid()
      requires dragItem.Some? && 0 <= dragItem.value < |store.categories| && position < |store.categories|
      modifies this, store
      ensures store.Valid()
      ensures store.categories == Moved(old(store.categories), old(dragItem.value), position)
      ensures dragItem == Some(position) && dragOverItem.None?
      ensures store.expenses == old(store.expenses) && store.expenseHistory == old(store.expenseHistory)
      ensures store.paymentMethods == old(store.paymentMethods)
      ensures newCategory == old(newCategory)
    {
      dragOverItem := Some(position);
      var newCategories := store.categories;
      var dragItemContent := newCategories[dragItem.value];
      newCategories := RemoveAt(newCategories, dragItem.value);
      newCategories := InsertAt(newCategories, position, dragItemContent);
      dragItem := Some(position);
      dragOverItem := None;
      store.SetCategories(newCategories);
    }

    /** handleDragEnd: clears the refs and stores each category's position as its sort order. */
    method HandleDragEnd()
      requires store.Valid()
      modifies this, store
      ensures store.Valid()
      ensures store.categories == Renumbered(old(store.categories))
      ensures dragItem.None? && dragOverItem.None?
      ensures store.expenses == old(store.expenses) && store.expenseHistory == old(store.expenseHistory)
      ensures store.paymentMethods == old(store.paymentMethods)
      ensures newCategory == old(newCategory)
    {
      dragItem := None;
      dragOverItem := None;
      var updatedWithOrder := Renumbered(store.categories);
      store.SetCategories(updatedWithOrder);
    }
  }
}
