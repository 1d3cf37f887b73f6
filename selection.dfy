/**
 * The single-active-item toggle written `active === i ? null : i` on the help centre's
 * FAQ list, the features grid and the contact cards: clicking the open item closes it,
 * clicking any other item opens that one instead.
 */
module Selection {
  import opened Wrappers

  function Toggle<T(==)>(active: Option<T>, id: T): (r: Option<T>)
    ensures r == None <==> active == Some(id)
    ensures r != None ==> r == Some(id)
  {
    if active == Some(id) then None else Some(id)
  }

  /** Item `id` is the open one. */
  predicate IsActive<T(==)>(active: Option<T>, id: T) {
    active == Some(id)
  }

  /** After a click on `id`, `id` is open exactly when it was closed, and no other item is open. */
  lemma ToggleFlips<T>(active: Option<T>, id: T, other: T)
    requires other != id
    ensures IsActive(Toggle(active, id), id) <==> !IsActive(active, id)
    ensures !IsActive(Toggle(active, id), other)
  {
  }

  /** Two clicks on the same item, starting from nothing open, end with nothing open. */
  lemma ToggleTwiceFromCollapsed<T>(id: T)
    ensures Toggle(Toggle(None, id), id) == None
  {
  }

  /**
   * Two clicks on the same item restore the state only when nothing or that item was open:
   * from another open item they end with nothing open.
   */
  lemma ToggleTwice<T>(active: Option<T>, id: T)
    ensures Toggle(Toggle(active, id), id) == (if active == Some(id) then Some(id) else None)
  {
  }

  /** Opening one item and then another leaves only the second open. */
  lemma ToggleSwitches<T>(active: Option<T>, first: T, second: T)
    requires first != second
    ensures Toggle(Toggle(active, first), second) == Some(second)
  {
  }

  /**
   * The items a list renders as open when `items` is listed from position `offset` on
   * and the open position is `active`: at most one, and one exactly when the open
   * position is one of the listed ones.
   */
  function OpenItems<T>(items: seq<T>, active: Option<int>, offset: int): (r: seq<T>)
    ensures |r| <= 1
    ensures r != [] <==> active.Some? && offset <= active.value < offset + |items|
    ensures r != [] ==> r == [items[active.value - offset]]
    decreases |items|
  {
    if items == [] then []
    else (if active == Some(offset) then [items[0]] else []) + OpenItems(items[1..], active, offset + 1)
  }
}
