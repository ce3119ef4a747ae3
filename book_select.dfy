/**
 * The book-selection screen's cursor: a highlighted position in the library
 * that moves cyclically up and down the list.
 */
module BookSelect {
  import opened Storage

  datatype InputMode = Selection | EnteringTitle | EnteringPages

  /** The position after moving down a list of `count` books: wraps from the last book to the first. */
  function NextIndex(index: nat, count: nat): (r: nat)
    ensures count == 0 ==> r == index
    ensures count > 0 ==> r < count
    ensures 0 <= index < count ==> r == if index == count - 1 then 0 else index + 1
  {
    if count == 0 then index else (index + 1) % count
  }

  /** The position after moving up a list of `count` books: wraps from the first book to the last. */
  function PrevIndex(index: nat, count: nat): (r: nat)
    ensures count == 0 ==> r == index
    ensures 0 <= index < count ==> r < count
    ensures 0 < index && 0 < count ==> r == index - 1
    ensures index == 0 < count ==> r == count - 1
  {
    if count == 0 then index else if index == 0 then count - 1 else index - 1
  }

  /** Moving up and then down returns to the same book. */
  lemma NextUndoesPrev(index: nat, count: nat)
    requires index < count
    ensures NextIndex(PrevIndex(index, count), count) == index
  {
  }

  /** Moving down and then up returns to the same book. */
  lemma PrevUndoesNext(index: nat, count: nat)
    requires index < count
    ensures PrevIndex(NextIndex(index, count), count) == index
  {
  }

  class BookSelector {
    var selectedIndex: nat
    var inputMode: InputMode
    var newBookTitle: string
    var newBookPages: string

    /** `BookSelector::new`: the first book highlighted, no book being entered. */
    constructor ()
      ensures selectedIndex == 0 && inputMode == Selection
      ensures newBookTitle == [] && newBookPages == []
    {
      selectedIndex := 0;
      inputMode := Selection;
      newBookTitle := [];
      newBookPages := [];
    }

    /** `select_next`: no change on an empty library. */
    method SelectNext(library: Library)
      modifies this`selectedIndex
      ensures selectedIndex == NextIndex(old(selectedIndex), |library.books|)
    {
      if |library.books| == 0 {
        return;
      }
      selectedIndex := NextIndex(selectedIndex, |library.books|);
    }

    /** `select_prev`: no change on an empty library. */
    method SelectPrev(library: Library)
      modifies this`selectedIndex
      ensures selectedIndex == PrevIndex(old(selectedIndex), |library.books|)
    {
      if |library.books| == 0 {
        return;
      }
      selectedIndex := PrevIndex(selectedIndex, |library.books|);
    }
  }
}
