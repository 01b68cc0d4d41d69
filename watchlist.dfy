/**
 * The watchlist page (app/watchlist/page.tsx): a list of titles the user adds
 * to, removes from and searches, saved to the browser's store after each
 * change. Adding trims the input and does not look for duplicates; removing
 * drops one position; the delete button of a shown card removes the first
 * position holding an equal title.
 */
module Watchlist {
  import opened Wrappers
  import opened Text

  // ---------------------------------------------------------------------------
  // The list operations
  // ---------------------------------------------------------------------------

  /** `list.filter((_, i) => i !== index)`: keep every element whose position
      is not `index`. Any integer may be passed, -1 included. */
  function RemoveAt(list: seq<string>, index: int): (r: seq<string>)
    ensures |r| == if 0 <= index < |list| then |list| - 1 else |list|
  {
    if list == [] then []
    else (if index == 0 then [] else [list[0]]) + RemoveAt(list[1..], index - 1)
  }

  /** Removing a position in range cuts that element out; any other index
      leaves the list as it was. */
  lemma {:induction false} RemoveAtSlices(list: seq<string>, index: int)
    ensures 0 <= index < |list| ==> RemoveAt(list, index) == list[..index] + list[index + 1..]
    ensures !(0 <= index < |list|) ==> RemoveAt(list, index) == list
  {
    if list != [] {
      RemoveAtSlices(list[1..], index - 1);
      if index == 0 {
        assert list[1..] == list[..0] + list[1..];
      } else if 0 < index < |list| {
        assert list[..index] == [list[0]] + list[1..][..index - 1];
        assert list[index + 1..] == list[1..][index..];
      } else {
        assert list == [list[0]] + list[1..];
      }
    }
  }

  /** `list.indexOf(item)`: the first position holding `item`, or -1. */
  function IndexOf(list: seq<string>, item: string): (r: int)
    ensures -1 <= r < |list|
    ensures r == -1 <==> item !in list
    ensures r >= 0 ==> list[r] == item && item !in list[..r]
  {
    if list == [] then -1
    else if list[0] == item then 0
    else
      var rest := IndexOf(list[1..], item);
      if rest == -1 then -1
      else
        assert list[..rest + 1] == [list[0]] + list[1..][..rest];
        rest + 1
  }

  /** The search test: the lower-cased title contains the lower-cased term. An
      empty term matches every title, and no term longer than the title does. */
  predicate Matches(item: string, searchTerm: string)
    ensures searchTerm == "" ==> Matches(item, searchTerm)
    ensures Matches(item, searchTerm) ==> |searchTerm| <= |item|
  {
    IncludesEmpty(Lower(item));
    Includes(Lower(item), Lower(searchTerm))
  }

  /** `list.filter((item) => item.toLowerCase().includes(searchTerm.toLowerCase()))`. */
  function Filtered(list: seq<string>, searchTerm: string): (r: seq<string>)
    ensures forall x :: x in r <==> x in list && Matches(x, searchTerm)
    ensures forall x :: multiset(r)[x] == if Matches(x, searchTerm) then multiset(list)[x] else 0
  {
    if list == [] then []
    else
      var rest := Filtered(list[1..], searchTerm);
      assert list == [list[0]] + list[1..];
      if Matches(list[0], searchTerm) then [list[0]] + rest else rest
  }

  /** `a` can be obtained from `b` by deleting elements: order is kept. */
  ghost predicate Subsequence(a: seq<string>, b: seq<string>)
    decreases |b|
  {
    a == [] || (b != [] && ((a[0] == b[0] && Subsequence(a[1..], b[1..])) || Subsequence(a, b[1..])))
  }

  /** The search result keeps the list's order. */
  lemma {:induction false} FilteredIsSubsequence(list: seq<string>, searchTerm: string)
    ensures Subsequence(Filtered(list, searchTerm), list)
  {
    if list != [] {
      FilteredIsSubsequence(list[1..], searchTerm);
    }
  }

  /** An empty search term keeps every title, in order. */
  lemma {:induction false} EmptySearchKeepsAll(list: seq<string>)
    ensures Filtered(list, "") == list
  {
    if list != [] {
      IncludesEmpty(Lower(list[0]));
      EmptySearchKeepsAll(list[1..]);
      assert list == [list[0]] + list[1..];
    }
  }

  /** Deleting a shown title removes its first copy: the position `indexOf`
      finds is the earliest equal one, and exactly one occurrence goes. */
  lemma DeleteRemovesFirstCopy(list: seq<string>, item: string)
    requires item in list
    ensures var i := IndexOf(list, item);
      && 0 <= i < |list| && list[i] == item && item !in list[..i]
      && RemoveAt(list, i) == list[..i] + list[i + 1..]
      && multiset(RemoveAt(list, i)) == multiset(list) - multiset{item}
  {
    var i := IndexOf(list, item);
    RemoveAtSlices(list, i);
    CutOneOccurrence(list, i);
  }

  lemma CutOneOccurrence(list: seq<string>, i: int)
    requires 0 <= i < |list|
    ensures multiset(list[..i] + list[i + 1..]) == multiset(list) - multiset{list[i]}
  {
    assert list == list[..i] + [list[i]] + list[i + 1..];
  }

  /** Deleting a title the list does not hold passes -1 and changes nothing. */
  lemma DeleteAbsentIsNoop(list: seq<string>, item: string)
    requires item !in list
    ensures RemoveAt(list, IndexOf(list, item)) == list
  {
    RemoveAtSlices(list, -1);
  }

  // ---------------------------------------------------------------------------
  // The page state
  // ---------------------------------------------------------------------------

  /** The page's state: the list, the two input boxes, and (as a ghost) what the
      browser's store holds under "watchlist". */
  class WatchlistPage {
    var watchlist: seq<string>
    var newItem: string
    var searchTerm: string
    ghost var stored: Option<seq<string>>

    /** The list on screen is the one in the store, or empty when nothing is stored. */
    ghost predicate Valid()
      reads this
    {
      watchlist == stored.GetOr([])
    }

    /** Mounting the page: empty inputs, and the saved list when there is one. */
    constructor(saved: Option<seq<string>>)
      ensures Valid()
      ensures watchlist == saved.GetOr([]) && stored == saved
      ensures newItem == "" && searchTerm == ""
    {
      watchlist := saved.GetOr([]);
      newItem := "";
      searchTerm := "";
      stored := saved;
    }

    /** Typing in the add box. */
    method SetNewItem(text: string)
      modifies this
      ensures newItem == text
      ensures watchlist == old(watchlist) && searchTerm == old(searchTerm) && stored == old(stored)
    {
      newItem := text;
    }

    /** Typing in the search box. */
    method SetSearchTerm(text: string)
      modifies this
      ensures searchTerm == text
      ensures watchlist == old(watchlist) && newItem == old(newItem) && stored == old(stored)
    {
      searchTerm := text;
    }

    /** `addToWatchlist`: blank input (after trimming) changes nothing, the box
        included; otherwise the trimmed text is appended, with no duplicate
        check, the list is saved and the box is cleared. */
    method AddToWatchlist()
      requires Valid()
      modifies this
      ensures Valid()
      ensures Trim(old(newItem)) == [] ==>
        watchlist == old(watchlist) && newItem == old(newItem) && stored == old(stored)
      ensures Trim(old(newItem)) != [] ==>
        watchlist == old(watchlist) + [Trim(old(newItem))] && newItem == "" && stored == Some(watchlist)
      ensures searchTerm == old(searchTerm)
    {
      var trimmed := Trim(newItem);
      if trimmed == [] {
        return;
      }
      var updatedWatchlist := watchlist + [trimmed];
      watchlist := updatedWatchlist;
      stored := Some(updatedWatchlist);
      newItem := "";
    }

    /** `removeFromWatchlist(index)`: every position but `index` is kept and the
        result is saved, even when `index` is out of range. */
    method RemoveFromWatchlist(index: int)
      requires Valid()
      modifies this
      ensures Valid()
      ensures watchlist == RemoveAt(old(watchlist), index) && stored == Some(watchlist)
      ensures 0 <= index < |old(watchlist)| ==>
        watchlist == old(watchlist)[..index] + old(watchlist)[index + 1..]
      ensures !(0 <= index < |old(watchlist)|) ==> watchlist == old(watchlist)
      ensures newItem == old(newItem) && searchTerm == old(searchTerm)
    {
      RemoveAtSlices(watchlist, index);
      var updatedWatchlist := RemoveAt(watchlist, index);
      watchlist := updatedWatchlist;
      stored := Some(updatedWatchlist);
    }

    /** `filteredWatchlist`: the titles shown for the current search term. */
    function FilteredWatchlist(): (shown: seq<string>)
      reads this
      ensures forall x :: x in shown <==> x in watchlist && Matches(x, searchTerm)
    {
      Filtered(watchlist, searchTerm)
    }

    /** The delete button of the `k`-th shown card: `indexOf` of its title in the
        whole list, then `removeFromWatchlist`. The first equal title goes,
        whichever copy was clicked. */
    method DeleteShown(k: nat)
      requires Valid()
      requires k < |FilteredWatchlist()|
      modifies this
      ensures Valid()
      ensures var item := old(FilteredWatchlist())[k];
        var i := IndexOf(old(watchlist), item);
        && 0 <= i && old(watchlist)[i] == item && item !in old(watchlist)[..i]
        && watchlist == old(watchlist)[..i] + old(watchlist)[i + 1..]
        && multiset(watchlist) == multiset(old(watchlist)) - multiset{item}
      ensures stored == Some(watchlist)
      ensures newItem == old(newItem) && searchTerm == old(searchTerm)
    {
      var item := FilteredWatchlist()[k];
      DeleteRemovesFirstCopy(watchlist, item);
      RemoveFromWatchlist(IndexOf(watchlist, item));
    }
  }

  /** Adding "Parasite" twice keeps both copies. */
  method AddTwiceKeepsBoth() returns (list: seq<string>)
    ensures list == ["Parasite", "Parasite"]
  {
    TrimUnpadded("Parasite");
    var page := new WatchlistPage(None);
    page.SetNewItem("Parasite");
    page.AddToWatchlist();
    page.SetNewItem("Parasite");
    page.AddToWatchlist();
    list := page.watchlist;
  }

  lemma ParaMatches()
    ensures Matches("Parasite", "para") && !Matches("Inception", "para")
  {
    assert Lower("para") == "para";
    assert Lower("Parasite") == "parasite";
    assert Lower("Inception") == "inception";
    if Includes("inception", "para") {
      IncludesChars("inception", "para", 'a');
    }
  }

  /** Searching "para" shows both copies of "Parasite" and hides "Inception". */
  lemma SearchPara()
    ensures Filtered(["Parasite", "Inception", "Parasite"], "para") == ["Parasite", "Parasite"]
  {
    ParaMatches();
    var list := ["Parasite", "Inception", "Parasite"];
    assert Filtered(list[2..], "para") == ["Parasite"];
    assert Filtered(list[1..], "para") == ["Parasite"];
  }

  /** With "Parasite", "Inception", "Parasite" saved and "para" searched, the
      second shown card is the third title, yet its delete button removes the
      first one. */
  method DeleteSecondCopy() returns (shown: seq<string>, list: seq<string>)
    ensures shown == ["Parasite", "Parasite"]
    ensures list == ["Inception", "Parasite"]
  {
    SearchPara();
    var page := new WatchlistPage(Some(["Parasite", "Inception", "Parasite"]));
    page.SetSearchTerm("para");
    shown := page.FilteredWatchlist();
    page.DeleteShown(1);
    list := page.watchlist;
  }
}
