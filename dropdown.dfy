/**
 * The searchable selector: a pure case-insensitive filter over (value, label)
 * options, the text shown in its input, and the open/search/highlight state
 * machine driven by keys, typing, clicks, focus and clicks outside. The
 * selected value belongs to the parent; a handler that selects returns the
 * value it hands to `onChange`.
 */
module Dropdown {
  import opened Wrappers
  import opened Text

  datatype DropdownOption = DropdownOption(value: string, labelText: string)

  /** The keys the key handler distinguishes; every other key is `OtherKey`. */
  datatype Key = Enter | Escape | ArrowDown | ArrowUp | Tab | OtherKey

  /** The lower-cased label or the lower-cased value contains the lower-cased term; the empty term matches every option. */
  predicate Matches(o: DropdownOption, term: string)
    ensures term == [] ==> Matches(o, term)
  {
    ContainsEmpty(Lower(o.labelText));
    Contains(Lower(o.labelText), Lower(term)) || Contains(Lower(o.value), Lower(term))
  }

  /** The search is case-insensitive in the term: an upper-case letter in the term matches like its lower-case form. */
  lemma MatchesIgnoresTermCase(o: DropdownOption, term: string)
    ensures Matches(o, Lower(term)) == Matches(o, term)
  {
    LowerIdempotent(term);
  }

  /** `a` is `b` with some elements left out, the rest in their order. */
  predicate IsSubsequence<T(==)>(a: seq<T>, b: seq<T>)
    decreases |b|
  {
    a == [] || (b != [] && ((a[0] == b[0] && IsSubsequence(a[1..], b[1..])) || IsSubsequence(a, b[1..])))
  }

  /**
   * The visible options: the options that match the search term, in their
   * order. Each match is kept as often as it occurs and nothing else is kept.
   */
  function Filter(options: seq<DropdownOption>, term: string): (r: seq<DropdownOption>)
    ensures forall i :: 0 <= i < |r| ==> Matches(r[i], term)
    ensures IsSubsequence(r, options)
    ensures forall o :: multiset(r)[o] == if Matches(o, term) then multiset(options)[o] else 0
  {
    if options == [] then []
    else
      var rest := Filter(options[1..], term);
      assert options == [options[0]] + options[1..];
      if Matches(options[0], term) then
        assert ([options[0]] + rest)[1..] == rest;
        [options[0]] + rest
      else rest
  }

  /** An empty search term shows every option. */
  lemma {:induction false} FilterEmptyTerm(options: seq<DropdownOption>)
    ensures Filter(options, "") == options
  {
    if options != [] {
      ContainsEmpty(Lower(options[0].labelText));
      FilterEmptyTerm(options[1..]);
      assert options == [options[0]] + options[1..];
    }
  }

  /** Filtering the visible options again by the same term gives them back. */
  lemma {:induction false} FilterIdempotent(options: seq<DropdownOption>, term: string)
    ensures Filter(Filter(options, term), term) == Filter(options, term)
  {
    if options != [] {
      FilterIdempotent(options[1..], term);
      var rest := Filter(options[1..], term);
      if Matches(options[0], term) {
        assert ([options[0]] + rest)[1..] == rest;
      }
    }
  }

  /** The index of the first option with the given value (`find`), or the length when there is none. */
  function FindValue(options: seq<DropdownOption>, value: string): (k: nat)
    ensures k <= |options|
    ensures forall j :: 0 <= j < k ==> options[j].value != value
    ensures k < |options| ==> options[k].value == value
  {
    if options == [] then 0
    else if options[0].value == value then 0
    else 1 + FindValue(options[1..], value)
  }

  /** The label of the selected option, or "" when no option has the selected value. */
  function SelectedLabel(options: seq<DropdownOption>, value: string): (r: string)
    ensures (forall j :: 0 <= j < |options| ==> options[j].value != value) ==> r == ""
    ensures forall k :: 0 <= k < |options| && options[k].value == value && (forall j :: 0 <= j < k ==> options[j].value != value)
              ==> r == options[k].labelText
  {
    var k := FindValue(options, value);
    if k < |options| then options[k].labelText else ""
  }

  /**
   * ArrowDown on a list of `n`: one further down, or back to the top from the
   * last entry (or beyond). On a non-empty list, from no highlight or any
   * entry, it lands on an entry.
   */
  function ArrowDownIndex(prev: int, n: nat): (r: int)
    ensures r == prev + 1 || r == 0
    ensures n > 0 && -1 <= prev < n ==> 0 <= r < n
  {
    if prev < n - 1 then prev + 1 else 0
  }

  /**
   * ArrowUp on a list of `n`: one further up, or round to the last entry from
   * the top (or above). On a non-empty list, from no highlight or any entry,
   * it lands on an entry.
   */
  function ArrowUpIndex(prev: int, n: nat): (r: int)
    ensures r == prev - 1 || r == n - 1
    ensures n > 0 && -1 <= prev < n ==> 0 <= r < n
  {
    if prev > 0 then prev - 1 else n - 1
  }

  /** The arrows wrap both ways: down from the last entry is the first, up from the first is the last. */
  lemma ArrowsWrap(n: nat)
    requires n > 0
    ensures ArrowDownIndex(n - 1, n) == 0
    ensures ArrowUpIndex(0, n) == n - 1
  {
  }

  /** Inside the list, up undoes down and down undoes up. */
  lemma ArrowsInverse(h: int, n: nat)
    requires 0 <= h < n
    ensures ArrowUpIndex(ArrowDownIndex(h, n), n) == h
    ensures ArrowDownIndex(ArrowUpIndex(h, n), n) == h
  {
  }

  /** On an empty list ArrowDown highlights index 0 and ArrowUp index -1: both out of range. */
  lemma ArrowsOnEmptyList(prev: int)
    requires -1 <= prev <= 0
    ensures ArrowDownIndex(prev, 0) == 0
    ensures ArrowUpIndex(prev, 0) == -1
  {
  }

  /**
   * What the highlight can be on a list of `n`: none, an entry, or the stray 0
   * that ArrowDown leaves on an empty list.
   */
  predicate HighlightReachable(h: int, n: nat)
  {
    h == -1 || 0 <= h < n || (n == 0 && h == 0)
  }

  /** Both arrows keep the highlight reachable. */
  lemma ArrowsKeepReachable(h: int, n: nat)
    requires HighlightReachable(h, n)
    ensures HighlightReachable(ArrowDownIndex(h, n), n)
    ensures HighlightReachable(ArrowUpIndex(h, n), n)
  {
  }

  class Selector {
    var isOpen: bool
    var searchTerm: string
    var highlightedIndex: int

    constructor ()
      ensures IsReset()
    {
      isOpen, searchTerm, highlightedIndex := false, "", -1;
    }

    /** Closed with an empty search and no highlight: the state every close and every selection leaves. */
    predicate IsReset()
      reads this
    {
      !isOpen && searchTerm == "" && highlightedIndex == -1
    }

    /** The options currently shown. */
    function Filtered(options: seq<DropdownOption>): seq<DropdownOption>
      reads this
    {
      Filter(options, searchTerm)
    }

    /** The highlight is one `HighlightReachable` allows for the shown list. */
    predicate HighlightOk(options: seq<DropdownOption>)
      reads this
    {
      HighlightReachable(highlightedIndex, |Filtered(options)|)
    }

    /** The input's text: the live search term while open, the selected option's label while closed. */
    function InputText(options: seq<DropdownOption>, value: string): (r: string)
      reads this
      ensures isOpen ==> r == searchTerm
      ensures !isOpen ==> r == SelectedLabel(options, value)
    {
      if isOpen then searchTerm else SelectedLabel(options, value)
    }

    method Reset()
      modifies this
      ensures IsReset()
    {
      isOpen, searchTerm, highlightedIndex := false, "", -1;
    }

    /**
     * `handleKeyDown` for the shown options `Filtered(options)`. Returns the
     * value handed to `onChange`, if any. Does nothing when disabled.
     */
    method HandleKeyDown(key: Key, options: seq<DropdownOption>, disabled: bool) returns (committed: Option<string>)
      modifies this
      ensures old(HighlightOk(options)) ==> HighlightOk(options)
      ensures committed.Some? ==> !disabled && key == Enter
      ensures disabled || key == OtherKey ==> committed == None && unchanged(this)
      ensures !disabled && key == Enter ==>
        var shown := old(Filtered(options));
        if old(isOpen) && 0 <= old(highlightedIndex) < |shown| then
          committed == Some(shown[old(highlightedIndex)].value) && IsReset()
        else
          committed == None && isOpen && searchTerm == old(searchTerm) && highlightedIndex == old(highlightedIndex)
      ensures !disabled && key == Escape ==> IsReset()
      ensures !disabled && key == ArrowDown ==>
        isOpen && searchTerm == old(searchTerm) &&
        highlightedIndex == if old(isOpen) then ArrowDownIndex(old(highlightedIndex), |old(Filtered(options))|) else old(highlightedIndex)
      ensures !disabled && key == ArrowUp ==>
        isOpen == old(isOpen) && searchTerm == old(searchTerm) &&
        highlightedIndex == if old(isOpen) then ArrowUpIndex(old(highlightedIndex), |old(Filtered(options))|) else old(highlightedIndex)
      ensures !disabled && key == Tab ==>
        if old(isOpen) then IsReset() else unchanged(this)
    {
      committed := None;
      if disabled {
        return;
      }
      var shown := Filter(options, searchTerm);
      match key {
      case Enter =>
        if isOpen && 0 <= highlightedIndex < |shown| {
          committed := Some(shown[highlightedIndex].value);
          Reset();
        } else if !isOpen {
          isOpen := true;
        }
      case Escape =>
        Reset();
      case ArrowDown =>
        if !isOpen {
          isOpen := true;
        } else {
          highlightedIndex := ArrowDownIndex(highlightedIndex, |shown|);
        }
      case ArrowUp =>
        if isOpen {
          highlightedIndex := ArrowUpIndex(highlightedIndex, |shown|);
        }
      case Tab =>
        if isOpen {
          Reset();
        }
      case OtherKey =>
      }
    }

    /** `handleInputChange`: the typed text becomes the search term, the highlight is cleared, and the list opens. */
    method HandleInputChange(text: string)
      modifies this
      ensures isOpen && searchTerm == text && highlightedIndex == -1
    {
      searchTerm := text;
      highlightedIndex := -1;
      if !isOpen {
        isOpen := true;
      }
    }

    /** `handleInputClick`: toggles the list; opening it clears the search and the highlight. Nothing when disabled. */
    method HandleInputClick(disabled: bool)
      modifies this
      ensures forall options :: old(HighlightOk(options)) ==> HighlightOk(options)
      ensures disabled ==> unchanged(this)
      ensures !disabled && !old(isOpen) ==> isOpen && searchTerm == "" && highlightedIndex == -1
      ensures !disabled && old(isOpen) ==> !isOpen && searchTerm == old(searchTerm) && highlightedIndex == old(highlightedIndex)
    {
      if !disabled {
        var wasOpen := isOpen;
        isOpen := !wasOpen;
        if !wasOpen {
          searchTerm := "";
          highlightedIndex := -1;
        }
      }
    }

    /** `handleOptionClick`: hands the clicked option's value to `onChange` and closes with a reset. */
    method HandleOptionClick(optionValue: string) returns (committed: Option<string>)
      modifies this
      ensures committed == Some(optionValue) && IsReset()
    {
      committed := Some(optionValue);
      Reset();
    }

    /** `handleInputFocus`: opens the list when enabled and closed; nothing else changes. */
    method HandleInputFocus(disabled: bool)
      modifies this
      ensures isOpen == (old(isOpen) || !disabled)
      ensures searchTerm == old(searchTerm) && highlightedIndex == old(highlightedIndex)
    {
      if !disabled && !isOpen {
        isOpen := true;
      }
    }

    /** A mouse press outside the selector closes it with a reset, and selects nothing. */
    method HandleClickOutside()
      modifies this
      ensures IsReset()
    {
      Reset();
    }
  }

  /**
   * Focus followed by a click on an enabled, closed selector: focus opens it
   * and the click's toggle closes it again, with the search and highlight as
   * they were.
   */
  method FocusThenClick(s: Selector)
    requires !s.isOpen
    modifies s
    ensures !s.isOpen && s.searchTerm == old(s.searchTerm) && s.highlightedIndex == old(s.highlightedIndex)
  {
    s.HandleInputFocus(false);
    s.HandleInputClick(false);
  }
}
