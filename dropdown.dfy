/**
 * The searchable dropdown used for provinces and regions: the typed filter over
 * the options' labels, the display text of the current value, and the
 * open/search state changed by selecting, clearing, the header toggle and a
 * press outside the widget. The value itself belongs to the parent: selecting
 * and clearing return the text handed to `onChange`.
 */
module Dropdown {
  import opened Wrappers
  import opened Strings
  import opened Decimal
  import opened Seqs

  /** One option, reduced to its id and the text under its `searchKey`. */
  datatype DropdownOption = DropdownOption(id: int, caption: string)

  /** The filter callback: the label contains the typed text, ignoring case. */
  function LabelMatcher(term: string): (matches: DropdownOption -> bool) {
    (o: DropdownOption) => ContainsIgnoreCase(o.caption, term)
  }

  /**
   * `filteredOptions`: the options, in order, whose label contains the typed
   * text ignoring case; with nothing typed, every option.
   */
  function FilterOptions(options: seq<DropdownOption>, term: string): (r: seq<DropdownOption>)
    ensures IsSubsequence(r, options)
    ensures forall o <- r :: o in options && ContainsIgnoreCase(o.caption, term)
    ensures forall i :: 0 <= i < |options| && ContainsIgnoreCase(options[i].caption, term) ==> options[i] in r
    ensures term == "" ==> r == options
  {
    FilterIsSubsequence(options, LabelMatcher(term));
    if term == "" then
      forall i | 0 <= i < |options| ensures LabelMatcher(term)(options[i]) {
        EmptyTermMatches(options[i].caption);
      }
      FilterKeepsAll(options, LabelMatcher(term));
      Filter(options, LabelMatcher(term))
    else
      Filter(options, LabelMatcher(term))
  }

  /** `selectedOption`: the first option whose id is the parsed value; none when it does not parse. */
  function SelectedOption(options: seq<DropdownOption>, value: string): (r: Option<DropdownOption>)
    ensures r.Some? <==> exists i :: 0 <= i < |options| && ParseInt(value) == Some(options[i].id)
    ensures r.Some? ==>
      exists i :: && 0 <= i < |options| && options[i] == r.value
                  && ParseInt(value) == Some(options[i].id)
                  && forall j :: 0 <= j < i ==> ParseInt(value) != Some(options[j].id)
  {
    Find(options, (o: DropdownOption) => ParseInt(value) == Some(o.id))
  }

  /** `displayText`: the selected option's label, `''` when nothing matches. */
  function DisplayText(options: seq<DropdownOption>, value: string): (text: string)
    ensures value == "" ==> text == ""
    ensures (forall j :: 0 <= j < |options| ==> ParseInt(value) != Some(options[j].id)) ==> text == ""
    ensures SelectedOption(options, value).Some? ==> text == SelectedOption(options, value).value.caption
  {
    var selected := SelectedOption(options, value);
    if selected.Some? then selected.value.caption else ""
  }

  /**
   * Selecting an option emits its id as text, and that text selects an option
   * with the same id (the option itself when ids are distinct), so the widget
   * then displays that option's label.
   */
  lemma {:induction false} SelectRoundTrip(options: seq<DropdownOption>, k: nat)
    requires k < |options|
    ensures SelectedOption(options, IntToString(options[k].id)).Some?
    ensures SelectedOption(options, IntToString(options[k].id)).value.id == options[k].id
    ensures (forall j :: 0 <= j < |options| && j != k ==> options[j].id != options[k].id) ==>
      DisplayText(options, IntToString(options[k].id)) == options[k].caption
  {
    ParseIntToString(options[k].id);
  }

  class SearchableDropdown {
    const options: seq<DropdownOption>
    const disabled: bool
    var isOpen: bool
    var searchTerm: string

    /** Closed, with nothing typed. */
    constructor (options: seq<DropdownOption>, disabled: bool)
      ensures this.options == options && this.disabled == disabled
      ensures !isOpen && searchTerm == ""
    {
      this.options := options;
      this.disabled := disabled;
      isOpen := false;
      searchTerm := "";
    }

    /** The options listed under the search box. */
    function Listed(): (r: seq<DropdownOption>)
      reads this`searchTerm
      ensures IsSubsequence(r, options)
      ensures forall o <- r :: o in options && ContainsIgnoreCase(o.caption, searchTerm)
      ensures forall i :: 0 <= i < |options| && ContainsIgnoreCase(options[i].caption, searchTerm) ==> options[i] in r
      ensures searchTerm == "" ==> r == options
    {
      FilterOptions(options, searchTerm)
    }

    /** `handleSelect`: emit the option's id as text, close and forget the typed text. */
    method HandleSelect(option: DropdownOption) returns (emitted: string)
      modifies this`isOpen, this`searchTerm
      ensures emitted == IntToString(option.id)
      ensures ParseInt(emitted) == Some(option.id)
      ensures !isOpen && searchTerm == ""
    {
      ParseIntToString(option.id);
      emitted := IntToString(option.id);
      isOpen := false;
      searchTerm := "";
    }

    /** `handleClear`: emit `''` and forget the typed text; the open state is kept. */
    method HandleClear() returns (emitted: string)
      modifies this`searchTerm
      ensures emitted == "" && searchTerm == ""
    {
      emitted := "";
      searchTerm := "";
    }

    /** A click on the header toggles the list unless the widget is disabled. */
    method HeaderClick()
      modifies this`isOpen
      ensures disabled ==> isOpen == old(isOpen)
      ensures !disabled ==> isOpen == !old(isOpen)
    {
      if !disabled {
        isOpen := !isOpen;
      }
    }

    /** The document `mousedown` listener: a press outside the widget closes it and forgets the typed text. */
    method MouseDown(inside: bool)
      modifies this`isOpen, this`searchTerm
      ensures inside ==> isOpen == old(isOpen) && searchTerm == old(searchTerm)
      ensures !inside ==> !isOpen && searchTerm == ""
    {
      if !inside {
        isOpen := false;
        searchTerm := "";
      }
    }

    /** Typing in the search box. */
    method SearchInput(text: string)
      modifies this`searchTerm
      ensures searchTerm == text
    {
      searchTerm := text;
    }
  }
}
