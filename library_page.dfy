/**
 * The library page's top-bar state: the selected tab, the search field and
 * its filter, the sort menu, the sort option and its direction, with the
 * reset applied whenever the page is opened.
 */
module LibraryPage {
  import opened Wrappers

  /** The library's sub-pages, in the order of `tabs`. */
  datatype Tab = PlaylistsTab | SongsTab

  /** `MediaItemSortType`: play count, or one of its other entries (not part of this model). */
  datatype SortType = PlayCount | OtherSort(name: string)

  /** Every field the page reassigns. */
  datatype PageState = PageState(
    currentTab: Tab,
    showSearchField: bool,
    searchFilter: Option<string>,
    showSortOptionMenu: bool,
    sortOption: SortType,
    reverseSort: bool)

  /** `tabs` */
  const Tabs: seq<Tab> := [PlaylistsTab, SongsTab]

  /** The state `onOpened` resets the page to, which is also its initial state. */
  const Opened: PageState := PageState(Tabs[0], false, None, false, PlayCount, false)

  /** Choosing a sort option: the current one flips the direction, another replaces the option. */
  function SortChosen(s: PageState, option: SortType): PageState
  {
    if option == s.sortOption then s.(reverseSort := !s.reverseSort) else s.(sortOption := option)
  }

  /** A sort choice changes the option or the direction, never both, and nothing else. */
  lemma SortChosenMeaning(s: PageState, option: SortType)
    ensures SortChosen(s, option).sortOption == option
    ensures SortChosen(s, option).reverseSort == (if option == s.sortOption then !s.reverseSort else s.reverseSort)
    ensures SortChosen(s, option).(sortOption := s.sortOption, reverseSort := s.reverseSort) == s
  {
  }

  /** Choosing the current option twice restores the direction; choosing a new option then the old one restores the option. */
  lemma SortChosenTwice(s: PageState, option: SortType)
    ensures option == s.sortOption ==> SortChosen(SortChosen(s, option), option) == s
    ensures option != s.sortOption ==> SortChosen(SortChosen(s, option), s.sortOption) == s
  {
  }

  /** `LibraryPage` */
  class LibraryPageState {
    var currentTab: Tab
    var showSearchField: bool
    var searchFilter: Option<string>
    var showSortOptionMenu: bool
    var sortOption: SortType
    var reverseSort: bool

    function State(): PageState
      reads this
    {
      PageState(currentTab, showSearchField, searchFilter, showSortOptionMenu, sortOption, reverseSort)
    }

    /** The current tab is always one of `tabs`. */
    predicate Valid()
      reads this
    {
      currentTab in Tabs
    }

    constructor ()
      ensures Valid() && State() == Opened
    {
      currentTab := Tabs[0];
      showSearchField := false;
      searchFilter := None;
      showSortOptionMenu := false;
      sortOption := PlayCount;
      reverseSort := false;
    }

    /** `onOpened`: search hidden and cleared, menu hidden, play count ascending, first tab. */
    method OnOpened()
      modifies this
      ensures Valid() && State() == Opened
    {
      showSearchField := false;
      searchFilter := None;
      showSortOptionMenu := false;
      sortOption := PlayCount;
      reverseSort := false;
      currentTab := Tabs[0];
    }

    /** The selection menu's choice callback. */
    method ChooseSortOption(option: SortType)
      requires Valid()
      modifies this
      ensures Valid() && State() == SortChosen(old(State()), option)
    {
      if option == sortOption {
        reverseSort := !reverseSort;
      } else {
        sortOption := option;
      }
    }

    /** The selection menu's dismiss callback. */
    method DismissSortMenu()
      requires Valid()
      modifies this
      ensures Valid() && State() == old(State()).(showSortOptionMenu := false)
    {
      showSortOptionMenu := false;
    }

    /** The sort button. */
    method ToggleSortMenu()
      requires Valid()
      modifies this
      ensures Valid() && State() == old(State()).(showSortOptionMenu := !old(showSortOptionMenu))
    {
      showSortOptionMenu := !showSortOptionMenu;
    }

    /** The search button: shows the field when hidden, hides it when shown; the filter is kept. */
    method ToggleSearch()
      requires Valid()
      modifies this
      ensures Valid() && State() == old(State()).(showSearchField := !old(showSearchField))
    {
      var searching := showSearchField;
      showSearchField := !searching;
    }

    /** The search field's change callback. */
    method SetSearchFilter(filter: string)
      requires Valid()
      modifies this
      ensures Valid() && State() == old(State()).(searchFilter := Some(filter))
    {
      searchFilter := Some(filter);
    }

    /** A tab chip: the chip of the tab at `index` selects that tab. */
    method SelectTab(index: nat)
      requires Valid() && index < |Tabs|
      modifies this
      ensures Valid() && State() == old(State()).(currentTab := Tabs[index])
    {
      currentTab := Tabs[index];
    }
  }
}
