/**
 * The list logic of the playlist page: the sort options, the title filter,
 * the index pairing behind `sorted_items`, drag reordering below the two
 * header rows, the reorder/filter/sort state, and removing the selected
 * items in descending index order. The playlist object itself is not part
 * of this model: the calls the page makes on it (`moveItem`, `removeItem`,
 * `saveItems`) are recorded in order.
 */
module PlaylistPage {
  import opened Wrappers
  import Seqs
  import Text

  /** A playlist entry, as far as the page reads it; `playCount` is the registry's play count. */
  datatype Item = Item(title: Option<string>, isSong: bool, duration: Option<int>, playCount: int)

  /** `SortOption` */
  datatype SortOption = PlaylistOrder | Alphabet | Duration | PlayCount

  datatype Error = NullPointerException | IllegalStateException | IndexOutOfBoundsException

  /** Whether a page action completed or threw. */
  datatype Outcome = Done | Threw(error: Error)

  /** A call made on the playlist. */
  datatype PlaylistEdit = MoveItem(from: int, to: int) | RemoveItem(index: int) | SaveItems

  /** Rows of the list above the first item: the top info and the button bar. */
  const ItemsAbove: int := 2

  // ---------------------------------------------------------------------------
  // Sorting
  // ---------------------------------------------------------------------------

  function Reversed<T>(s: seq<T>): (r: seq<T>)
    ensures |r| == |s| && forall i :: 0 <= i < |s| ==> r[i] == s[|s| - 1 - i]
  {
    if |s| == 0 then [] else [s[|s| - 1]] + Reversed(s[..|s| - 1])
  }

  /** The selector of a sort option: the title, the duration (0 when absent or not a song), or the play count. */
  function KeyOf(option: SortOption, item: Item): Seqs.SortKey
  {
    match option
    case Alphabet => Seqs.TextKey(item.title.GetOr(""))
    case Duration => Seqs.IntKey(if item.isSong then item.duration.GetOr(0) else 0)
    case PlayCount => Seqs.IntKey(item.playCount)
    case PlaylistOrder => Seqs.IntKey(0)
  }

  function Selector(option: SortOption): Item -> Seqs.SortKey
  {
    x => KeyOf(option, x)
  }

  /** `ALPHABET`'s selector is `title!!`: any comparison with an untitled item throws. */
  predicate SortThrows(items: seq<Item>, option: SortOption)
  {
    option == Alphabet && |items| >= 2 && exists i :: 0 <= i < |items| && items[i].title.None?
  }

  /**
   * `SortOption.sortItems`: the playlist's own order (reversed on request),
   * or a stable sort by the option's selector, ascending or descending. A
   * list of fewer than two items is never compared.
   */
  function SortItems(items: seq<Item>, option: SortOption, reversed: bool): Result<seq<Item>, Error>
  {
    if option == PlaylistOrder then Success(if reversed then Reversed(items) else items)
    else if SortThrows(items, option) then Failure(NullPointerException)
    else Success(Seqs.SortByKey(items, Selector(option), reversed))
  }

  /**
   * The playlist order is kept or exactly reversed; any other option gives a
   * permutation ordered by its key and stable among equal keys, and throws
   * only for an untitled item under `ALPHABET`.
   */
  lemma SortItemsMeaning(items: seq<Item>, option: SortOption, reversed: bool)
    ensures var r := SortItems(items, option, reversed);
      && (option == PlaylistOrder ==> r == Success(if reversed then Reversed(items) else items))
      && (r.Failure? <==> SortThrows(items, option))
      && (r.Failure? ==> r.error == NullPointerException)
      && (option != PlaylistOrder && r.Success? ==>
            multiset(r.value) == multiset(items)
            && Seqs.SortedBy(r.value, Selector(option), reversed)
            && forall k :: Seqs.WithKey(r.value, Selector(option), k) == Seqs.WithKey(items, Selector(option), k))
  {
    if option != PlaylistOrder && !SortThrows(items, option) {
      var key := Selector(option);
      Seqs.SortByKeyPermutation(items, key, reversed);
      Seqs.SortByKeySorted(items, key, reversed);
      forall k ensures Seqs.WithKey(Seqs.SortByKey(items, key, reversed), key, k) == Seqs.WithKey(items, key, k) {
        Seqs.SortByKeyStable(items, key, reversed, k);
      }
    }
  }

  /** Reversing the playlist order twice gives it back. */
  lemma ReversedTwice(items: seq<Item>)
    ensures Reversed(Reversed(items)) == items
  {
  }

  // ---------------------------------------------------------------------------
  // Filtering and index pairing
  // ---------------------------------------------------------------------------

  /** The elements of `s` that satisfy `p`, in their order. */
  function Keep<T>(s: seq<T>, p: T -> bool): seq<T>
  {
    if |s| == 0 then []
    else
      var n := |s| - 1;
      Keep(s[..n], p) + (if p(s[n]) then [s[n]] else [])
  }

  /** Each element is kept as often as it occurs when it satisfies `p`, and not at all otherwise. */
  lemma {:induction false} KeepCounts<T>(s: seq<T>, p: T -> bool, x: T)
    ensures multiset(Keep(s, p))[x] == if p(x) then multiset(s)[x] else 0
  {
    if |s| > 0 {
      var n := |s| - 1;
      KeepCounts(s[..n], p, x);
      assert s == s[..n] + [s[n]];
    }
  }

  /** Whether the item's title contains the filter, ignoring case (an untitled item never does). */
  predicate TitleMatches(item: Item, filter: string)
  {
    item.title.Some? && Text.ContainsIgnoreCase(item.title.value, filter)
  }

  function Matches(filter: string): Item -> bool
  {
    x => TitleMatches(x, filter)
  }

  /** The title filter: none keeps every item; `title!!` throws on an untitled item. */
  function FilterItems(items: seq<Item>, filter: Option<string>): Result<seq<Item>, Error>
  {
    match filter
    case None => Success(items)
    case Some(f) =>
      if exists i :: 0 <= i < |items| && items[i].title.None? then Failure(NullPointerException)
      else Success(Keep(items, Matches(f)))
  }

  /** No filter keeps every item; a filter keeps exactly the items whose title contains it, ignoring case. */
  lemma FilterItemsMeaning(items: seq<Item>, filter: Option<string>)
    ensures filter.None? ==> FilterItems(items, filter) == Success(items)
    ensures filter.Some? ==>
      (FilterItems(items, filter).Failure? <==> exists i :: 0 <= i < |items| && items[i].title.None?)
    ensures filter.Some? && FilterItems(items, filter).Success? ==>
      forall x :: multiset(FilterItems(items, filter).value)[x] ==
        if Text.ContainsIgnoreCase(x.title.GetOr(""), filter.value) then multiset(items)[x] else 0
  {
    if filter.Some? && FilterItems(items, filter).Success? {
      forall x ensures multiset(Keep(items, Matches(filter.value)))[x] ==
        if Text.ContainsIgnoreCase(x.title.GetOr(""), filter.value) then multiset(items)[x] else 0
      {
        KeepCounts(items, Matches(filter.value), x);
      }
    }
  }

  /** `mapIndexed { index, value -> Pair(value, index) }` */
  function Indexed(s: seq<Item>): (r: seq<(Item, int)>)
    ensures |r| == |s|
  {
    if |s| == 0 then [] else Indexed(s[..|s| - 1]) + [(s[|s| - 1], |s| - 1)]
  }

  /** Each item is paired with its position. */
  lemma {:induction false} IndexedMeaning(s: seq<Item>)
    ensures |Indexed(s)| == |s|
    ensures forall i :: 0 <= i < |s| ==> Indexed(s)[i] == (s[i], i)
  {
    if |s| > 0 {
      IndexedMeaning(s[..|s| - 1]);
    }
  }

  /** The items of a listing, without their keys. */
  function Rows(listing: seq<(Item, int)>): (r: seq<Item>)
    ensures |r| == |listing| && forall i :: 0 <= i < |listing| ==> r[i] == listing[i].0
  {
    seq(|listing|, i requires 0 <= i < |listing| => listing[i].0)
  }

  /**
   * The list the page shows: cleared, then, when the playlist has items,
   * filtered, sorted (never reversed) and paired with positions.
   */
  function Listing(items: Option<seq<Item>>, filter: Option<string>, option: SortOption): (seq<(Item, int)>, Outcome)
  {
    if items.None? then ([], Done)
    else
      match FilterItems(items.value, filter)
      case Failure(e) => ([], Threw(e))
      case Success(filtered) =>
        match SortItems(filtered, option, false)
        case Failure(e) => ([], Threw(e))
        case Success(sorted) => (Indexed(sorted), Done)
  }

  /** Without a filter and in playlist order, the listing pairs each playlist item with its own index. */
  lemma ListingInPlaylistOrder(items: seq<Item>)
    ensures Listing(Some(items), None, PlaylistOrder) == (Indexed(items), Done)
    ensures |Listing(Some(items), None, PlaylistOrder).0| == |items|
    ensures forall i :: 0 <= i < |items| ==> Listing(Some(items), None, PlaylistOrder).0[i] == (items[i], i)
  {
    IndexedMeaning(items);
  }

  /**
   * As written, a listing key is the row's position in the filtered, sorted
   * list, and the remove action hands it to `removeItem` as a playlist
   * position: with the filter "y" over items titled "x" and "y", the only row
   * is the "y" item under key 0, and removing it removes the "x" item.
   */
  lemma ListingKeyNamesAnotherItem()
    ensures var a := Item(Some("x"), true, None, 0);
      var b := Item(Some("y"), true, None, 0);
      && Listing(Some([a, b]), Some("y"), PlaylistOrder) == ([(b, 0)], Done)
      && RemoveEach([a, b], KeysOf(RemovalOrder([(b, Some(0))]))) == Some([b])
  {
    var a := Item(Some("x"), true, None, 0);
    var b := Item(Some("y"), true, None, 0);
    FilterYKeepsSecond(a, b);
    assert SortItems([b], PlaylistOrder, false) == Success([b]);
    assert Indexed([b]) == [(b, 0)];
    var only := [(b, Some(0))];
    assert only[1..] == [];
    assert Seqs.SortByKey(only[1..], RemovalKey(), true) == [];
    assert Seqs.Insert(only[0], [], RemovalKey(), true) == only;
    assert RemovalOrder(only) == only;
    assert KeysOf([(b, Some(0))]) == [0];
    assert RemoveAt([a, b], 0) == [b];
  }

  lemma FilterYKeepsSecond(a: Item, b: Item)
    requires a == Item(Some("x"), true, None, 0) && b == Item(Some("y"), true, None, 0)
    ensures FilterItems([a, b], Some("y")) == Success([b])
  {
    assert Text.UpperCase('x') == 'X' && Text.UpperCase('y') == 'Y';
    assert !Text.MatchesAt("x", 0, "y") by {
      assert "x"[0] == 'x' && "y"[0] == 'y';
      assert !Text.EqualsIgnoreCase("x"[0], "y"[0]);
    }
    assert Text.MatchesAt("y", 0, "y");
    assert !Matches("y")(a) && Matches("y")(b);
    assert [a, b][..1] == [a] && [a][..0] == [];
    assert Keep([a], Matches("y")) == [];
    assert Keep([a, b], Matches("y")) == [b];
    assert !exists i :: 0 <= i < |[a, b]| && [a, b][i].title.None?;
  }

  // ---------------------------------------------------------------------------
  // Listing keyed by playlist position
  // ---------------------------------------------------------------------------

  function EntryMatches(filter: string): ((Item, int)) -> bool
  {
    (e: (Item, int)) => TitleMatches(e.0, filter)
  }

  function EntrySelector(option: SortOption): ((Item, int)) -> Seqs.SortKey
  {
    (e: (Item, int)) => KeyOf(option, e.0)
  }

  /** The playlist's items paired with their positions, then filtered. */
  function Kept(items: seq<Item>, filter: Option<string>): seq<(Item, int)>
  {
    if filter.None? then Indexed(items) else Keep(Indexed(items), EntryMatches(filter.value))
  }

  /**
   * The listing with every row keyed by its item's position in the playlist:
   * items are paired with their positions first, then filtered and sorted
   * exactly as `Listing` does, with the same errors.
   */
  function PositionedListing(items: Option<seq<Item>>, filter: Option<string>, option: SortOption): (seq<(Item, int)>, Outcome)
  {
    if items.None? then ([], Done)
    else if filter.Some? && exists i :: 0 <= i < |items.value| && items.value[i].title.None? then ([], Threw(NullPointerException))
    else
      var kept := Kept(items.value, filter);
      if SortThrows(Rows(kept), option) then ([], Threw(NullPointerException))
      else if option == PlaylistOrder then (kept, Done)
      else (Seqs.SortByKey(kept, EntrySelector(option), false), Done)
  }

  lemma {:induction false} RowsIndexed(items: seq<Item>)
    ensures Rows(Indexed(items)) == items
  {
    IndexedMeaning(items);
  }

  lemma RowsConcat(a: seq<(Item, int)>, b: seq<(Item, int)>)
    ensures Rows(a + b) == Rows(a) + Rows(b)
  {
  }

  lemma {:induction false} RowsKept(items: seq<Item>, filter: string)
    ensures Rows(Keep(Indexed(items), EntryMatches(filter))) == Keep(items, Matches(filter))
  {
    if |items| > 0 {
      var n := |items| - 1;
      RowsKept(items[..n], filter);
      var ix := Indexed(items);
      assert ix == Indexed(items[..n]) + [(items[n], n)];
      assert ix[..n] == Indexed(items[..n]);
      var k0 := Keep(ix[..n], EntryMatches(filter));
      var tail := if EntryMatches(filter)(ix[n]) then [ix[n]] else [];
      RowsConcat(k0, tail);
    }
  }

  lemma {:induction false} RowsInsert(e: (Item, int), t: seq<(Item, int)>, option: SortOption)
    ensures Rows(Seqs.Insert(e, t, EntrySelector(option), false)) == Seqs.Insert(e.0, Rows(t), Selector(option), false)
  {
    var r := Rows(t);
    if |t| > 0 {
      assert r[0] == t[0].0 && r[1..] == Rows(t[1..]);
      assert Seqs.Before(EntrySelector(option), false, t[0], e) == Seqs.Before(Selector(option), false, r[0], e.0);
    }
    if |t| > 0 && Seqs.Before(EntrySelector(option), false, t[0], e) {
      RowsInsert(e, t[1..], option);
      RowsConcat([t[0]], Seqs.Insert(e, t[1..], EntrySelector(option), false));
    } else {
      RowsConcat([e], t);
    }
  }

  lemma {:induction false} RowsSorted(t: seq<(Item, int)>, option: SortOption)
    ensures Rows(Seqs.SortByKey(t, EntrySelector(option), false)) == Seqs.SortByKey(Rows(t), Selector(option), false)
  {
    if |t| > 0 {
      RowsSorted(t[1..], option);
      assert Rows(t)[1..] == Rows(t[1..]);
      RowsInsert(t[0], Seqs.SortByKey(t[1..], EntrySelector(option), false), option);
    }
  }

  /** Filtering the positioned items keeps the rows the title filter keeps. */
  lemma KeptRows(items: seq<Item>, filter: Option<string>)
    requires FilterItems(items, filter).Success?
    ensures Rows(Kept(items, filter)) == FilterItems(items, filter).value
  {
    if filter.None? {
      RowsIndexed(items);
    } else {
      RowsKept(items, filter.value);
    }
  }

  /** Keying rows by playlist position changes no outcome and no row: the page shows the same items in the same order. */
  lemma PositionedListingRows(items: Option<seq<Item>>, filter: Option<string>, option: SortOption)
    ensures PositionedListing(items, filter, option).1 == Listing(items, filter, option).1
    ensures Rows(PositionedListing(items, filter, option).0) == Rows(Listing(items, filter, option).0)
  {
    if items.Some? && FilterItems(items.value, filter).Success? {
      var filtered := FilterItems(items.value, filter).value;
      var kept := Kept(items.value, filter);
      KeptRows(items.value, filter);
      var sorted := SortItems(filtered, option, false);
      if sorted.Success? {
        RowsIndexed(sorted.value);
        if option != PlaylistOrder {
          RowsSorted(kept, option);
        }
      }
    }
  }

  /** Entries of a filtered positioned list name their own item and come in increasing position. */
  lemma {:induction false} KeptEntries(items: seq<Item>, p: ((Item, int)) -> bool)
    ensures forall e :: e in Keep(Indexed(items), p) ==> 0 <= e.1 < |items| && items[e.1] == e.0
    ensures forall i, j :: 0 <= i < j < |Keep(Indexed(items), p)| ==> Keep(Indexed(items), p)[i].1 < Keep(Indexed(items), p)[j].1
  {
    if |items| > 0 {
      var n := |items| - 1;
      KeptEntries(items[..n], p);
      var ix := Indexed(items);
      assert ix == Indexed(items[..n]) + [(items[n], n)];
      assert ix[..n] == Indexed(items[..n]);
    }
  }

  /** Two equal elements at different positions count twice. */
  lemma CountTwice<T>(s: seq<T>, i: nat, j: nat)
    requires i < j < |s| && s[i] == s[j]
    ensures multiset(s)[s[i]] >= 2
  {
    assert s == s[..j] + [s[j]] + s[j + 1..];
    assert s[..j][i] == s[i];
    assert multiset(s) == multiset(s[..j]) + multiset([s[j]]) + multiset(s[j + 1..]);
  }

  /** Elements that differ pairwise each count once. */
  lemma {:induction false} CountOnce<T>(s: seq<T>, x: T)
    requires forall i, j :: 0 <= i < j < |s| ==> s[i] != s[j]
    ensures multiset(s)[x] <= 1
  {
    if |s| > 0 {
      var n := |s| - 1;
      CountOnce(s[..n], x);
      assert s == s[..n] + [s[n]];
      if s[n] == x {
        assert x !in s[..n];
      }
    }
  }

  /** A permutation of a sequence whose keys differ pairwise has pairwise different keys. */
  lemma PermutationKeepsKeysApart<T>(a: seq<T>, b: seq<T>, key: T -> int)
    requires multiset(a) == multiset(b)
    requires forall i, j :: 0 <= i < j < |a| ==> key(a[i]) != key(a[j])
    ensures forall i, j :: 0 <= i < j < |b| ==> key(b[i]) != key(b[j])
  {
    forall i, j | 0 <= i < j < |b| ensures key(b[i]) != key(b[j]) {
      assert b[i] in multiset(a) && b[j] in multiset(a);
      var p :| 0 <= p < |a| && a[p] == b[i];
      var q :| 0 <= q < |a| && a[q] == b[j];
      if b[i] == b[j] {
        CountTwice(b, i, j);
        CountOnce(a, b[i]);
      } else {
        assert p != q;
      }
    }
  }

  /**
   * Every row of the positioned listing is keyed by the position of its own
   * item in the playlist, and no two rows share a key.
   */
  lemma PositionedKeys(items: seq<Item>, filter: Option<string>, option: SortOption)
    requires PositionedListing(Some(items), filter, option).1 == Done
    ensures var l := PositionedListing(Some(items), filter, option).0;
      && (forall e :: e in l ==> 0 <= e.1 < |items| && items[e.1] == e.0)
      && (forall i, j :: 0 <= i < j < |l| ==> l[i].1 != l[j].1)
  {
    var kept := Kept(items, filter);
    IndexedMeaning(items);
    if filter.Some? {
      KeptEntries(items, EntryMatches(filter.value));
    }
    assert forall e :: e in kept ==> 0 <= e.1 < |items| && items[e.1] == e.0;
    assert forall i, j :: 0 <= i < j < |kept| ==> kept[i].1 != kept[j].1;
    if option != PlaylistOrder {
      var l := Seqs.SortByKey(kept, EntrySelector(option), false);
      Seqs.SortByKeyPermutation(kept, EntrySelector(option), false);
      forall e | e in l ensures 0 <= e.1 < |items| && items[e.1] == e.0 {
        assert e in multiset(kept);
      }
      PermutationKeepsKeysApart(kept, l, (e: (Item, int)) => e.1);
    }
  }

  // ---------------------------------------------------------------------------
  // Drag reordering
  // ---------------------------------------------------------------------------

  function RemoveAt<T>(s: seq<T>, i: nat): (r: seq<T>)
    requires i < |s|
    ensures |r| == |s| - 1
  {
    s[..i] + s[i + 1..]
  }

  function InsertAt<T>(s: seq<T>, i: nat, x: T): (r: seq<T>)
    requires i <= |s|
    ensures |r| == |s| + 1
  {
    s[..i] + [x] + s[i..]
  }

  /** `list.add(to, list.removeAt(from))` */
  function Move<T>(s: seq<T>, from: nat, to: nat): seq<T>
    requires from < |s| && to < |s|
  {
    InsertAt(RemoveAt(s, from), to, s[from])
  }

  /** A move puts the moved element at its target and keeps every element. */
  lemma MoveMeaning<T>(s: seq<T>, from: nat, to: nat)
    requires from < |s| && to < |s|
    ensures |Move(s, from, to)| == |s| && Move(s, from, to)[to] == s[from]
    ensures multiset(Move(s, from, to)) == multiset(s)
  {
    var rest := RemoveAt(s, from);
    assert s == s[..from] + [s[from]] + s[from + 1..];
    assert multiset(s) == multiset(s[..from]) + multiset([s[from]]) + multiset(s[from + 1..]);
    assert multiset(rest) == multiset(s[..from]) + multiset(s[from + 1..]);
    assert Move(s, from, to) == rest[..to] + [s[from]] + rest[to..];
    assert rest == rest[..to] + rest[to..];
    assert multiset(rest) == multiset(rest[..to]) + multiset(rest[to..]);
    assert multiset(Move(s, from, to)) == multiset(rest[..to]) + multiset([s[from]]) + multiset(rest[to..]);
    assert multiset(Move(s, from, to)) == multiset(rest) + multiset([s[from]]);
  }

  /** Moving an element back to where it came from undoes the move. */
  lemma MoveBack<T>(s: seq<T>, from: nat, to: nat)
    requires from < |s| && to < |s|
    ensures Move(Move(s, from, to), to, from) == s
  {
    var m := Move(s, from, to);
    var rest := RemoveAt(s, from);
    assert m[..to] == rest[..to];
    assert m[to + 1..] == rest[to..];
    assert RemoveAt(m, to) == rest;
    MoveMeaning(s, from, to);
    assert InsertAt(rest, from, s[from]) == s;
  }

  /**
   * `onMove` past its checks: only moves between item rows count, by
   * position below the header rows; a source past the end throws before
   * anything changes, a target past the end throws after the removal.
   */
  function MovedListing(s: seq<(Item, int)>, from: int, to: int): (seq<(Item, int)>, Outcome)
  {
    if !(to >= ItemsAbove && from >= ItemsAbove) then (s, Done)
    else if from - ItemsAbove >= |s| then (s, Threw(IndexOutOfBoundsException))
    else
      var rest := RemoveAt(s, from - ItemsAbove);
      if to - ItemsAbove > |rest| then (rest, Threw(IndexOutOfBoundsException))
      else (InsertAt(rest, to - ItemsAbove, s[from - ItemsAbove]), Done)
  }

  /** Between two item rows in range, `onMove` is exactly a move of the listing. */
  lemma MovedListingIsMove(s: seq<(Item, int)>, from: int, to: int)
    requires ItemsAbove <= from < |s| + ItemsAbove && ItemsAbove <= to < |s| + ItemsAbove
    ensures MovedListing(s, from, to) == (Move(s, from - ItemsAbove, to - ItemsAbove), Done)
  {
  }

  // ---------------------------------------------------------------------------
  // Removing the selected items
  // ---------------------------------------------------------------------------

  /** `sortedByDescending { it.second!! }`: untitled keys throw when compared or read. */
  function RemovalOrder(selected: seq<(Item, Option<int>)>): seq<(Item, Option<int>)>
  {
    Seqs.SortByKey(selected, RemovalKey(), true)
  }

  function RemovalKey(): ((Item, Option<int>)) -> Seqs.SortKey
  {
    (p: (Item, Option<int>)) => Seqs.IntKey(p.1.GetOr(0))
  }

  /** The `removeItem` calls the loop makes for `order`. */
  function Removals(order: seq<(Item, Option<int>)>): seq<PlaylistEdit>
  {
    seq(|order|, i requires 0 <= i < |order| => RemoveItem(order[i].1.GetOr(0)))
  }

  /** The keys of `order`, as `removeItem` receives them. */
  function KeysOf(order: seq<(Item, Option<int>)>): seq<int>
  {
    seq(|order|, i requires 0 <= i < |order| => order[i].1.GetOr(0))
  }

  /** The keys of the selected entries. */
  function Selection(selected: seq<(Item, Option<int>)>): set<int>
  {
    set i | 0 <= i < |selected| :: selected[i].1.GetOr(0)
  }

  lemma RemovalsStep(order: seq<(Item, Option<int>)>, i: nat)
    requires i < |order|
    ensures Removals(order[..i + 1]) == Removals(order[..i]) + [RemoveItem(order[i].1.GetOr(0))]
  {
    assert Removals(order[..i + 1])[i] == RemoveItem(order[i].1.GetOr(0));
  }

  /** The positions of `s` left after removing those in `gone`. */
  function Without<T>(s: seq<T>, gone: set<int>): seq<T>
  {
    if |s| == 0 then []
    else Without(s[..|s| - 1], gone) + (if |s| - 1 in gone then [] else [s[|s| - 1]])
  }

  /** `removeAt` applied in order; None when an index is out of range when its turn comes. */
  function RemoveEach<T>(s: seq<T>, indices: seq<int>): Option<seq<T>>
  {
    if |indices| == 0 then Some(s)
    else if 0 <= indices[0] < |s| then RemoveEach(RemoveAt(s, indices[0]), indices[1..])
    else None
  }

  predicate StrictlyDecreasing(indices: seq<int>)
  {
    forall i, j :: 0 <= i < j < |indices| ==> indices[i] > indices[j]
  }

  /** Positions past every removed one stay in place. */
  lemma {:induction false} WithoutBelow<T>(s: seq<T>, gone: set<int>, k: nat)
    requires k <= |s| && forall g :: g in gone ==> g < k
    ensures Without(s, gone) == Without(s[..k], gone) + s[k..]
  {
    if |s| > k {
      var n := |s| - 1;
      WithoutBelow(s[..n], gone, k);
      assert s[..n][..k] == s[..k];
      assert s[k..] == s[k..n] + [s[n]];
      assert s[..n][k..] == s[k..n];
    } else {
      assert s[..k] == s;
    }
  }

  /** Removing the largest selected position first, then the rest. */
  lemma WithoutTop<T>(s: seq<T>, rest: set<int>, m: nat)
    requires m < |s| && forall g :: g in rest ==> g < m
    ensures Without(RemoveAt(s, m), rest) == Without(s, rest + {m})
  {
    var r := RemoveAt(s, m);
    WithoutBelow(r, rest, m);
    assert r[..m] == s[..m] && r[m..] == s[m + 1..];
    WithoutBelow(s, rest + {m}, m + 1);
    assert s[..m + 1][..m] == s[..m];
    WithoutBelow(s[..m + 1], rest, m);
    assert Without(s[..m + 1], rest + {m}) == Without(s[..m], rest + {m});
    WithoutSame(s[..m], rest, rest + {m});
  }

  /** Only the positions of `s` matter to `Without`. */
  lemma {:induction false} WithoutSame<T>(s: seq<T>, a: set<int>, b: set<int>)
    requires forall i :: 0 <= i < |s| ==> (i in a <==> i in b)
    ensures Without(s, a) == Without(s, b)
  {
    if |s| > 0 {
      WithoutSame(s[..|s| - 1], a, b);
    }
  }

  /**
   * Removing strictly decreasing, in-range positions one at a time never
   * meets an index made invalid by an earlier removal, and removes exactly
   * those positions.
   */
  lemma {:induction false} DescendingRemoval<T>(s: seq<T>, indices: seq<int>)
    requires StrictlyDecreasing(indices)
    requires forall i :: 0 <= i < |indices| ==> 0 <= indices[i] < |s|
    ensures RemoveEach(s, indices) == Some(Without(s, set i | i in indices))
  {
    if |indices| == 0 {
      WithoutSame(s, {}, set i | i in indices);
      WithoutNothing(s);
    } else {
      var m := indices[0];
      var tail := indices[1..];
      var r := RemoveAt(s, m);
      forall i | 0 <= i < |tail| ensures 0 <= tail[i] < |r| {
        assert tail[i] == indices[i + 1];
      }
      DescendingRemoval(r, tail);
      var rest := set i | i in tail;
      forall g | g in rest ensures g < m {
        var j :| 0 <= j < |tail| && tail[j] == g;
        assert indices[j + 1] == g;
      }
      WithoutTop(s, rest, m);
      assert (set i | i in indices) == rest + {m} by {
        assert indices == [m] + tail;
      }
    }
  }

  lemma {:induction false} WithoutNothing<T>(s: seq<T>)
    ensures Without(s, {}) == s
  {
    if |s| > 0 {
      WithoutNothing(s[..|s| - 1]);
    }
  }

  /** The removal order has non-increasing indices. */
  lemma RemovalOrderDescending(selected: seq<(Item, Option<int>)>)
    ensures multiset(RemovalOrder(selected)) == multiset(selected)
    ensures forall i, j :: 0 <= i < j < |RemovalOrder(selected)| ==>
      RemovalOrder(selected)[i].1.GetOr(0) >= RemovalOrder(selected)[j].1.GetOr(0)
  {
    var key := RemovalKey();
    Seqs.SortByKeyPermutation(selected, key, true);
    Seqs.SortByKeySorted(selected, key, true);
    var r := RemovalOrder(selected);
    forall i, j | 0 <= i < j < |r| ensures r[i].1.GetOr(0) >= r[j].1.GetOr(0) {
      assert !Seqs.Before(key, true, r[j], r[i]);
    }
  }

  /** The removal order's keys are exactly the selected keys. */
  lemma RemovalKeysSelection(selected: seq<(Item, Option<int>)>)
    ensures (set i | i in KeysOf(RemovalOrder(selected))) == Selection(selected)
  {
    var order := RemovalOrder(selected);
    RemovalOrderDescending(selected);
    var keys := KeysOf(order);
    forall i | 0 <= i < |keys| ensures keys[i] in Selection(selected) {
      assert order[i] in multiset(selected);
      var p :| 0 <= p < |selected| && selected[p] == order[i];
    }
    forall x | x in Selection(selected) ensures x in keys {
      var p :| 0 <= p < |selected| && selected[p].1.GetOr(0) == x;
      assert selected[p] in multiset(order);
      var i :| 0 <= i < |order| && order[i] == selected[p];
      assert keys[i] == x;
    }
  }

  /** With no key selected twice, the removal order's keys strictly decrease. */
  lemma RemovalKeysDecrease(selected: seq<(Item, Option<int>)>)
    requires forall i :: 0 <= i < |selected| ==> selected[i].1.Some?
    requires forall i, j :: 0 <= i < j < |selected| ==> selected[i].1 != selected[j].1
    ensures StrictlyDecreasing(KeysOf(RemovalOrder(selected)))
  {
    var order := RemovalOrder(selected);
    RemovalOrderDescending(selected);
    PermutationKeepsKeysApart(selected, order, (p: (Item, Option<int>)) => p.1.GetOr(0));
  }

  /**
   * Removing the selected keys in the removal order, when each is a distinct
   * in-range position, removes exactly the selected positions and never
   * meets an index shifted by an earlier removal.
   */
  lemma SelectedRemoval<T>(playlist: seq<T>, selected: seq<(Item, Option<int>)>)
    requires forall i :: 0 <= i < |selected| ==> selected[i].1.Some? && 0 <= selected[i].1.value < |playlist|
    requires forall i, j :: 0 <= i < j < |selected| ==> selected[i].1 != selected[j].1
    ensures RemoveEach(playlist, KeysOf(RemovalOrder(selected))) == Some(Without(playlist, Selection(selected)))
  {
    var keys := KeysOf(RemovalOrder(selected));
    RemovalKeysSelection(selected);
    RemovalKeysDecrease(selected);
    forall i | 0 <= i < |keys| ensures 0 <= keys[i] < |playlist| {
      assert keys[i] in Selection(selected);
    }
    DescendingRemoval(playlist, keys);
  }

  /**
   * With the positioned listing, removing any set of selected rows removes
   * from the playlist exactly the positions that hold the selected items.
   */
  lemma PositionedRemoval(items: seq<Item>, filter: Option<string>, option: SortOption, selected: seq<(Item, Option<int>)>)
    requires PositionedListing(Some(items), filter, option).1 == Done
    requires forall i :: 0 <= i < |selected| ==>
      selected[i].1.Some? && (selected[i].0, selected[i].1.value) in PositionedListing(Some(items), filter, option).0
    requires forall i, j :: 0 <= i < j < |selected| ==> selected[i] != selected[j]
    ensures forall i :: 0 <= i < |selected| ==>
      0 <= selected[i].1.GetOr(0) < |items| && items[selected[i].1.GetOr(0)] == selected[i].0
    ensures RemoveEach(items, KeysOf(RemovalOrder(selected))) == Some(Without(items, Selection(selected)))
  {
    PositionedKeys(items, filter, option);
    var l := PositionedListing(Some(items), filter, option).0;
    forall i | 0 <= i < |selected|
      ensures 0 <= selected[i].1.value < |items| && items[selected[i].1.value] == selected[i].0
    {
      assert (selected[i].0, selected[i].1.value) in l;
    }
    SelectedRemoval(items, selected);
  }

  // ---------------------------------------------------------------------------
  // The page state
  // ---------------------------------------------------------------------------

  /** The page's state for one playlist, and the calls it has made on the playlist. */
  class PlaylistPageState {
    /** `playlist.is_editable == true` */
    const editable: bool
    /** `playlist.items`, as the page reads them. */
    const items: Option<seq<Item>>

    var sortedItems: seq<(Item, int)>
    var reorderable: bool
    var currentFilter: Option<string>
    var currentSortOption: SortOption
    var edits: seq<PlaylistEdit>

    /** Reordering happens only for an editable playlist, in playlist order and unfiltered. */
    predicate Valid()
      reads this
    {
      reorderable ==> editable && currentFilter.None? && currentSortOption == PlaylistOrder
    }

    constructor (editable: bool, items: Option<seq<Item>>)
      ensures Valid()
      ensures this.editable == editable && this.items == items
      ensures sortedItems == [] && !reorderable && currentFilter.None? && currentSortOption == PlaylistOrder
      ensures edits == []
    {
      this.editable := editable;
      this.items := items;
      sortedItems := [];
      reorderable := false;
      currentFilter := None;
      currentSortOption := PlaylistOrder;
      edits := [];
    }

    /**
     * The effect that rebuilds `sorted_items` when the items, the sort option
     * or the filter change: cleared, then the filtered and sorted items, each
     * keyed by its row position.
     */
    method Refresh() returns (r: Outcome)
      modifies this
      ensures (sortedItems, r) == Listing(items, currentFilter, currentSortOption)
      ensures reorderable == old(reorderable) && currentFilter == old(currentFilter)
      ensures currentSortOption == old(currentSortOption) && edits == old(edits)
    {
      sortedItems := [];
      if items.None? {
        return Done;
      }
      var filtered := FilterItems(items.value, currentFilter);
      if filtered.Failure? {
        return Threw(filtered.error);
      }
      var sorted := SortItems(filtered.value, currentSortOption, false);
      if sorted.Failure? {
        return Threw(sorted.error);
      }
      sortedItems := Indexed(sorted.value);
      return Done;
    }

    /**
     * The corrected effect: the same rows in the same order with the same
     * errors, but each keyed by its item's position in the playlist, so that
     * `RemoveSelected` removes the selected items themselves.
     */
    method RefreshByPosition() returns (r: Outcome)
      modifies this
      ensures (sortedItems, r) == PositionedListing(items, currentFilter, currentSortOption)
      ensures reorderable == old(reorderable) && currentFilter == old(currentFilter)
      ensures currentSortOption == old(currentSortOption) && edits == old(edits)
    {
      sortedItems := [];
      if items.None? {
        return Done;
      }
      if currentFilter.Some? && exists i :: 0 <= i < |items.value| && items.value[i].title.None? {
        return Threw(NullPointerException);
      }
      var kept := Kept(items.value, currentFilter);
      if SortThrows(Rows(kept), currentSortOption) {
        return Threw(NullPointerException);
      }
      if currentSortOption == PlaylistOrder {
        sortedItems := kept;
      } else {
        sortedItems := Seqs.SortByKey(kept, EntrySelector(currentSortOption), false);
      }
      return Done;
    }

    /** `onMove`: its three checks, then the move between item rows. */
    method OnMove(from: int, to: int) returns (r: Outcome)
      requires Valid()
      modifies this
      ensures !old(reorderable) ==> r == Threw(IllegalStateException) && sortedItems == old(sortedItems)
      ensures old(reorderable) ==> (sortedItems, r) == MovedListing(old(sortedItems), from, to)
      ensures reorderable == old(reorderable) && currentFilter == old(currentFilter)
      ensures currentSortOption == old(currentSortOption) && edits == old(edits)
      ensures Valid()
    {
      if !reorderable || currentFilter.Some? || currentSortOption != PlaylistOrder {
        return Threw(IllegalStateException);
      }
      if to >= ItemsAbove && from >= ItemsAbove {
        if from - ItemsAbove >= |sortedItems| {
          return Threw(IndexOutOfBoundsException);
        }
        var moved := sortedItems[from - ItemsAbove];
        sortedItems := RemoveAt(sortedItems, from - ItemsAbove);
        if to - ItemsAbove > |sortedItems| {
          return Threw(IndexOutOfBoundsException);
        }
        sortedItems := InsertAt(sortedItems, to - ItemsAbove, moved);
      }
      return Done;
    }

    /** `onDragEnd`: the playlist itself is moved, by position below the header rows. */
    method OnDragEnd(from: int, to: int)
      modifies this
      ensures edits == old(edits) + if to >= ItemsAbove && from >= ItemsAbove then [MoveItem(from - ItemsAbove, to - ItemsAbove)] else []
      ensures sortedItems == old(sortedItems) && reorderable == old(reorderable)
      ensures currentFilter == old(currentFilter) && currentSortOption == old(currentSortOption)
    {
      if to >= ItemsAbove && from >= ItemsAbove {
        edits := edits + [MoveItem(from - ItemsAbove, to - ItemsAbove)];
      }
    }

    /**
     * `setReorderable`: only an editable playlist reorders, and reordering
     * resets sort and filter; leaving reordering saves the playlist.
     */
    method SetReorderable(value: bool)
      modifies this
      ensures reorderable == (editable && value)
      ensures reorderable ==> currentSortOption == PlaylistOrder && currentFilter.None?
      ensures !reorderable ==> currentSortOption == old(currentSortOption) && currentFilter == old(currentFilter)
      ensures edits == old(edits) + if old(reorderable) && !reorderable then [SaveItems] else []
      ensures sortedItems == old(sortedItems)
      ensures Valid()
    {
      var was := reorderable;
      reorderable := editable && value;
      if reorderable {
        currentSortOption := PlaylistOrder;
        currentFilter := None;
      } else if was {
        edits := edits + [SaveItems];
      }
    }

    /** `setFilter`: refused while reordering. */
    method SetFilter(filter: Option<string>) returns (r: Outcome)
      requires Valid()
      modifies this
      ensures r == Done <==> !old(reorderable)
      ensures r != Done ==> r == Threw(IllegalStateException) && currentFilter == old(currentFilter)
      ensures r == Done ==> currentFilter == filter
      ensures reorderable == old(reorderable) && currentSortOption == old(currentSortOption)
      ensures sortedItems == old(sortedItems) && edits == old(edits)
      ensures Valid()
    {
      if reorderable {
        return Threw(IllegalStateException);
      }
      currentFilter := filter;
      return Done;
    }

    /** `setSortOption`: refused while reordering. */
    method SetSortOption(option: SortOption) returns (r: Outcome)
      requires Valid()
      modifies this
      ensures r == Done <==> !old(reorderable)
      ensures r != Done ==> r == Threw(IllegalStateException) && currentSortOption == old(currentSortOption)
      ensures r == Done ==> currentSortOption == option
      ensures reorderable == old(reorderable) && currentFilter == old(currentFilter)
      ensures sortedItems == old(sortedItems) && edits == old(edits)
      ensures Valid()
    {
      if reorderable {
        return Threw(IllegalStateException);
      }
      currentSortOption := option;
      return Done;
    }

    /**
     * The multiselect remove action, offered only for an editable playlist:
     * the selected items in descending key order, each removed from the
     * playlist by its key, then the playlist saved. A missing key throws
     * before anything is removed.
     */
    method RemoveSelected(selected: seq<(Item, Option<int>)>) returns (r: Outcome)
      modifies this
      ensures !editable ==> r == Done && edits == old(edits)
      ensures editable && (exists i :: 0 <= i < |selected| && selected[i].1.None?) ==>
        r == Threw(NullPointerException) && edits == old(edits)
      ensures editable && (forall i :: 0 <= i < |selected| ==> selected[i].1.Some?) ==>
        r == Done && edits == old(edits) + Removals(RemovalOrder(selected)) + [SaveItems]
      ensures sortedItems == old(sortedItems) && reorderable == old(reorderable)
      ensures currentFilter == old(currentFilter) && currentSortOption == old(currentSortOption)
    {
      if !editable {
        return Done;
      }
      if exists i :: 0 <= i < |selected| && selected[i].1.None? {
        return Threw(NullPointerException);
      }
      var order := RemovalOrder(selected);
      var log := edits;
      var i := 0;
      while i < |order|
        modifies {}
        invariant 0 <= i <= |order|
        invariant log == old(edits) + Removals(order[..i])
      {
        RemovalsStep(order, i);
        log := log + [RemoveItem(order[i].1.GetOr(0))];
        i := i + 1;
      }
      assert order[..i] == order;
      edits := log + [SaveItems];
      return Done;
    }
  }
}
