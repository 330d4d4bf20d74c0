/**
 * `processSong` and `processDefaultResponse`: how a decoded response fills an
 * item's fields, each step a method tied to a function of the old state.
 */
module ProcessResponse {
  import opened Wrappers
  import opened MediaItem
  import opened LoadMediaItem
  import Text
  import Seqs

  // ---------------------------------------------------------------------------
  // processSong
  // ---------------------------------------------------------------------------

  /**
   * What `processSong` does to a song: the lyrics and related browse ids
   * from tabs 1 and 2, then the title of the first queued video, then its
   * artist. Every exception it meets is caught and reported as a failure.
   */
  function SongNext(s: ItemState, tabs: Result<seq<NextTab>, Error>): (r: (ItemState, Status))
  {
    match tabs
    case Failure(e) => (s, Failed(e))
    case Success(t) =>
      var s1 := s.(lyricsBrowseId := TabBrowseId(t, 1), relatedBrowseId := TabBrowseId(t, 2));
      match FirstVideo(t)
      case Failure(e) => (s1, Failed(e))
      case Success(video) =>
        var s2 := s1.(title := Some(video.title));
        match video.artist
        case Failure(e) => (s2, Failed(e))
        case Success(a) => (s2.(artist := Some(a)), Succeeded)
  }

  /** A song's `next` response sets what it reaches, and only a missing artist lookup or a missing step is a failure. */
  lemma SongNextEffects(s: ItemState, tabs: Result<seq<NextTab>, Error>)
    ensures var r := SongNext(s, tabs);
      && (!r.1.Threw?)
      && (tabs.Failure? ==> r == (s, Failed(tabs.error)))
      && (tabs.Success? ==> r.0.lyricsBrowseId == TabBrowseId(tabs.value, 1) && r.0.relatedBrowseId == TabBrowseId(tabs.value, 2))
      && (r.1 == Succeeded <==> tabs.Success? && FirstVideo(tabs.value).Success? && FirstVideo(tabs.value).value.artist.Success?)
      && (r.1 == Succeeded ==> r.0.title == Some(FirstVideo(tabs.value).value.title) && r.0.artist == Some(FirstVideo(tabs.value).value.artist.value))
      && (r.0 == s.(lyricsBrowseId := r.0.lyricsBrowseId, relatedBrowseId := r.0.relatedBrowseId, title := r.0.title, artist := r.0.artist))
  {
  }

  /** `processSong` */
  method ProcessSong(item: MediaItemData, tabs: Result<seq<NextTab>, Error>) returns (r: Status)
    requires item.itemType == Song
    modifies item
    ensures (item.State(), r) == SongNext(old(item.State()), tabs)
  {
    if tabs.Failure? {
      return Failed(tabs.error);
    }
    var t := tabs.value;
    ghost var s1 := item.State().(lyricsBrowseId := TabBrowseId(t, 1), relatedBrowseId := TabBrowseId(t, 2));
    item.lyricsBrowseId := TabBrowseId(t, 1);
    item.relatedBrowseId := TabBrowseId(t, 2);
    assert item.State() == s1;
    var video := FirstVideo(t);
    if video.Failure? {
      return Failed(video.error);
    }
    ghost var s2 := s1.(title := Some(video.value.title));
    item.title := Some(video.value.title);
    assert item.State() == s2;
    match video.value.artist {
      case Success(a) =>
        item.artist := Some(a);
        assert item.State() == s2.(artist := Some(a));
        return Succeeded;
      case Failure(e) =>
        return Failed(e);
    }
  }

  // ---------------------------------------------------------------------------
  // Header
  // ---------------------------------------------------------------------------

  /**
   * The subtitle: an item with an artist takes the first artist run's
   * artist, when there is one; a playlist takes the year of the last
   * all-digit run, which throws when that run does not parse.
   */
  function SubtitleState(s: ItemState, runs: seq<Run>, itemType: ItemType): (r: (ItemState, Status))
  {
    var a := ArtistOfRuns(runs);
    var s1 := if itemType != Artist && a.Some? then s.(artist := a) else s;
    if itemType == Playlist then
      match YearOf(runs)
      case Failure(e) => (s1, Threw(e))
      case Success(y) => (s1.(year := y), Succeeded)
    else (s1, Succeeded)
  }

  /** The subtitle sets the artist and the year, and nothing else. */
  lemma SubtitleEffects(s: ItemState, runs: seq<Run>, itemType: ItemType)
    ensures var r := SubtitleState(s, runs, itemType);
      && (r.1 == Succeeded || r.1 == Threw(NumberFormatException))
      && (r.0.artist == if itemType != Artist && ArtistOfRuns(runs).Some? then ArtistOfRuns(runs) else s.artist)
      && (r.1.Threw? <==> itemType == Playlist && YearOf(runs).Failure?)
      && (r.0.year == if itemType == Playlist && YearOf(runs).Success? then YearOf(runs).value else s.year)
      && (r.0 == s.(artist := r.0.artist, year := r.0.year))
  {
  }

  /**
   * The second subtitle, read from its end: the last run is the total
   * duration, the one before it the item count (its digits only, which
   * throws when they do not parse); earlier runs are ignored.
   */
  function SecondSubtitleState(s: ItemState, runs: seq<Run>, duration: string -> Option<int>): (r: (ItemState, Status))
  {
    var n := |runs|;
    var s1 := if n >= 1 then s.(totalDuration := duration(runs[n - 1].text)) else s;
    if n >= 2 then
      match ItemCountOf(runs[n - 2].text)
      case None => (s1, Threw(NumberFormatException))
      case Some(c) => (s1.(itemCount := Some(c)), Succeeded)
    else (s1, Succeeded)
  }

  /** The second subtitle sets the duration and the item count from its last two runs. */
  lemma SecondSubtitleEffects(s: ItemState, runs: seq<Run>, duration: string -> Option<int>)
    ensures var r := SecondSubtitleState(s, runs, duration);
      && (|runs| == 0 ==> r == (s, Succeeded))
      && (|runs| >= 1 ==> r.0.totalDuration == duration(runs[|runs| - 1].text))
      && (r.1 == Succeeded <==> |runs| < 2 || ItemCountOf(runs[|runs| - 2].text).Some?)
      && (r.1 != Succeeded ==> r.1 == Threw(NumberFormatException) && r.0.itemCount == s.itemCount)
      && (|runs| >= 2 && r.1 == Succeeded ==> r.0.itemCount == ItemCountOf(runs[|runs| - 2].text))
      && (r.0 == s.(totalDuration := r.0.totalDuration, itemCount := r.0.itemCount))
  {
  }

  /** Only the last two runs of the second subtitle matter. */
  lemma SecondSubtitleLastTwo(s: ItemState, earlier: seq<Run>, runs: seq<Run>, duration: string -> Option<int>)
    requires |runs| >= 2
    ensures SecondSubtitleState(s, earlier + runs, duration) == SecondSubtitleState(s, runs, duration)
  {
    var all := earlier + runs;
    assert all[|all| - 1] == runs[|runs| - 1];
    assert all[|all| - 2] == runs[|runs| - 2];
  }

  /** The loop over the reversed second subtitle. */
  method ApplySecondSubtitle(item: MediaItemData, runs: seq<Run>, duration: string -> Option<int>) returns (r: Status)
    modifies item
    ensures (item.State(), r) == SecondSubtitleState(old(item.State()), runs, duration)
  {
    ghost var s0 := item.State();
    var n := |runs|;
    var index := 0;
    while index < n
      invariant 0 <= index <= n
      invariant index >= 2 ==> ItemCountOf(runs[n - 2].text).Some?
      invariant item.State() == s0.(
        totalDuration := if index >= 1 then duration(runs[n - 1].text) else s0.totalDuration,
        itemCount := if index >= 2 then ItemCountOf(runs[n - 2].text) else s0.itemCount)
    {
      var run := runs[n - 1 - index];
      if index == 0 {
        item.totalDuration := duration(run.text);
      } else if index == 1 {
        var count := ItemCountOf(run.text);
        if count.None? {
          return Threw(NumberFormatException);
        }
        item.itemCount := count;
      }
      index := index + 1;
    }
    return Succeeded;
  }

  /**
   * The header of a browse response that is not a radio's: title (which must
   * exist), description and thumbnails; then the subtitle, the second
   * subtitle of a playlist and the subscription of an artist.
   */
  function HeaderState(s: ItemState, h: Header, itemType: ItemType, parsers: Parsers): (r: (ItemState, Status))
  {
    if h.title.None? then (s, Threw(NullPointerException))
    else
      var s1 := s.(title := h.title, description := h.description, thumbnails := h.thumbnails);
      var sub := if h.subtitle.Some? then SubtitleState(s1, h.subtitle.value, itemType) else (s1, Succeeded);
      if sub.1 != Succeeded then sub
      else
        var second :=
          if itemType == Playlist && h.secondSubtitle.Some?
          then SecondSubtitleState(sub.0, h.secondSubtitle.value, parsers.duration)
          else (sub.0, Succeeded);
        if second.1 != Succeeded then second
        else (SubscriptionState(second.0, h, itemType, parsers.subscribers), Succeeded)
  }

  /** The header sets the title, description and thumbnails, the subtitle fields and an artist's subscription, and nothing else. */
  lemma HeaderEffects(s: ItemState, h: Header, itemType: ItemType, parsers: Parsers)
    ensures var r := HeaderState(s, h, itemType, parsers);
      && (h.title.None? ==> r == (s, Threw(NullPointerException)))
      && (h.title.Some? ==> r.0.title == h.title && r.0.description == h.description && r.0.thumbnails == h.thumbnails)
      && (r.1 == Succeeded || r.1 == Threw(NullPointerException) || r.1 == Threw(NumberFormatException))
      && (r.1 == Succeeded && itemType == Artist && h.subscription.Some? ==> r.0.subscribeChannelId == Some(h.subscription.value.channelId) && r.0.subscriberCount == parsers.subscribers(h.subscription.value.subscriberCountText) && r.0.subscribed == Some(h.subscription.value.subscribed))
      && (itemType != Playlist ==> r.0.year == s.year && r.0.totalDuration == s.totalDuration && r.0.itemCount == s.itemCount)
      && (r.0 == s.(title := r.0.title, description := r.0.description, thumbnails := r.0.thumbnails, artist := r.0.artist, year := r.0.year, totalDuration := r.0.totalDuration, itemCount := r.0.itemCount, subscribeChannelId := r.0.subscribeChannelId, subscriberCount := r.0.subscriberCount, subscribed := r.0.subscribed))
  {
    if h.title.Some? {
      var s1 := s.(title := h.title, description := h.description, thumbnails := h.thumbnails);
      var sub := if h.subtitle.Some? then SubtitleState(s1, h.subtitle.value, itemType) else (s1, Succeeded);
      if h.subtitle.Some? {
        SubtitleEffects(s1, h.subtitle.value, itemType);
      }
      if sub.1 == Succeeded && itemType == Playlist && h.secondSubtitle.Some? {
        SecondSubtitleEffects(sub.0, h.secondSubtitle.value, parsers.duration);
      }
    }
  }

  /** An artist's subscription button: channel id, parsed subscriber count and subscribed flag. */
  function SubscriptionState(s: ItemState, h: Header, itemType: ItemType, subscribers: string -> Option<int>): ItemState
  {
    if itemType == Artist && h.subscription.Some? then
      var b := h.subscription.value;
      s.(subscribeChannelId := Some(b.channelId),
        subscriberCount := subscribers(b.subscriberCountText),
        subscribed := Some(b.subscribed))
    else s
  }

  method ApplySubscription(item: MediaItemData, h: Header, subscribers: string -> Option<int>)
    modifies item
    ensures item.State() == SubscriptionState(old(item.State()), h, item.itemType, subscribers)
  {
    if h.subscription.Some? && item.itemType == Artist {
      var b := h.subscription.value;
      item.subscribeChannelId := Some(b.channelId);
      item.subscriberCount := subscribers(b.subscriberCountText);
      item.subscribed := Some(b.subscribed);
    }
  }

  method ApplySubtitle(item: MediaItemData, runs: seq<Run>) returns (r: Status)
    modifies item
    ensures (item.State(), r) == SubtitleState(old(item.State()), runs, item.itemType)
  {
    ghost var s0 := item.State();
    var a := ArtistOfRuns(runs);
    ghost var s1 := if item.itemType != Artist && a.Some? then s0.(artist := a) else s0;
    if item.itemType != Artist && a.Some? {
      item.artist := a;
    }
    assert item.State() == s1;
    if item.itemType == Playlist {
      var year := YearOf(runs);
      if year.Failure? {
        return Threw(year.error);
      }
      item.year := year.value;
      assert item.State() == s1.(year := year.value);
    }
    return Succeeded;
  }

  method ApplyHeader(item: MediaItemData, h: Header, parsers: Parsers) returns (r: Status)
    modifies item
    ensures (item.State(), r) == HeaderState(old(item.State()), h, item.itemType, parsers)
  {
    if h.title.None? {
      return Threw(NullPointerException);
    }
    ghost var s0 := item.State();
    item.title := h.title;
    item.description := h.description;
    item.thumbnails := h.thumbnails;
    ghost var s1 := s0.(title := h.title, description := h.description, thumbnails := h.thumbnails);
    assert item.State() == s1;
    ghost var sub := if h.subtitle.Some? then SubtitleState(s1, h.subtitle.value, item.itemType) else (s1, Succeeded);
    if h.subtitle.Some? {
      r := ApplySubtitle(item, h.subtitle.value);
      if r != Succeeded {
        return;
      }
    }
    assert item.State() == sub.0 && sub.1 == Succeeded;
    ghost var second :=
      if item.itemType == Playlist && h.secondSubtitle.Some?
      then SecondSubtitleState(sub.0, h.secondSubtitle.value, parsers.duration)
      else (sub.0, Succeeded);
    if item.itemType == Playlist && h.secondSubtitle.Some? {
      r := ApplySecondSubtitle(item, h.secondSubtitle.value, parsers.duration);
      if r != Succeeded {
        return;
      }
    }
    assert item.State() == second.0 && second.1 == Succeeded;
    ApplySubscription(item, h, parsers.subscribers);
    return Succeeded;
  }

  // ---------------------------------------------------------------------------
  // Section rows
  // ---------------------------------------------------------------------------

  predicate HasDescription(row: Row)
  {
    row.description.Some?
  }

  /** A row that is not a description row: a row of items. */
  predicate IsItemRow(row: Row)
  {
    row.description.None?
  }

  /** An item row whose media-item view-more does not hold a data item: `as MediaItemData` throws. */
  predicate ThrowsForArtist(row: Row)
  {
    IsItemRow(row) && row.viewMore.Some? && row.viewMore.value.MediaItemViewMore? && !row.viewMore.value.isData
  }

  /** The description after the rows: the last description row's, else `d`. */
  function DescriptionAfter(rows: seq<Row>, d: Option<string>): Option<string>
  {
    match Seqs.LastIndex(rows, HasDescription)
    case None => d
    case Some(i) => rows[i].description
  }

  /** `layouts`, created empty when `items` are first appended to it. */
  function Appended(layouts: Option<seq<Layout>>, items: seq<Layout>): Option<seq<Layout>>
  {
    if |items| == 0 then layouts else Some(layouts.GetOr([]) + items)
  }

  lemma AppendedStep(layouts: Option<seq<Layout>>, items: seq<Layout>, x: Layout)
    ensures Appended(Appended(layouts, items), [x]) == Appended(layouts, items + [x])
  {
    if |items| > 0 {
      assert layouts.GetOr([]) + items + [x] == layouts.GetOr([]) + (items + [x]);
    } else {
      assert items + [x] == [x];
    }
  }

  function LayoutTitleOf(row: Row, isOwnChannel: bool): Option<LayoutTitle>
  {
    if row.title.None? then None
    else if isOwnChannel then Some(OwnChannelTitle(row.title.value))
    else Some(MediaItemPageTitle(row.title.value, Artist))
  }

  /**
   * A media-item view-more whose item is a data item gets the localised
   * layout title and, when the item has an artist, the page's artist.
   */
  function ViewMoreAfter(viewMore: Option<ViewMore>, title: Option<LayoutTitle>, artistId: string, localise: LayoutTitle -> string): Option<ViewMore>
  {
    match viewMore
    case Some(MediaItemViewMore(target, isData)) =>
      var named := target.(title := if title.Some? then Some(localise(title.value)) else None);
      Some(MediaItemViewMore(
        if target.itemType != Artist then named.(artist := Some(ArtistRef(artistId))) else named, isData))
    case _ => viewMore
  }

  /** The layout an artist page builds from item row `index`. */
  function RowLayout(row: Row, index: nat, artistId: string, isOwnChannel: bool, localise: LayoutTitle -> string): Layout
  {
    var title := LayoutTitleOf(row, isOwnChannel);
    Layout(artistId, PodcastsMapped(row.entries, artistId), title,
      if index == 0 then NumberedList else Grid,
      ViewMoreAfter(row.viewMore, title, artistId, localise), RowToken(row))
  }

  /** The layouts of an artist page: one per item row, in row order. */
  function LayoutsOf(rows: seq<Row>, artistId: string, isOwnChannel: bool, localise: LayoutTitle -> string): seq<Layout>
  {
    if |rows| == 0 then []
    else
      var n := |rows| - 1;
      LayoutsOf(rows[..n], artistId, isOwnChannel, localise)
        + (if IsItemRow(rows[n]) then [RowLayout(rows[n], n, artistId, isOwnChannel, localise)] else [])
  }

  /**
   * Only the first layout can be a numbered list, and it is one exactly when
   * row 0 is an item row: the index that decides counts description rows too.
   */
  lemma {:induction false} LayoutTypes(rows: seq<Row>, artistId: string, isOwnChannel: bool, localise: LayoutTitle -> string)
    ensures |rows| > 0 && IsItemRow(rows[0]) ==> |LayoutsOf(rows, artistId, isOwnChannel, localise)| > 0
    ensures forall j :: 0 <= j < |LayoutsOf(rows, artistId, isOwnChannel, localise)| ==>
      (LayoutsOf(rows, artistId, isOwnChannel, localise)[j].layoutType == NumberedList <==> j == 0 && IsItemRow(rows[0]))
  {
    if |rows| > 0 {
      var n := |rows| - 1;
      var before := LayoutsOf(rows[..n], artistId, isOwnChannel, localise);
      LayoutTypes(rows[..n], artistId, isOwnChannel, localise);
      if n > 0 {
        assert rows[..n][0] == rows[0];
      }
    }
  }

  /** What the rows do to a playlist: descriptions until the first item row, which alone sets the items. */
  function PlaylistRowsState(s: ItemState, rows: seq<Row>): ItemState
  {
    match Seqs.FirstIndex(rows, IsItemRow)
    case None => s.(description := DescriptionAfter(rows, s.description))
    case Some(k) =>
      var row := rows[k];
      var token := RowToken(row);
      s.(description := DescriptionAfter(rows[..k], s.description),
        items := Some(Songs(ItemsOf(row.entries))),
        continuation := if token.Some? then Some(Continuation(token.value, PlaylistContinuation, None)) else None,
        itemSetIds := SetIds(row.entries))
  }

  /** Rows after a playlist's first item row are never read. */
  lemma PlaylistIgnoresLaterRows(s: ItemState, rows: seq<Row>, more: seq<Row>)
    requires Seqs.FirstIndex(rows, IsItemRow).Some?
    ensures PlaylistRowsState(s, rows + more) == PlaylistRowsState(s, rows)
  {
    var k := Seqs.FirstIndex(rows, IsItemRow).value;
    var all := rows + more;
    assert all[k] == rows[k];
    assert forall j :: 0 <= j < k ==> all[j] == rows[j];
    Seqs.FirstIndexAt(all, IsItemRow, k);
    assert all[..k] == rows[..k];
  }

  /**
   * What the rows do to an artist: descriptions and one appended layout per
   * item row, up to the first row whose view-more cast throws.
   */
  function ArtistRowsState(s: ItemState, rows: seq<Row>, artistId: string, isOwnChannel: bool, localise: LayoutTitle -> string): (r: (ItemState, Status))
  {
    match Seqs.FirstIndex(rows, ThrowsForArtist)
    case None =>
      (s.(description := DescriptionAfter(rows, s.description),
          layouts := Appended(s.layouts, LayoutsOf(rows, artistId, isOwnChannel, localise))), Succeeded)
    case Some(k) =>
      (s.(description := DescriptionAfter(rows[..k], s.description),
          layouts := Appended(s.layouts, LayoutsOf(rows[..k], artistId, isOwnChannel, localise))), Threw(ClassCastException))
  }

  /** An artist's rows succeed exactly when no item row's view-more cast throws. */
  lemma ArtistRowsOutcome(s: ItemState, rows: seq<Row>, artistId: string, isOwnChannel: bool, localise: LayoutTitle -> string)
    ensures var r := ArtistRowsState(s, rows, artistId, isOwnChannel, localise);
      && (r.1 == Succeeded || r.1 == Threw(ClassCastException))
      && (r.1 == Succeeded <==> forall i :: 0 <= i < |rows| ==> !ThrowsForArtist(rows[i]))
  {
  }

  /** The state after the rows of `prefix`, none of which stopped the loop. */
  function RowsSoFar(s: ItemState, prefix: seq<Row>, itemType: ItemType, artistId: string, isOwnChannel: bool, localise: LayoutTitle -> string): ItemState
  {
    if itemType == Artist then
      s.(description := DescriptionAfter(prefix, s.description),
        layouts := Appended(s.layouts, LayoutsOf(prefix, artistId, isOwnChannel, localise)))
    else s.(description := DescriptionAfter(prefix, s.description))
  }

  lemma RowsStepDescription(s: ItemState, rows: seq<Row>, i: nat, itemType: ItemType, artistId: string, isOwnChannel: bool, localise: LayoutTitle -> string)
    requires i < |rows| && HasDescription(rows[i])
    ensures RowsSoFar(s, rows[..i + 1], itemType, artistId, isOwnChannel, localise) ==
      RowsSoFar(s, rows[..i], itemType, artistId, isOwnChannel, localise).(description := rows[i].description)
  {
    assert rows[..i + 1][..i] == rows[..i];
    var before := LayoutsOf(rows[..i], artistId, isOwnChannel, localise);
    assert LayoutsOf(rows[..i + 1], artistId, isOwnChannel, localise) == before + [];
    assert before + [] == before;
  }

  lemma RowsStepLayout(s: ItemState, rows: seq<Row>, i: nat, artistId: string, isOwnChannel: bool, localise: LayoutTitle -> string)
    requires i < |rows| && IsItemRow(rows[i])
    ensures var before := RowsSoFar(s, rows[..i], Artist, artistId, isOwnChannel, localise);
      RowsSoFar(s, rows[..i + 1], Artist, artistId, isOwnChannel, localise) ==
      before.(layouts := Appended(before.layouts, [RowLayout(rows[i], i, artistId, isOwnChannel, localise)]))
  {
    assert rows[..i + 1][..i] == rows[..i];
    AppendedStep(s.layouts, LayoutsOf(rows[..i], artistId, isOwnChannel, localise), RowLayout(rows[i], i, artistId, isOwnChannel, localise));
  }

  lemma PlaylistStopsAt(s: ItemState, rows: seq<Row>, i: nat, artistId: string, isOwnChannel: bool, localise: LayoutTitle -> string)
    requires i < |rows| && IsItemRow(rows[i]) && forall j :: 0 <= j < i ==> !IsItemRow(rows[j])
    ensures var token := RowToken(rows[i]);
      PlaylistRowsState(s, rows) == RowsSoFar(s, rows[..i], Playlist, artistId, isOwnChannel, localise).(
        items := Some(Songs(ItemsOf(rows[i].entries))),
        continuation := if token.Some? then Some(Continuation(token.value, PlaylistContinuation, None)) else None,
        itemSetIds := SetIds(rows[i].entries))
  {
    assert Seqs.FirstIndex(rows, IsItemRow) == Some(i);
  }

  lemma ArtistStopsAt(s: ItemState, rows: seq<Row>, i: nat, artistId: string, isOwnChannel: bool, localise: LayoutTitle -> string)
    requires i < |rows| && ThrowsForArtist(rows[i]) && forall j :: 0 <= j < i ==> !ThrowsForArtist(rows[j])
    ensures ArtistRowsState(s, rows, artistId, isOwnChannel, localise) ==
      (RowsSoFar(s, rows[..i], Artist, artistId, isOwnChannel, localise), Threw(ClassCastException))
  {
    assert Seqs.FirstIndex(rows, ThrowsForArtist) == Some(i);
  }

  lemma RowsDone(s: ItemState, rows: seq<Row>, itemType: ItemType, artistId: string, isOwnChannel: bool, localise: LayoutTitle -> string)
    requires itemType == Playlist ==> forall j :: 0 <= j < |rows| ==> !IsItemRow(rows[j])
    requires itemType == Artist ==> forall j :: 0 <= j < |rows| ==> !ThrowsForArtist(rows[j])
    ensures itemType == Playlist ==> PlaylistRowsState(s, rows) == RowsSoFar(s, rows, itemType, artistId, isOwnChannel, localise)
    ensures itemType == Artist ==>
      ArtistRowsState(s, rows, artistId, isOwnChannel, localise) == (RowsSoFar(s, rows, itemType, artistId, isOwnChannel, localise), Succeeded)
  {
  }

  /** The loop over the section rows. */
  method ApplyRows(item: MediaItemData, rows: seq<Row>, localise: LayoutTitle -> string) returns (r: Status)
    requires item.itemType != Song
    modifies item
    ensures item.itemType == Playlist ==> r == Succeeded && item.State() == PlaylistRowsState(old(item.State()), rows)
    ensures item.itemType == Artist ==>
      (item.State(), r) == ArtistRowsState(old(item.State()), rows, item.id, item.isOwnChannel, localise)
  {
    ghost var s0 := item.State();
    var i := 0;
    while i < |rows|
      invariant 0 <= i <= |rows|
      invariant RowsContinue(rows, i, item.itemType)
      invariant item.State() == RowsSoFar(s0, rows[..i], item.itemType, item.id, item.isOwnChannel, localise)
    {
      var stop;
      r, stop := ApplyRow(item, rows, i, localise, s0);
      if stop {
        return;
      }
      i := i + 1;
    }
    assert rows[..i] == rows;
    RowsDone(s0, rows, item.itemType, item.id, item.isOwnChannel, localise);
    return Succeeded;
  }

  /** No row before `i` ended the loop. */
  predicate RowsContinue(rows: seq<Row>, i: nat, itemType: ItemType)
    requires i <= |rows|
  {
    (itemType == Playlist ==> forall j :: 0 <= j < i ==> !IsItemRow(rows[j])) &&
    (itemType == Artist ==> forall j :: 0 <= j < i ==> !ThrowsForArtist(rows[j]))
  }

  /**
   * The body of the row loop for row `i`: a description row only sets the
   * description; a playlist's first item row sets its items and stops the
   * loop; an artist's item row appends a layout, or stops it by throwing.
   */
  method ApplyRow(item: MediaItemData, rows: seq<Row>, i: nat, localise: LayoutTitle -> string, ghost s0: ItemState)
    returns (r: Status, stop: bool)
    requires i < |rows| && item.itemType != Song
    requires RowsContinue(rows, i, item.itemType)
    requires item.State() == RowsSoFar(s0, rows[..i], item.itemType, item.id, item.isOwnChannel, localise)
    modifies item
    ensures !stop ==> r == Succeeded && RowsContinue(rows, i + 1, item.itemType)
    ensures !stop ==> item.State() == RowsSoFar(s0, rows[..i + 1], item.itemType, item.id, item.isOwnChannel, localise)
    ensures stop && item.itemType == Playlist ==> r == Succeeded && item.State() == PlaylistRowsState(s0, rows)
    ensures stop && item.itemType == Artist ==>
      (item.State(), r) == ArtistRowsState(s0, rows, item.id, item.isOwnChannel, localise)
  {
    var row := rows[i];
    if row.description.Some? {
      RowsStepDescription(s0, rows, i, item.itemType, item.id, item.isOwnChannel, localise);
      item.description := row.description;
      return Succeeded, false;
    }
    if item.itemType == Playlist {
      PlaylistStopsAt(s0, rows, i, item.id, item.isOwnChannel, localise);
      SetPlaylistRow(item, row);
      return Succeeded, true;
    }
    r := AddArtistLayout(item, row, i, localise);
    if r != Succeeded {
      ArtistStopsAt(s0, rows, i, item.id, item.isOwnChannel, localise);
      return r, true;
    }
    RowsStepLayout(s0, rows, i, item.id, item.isOwnChannel, localise);
    return r, false;
  }

  /** A playlist's first item row: its songs, its continuation and its set ids. */
  method SetPlaylistRow(item: MediaItemData, row: Row)
    modifies item
    ensures var token := RowToken(row);
      item.State() == old(item.State()).(
        items := Some(Songs(ItemsOf(row.entries))),
        continuation := if token.Some? then Some(Continuation(token.value, PlaylistContinuation, None)) else None,
        itemSetIds := SetIds(row.entries))
  {
    var token := RowToken(row);
    item.items := Some(Songs(ItemsOf(row.entries)));
    item.continuation := if token.Some? then Some(Continuation(token.value, PlaylistContinuation, None)) else None;
    item.itemSetIds := SetIds(row.entries);
  }

  /** An artist's item row: its layout, appended unless the view-more cast throws. */
  method AddArtistLayout(item: MediaItemData, row: Row, index: nat, localise: LayoutTitle -> string) returns (r: Status)
    requires IsItemRow(row)
    modifies item
    ensures r == Succeeded <==> !ThrowsForArtist(row)
    ensures r != Succeeded ==> r == Threw(ClassCastException) && item.State() == old(item.State())
    ensures r == Succeeded ==> item.State() == old(item.State()).(
      layouts := Appended(old(item.layouts), [RowLayout(row, index, item.id, item.isOwnChannel, localise)]))
  {
    var mapped := PodcastsMapped(row.entries, item.id);
    var token := RowToken(row);
    var title := LayoutTitleOf(row, item.isOwnChannel);
    var viewMore := row.viewMore;
    if viewMore.Some? && viewMore.value.MediaItemViewMore? {
      if !viewMore.value.isData {
        return Threw(ClassCastException);
      }
      viewMore := ViewMoreAfter(viewMore, title, item.id, localise);
    }
    var layout := Layout(item.id, mapped, title, if index == 0 then NumberedList else Grid, viewMore, token);
    if item.layouts.None? {
      item.layouts := Some([]);
    }
    item.layouts := Some(item.layouts.value + [layout]);
    return Succeeded;
  }

  // ---------------------------------------------------------------------------
  // Radio playlists
  // ---------------------------------------------------------------------------

  /**
   * A radio playlist: the songs of its playlist shelf, the shelf's radio
   * continuation (a song continuation carrying the playlist's id) and the
   * header's thumbnails; a missing step of the path to the shelf throws.
   */
  function RadioState(s: ItemState, browse: BrowseResponse, id: string): (r: (ItemState, Status))
  {
    match RadioShelf(browse)
    case Failure(e) => (s, Threw(e))
    case Success(shelf) =>
      if shelf.contents.None? then (s, Threw(NullPointerException))
      else
        var token := RadioToken(shelf);
        (s.(items := Some(RadioSongs(shelf.contents.value)),
            continuation := if token.Some? then Some(Continuation(token.value, SongContinuation, Some(id))) else s.continuation,
            thumbnails := if browse.header.Some? then browse.header.value.thumbnails else s.thumbnails),
         Succeeded)
  }

  /** What a radio's response sets, and that a missing step of the path throws and changes nothing. */
  lemma RadioEffects(s: ItemState, browse: BrowseResponse, id: string)
    ensures var r := RadioState(s, browse, id);
      && (r.1 == Succeeded || r.1 == Threw(NullPointerException) || r.1 == Threw(IndexOutOfBoundsException))
      && (r.1 != Succeeded ==> r.0 == s)
      && (r.1 == Succeeded <==> RadioShelf(browse).Success? && RadioShelf(browse).value.contents.Some?)
      && (r.1 == Succeeded ==> r.0.items == Some(RadioSongs(RadioShelf(browse).value.contents.value)))
      && (r.1 == Succeeded ==> forall x :: x in r.0.items.value <==> Some(x) in RadioShelf(browse).value.contents.value && x.itemType == Song)
      && (r.1 == Succeeded ==> var token := RadioToken(RadioShelf(browse).value); (token.Some? ==> r.0.continuation == Some(Continuation(token.value, SongContinuation, Some(id)))) && (token.None? ==> r.0.continuation == s.continuation))
      && (r.1 == Succeeded ==> r.0.thumbnails == if browse.header.Some? then browse.header.value.thumbnails else s.thumbnails)
      && (r.0 == s.(items := r.0.items, continuation := r.0.continuation, thumbnails := r.0.thumbnails))
  {
    var shelf := RadioShelf(browse);
    if shelf.Success? && shelf.value.contents.Some? {
      var contents := shelf.value.contents.value;
      forall x ensures x in RadioSongs(contents) <==> Some(x) in contents && x.itemType == Song {
        RadioSongsCount(contents, x);
      }
    }
  }

  method ApplyRadio(item: MediaItemData, browse: BrowseResponse) returns (r: Status)
    modifies item
    ensures (item.State(), r) == RadioState(old(item.State()), browse, item.id)
  {
    var shelf := RadioShelf(browse);
    if shelf.Failure? {
      return Threw(shelf.error);
    }
    var contents := shelf.value.contents;
    if contents.None? {
      return Threw(NullPointerException);
    }
    item.items := Some(RadioSongs(contents.value));
    var token := RadioToken(shelf.value);
    if token.Some? {
      item.continuation := Some(Continuation(token.value, SongContinuation, Some(item.id)));
    }
    if browse.header.Some? {
      item.thumbnails := browse.header.value.thumbnails;
    }
    return Succeeded;
  }

  // ---------------------------------------------------------------------------
  // processDefaultResponse
  // ---------------------------------------------------------------------------

  /** What the section rows do to a playlist or an artist. */
  function RowsState(s: ItemState, rows: seq<Row>, k: ItemKind, localise: LayoutTitle -> string): (ItemState, Status)
    requires k.itemType != Song
  {
    if k.itemType == Playlist then (PlaylistRowsState(s, rows), Succeeded)
    else ArtistRowsState(s, rows, k.id, k.isOwnChannel, localise)
  }

  /** The rows never fail, and touch neither the load flags nor the database. */
  lemma RowsEffects(s: ItemState, rows: seq<Row>, k: ItemKind, localise: LayoutTitle -> string)
    requires k.itemType != Song
    ensures var r := RowsState(s, rows, k, localise);
      && (r.1 == Succeeded || r.1 == Threw(ClassCastException))
      && (r.0.loaded == s.loaded && r.0.saved == s.saved)
      && (r.0.dbItems == s.dbItems && r.0.dbSaved == s.dbSaved && r.0.dbContinuation == s.dbContinuation)
  {
  }

  /** The header of a non-radio browse response, when it has one. */
  function HeaderStep(s: ItemState, browse: BrowseResponse, k: ItemKind, parsers: Parsers): (ItemState, Status)
  {
    if browse.header.Some? then HeaderState(s, browse.header.value, k.itemType, parsers) else (s, Succeeded)
  }

  /**
   * `processDefaultResponse`: a song's `next` response goes to `processSong`;
   * any other item's browse response, once decoded, fills a radio from its
   * playlist shelf, or anything else from its header and its section rows.
   * Only a body that does not decode is a failure; the rest throws.
   */
  function DefaultResponseState(s: ItemState, k: ItemKind, body: ResponseBody, parsers: Parsers): (r: (ItemState, Status))
  {
    if k.itemType == Song then SongNext(s, body.next)
    else
      match body.browse
      case Failure(e) => (s, Failed(e))
      case Success(browse) =>
        if k.itemType == Playlist && k.isRadio then RadioState(s, browse, k.id)
        else
          var hs := HeaderStep(s, browse, k, parsers);
          if hs.1 != Succeeded then hs
          else
            match SectionRows(browse)
            case Failure(e) => (hs.0, Threw(e))
            case Success(rows) => RowsState(hs.0, rows, k, parsers.localise)
  }

  /** Processing a response fails only when the body does not decode, and never marks the item loaded nor writes the database. */
  lemma DefaultResponseEffects(s: ItemState, k: ItemKind, body: ResponseBody, parsers: Parsers)
    ensures var r := DefaultResponseState(s, k, body, parsers);
      && (k.itemType == Song ==> r == SongNext(s, body.next))
      && (k.itemType != Song ==> (r.1.Failed? <==> body.browse.Failure?))
      && (k.itemType != Song && body.browse.Failure? ==> r == (s, Failed(body.browse.error)))
      && ((k.itemType != Song && body.browse.Success? && body.browse.value.header.Some? && body.browse.value.header.value.title.None? && !(k.itemType == Playlist && k.isRadio)) ==> r == (s, Threw(NullPointerException)))
      && (r.0.loaded == s.loaded && r.0.saved == s.saved)
      && (r.0.dbItems == s.dbItems && r.0.dbSaved == s.dbSaved && r.0.dbContinuation == s.dbContinuation)
  {
    if k.itemType == Song {
      SongNextEffects(s, body.next);
    } else if body.browse.Success? {
      var browse := body.browse.value;
      if k.itemType == Playlist && k.isRadio {
        RadioEffects(s, browse, k.id);
      } else {
        var hs := HeaderStep(s, browse, k, parsers);
        if browse.header.Some? {
          HeaderEffects(s, browse.header.value, k.itemType, parsers);
        }
        if hs.1 == Succeeded && SectionRows(browse).Success? {
          RowsEffects(hs.0, SectionRows(browse).value, k, parsers.localise);
        }
      }
    }
  }

  /**
   * An artist page that loads appends one layout per item row of its
   * section list to the layouts it already had.
   */
  lemma ArtistPageLayouts(s: ItemState, k: ItemKind, body: ResponseBody, parsers: Parsers)
    requires k.itemType == Artist
    requires DefaultResponseState(s, k, body, parsers).1 == Succeeded
    ensures body.browse.Success? && SectionRows(body.browse.value).Success?
    ensures DefaultResponseState(s, k, body, parsers).0.layouts ==
      Appended(s.layouts, LayoutsOf(SectionRows(body.browse.value).value, k.id, k.isOwnChannel, parsers.localise))
  {
    var browse := body.browse.value;
    var hs := HeaderStep(s, browse, k, parsers);
    assert hs.0.layouts == s.layouts;
  }

  /**
   * A playlist page that loads takes its items and set ids from the first
   * section row with items, and keeps its old items when there is none.
   */
  lemma PlaylistPageItems(s: ItemState, k: ItemKind, body: ResponseBody, parsers: Parsers)
    requires k.itemType == Playlist && !k.isRadio
    requires DefaultResponseState(s, k, body, parsers).1 == Succeeded
    ensures body.browse.Success? && SectionRows(body.browse.value).Success?
    ensures var rows := SectionRows(body.browse.value).value;
      var r := DefaultResponseState(s, k, body, parsers).0;
      match Seqs.FirstIndex(rows, IsItemRow)
      case None => r.items == s.items && r.itemSetIds == s.itemSetIds
      case Some(j) => r.items == Some(Songs(ItemsOf(rows[j].entries))) && r.itemSetIds == SetIds(rows[j].entries)
  {
    var browse := body.browse.value;
    var hs := HeaderStep(s, browse, k, parsers);
    if browse.header.Some? {
      HeaderEffects(s, browse.header.value, k.itemType, parsers);
    }
    assert hs.0.items == s.items && hs.0.itemSetIds == s.itemSetIds;
    var rows := SectionRows(browse).value;
    assert DefaultResponseState(s, k, body, parsers).0 == PlaylistRowsState(hs.0, rows);
  }

  /** `processDefaultResponse` */
  method ProcessDefaultResponse(item: MediaItemData, body: ResponseBody, parsers: Parsers) returns (r: Status)
    modifies item
    ensures (item.State(), r) == DefaultResponseState(old(item.State()), item.Kind(), body, parsers)
  {
    if item.itemType == Song {
      r := ProcessSong(item, body.next);
      return;
    }
    if body.browse.Failure? {
      return Failed(body.browse.error);
    }
    var browse := body.browse.value;
    if item.itemType == Playlist && item.isRadio {
      r := ApplyRadio(item, browse);
      return;
    }
    ghost var hs := HeaderStep(item.State(), browse, item.Kind(), parsers);
    if browse.header.Some? {
      r := ApplyHeader(item, browse.header.value, parsers);
      if r != Succeeded {
        return;
      }
    }
    assert item.State() == hs.0 && hs.1 == Succeeded;
    var rows := SectionRows(browse);
    if rows.Failure? {
      return Threw(rows.error);
    }
    r := ApplyRows(item, rows.value, parsers.localise);
  }
}
