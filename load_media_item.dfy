/**
 * Loading a media item (`loadMediaItemData`, `processSong`,
 * `processDefaultResponse`): the request sent for an item, and how the
 * decoded response fills the item's fields. The network is a function from
 * request to response, the continuation page a given result, and the
 * localised-string helpers and the duration and subscriber parsers are
 * function parameters.
 */
module LoadMediaItem {
  import opened Wrappers
  import opened MediaItem
  import Text
  import Seqs

  const NextPath: string := "/youtubei/v1/next"
  const BrowsePath: string := "/youtubei/v1/browse"
  const PlayerPath: string := "/youtubei/v1/player"

  /** The helpers whose source is not part of this model, with the data language already applied. */
  datatype Parsers = Parsers(
    duration: string -> Option<int>,          // `parseYoutubeDurationString`
    subscribers: string -> Option<int>,       // `parseYoutubeSubscribersString`
    localise: LayoutTitle -> string)          // `LocalisedYoutubeString.getString`

  // ---------------------------------------------------------------------------
  // Requests
  // ---------------------------------------------------------------------------

  /** The browse id requested for an item that is not a song. */
  function BrowseIdFor(itemType: ItemType, id: string): string
  {
    if itemType == Playlist && !Text.StartsWith(id, "VL") && !Text.StartsWith(id, "MPREb_") then "VL" + id else id
  }

  /** The first request of a load: `next` for a song, `browse` for anything else. */
  function RequestFor(itemType: ItemType, id: string): (r: Request)
    ensures r.path == NextPath <==> itemType == Song
    ensures r.path == BrowsePath <==> itemType != Song
    ensures itemType == Song ==> r.body == map[
      "enablePersistentPlaylistPanel" := BoolValue(true),
      "isAudioOnly" := BoolValue(true),
      "videoId" := StringValue(id)]
    ensures itemType != Song ==> r.body.Keys == {"browseId"}
    ensures itemType == Artist ==> r.body["browseId"] == StringValue(id)
    ensures r.context == Mobile <==> itemType == Artist
  {
    if itemType == Song then
      Request(NextPath, map[
        "enablePersistentPlaylistPanel" := BoolValue(true),
        "isAudioOnly" := BoolValue(true),
        "videoId" := StringValue(id)], Base)
    else
      Request(BrowsePath, map["browseId" := StringValue(BrowseIdFor(itemType, id))],
        if itemType == Artist then Mobile else Base)
  }

  /**
   * A playlist is always browsed under an id with the "VL" or "MPREb_"
   * prefix: its own id when it already has one, "VL" + id otherwise.
   * Browsing under the requested id would request the same id again.
   */
  lemma PlaylistBrowseId(id: string)
    ensures var b := BrowseIdFor(Playlist, id);
      (Text.StartsWith(b, "VL") || Text.StartsWith(b, "MPREb_")) &&
      (b == id <==> Text.StartsWith(id, "VL") || Text.StartsWith(id, "MPREb_")) &&
      (b != id ==> b == "VL" + id) &&
      BrowseIdFor(Playlist, b) == b
  {
    var b := BrowseIdFor(Playlist, id);
    if b != id {
      assert ("VL" + id)[..2] == "VL";
      assert |b| == |id| + 2;
    }
  }

  /** The fallback request: the `player` endpoint with the video id. */
  function PlayerRequest(id: string): (r: Request)
    ensures r.path == PlayerPath && r.body == map["videoId" := StringValue(id)] && r.context == Base
  {
    Request(PlayerPath, map["videoId" := StringValue(id)], Base)
  }

  // ---------------------------------------------------------------------------
  // Subtitle runs
  // ---------------------------------------------------------------------------

  predicate IsArtistRun(run: Run)
  {
    run.browse.Some? && run.browse.value.itemType == Some(Artist)
  }

  /** The artist named by the first run whose browse endpoint is an artist, if any. */
  function ArtistOfRuns(runs: seq<Run>): (r: Option<ArtistLink>)
    ensures r.None? <==> forall i :: 0 <= i < |runs| ==> !IsArtistRun(runs[i])
    ensures r.Some? ==>
      exists i :: 0 <= i < |runs| && IsArtistRun(runs[i]) &&
        (forall j :: 0 <= j < i ==> !IsArtistRun(runs[j])) &&
        r.value == ArtistData(runs[i].browse.value.browseId, Some(runs[i].text))
  {
    match Seqs.FirstIndex(runs, IsArtistRun)
    case None => None
    case Some(i) => Some(ArtistData(runs[i].browse.value.browseId, Some(runs[i].text)))
  }

  predicate IsDigitRun(run: Run)
  {
    Text.AllDigits(run.text)
  }

  /** Run `i` is the last run whose text is all digits (an empty text counts). */
  predicate IsLastDigitRun(runs: seq<Run>, i: int)
  {
    0 <= i < |runs| && IsDigitRun(runs[i]) && forall j :: i < j < |runs| ==> !IsDigitRun(runs[j])
  }

  /**
   * The year: the integer of the last all-digit run, none without one; a
   * failure where `toInt` throws (an empty or too large digit string).
   */
  function YearOf(runs: seq<Run>): (r: Result<Option<int>, Error>)
    ensures r == Success(None) <==> forall i :: 0 <= i < |runs| ==> !IsDigitRun(runs[i])
    ensures r.Failure? ==> r.error == NumberFormatException
    ensures r != Success(None) ==>
      exists i :: IsLastDigitRun(runs, i) &&
        (r.Failure? <==> |runs[i].text| == 0 || Text.DecimalValue(runs[i].text) > Text.MaxInt) &&
        (r.Success? ==> r.value == Some(Text.DecimalValue(runs[i].text)))
  {
    match Seqs.LastIndex(runs, IsDigitRun)
    case None => Success(None)
    case Some(i) =>
      match Text.ToInt(runs[i].text)
      case None => Failure(NumberFormatException)
      case Some(y) => Success(Some(y))
  }

  /** There is at most one last all-digit run. */
  lemma LastDigitRunUnique(runs: seq<Run>, i: int, j: int)
    requires IsLastDigitRun(runs, i) && IsLastDigitRun(runs, j)
    ensures i == j
  {
  }

  /** A year written as a number is read back as that number. */
  lemma YearOfDecimal(runs: seq<Run>, i: nat, year: nat)
    requires IsLastDigitRun(runs, i) && runs[i].text == Text.DecimalString(year) && year <= Text.MaxInt
    ensures YearOf(runs) == Success(Some(year))
  {
    Text.DecimalValueOfString(year);
    assert Seqs.LastIndex(runs, IsDigitRun) == Some(i);
  }

  /** An empty run counts as all digits, so when it is the last such run the year fails to parse. */
  lemma YearOfEmptyRun(runs: seq<Run>, i: nat)
    requires IsLastDigitRun(runs, i) && runs[i].text == ""
    ensures YearOf(runs) == Failure(NumberFormatException)
  {
    assert Seqs.LastIndex(runs, IsDigitRun) == Some(i);
  }

  /** The item count read from the second-to-last run of the second subtitle: its digits only. */
  function ItemCountOf(text: string): Option<int>
  {
    Text.ToInt(Text.DigitsOf(text))
  }

  /** A count written among non-digit words is read back as that count. */
  lemma ItemCountOfWords(before: string, count: nat, after: string)
    requires forall i :: 0 <= i < |before| ==> !Text.IsDigit(before[i])
    requires forall i :: 0 <= i < |after| ==> !Text.IsDigit(after[i])
    requires count <= Text.MaxInt
    ensures ItemCountOf(before + Text.DecimalString(count) + after) == Some(count)
  {
    var d := Text.DecimalString(count);
    Text.DigitsOfAppend(before + d, after);
    Text.DigitsOfAppend(before, d);
    Text.DigitsOfNoDigits(before);
    Text.DigitsOfNoDigits(after);
    assert Text.DigitsOf(before + d + after) == d;
    Text.ToIntOfDecimalString(count);
  }

  // ---------------------------------------------------------------------------
  // Row contents
  // ---------------------------------------------------------------------------

  /** All-or-nothing set ids: every entry's set id in order, or none if any entry lacks one. */
  function SetIds(entries: seq<Entry>): (r: Option<seq<string>>)
    ensures r.Some? <==> forall i :: 0 <= i < |entries| ==> entries[i].setId.Some?
    ensures r.Some? ==> |r.value| == |entries|
    ensures r.Some? ==> forall i :: 0 <= i < |entries| ==> r.value[i] == entries[i].setId.value
  {
    if |entries| == 0 then Some([])
    else
      match (entries[0].setId, SetIds(entries[1..]))
      case (Some(id), Some(rest)) => Some([id] + rest)
      case _ => None
  }

  function ItemsOf(entries: seq<Entry>): (r: seq<Listed>)
    ensures |r| == |entries| && forall i :: 0 <= i < |entries| ==> r[i] == entries[i].item
  {
    if |entries| == 0 then [] else [entries[0].item] + ItemsOf(entries[1..])
  }

  /** `filterIsInstance<SongData>()`: the songs, in order, each as often as it occurs. */
  function Songs(items: seq<Listed>): (r: seq<Listed>)
    ensures forall x :: x in r <==> x in items && x.itemType == Song
    ensures |r| <= |items|
  {
    if |items| == 0 then []
    else
      (if items[0].itemType == Song then [items[0]] else []) + Songs(items[1..])
  }

  /**
   * `Songs` is the in-order filter: it keeps a single item exactly when it
   * is a song, and takes a list apart at any point.
   */
  lemma {:induction false} SongsIsFilter(a: seq<Listed>, b: seq<Listed>, x: Listed)
    ensures Songs([x]) == if x.itemType == Song then [x] else []
    ensures Songs(a + b) == Songs(a) + Songs(b)
    decreases |a|
  {
    assert [x][1..] == [];
    if |a| == 0 {
      assert a + b == b;
    } else {
      var head := if a[0].itemType == Song then [a[0]] else [];
      assert (a + b)[0] == a[0] && (a + b)[1..] == a[1..] + b;
      SongsIsFilter(a[1..], b, x);
      calc {
        Songs(a + b);
        head + Songs(a[1..] + b);
        head + (Songs(a[1..]) + Songs(b));
        (head + Songs(a[1..])) + Songs(b);
      }
    }
  }

  /** `Songs` keeps each song as often as it occurs, and no other item. */
  lemma {:induction false} SongsCount(items: seq<Listed>, x: Listed)
    ensures multiset(Songs(items))[x] == if x.itemType == Song then multiset(items)[x] else 0
  {
    if |items| > 0 {
      assert items == [items[0]] + items[1..];
      SongsCount(items[1..], x);
    }
  }

  /** The radio shelf's `mapNotNull`: the decoded entries that are songs, in order, each as often as it occurs. */
  function RadioSongs(contents: seq<Option<Listed>>): (r: seq<Listed>)
    ensures |r| <= |contents|
  {
    if |contents| == 0 then []
    else
      (if contents[0].Some? && contents[0].value.itemType == Song then [contents[0].value] else [])
        + RadioSongs(contents[1..])
  }

  /**
   * `RadioSongs` is the in-order `mapNotNull`: a single entry gives its item
   * exactly when it decoded to a song, and a list is taken apart at any point.
   */
  lemma {:induction false} RadioSongsIsMapNotNull(a: seq<Option<Listed>>, b: seq<Option<Listed>>, c: Option<Listed>)
    ensures RadioSongs([c]) == if c.Some? && c.value.itemType == Song then [c.value] else []
    ensures RadioSongs(a + b) == RadioSongs(a) + RadioSongs(b)
  {
    assert [c][1..] == [];
    RadioSongsAppend(a, b);
  }

  lemma {:induction false} RadioSongsAppend(a: seq<Option<Listed>>, b: seq<Option<Listed>>)
    ensures RadioSongs(a + b) == RadioSongs(a) + RadioSongs(b)
    decreases |a|
  {
    if |a| == 0 {
      assert a + b == b;
    } else {
      var head := if a[0].Some? && a[0].value.itemType == Song then [a[0].value] else [];
      assert (a + b)[0] == a[0] && (a + b)[1..] == a[1..] + b;
      RadioSongsAppend(a[1..], b);
      assert RadioSongs(a + b) == head + RadioSongs(a[1..] + b);
      assert RadioSongs(a) == head + RadioSongs(a[1..]);
    }
  }

  /** `RadioSongs` keeps each song entry as often as it occurs, and nothing else. */
  lemma {:induction false} RadioSongsCount(contents: seq<Option<Listed>>, x: Listed)
    ensures multiset(RadioSongs(contents))[x] == if x.itemType == Song then multiset(contents)[Some(x)] else 0
    ensures x in RadioSongs(contents) <==> Some(x) in contents && x.itemType == Song
  {
    if |contents| > 0 {
      assert contents == [contents[0]] + contents[1..];
      RadioSongsCount(contents[1..], x);
    }
  }

  /** A podcast song takes the artist; every other entry's item is kept as it is. */
  function PodcastsMapped(entries: seq<Entry>, artistId: string): (r: seq<Listed>)
    ensures |r| == |entries|
    ensures forall i :: 0 <= i < |entries| ==>
      r[i] == if entries[i].item.itemType == Song && entries[i].item.isPodcast
              then entries[i].item.(artist := Some(ArtistRef(artistId))) else entries[i].item
  {
    if |entries| == 0 then []
    else
      var x := entries[0].item;
      [if x.itemType == Song && x.isPodcast then x.(artist := Some(ArtistRef(artistId))) else x]
        + PodcastsMapped(entries[1..], artistId)
  }

  /** `musicPlaylistShelfRenderer?.continuations?.firstOrNull()?.nextContinuationData?.continuation` */
  function RowToken(row: Row): Option<string>
  {
    if row.shelf.Some? && row.shelf.value.continuations.Some? && |row.shelf.value.continuations.value| > 0
    then row.shelf.value.continuations.value[0].next
    else None
  }

  /** The radio shelf's `nextRadioContinuationData` token. */
  function RadioToken(shelf: Shelf): Option<string>
  {
    if shelf.continuations.Some? && |shelf.continuations.value| > 0
    then shelf.continuations.value[0].nextRadio
    else None
  }

  // ---------------------------------------------------------------------------
  // Response paths
  // ---------------------------------------------------------------------------

  /**
   * The rows of the section list: the first tab's, or the two-column
   * layout's secondary contents; a missing part is an exception.
   */
  function SectionRows(browse: BrowseResponse): (r: Result<seq<Row>, Error>)
    ensures browse.contents.None? ==> r == Failure(NullPointerException)
    ensures r.Failure? ==> r.error in {NullPointerException, NoSuchElementException}
    ensures r.Success? <==> (browse.contents.Some? &&
      if browse.contents.value.singleColumn.Some?
      then |browse.contents.value.singleColumn.value| > 0 && browse.contents.value.singleColumn.value[0].content.Some?
      else browse.contents.value.twoColumn.Some?)
    ensures r.Success? && browse.contents.value.singleColumn.Some? ==>
      r.value == browse.contents.value.singleColumn.value[0].content.value.contents.GetOr([])
    ensures r.Success? && browse.contents.value.singleColumn.None? ==>
      r.value == browse.contents.value.twoColumn.value.contents.GetOr([])
  {
    match browse.contents
    case None => Failure(NullPointerException)
    case Some(c) =>
      match c.singleColumn
      case Some(tabs) =>
        if |tabs| == 0 then Failure(NoSuchElementException)
        else if tabs[0].content.None? then Failure(NullPointerException)
        else Success(tabs[0].content.value.contents.GetOr([]))
      case None =>
        if c.twoColumn.None? then Failure(NullPointerException)
        else Success(c.twoColumn.value.contents.GetOr([]))
  }

  /** The radio's playlist shelf: the first row of the first tab, every step of which must exist. */
  function RadioShelf(browse: BrowseResponse): (r: Result<Shelf, Error>)
    ensures r.Failure? ==> r.error in {NullPointerException, IndexOutOfBoundsException}
    ensures r.Success? ==> exists tabs: seq<Tab>, rows: seq<Row> ::
      browse.contents.Some? && browse.contents.value.singleColumn == Some(tabs) &&
      |tabs| > 0 && tabs[0].content.Some? && tabs[0].content.value.contents == Some(rows) &&
      |rows| > 0 && rows[0].shelf == Some(r.value)
    ensures r.Success? <==> (browse.contents.Some? && browse.contents.value.singleColumn.Some? &&
      var tabs := browse.contents.value.singleColumn.value;
      |tabs| > 0 && tabs[0].content.Some? && tabs[0].content.value.contents.Some? &&
      |tabs[0].content.value.contents.value| > 0 && tabs[0].content.value.contents.value[0].shelf.Some?)
  {
    if browse.contents.None? || browse.contents.value.singleColumn.None? then Failure(NullPointerException)
    else
      var tabs := browse.contents.value.singleColumn.value;
      if |tabs| == 0 then Failure(IndexOutOfBoundsException)
      else if tabs[0].content.None? || tabs[0].content.value.contents.None? then Failure(NullPointerException)
      else
        var rows := tabs[0].content.value.contents.value;
        if |rows| == 0 then Failure(IndexOutOfBoundsException)
        else if rows[0].shelf.None? then Failure(NullPointerException)
        else Success(rows[0].shelf.value)
  }

  /** `tabs.getOrNull(i)`'s browse id. */
  function TabBrowseId(tabs: seq<NextTab>, i: nat): Option<string>
  {
    if i < |tabs| then tabs[i].browseId else None
  }

  /** The queue's first video of the first tab; a missing step is an exception, reported as a failure. */
  function FirstVideo(tabs: seq<NextTab>): (r: Result<Video, Error>)
    ensures r.Success? <==> |tabs| > 0 && tabs[0].queue.Some? && |tabs[0].queue.value| > 0 && tabs[0].queue.value[0].Some?
    ensures r.Success? ==> r.value == tabs[0].queue.value[0].value
  {
    if |tabs| == 0 then Failure(IndexOutOfBoundsException)
    else if tabs[0].queue.None? then Failure(NullPointerException)
    else if |tabs[0].queue.value| == 0 then Failure(NoSuchElementException)
    else if tabs[0].queue.value[0].None? then Failure(NullPointerException)
    else Success(tabs[0].queue.value[0].value)
  }
}
