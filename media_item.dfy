/**
 * The data a media-item load works on: the mutable item record, the
 * already-decoded server responses (an abstract tree of optional fields) and
 * the request the loader sends. Helpers whose source is not part of this
 * model (`getMediaItemType`, `toMediaItemData`, `getMediaItemsAndSetIds`,
 * `getViewMore`, `getArtist`, `fromThumbnails`) appear as fields the
 * decoder has already filled in.
 */
module MediaItem {
  import opened Wrappers

  /** `MediaItemType`, as far as the loader distinguishes it. */
  datatype ItemType = Song | Artist | Playlist

  /** What escapes or is reported by a load step. */
  datatype Error =
    | RequestError(message: string)     // a failed request, continuation load or artist lookup
    | ParseError(message: string)       // the JSON decoder rejected the body
    | NullPointerException              // `!!` on null
    | IndexOutOfBoundsException         // `list[0]` on an empty list
    | NoSuchElementException            // `first()` on an empty list
    | IllegalStateException             // a failed `check`
    | ClassCastException                // a failed `as`
    | NumberFormatException             // `toInt` on an empty or too large digit string

  /**
   * The outcome of a load step: the returned `Result` (success or failure),
   * or an exception that escapes the call.
   */
  datatype Status = Succeeded | Failed(error: Error) | Threw(error: Error)

  /** An artist reference held by an item: a bare `ArtistRef`, or an `ArtistData` with its title. */
  datatype ArtistLink = ArtistRef(id: string) | ArtistData(id: string, title: Option<string>)

  /** `MediaItemLayout.Continuation.Type`, the cases the loader creates and copies. */
  datatype ContinuationType = SongContinuation | PlaylistContinuation | OtherContinuation

  /** `MediaItemLayout.Continuation(token, type, param)`. */
  datatype Continuation = Continuation(token: string, kind: ContinuationType, param: Option<string>)

  /** A decoded list entry (`toMediaItemData`): a data item of some type. */
  datatype Listed = Listed(
    itemType: ItemType,
    id: string,
    isPodcast: bool,               // a song whose `song_type` is PODCAST
    title: Option<string>,
    artist: Option<ArtistLink>)

  /** One element of `getMediaItemsAndSetIds`: the item and its optional playlist set id. */
  datatype Entry = Entry(item: Listed, setId: Option<string>)

  /** `LocalisedYoutubeString` built for a layout title. */
  datatype LayoutTitle = OwnChannelTitle(text: string) | MediaItemPageTitle(text: string, itemType: ItemType)

  /** `getViewMore()`: a media-item view-more (whose item may not be a data item), or any other kind. */
  datatype ViewMore = MediaItemViewMore(target: Listed, isData: bool) | OtherViewMore(name: string)

  datatype LayoutType = NumberedList | Grid

  /** `ArtistLayout`: one section of an artist page. */
  datatype Layout = Layout(
    artistId: string,
    items: seq<Listed>,
    title: Option<LayoutTitle>,
    layoutType: LayoutType,
    viewMore: Option<ViewMore>,
    playlistToken: Option<string>)  // `AccountPlaylistRef(token)`

  // ---------------------------------------------------------------------------
  // Decoded browse response
  // ---------------------------------------------------------------------------

  /** `getMediaItemType()` of a browse endpoint, already resolved. */
  datatype BrowseEndpoint = BrowseEndpoint(browseId: string, itemType: Option<ItemType>)

  /** A text run and its navigation endpoint's browse endpoint, when it has one. */
  datatype Run = Run(text: string, browse: Option<BrowseEndpoint>)

  datatype SubscribeButton = SubscribeButton(channelId: string, subscriberCountText: string, subscribed: bool)

  datatype Header = Header(
    title: Option<string>,                   // `title?.first_text`
    description: Option<string>,             // `description?.first_text`
    thumbnails: Option<string>,              // `fromThumbnails(getThumbnails())`
    subtitle: Option<seq<Run>>,              // `subtitle?.runs`
    secondSubtitle: Option<seq<Run>>,        // `secondSubtitle?.runs`
    subscription: Option<SubscribeButton>)

  /** One element of a shelf's `continuations`. */
  datatype ContinuationData = ContinuationData(next: Option<string>, nextRadio: Option<string>)

  /** `musicPlaylistShelfRenderer`: its decoded entries (`toMediaItemData`, null when undecodable). */
  datatype Shelf = Shelf(contents: Option<seq<Option<Listed>>>, continuations: Option<seq<ContinuationData>>)

  /** One section row. */
  datatype Row = Row(
    description: Option<string>,
    entries: seq<Entry>,                     // `getMediaItemsAndSetIds`
    shelf: Option<Shelf>,
    title: Option<string>,                   // `title?.text`
    viewMore: Option<ViewMore>)              // `getNavigationEndpoint()?.getViewMore()`

  datatype SectionList = SectionList(contents: Option<seq<Row>>)
  datatype Tab = Tab(content: Option<SectionList>)
  datatype Contents = Contents(singleColumn: Option<seq<Tab>>, twoColumn: Option<SectionList>)
  datatype BrowseResponse = BrowseResponse(header: Option<Header>, contents: Option<Contents>)

  // ---------------------------------------------------------------------------
  // Decoded next and player responses
  // ---------------------------------------------------------------------------

  /** `playlistPanelVideoRenderer`: its title and the outcome of `getArtist`. */
  datatype Video = Video(title: string, artist: Result<ArtistLink, Error>)

  /** A tab of the next response: its browse id, and the queue's entries when it has content. */
  datatype NextTab = NextTab(browseId: Option<string>, queue: Option<seq<Option<Video>>>)

  datatype VideoDetails = VideoDetails(videoId: string, title: string, channelId: string)
  datatype PlayerData = PlayerData(videoDetails: Option<VideoDetails>)

  /** A response body, as each decoder reads it (a failure when it cannot). */
  datatype ResponseBody = ResponseBody(
    next: Result<seq<NextTab>, Error>,
    browse: Result<BrowseResponse, Error>,
    player: Result<PlayerData, Error>)

  // ---------------------------------------------------------------------------
  // Requests
  // ---------------------------------------------------------------------------

  datatype BodyValue = BoolValue(b: bool) | StringValue(s: string)
  datatype ContextType = Base | Mobile
  datatype Request = Request(path: string, body: map<string, BodyValue>, context: ContextType)

  /** A continuation page: its items and the next token, if any. */
  datatype Page = Page(items: seq<Listed>, token: Option<string>)

  // ---------------------------------------------------------------------------
  // The item record
  // ---------------------------------------------------------------------------

  /** Every mutable field of an item, for stating what a step changes. */
  datatype ItemState = ItemState(
    title: Option<string>,
    description: Option<string>,
    thumbnails: Option<string>,
    artist: Option<ArtistLink>,
    year: Option<int>,
    totalDuration: Option<int>,
    itemCount: Option<int>,
    items: Option<seq<Listed>>,
    itemSetIds: Option<seq<string>>,
    continuation: Option<Continuation>,
    layouts: Option<seq<Layout>>,
    subscribeChannelId: Option<string>,
    subscriberCount: Option<int>,
    subscribed: Option<bool>,
    lyricsBrowseId: Option<string>,
    relatedBrowseId: Option<string>,
    loaded: bool,
    saved: bool,
    dbItems: seq<string>,
    dbContinuation: Option<Continuation>,
    dbSaved: seq<string>)

  /** The fields of an item fixed when it is created. */
  datatype ItemKind = ItemKind(
    id: string,
    itemType: ItemType,
    isRadio: bool,
    isLocalPlaylist: bool,
    isForItem: bool,
    isOwnChannel: bool)

  /**
   * `MediaItemData` (`SongData`, `PlaylistData` or `ArtistData`). The
   * database side is kept as fields: `dbItems` is the playlist's stored item
   * list, `dbContinuation` its stored continuation, `dbSaved` the ids of list
   * items written to the database and `saved` whether the item itself was.
   */
  class MediaItemData {
    const id: string
    const itemType: ItemType
    const isRadio: bool            // a playlist whose `playlist_type` is RADIO
    const isLocalPlaylist: bool
    const isForItem: bool          // an artist's `is_for_item`
    const isOwnChannel: bool

    var title: Option<string>
    var description: Option<string>
    var thumbnails: Option<string>
    var artist: Option<ArtistLink>
    var year: Option<int>
    var totalDuration: Option<int>
    var itemCount: Option<int>
    var items: Option<seq<Listed>>
    var itemSetIds: Option<seq<string>>
    var continuation: Option<Continuation>
    var layouts: Option<seq<Layout>>
    var subscribeChannelId: Option<string>
    var subscriberCount: Option<int>
    var subscribed: Option<bool>
    var lyricsBrowseId: Option<string>
    var relatedBrowseId: Option<string>
    var loaded: bool
    var saved: bool
    var dbItems: seq<string>
    var dbContinuation: Option<Continuation>
    var dbSaved: seq<string>

    function State(): ItemState
      reads this
    {
      ItemState(title, description, thumbnails, artist, year, totalDuration, itemCount, items,
        itemSetIds, continuation, layouts, subscribeChannelId, subscriberCount, subscribed,
        lyricsBrowseId, relatedBrowseId, loaded, saved, dbItems, dbContinuation, dbSaved)
    }

    function Kind(): ItemKind
    {
      ItemKind(id, itemType, isRadio, isLocalPlaylist, isForItem, isOwnChannel)
    }

    /** A fresh, unloaded item. */
    constructor (id: string, itemType: ItemType, isRadio: bool, isLocalPlaylist: bool, isForItem: bool, isOwnChannel: bool)
      ensures this.id == id && this.itemType == itemType && this.isRadio == isRadio
      ensures this.isLocalPlaylist == isLocalPlaylist && this.isForItem == isForItem && this.isOwnChannel == isOwnChannel
      ensures State() == ItemState(None, None, None, None, None, None, None, None, None, None, None,
        None, None, None, None, None, false, false, [], None, [])
    {
      this.id := id;
      this.itemType := itemType;
      this.isRadio := isRadio;
      this.isLocalPlaylist := isLocalPlaylist;
      this.isForItem := isForItem;
      this.isOwnChannel := isOwnChannel;
      title, description, thumbnails, artist := None, None, None, None;
      year, totalDuration, itemCount, items := None, None, None, None;
      itemSetIds, continuation, layouts := None, None, None;
      subscribeChannelId, subscriberCount, subscribed := None, None, None;
      lyricsBrowseId, relatedBrowseId := None, None;
      loaded, saved := false, false;
      dbItems, dbContinuation, dbSaved := [], None, [];
    }
  }
}
