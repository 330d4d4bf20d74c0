/**
 * `loadMediaItemData`: a continuation page of a remote playlist, or the
 * item's own request, the `player` fallback for songs, and marking the item
 * loaded.
 */
module LoadItem {
  import opened Wrappers
  import opened MediaItem
  import opened LoadMediaItem
  import opened ProcessResponse

  // ---------------------------------------------------------------------------
  // Continuations
  // ---------------------------------------------------------------------------

  /** The ids of a list of items, in order. */
  function IdsOf(items: seq<Listed>): (r: seq<string>)
    ensures |r| == |items| && forall i :: 0 <= i < |items| ==> r[i] == items[i].id
  {
    if |items| == 0 then [] else IdsOf(items[..|items| - 1]) + [items[|items| - 1].id]
  }

  predicate AllSongs(items: seq<Listed>)
  {
    forall i :: 0 <= i < |items| ==> items[i].itemType == Song
  }

  /**
   * Loading the next page of a remote playlist: the page's items are
   * appended to the item's list when it has one; then, in one database
   * transaction, each is saved and added to the stored playlist, and the
   * stored continuation becomes the page's next token. A page item that is
   * not a song makes the cast throw and rolls the whole transaction back.
   */
  function ContinuationLoad(s: ItemState, k: ItemKind, c: Continuation, page: Result<Page, Error>): (r: (ItemState, Status))
  {
    if !(k.itemType == Playlist && !k.isLocalPlaylist) then (s, Threw(IllegalStateException))
    else
      match page
      case Failure(e) => (s, Failed(e))
      case Success(p) => PageLoad(s, c, p)
  }

  /** A continuation page that was fetched: appended in memory, then stored in one transaction. */
  function PageLoad(s: ItemState, c: Continuation, p: Page): (ItemState, Status)
  {
    var s1 := s.(items := if s.items.Some? then Some(s.items.value + p.items) else None);
    if !AllSongs(p.items) then (s1, Threw(ClassCastException))
    else
      (s1.(dbItems := s.dbItems + IdsOf(p.items), dbSaved := s.dbSaved + IdsOf(p.items),
          dbContinuation := if p.token.Some? then Some(c.(token := p.token.value)) else None),
       Succeeded)
  }

  /** A continuation page is appended in memory; the database takes it whole, or not at all. */
  lemma ContinuationEffects(s: ItemState, k: ItemKind, c: Continuation, page: Result<Page, Error>)
    ensures var r := ContinuationLoad(s, k, c, page);
      && (!(k.itemType == Playlist && !k.isLocalPlaylist) ==> r == (s, Threw(IllegalStateException)))
      && (k.itemType == Playlist && !k.isLocalPlaylist && page.Failure? ==> r == (s, Failed(page.error)))
      && (r.1 == Succeeded <==> k.itemType == Playlist && !k.isLocalPlaylist && page.Success? && AllSongs(page.value.items))
      && (r.1 == Succeeded || r.1.Failed? || r.1 == Threw(IllegalStateException) || r.1 == Threw(ClassCastException))
      && (k.itemType == Playlist && !k.isLocalPlaylist && page.Success? ==> r.0.items == if s.items.Some? then Some(s.items.value + page.value.items) else None)
      && (r.1 != Succeeded ==> r.0.dbItems == s.dbItems && r.0.dbSaved == s.dbSaved && r.0.dbContinuation == s.dbContinuation)
      && (r.1 == Succeeded ==> var p := page.value; r.0.dbItems == s.dbItems + IdsOf(p.items) && r.0.dbSaved == s.dbSaved + IdsOf(p.items) && r.0.dbContinuation == if p.token.Some? then Some(c.(token := p.token.value)) else None)
      && (r.0 == s.(items := r.0.items, dbItems := r.0.dbItems, dbSaved := r.0.dbSaved, dbContinuation := r.0.dbContinuation))
  {
  }

  lemma IdsOfStep(items: seq<Listed>, i: nat)
    requires i < |items|
    ensures IdsOf(items[..i + 1]) == IdsOf(items[..i]) + [items[i].id]
  {
    assert items[..i + 1][..i] == items[..i];
  }

  /**
   * The loop of the continuation's database transaction: each item is saved,
   * then cast to a song and added to the stored playlist. The writes are
   * returned for the caller to commit; the first item that is not a song
   * stops the loop, and nothing is committed.
   */
  method SaveItems(items: seq<Listed>, saved0: seq<string>, added0: seq<string>)
    returns (ok: bool, saved: seq<string>, added: seq<string>)
    ensures ok <==> AllSongs(items)
    ensures ok ==> saved == saved0 + IdsOf(items) && added == added0 + IdsOf(items)
  {
    saved, added := saved0, added0;
    var i := 0;
    while i < |items|
      invariant 0 <= i <= |items|
      invariant saved == saved0 + IdsOf(items[..i]) && added == added0 + IdsOf(items[..i])
      invariant AllSongs(items[..i])
    {
      saved := saved + [items[i].id];
      if items[i].itemType != Song {
        assert !AllSongs(items);
        return false, saved, added;
      }
      added := added + [items[i].id];
      IdsOfStep(items, i);
      i := i + 1;
    }
    assert items[..i] == items;
    return true, saved, added;
  }

  /** The continuation branch of `loadMediaItemData`. */
  method LoadContinuation(item: MediaItemData, c: Continuation, page: Result<Page, Error>) returns (r: Status)
    modifies item
    ensures (item.State(), r) == ContinuationLoad(old(item.State()), item.Kind(), c, page)
  {
    if !(item.itemType == Playlist && !item.isLocalPlaylist) {
      return Threw(IllegalStateException);
    }
    if page.Failure? {
      return Failed(page.error);
    }
    r := AddPage(item, c, page.value);
  }

  /** Storing a fetched continuation page. */
  method AddPage(item: MediaItemData, c: Continuation, p: Page) returns (r: Status)
    modifies item
    ensures (item.State(), r) == PageLoad(old(item.State()), c, p)
  {
    // The page is appended in memory before the transaction starts.
    var listed := if item.items.Some? then Some(item.items.value + p.items) else None;
    var ok, saved, added := SaveItems(p.items, item.dbSaved, item.dbItems);
    if !ok {
      // The transaction rolls back: the database keeps its old contents.
      item.items := listed;
      return Threw(ClassCastException);
    }
    var next := if p.token.Some? then Some(c.(token := p.token.value)) else None;
    item.items, item.dbSaved, item.dbItems, item.dbContinuation := listed, saved, added, next;
    return Succeeded;
  }

  // ---------------------------------------------------------------------------
  // Songs: the player fallback
  // ---------------------------------------------------------------------------

  /**
   * The `player` response: a failed request is a failure, a body that does
   * not decode throws, and video details, when present, give the title and
   * a reference to the uploading channel as the artist.
   */
  function PlayerFallback(s: ItemState, response: Result<ResponseBody, Error>): (r: (ItemState, Status))
  {
    match response
    case Failure(e) => (s, Failed(e))
    case Success(body) =>
      match body.player
      case Failure(e) => (s, Threw(e))
      case Success(data) =>
        match data.videoDetails
        case None => (s, Succeeded)
        case Some(d) => (s.(title := Some(d.title), artist := Some(ArtistRef(d.channelId))), Succeeded)
  }

  /** The `player` response fails only with its request, and sets at most the title and the artist. */
  lemma PlayerFallbackEffects(s: ItemState, response: Result<ResponseBody, Error>)
    ensures var r := PlayerFallback(s, response);
      && (r.1.Failed? <==> response.Failure?)
      && (r.1.Threw? <==> response.Success? && response.value.player.Failure?)
      && (r.1 != Succeeded ==> r.0 == s)
      && (r.1 == Succeeded ==> var details := response.value.player.value.videoDetails; (details.None? ==> r.0 == s) && (details.Some? ==> r.0 == s.(title := Some(details.value.title), artist := Some(ArtistRef(details.value.channelId)))))
  {
  }

  /** The outcome of the song's `next` request and its processing. */
  function NextLoad(s: ItemState, id: string, network: Request -> Result<ResponseBody, Error>): (ItemState, Status)
  {
    var first := network(RequestFor(Song, id));
    if first.Success? then SongNext(s, first.value.next) else (s, Failed(first.error))
  }

  /**
   * Loading a song: the `next` response, and only when its request or its
   * processing fails, the `player` response, starting from whatever the
   * failed processing had already set. The load then fails only when the
   * `player` request does.
   */
  function SongLoad(s: ItemState, id: string, network: Request -> Result<ResponseBody, Error>): (r: (ItemState, Status))
  {
    var next := NextLoad(s, id, network);
    if next.1 == Succeeded then next else PlayerFallback(next.0, network(PlayerRequest(id)))
  }

  /** A song loaded by `next` does not need `player`; the load fails only when the `player` request does. */
  lemma SongLoadEffects(s: ItemState, id: string, network: Request -> Result<ResponseBody, Error>)
    ensures var r := SongLoad(s, id, network);
      && (NextLoad(s, id, network).1 == Succeeded ==> r == NextLoad(s, id, network))
      && (r.1.Failed? <==> NextLoad(s, id, network).1 != Succeeded && network(PlayerRequest(id)).Failure?)
      && (r.0.loaded == s.loaded && r.0.saved == s.saved)
      && (r.0.dbItems == s.dbItems && r.0.dbSaved == s.dbSaved && r.0.dbContinuation == s.dbContinuation)
  {
    var first := network(RequestFor(Song, id));
    if first.Success? {
      SongNextEffects(s, first.value.next);
    }
    var next := NextLoad(s, id, network);
    if next.1 != Succeeded {
      PlayerFallbackEffects(next.0, network(PlayerRequest(id)));
    }
  }

  /** The `player` request is sent only when the `next` one does not load the song. */
  lemma PlayerOnlyAfterNext(s: ItemState, id: string, n1: Request -> Result<ResponseBody, Error>, n2: Request -> Result<ResponseBody, Error>)
    requires n1(RequestFor(Song, id)) == n2(RequestFor(Song, id))
    requires NextLoad(s, id, n1).1 == Succeeded
    ensures SongLoad(s, id, n1) == SongLoad(s, id, n2)
  {
  }

  /** The song branch of `loadMediaItemData`. */
  method LoadSong(item: MediaItemData, network: Request -> Result<ResponseBody, Error>, parsers: Parsers) returns (r: Status)
    requires item.itemType == Song
    modifies item
    ensures (item.State(), r) == SongLoad(old(item.State()), item.id, network)
  {
    var first := network(RequestFor(Song, item.id));
    if first.Success? {
      r := ProcessDefaultResponse(item, first.value, parsers);
      if r == Succeeded {
        return;
      }
    }
    var response := network(PlayerRequest(item.id));
    if response.Failure? {
      return Failed(response.error);
    }
    var player := response.value.player;
    if player.Failure? {
      return Threw(player.error);
    }
    var details := player.value.videoDetails;
    if details.Some? {
      item.title := Some(details.value.title);
      item.artist := Some(ArtistRef(details.value.channelId));
    }
    return Succeeded;
  }

  // ---------------------------------------------------------------------------
  // loadMediaItemData
  // ---------------------------------------------------------------------------

  /** The load without a continuation, before the item is marked loaded. */
  function RequestLoad(s: ItemState, k: ItemKind, network: Request -> Result<ResponseBody, Error>, parsers: Parsers): (ItemState, Status)
  {
    if k.itemType == Artist && k.isForItem then (s, Succeeded)
    else if k.itemType == Song then SongLoad(s, k.id, network)
    else
      match network(RequestFor(k.itemType, k.id))
      case Failure(e) => (s, Failed(e))
      case Success(body) => DefaultResponseState(s, k, body, parsers)
  }

  /** The item's own request touches neither the load flags nor the database. */
  lemma RequestEffects(s: ItemState, k: ItemKind, network: Request -> Result<ResponseBody, Error>, parsers: Parsers)
    ensures var r := RequestLoad(s, k, network, parsers);
      && (r.0.loaded == s.loaded && r.0.saved == s.saved)
      && (r.0.dbItems == s.dbItems && r.0.dbSaved == s.dbSaved && r.0.dbContinuation == s.dbContinuation)
  {
    if k.itemType == Song {
      SongLoadEffects(s, k.id, network);
    } else if !(k.itemType == Artist && k.isForItem) && network(RequestFor(k.itemType, k.id)).Success? {
      DefaultResponseEffects(s, k, network(RequestFor(k.itemType, k.id)).value, parsers);
    }
  }

  /**
   * `loadMediaItemData`: with a continuation, the next page of a remote
   * playlist; otherwise the item's own request, after which an item that
   * loaded is marked loaded and saved. An artist page made for another item
   * is not requested at all.
   */
  function LoadState(s: ItemState, k: ItemKind, network: Request -> Result<ResponseBody, Error>,
                     continuation: Option<Continuation>, page: Result<Page, Error>, parsers: Parsers): (r: (ItemState, Status))
  {
    match continuation
    case Some(c) => ContinuationLoad(s, k, c, page)
    case None =>
      var result := RequestLoad(s, k, network, parsers);
      if result.1 == Succeeded then (result.0.(loaded := true, saved := true), Succeeded) else result
  }

  /** A load marks the item loaded and saved exactly when it succeeds; a continuation never does. */
  lemma LoadEffects(s: ItemState, k: ItemKind, network: Request -> Result<ResponseBody, Error>, continuation: Option<Continuation>, page: Result<Page, Error>, parsers: Parsers)
    ensures var r := LoadState(s, k, network, continuation, page, parsers);
      && (continuation.Some? ==> r == ContinuationLoad(s, k, continuation.value, page))
      && (continuation.None? ==> (r.0.loaded <==> s.loaded || r.1 == Succeeded) && (r.0.saved <==> s.saved || r.1 == Succeeded))
      && (continuation.None? ==> r.0.dbItems == s.dbItems && r.0.dbSaved == s.dbSaved && r.0.dbContinuation == s.dbContinuation)
      && (continuation.None? && k.itemType == Artist && k.isForItem ==> r == (s.(loaded := true, saved := true), Succeeded))
      && ((continuation.None? && k.itemType != Song && !(k.itemType == Artist && k.isForItem) && network(RequestFor(k.itemType, k.id)).Failure?) ==> r == (s, Failed(network(RequestFor(k.itemType, k.id)).error)))
  {
    if continuation.None? {
      RequestEffects(s, k, network, parsers);
    }
  }

  /** `loadMediaItemData` */
  method LoadMediaItemData(item: MediaItemData, network: Request -> Result<ResponseBody, Error>,
                           continuation: Option<Continuation>, page: Result<Page, Error>, parsers: Parsers)
    returns (r: Status)
    modifies item
    ensures (item.State(), r) == LoadState(old(item.State()), item.Kind(), network, continuation, page, parsers)
  {
    if continuation.Some? {
      r := LoadContinuation(item, continuation.value, page);
      return;
    }
    if item.itemType == Artist && item.isForItem {
      r := Succeeded;
    } else if item.itemType == Song {
      r := LoadSong(item, network, parsers);
    } else {
      var response := network(RequestFor(item.itemType, item.id));
      if response.Failure? {
        return Failed(response.error);
      }
      r := ProcessDefaultResponse(item, response.value, parsers);
    }
    if r == Succeeded {
      item.loaded := true;
      item.saved := true;
    }
  }
}
