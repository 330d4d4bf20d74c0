# spmp core logic, modelled in Dafny

This project models the logic of the spmp music player (a Kotlin Compose
application for YouTube Music) that can be stated apart from its user
interface, and proves properties of it. It covers the following.

- **Media-item loading** (`LoadMediaitem.kt`).
  - The request chosen for a song, playlist or artist.
  - How an already decoded `next`, `browse` or `player` response fills the
    mutable item record: title, artist, year, duration and item count,
    playlist items with their set ids, continuation, and artist layouts.
  - The `player` fallback for songs, continuation paging, and marking the
    item loaded only on success.
- **Settings export and import** (`SettingsImportExport.kt`).
  - Export of the non-default values of chosen categories.
  - Import of such a record back into the preference store, category by
    category and key by key.
- **Settings defaults and typed lookup** (`app/.../Settings.kt`).
  - The total default table.
  - Getters that dispatch on the runtime class of the default.
  - The name-based default provider.
- **The playlist page** (`PlaylistPage.kt`).
  - Sort options, and the case-insensitive title filter.
  - The position pairing behind `sorted_items`.
  - Drag reordering below the two header rows.
  - The reorder, filter and sort state.
  - Removing the selected items in descending key order.
- **Furigana line splitting** (`FuriganaText.kt`).
  - Terms split into annotated lines at newline characters.
  - The shared inline-content map.
- **The application object** (`App.kt`).
  - Language lookup by stored index.
  - Font-directory choice by locale.
  - The error manager's map.
  - The single expanded error.
- **The music top bar** (`MusicTopBar.kt`).
  - Mode states.
  - The downward fallback search for a mode with a state.
  - The show rule.
- **The library page** (`LibraryPage.kt`): tab, search, sort-menu and
  sort-option state.
- **Discord login** (`DiscordLogin.kt`, `DiscordLoginPage.kt`).
  - The account response's emptiness test.
  - The avatar URL.
  - The saver map.
  - The request filter that captures the token.
  - The page's callback with its `exited` latch.

There is one module per source file. The shared helpers are `Wrappers`
(Option, Result), `Seqs` (first/last match, `indexOf`, and the stable key
sort behind `sortedWith(compareBy(..))`) and `Text` (string helpers).

Where the source changes state in place, the model does too:
- `MediaItemData`, `Preferences`, `PlaylistPageState`, `ErrorManager`,
  `ErrorList`, `TopBar`, `LibraryPageState` and `LoginPage` are classes;
- their methods' postconditions tie the new state to a function of the old
  one, and lemmas state what those functions mean.

Pure code is modelled as functions and lemmas.

In `FuriganaText.kt`, a term's inline placeholder is registered under its
stripped text, and the term's index is the placeholder's alternate text.

## Model

| member | source | states |
|---|---|---|
| Seqs.FirstIndex | shared/src/commonMain/kotlin/com/toasterofbread/spmp/api/LoadMediaitem.kt:252-254 | `firstOrNull`: the result satisfies the predicate and nothing before it does; none iff no element does |
| Seqs.LastIndex | shared/src/commonMain/kotlin/com/toasterofbread/spmp/api/LoadMediaitem.kt:263-265 | `lastOrNull`: the result satisfies the predicate and nothing after it does; none iff no element does |
| Seqs.IndexOf | app/src/main/java/com/spectre7/spmp/model/Settings.kt:68 | `indexOf`: -1 iff absent, otherwise the first position holding the element |
| Seqs.SortByKeyPermutation | shared/src/commonMain/kotlin/com/toasterofbread/spmp/ui/layout/playlistpage/PlaylistPage.kt:340 | `sortedWith(compareBy ..)` returns a permutation of its input |
| Seqs.SortByKeySorted | shared/src/commonMain/kotlin/com/toasterofbread/spmp/ui/layout/playlistpage/PlaylistPage.kt:340 | the result is ordered by the selector, ascending, or descending for `compareByDescending` |
| Seqs.SortByKeyStable | shared/src/commonMain/kotlin/com/toasterofbread/spmp/ui/layout/playlistpage/PlaylistPage.kt:340 | the sort is stable: elements with equal keys keep their relative order |
| Text.DigitsOf | shared/src/commonMain/kotlin/com/toasterofbread/spmp/api/LoadMediaitem.kt:274 | `filter { it.isDigit() }` keeps only digits, never grows, and keeps an all-digit string whole |
| Text.Remove | shared/src/commonMain/kotlin/com/spectre7/utils/FuriganaText.kt:43 | `filterNot { it == c }` leaves no `c` and drops exactly the occurrences of `c` |
| Text.ToInt | shared/src/commonMain/kotlin/com/toasterofbread/spmp/api/LoadMediaitem.kt:265 | `toInt` of a digit string fails exactly for the empty string and values above `Int.MAX_VALUE`, otherwise yields a value in range |
| Text.ToIntOfDecimalString | shared/src/commonMain/kotlin/com/toasterofbread/spmp/api/LoadMediaitem.kt:265 | every non-negative `Int` written in decimal reads back as itself |
| Text.ContainsIgnoreCase | shared/src/commonMain/kotlin/com/toasterofbread/spmp/ui/layout/playlistpage/PlaylistPage.kt:113 | `contains(filter, true)` holds iff the filter matches, ignoring case, at some position |
| Text.ContainsEmptyAndSelf | shared/src/commonMain/kotlin/com/toasterofbread/spmp/ui/layout/playlistpage/PlaylistPage.kt:113 | every title contains the empty filter and itself |
| LoadMediaItem.RequestFor | shared/src/commonMain/kotlin/com/toasterofbread/spmp/api/LoadMediaitem.kt:76-101 | a song requests `next` with persistent panel, audio-only and its video id; anything else requests `browse` with a single `browseId`; only an artist uses the mobile context |
| LoadMediaItem.PlaylistBrowseId | shared/src/commonMain/kotlin/com/toasterofbread/spmp/api/LoadMediaitem.kt:84-91 | a playlist is browsed under its own id when it starts with "VL" or "MPREb_", else under "VL" + id; either way the browse id has one of the prefixes |
| LoadMediaItem.PlayerRequest | shared/src/commonMain/kotlin/com/toasterofbread/spmp/api/LoadMediaitem.kt:121-125 | the fallback request is `player` with only the video id, in the base context |
| LoadMediaItem.ArtistOfRuns | shared/src/commonMain/kotlin/com/toasterofbread/spmp/api/LoadMediaitem.kt:250-260 | the artist comes from the first run whose browse endpoint is an artist, titled by that run's text; none iff no run is |
| LoadMediaItem.YearOf | shared/src/commonMain/kotlin/com/toasterofbread/spmp/api/LoadMediaitem.kt:262-266 | the year is the integer of the last all-digit run; null iff no run is all digits; a run that does not parse throws |
| LoadMediaItem.LastDigitRunUnique | shared/src/commonMain/kotlin/com/toasterofbread/spmp/api/LoadMediaitem.kt:263-265 | there is at most one last all-digit run |
| LoadMediaItem.YearOfDecimal | shared/src/commonMain/kotlin/com/toasterofbread/spmp/api/LoadMediaitem.kt:262-266 | a year written as a number in the last all-digit run is read as that number |
| LoadMediaItem.YearOfEmptyRun | shared/src/commonMain/kotlin/com/toasterofbread/spmp/api/LoadMediaitem.kt:263-265 | an empty run counts as all digits, so as the last one it makes `toInt` throw |
| LoadMediaItem.ItemCountOfWords | shared/src/commonMain/kotlin/com/toasterofbread/spmp/api/LoadMediaitem.kt:274 | a count written among non-digit words reads back as that count |
| LoadMediaItem.SetIds | shared/src/commonMain/kotlin/com/toasterofbread/spmp/api/LoadMediaitem.kt:324 | set ids are all-or-nothing: every entry's set id in order iff every entry has one |
| LoadMediaItem.ItemsOf | shared/src/commonMain/kotlin/com/toasterofbread/spmp/api/LoadMediaitem.kt:304-311 | the row's items, one per entry, in order |
| LoadMediaItem.Songs | shared/src/commonMain/kotlin/com/toasterofbread/spmp/api/LoadMediaitem.kt:317 | `filterIsInstance<SongData>`: an item is in the result iff it is a song of the list, and the result is never longer |
| LoadMediaItem.SongsIsFilter | shared/src/commonMain/kotlin/com/toasterofbread/spmp/api/LoadMediaitem.kt:317 | the result is the in-order filter: a single item is kept iff it is a song, and the songs of a concatenation are the songs of each part, concatenated |
| LoadMediaItem.SongsCount | shared/src/commonMain/kotlin/com/toasterofbread/spmp/api/LoadMediaitem.kt:317 | each song occurs in the result as often as in the list, and nothing else occurs |
| LoadMediaItem.RadioSongs | shared/src/commonMain/kotlin/com/toasterofbread/spmp/api/LoadMediaitem.kt:225-231 | the radio's `mapNotNull` result is never longer than the shelf's contents |
| LoadMediaItem.RadioSongsIsMapNotNull | shared/src/commonMain/kotlin/com/toasterofbread/spmp/api/LoadMediaitem.kt:225-231 | the result is the in-order `mapNotNull`: one entry gives its item iff it decoded to a song, and the result of a concatenation is the parts' results, concatenated |
| LoadMediaItem.RadioSongsCount | shared/src/commonMain/kotlin/com/toasterofbread/spmp/api/LoadMediaitem.kt:225-231 | each song occurs in the result as often as it was decoded from the contents; it is in the result iff some entry decoded to it |
| LoadMediaItem.PodcastsMapped | shared/src/commonMain/kotlin/com/toasterofbread/spmp/api/LoadMediaitem.kt:305-311 | one entry per item, in order: a podcast song takes the page's artist, and every other item is kept unchanged |
| LoadMediaItem.SectionRows | shared/src/commonMain/kotlin/com/toasterofbread/spmp/api/LoadMediaitem.kt:288-295 | the rows are the first tab's section contents when the browse result has a single column, else the two-column secondary contents, an absent list reading as empty; missing parts throw `NullPointerException`, and no first tab throws `NoSuchElementException` |
| LoadMediaItem.RadioShelf | shared/src/commonMain/kotlin/com/toasterofbread/spmp/api/LoadMediaitem.kt:215-223 | the radio shelf is the first row of the first tab, found iff every step of that path exists; a missing step throws `NullPointerException` or `IndexOutOfBoundsException` |
| LoadMediaItem.FirstVideo | shared/src/commonMain/kotlin/com/toasterofbread/spmp/api/LoadMediaitem.kt:176-181 | the first queued video of the first tab, found iff every step exists |
| LoadItem.ContinuationEffects | shared/src/commonMain/kotlin/com/toasterofbread/spmp/api/LoadMediaitem.kt:44-70 | a continuation needs a remote playlist; the page is appended to a non-null list; the database gets all items and the new token's copy of the continuation, or nothing when a cast throws |
| LoadItem.SaveItems | shared/src/commonMain/kotlin/com/toasterofbread/spmp/api/LoadMediaitem.kt:53-57 | the transaction loop saves and adds every item iff all are songs |
| LoadItem.LoadContinuation | shared/src/commonMain/kotlin/com/toasterofbread/spmp/api/LoadMediaitem.kt:44-70 | the continuation branch leaves the item in the state ContinuationLoad gives |
| LoadItem.AddPage | shared/src/commonMain/kotlin/com/toasterofbread/spmp/api/LoadMediaitem.kt:49-65 | a fetched page is appended in memory, then committed or rolled back as PageLoad gives |
| LoadItem.PlayerFallbackEffects | shared/src/commonMain/kotlin/com/toasterofbread/spmp/api/LoadMediaitem.kt:121-145 | the `player` step fails only with its request; null video details change nothing; otherwise only the title and `ArtistRef(channelId)` are set |
| LoadItem.SongLoadEffects | shared/src/commonMain/kotlin/com/toasterofbread/spmp/api/LoadMediaitem.kt:104-145 | a song loaded by `next` is final; otherwise `player` decides, and the load fails only when that request does; flags and database untouched |
| LoadItem.PlayerOnlyAfterNext | shared/src/commonMain/kotlin/com/toasterofbread/spmp/api/LoadMediaitem.kt:104-118 | when `next` loads the song, the `player` response cannot affect the outcome |
| LoadItem.LoadSong | shared/src/commonMain/kotlin/com/toasterofbread/spmp/api/LoadMediaitem.kt:104-145 | the song branch leaves the item in the state SongLoad gives |
| LoadItem.RequestEffects | shared/src/commonMain/kotlin/com/toasterofbread/spmp/api/LoadMediaitem.kt:73-146 | the item's own request never sets the load flags nor writes the database |
| LoadItem.LoadEffects | shared/src/commonMain/kotlin/com/toasterofbread/spmp/api/LoadMediaitem.kt:148-155 | without a continuation, `loaded` and the saved flag end set iff they were already or the load succeeded, and the database is untouched; an artist page for another item succeeds unrequested; a failed browse request changes nothing |
| LoadItem.LoadMediaItemData | shared/src/commonMain/kotlin/com/toasterofbread/spmp/api/LoadMediaitem.kt:44-155 | `loadMediaItemData` leaves the item in the state LoadState gives |
| ProcessResponse.SongNextEffects | shared/src/commonMain/kotlin/com/toasterofbread/spmp/api/LoadMediaitem.kt:160-192 | `processSong` sets the lyrics and related ids from tabs 1 and 2, then the title and artist of the first video; it succeeds iff every step and the artist lookup do, and never throws |
| ProcessResponse.ProcessSong | shared/src/commonMain/kotlin/com/toasterofbread/spmp/api/LoadMediaitem.kt:160-192 | `processSong` leaves the song in the state SongNext gives |
| ProcessResponse.SubtitleEffects | shared/src/commonMain/kotlin/com/toasterofbread/spmp/api/LoadMediaitem.kt:250-266 | the subtitle sets a non-artist's artist from the first artist run and a playlist's year; it throws only when the year does not parse; nothing else changes |
| ProcessResponse.ApplySubtitle | shared/src/commonMain/kotlin/com/toasterofbread/spmp/api/LoadMediaitem.kt:250-266 | the subtitle step leaves the item in the state SubtitleState gives |
| ProcessResponse.SecondSubtitleEffects | shared/src/commonMain/kotlin/com/toasterofbread/spmp/api/LoadMediaitem.kt:269-278 | the last run sets the duration and the one before it the item count from its digits; a count that does not parse throws |
| ProcessResponse.SecondSubtitleLastTwo | shared/src/commonMain/kotlin/com/toasterofbread/spmp/api/LoadMediaitem.kt:271-276 | runs before the last two are ignored |
| ProcessResponse.ApplySecondSubtitle | shared/src/commonMain/kotlin/com/toasterofbread/spmp/api/LoadMediaitem.kt:270-277 | the reversed loop leaves the item in the state SecondSubtitleState gives |
| ProcessResponse.HeaderEffects | shared/src/commonMain/kotlin/com/toasterofbread/spmp/api/LoadMediaitem.kt:244-286 | a missing header title throws before any change; otherwise it sets title, description, thumbnails, the subtitle fields and an artist's subscription, nothing else |
| ProcessResponse.ApplySubscription | shared/src/commonMain/kotlin/com/toasterofbread/spmp/api/LoadMediaitem.kt:280-285 | an artist's subscription button sets channel id, parsed subscriber count and subscribed flag |
| ProcessResponse.ApplyHeader | shared/src/commonMain/kotlin/com/toasterofbread/spmp/api/LoadMediaitem.kt:244-286 | the header step leaves the item in the state HeaderState gives |
| ProcessResponse.LayoutTypes | shared/src/commonMain/kotlin/com/toasterofbread/spmp/api/LoadMediaitem.kt:347 | only the first layout can be a numbered list, and it is one iff row 0 (counting description rows) is an item row |
| ProcessResponse.PlaylistIgnoresLaterRows | shared/src/commonMain/kotlin/com/toasterofbread/spmp/api/LoadMediaitem.kt:316-325 | rows after a playlist's first item row are never read |
| ProcessResponse.ArtistRowsOutcome | shared/src/commonMain/kotlin/com/toasterofbread/spmp/api/LoadMediaitem.kt:336-337 | an artist's rows succeed iff no view-more cast to a data item throws |
| ProcessResponse.RowsStepDescription | shared/src/commonMain/kotlin/com/toasterofbread/spmp/api/LoadMediaitem.kt:298-302 | a description row sets only the description and the loop continues |
| ProcessResponse.RowsStepLayout | shared/src/commonMain/kotlin/com/toasterofbread/spmp/api/LoadMediaitem.kt:344-357 | an artist's item row appends its layout to `layouts`, creating it when null |
| ProcessResponse.PlaylistStopsAt | shared/src/commonMain/kotlin/com/toasterofbread/spmp/api/LoadMediaitem.kt:316-325 | a playlist's first item row sets items, continuation and set ids, and ends the loop |
| ProcessResponse.ArtistStopsAt | shared/src/commonMain/kotlin/com/toasterofbread/spmp/api/LoadMediaitem.kt:335-341 | the first row whose view-more cast throws ends an artist's loop with that exception |
| ProcessResponse.ApplyRows | shared/src/commonMain/kotlin/com/toasterofbread/spmp/api/LoadMediaitem.kt:297-358 | the row loop leaves a playlist in PlaylistRowsState and an artist in ArtistRowsState |
| ProcessResponse.ApplyRow | shared/src/commonMain/kotlin/com/toasterofbread/spmp/api/LoadMediaitem.kt:297-358 | one pass of the loop body: continue with the next prefix state, or stop with the final state |
| ProcessResponse.SetPlaylistRow | shared/src/commonMain/kotlin/com/toasterofbread/spmp/api/LoadMediaitem.kt:316-325 | the playlist takes the row's songs, a playlist continuation for its token (null without one) and its all-or-nothing set ids |
| ProcessResponse.AddArtistLayout | shared/src/commonMain/kotlin/com/toasterofbread/spmp/api/LoadMediaitem.kt:330-357 | an artist row appends its layout unless the view-more cast throws, which changes nothing |
| ProcessResponse.RadioEffects | shared/src/commonMain/kotlin/com/toasterofbread/spmp/api/LoadMediaitem.kt:214-241 | a radio's items become RadioSongs of its shelf's contents, exactly the decoded songs; it takes a song continuation for the radio token, when there is one, and the header thumbnails; a missing path step throws and changes nothing |
| ProcessResponse.ApplyRadio | shared/src/commonMain/kotlin/com/toasterofbread/spmp/api/LoadMediaitem.kt:214-241 | the radio step leaves the item in the state RadioState gives |
| ProcessResponse.RowsEffects | shared/src/commonMain/kotlin/com/toasterofbread/spmp/api/LoadMediaitem.kt:297-358 | the rows never report a failure and touch neither the flags nor the database |
| ProcessResponse.DefaultResponseEffects | shared/src/commonMain/kotlin/com/toasterofbread/spmp/api/LoadMediaitem.kt:194-211 | a song goes to `processSong`; otherwise failure iff the body does not decode, which changes nothing; a header without title throws; never marks loaded nor writes the database |
| ProcessResponse.ArtistPageLayouts | shared/src/commonMain/kotlin/com/toasterofbread/spmp/api/LoadMediaitem.kt:297-357 | a loaded artist page appends one layout per item row to the layouts it had |
| ProcessResponse.PlaylistPageItems | shared/src/commonMain/kotlin/com/toasterofbread/spmp/api/LoadMediaitem.kt:316-325 | a loaded playlist takes items and set ids from its first item row, and keeps its own when there is none |
| ProcessResponse.ProcessDefaultResponse | shared/src/commonMain/kotlin/com/toasterofbread/spmp/api/LoadMediaitem.kt:194-364 | `processDefaultResponse` leaves the item in the state DefaultResponseState gives |
| SettingsImportExport.Ids | shared/src/commonMain/kotlin/com/toasterofbread/spmp/model/settings/SettingsImportExport.kt:40 | the included ids are the categories' ids, in order |
| SettingsImportExport.ExportedValue | shared/src/commonMain/kotlin/com/toasterofbread/spmp/model/settings/SettingsImportExport.kt:30-37 | a key is exported iff its value differs from its default, and then with that value |
| SettingsImportExport.ExportSettings | shared/src/commonMain/kotlin/com/toasterofbread/spmp/model/settings/SettingsImportExport.kt:27-42 | the record holds the category ids and the non-default values of their keys |
| SettingsImportExport.ExportKeys | shared/src/commonMain/kotlin/com/toasterofbread/spmp/model/settings/SettingsImportExport.kt:31-36 | the inner export loop adds one category's non-default values |
| SettingsImportExport.FromId | shared/src/commonMain/kotlin/com/toasterofbread/spmp/model/settings/SettingsImportExport.kt:63 | `fromId` gives a registered category with that id, none iff there is none |
| SettingsImportExport.GetCategories | shared/src/commonMain/kotlin/com/toasterofbread/spmp/model/settings/SettingsImportExport.kt:18-19 | the categories of the ids, in order; failure iff some id names no category |
| SettingsImportExport.Selected | shared/src/commonMain/kotlin/com/toasterofbread/spmp/model/settings/SettingsImportExport.kt:66-69 | a category is processed iff it is included and passes the caller's filter |
| SettingsImportExport.ImportedUntouched | shared/src/commonMain/kotlin/com/toasterofbread/spmp/model/settings/SettingsImportExport.kt:66-76 | import leaves every name outside the processed keys as it was |
| SettingsImportExport.ImportedWritten | shared/src/commonMain/kotlin/com/toasterofbread/spmp/model/settings/SettingsImportExport.kt:71-74 | every processed key is written with `putAny` of its exported value, or of null and its default |
| SettingsImportExport.ImportData | shared/src/commonMain/kotlin/com/toasterofbread/spmp/model/settings/SettingsImportExport.kt:55-77 | `importData` does nothing for null values; an unknown category id fails and leaves the store as it was; otherwise the store becomes what Import gives |
| SettingsImportExport.ImportCategories | shared/src/commonMain/kotlin/com/toasterofbread/spmp/model/settings/SettingsImportExport.kt:66-75 | the category loop skips filtered-out categories and writes the rest in order |
| SettingsImportExport.ImportKeys | shared/src/commonMain/kotlin/com/toasterofbread/spmp/model/settings/SettingsImportExport.kt:71-74 | the key loop applies `putAny` to each key in turn |
| SettingsImportExport.ExportImportRoundTrip | shared/src/commonMain/kotlin/com/toasterofbread/spmp/model/settings/SettingsImportExport.kt:30-74 | importing an export restores every key of the exported categories, when `putAny` stores the default for null |
| AppSettings.GetDefault | app/src/main/java/com/spectre7/spmp/model/Settings.kt:66-95 | every key has a default; a language key's default is the system language's index, -1 iff it is not a language |
| AppSettings.Get | app/src/main/java/com/spectre7/spmp/model/Settings.kt:49-59 | the explicit default or `getDefault`; the stored value when present, else the default; a class cast failure iff the default's class is not dispatched or the stored value's class differs |
| AppSettings.GetUnstoredIsDefault | app/src/main/java/com/spectre7/spmp/model/Settings.kt:49-58 | with nothing stored and no explicit default, `get` is the key's default |
| AppSettings.GetEnum | app/src/main/java/com/spectre7/spmp/model/Settings.kt:61-64 | the ordinal is the stored index, or the default ordinal (explicit, else `getDefault`'s) when nothing is stored; it is always within the enum; an in-range stored index succeeds, and with nothing stored an in-range default ordinal succeeds |
| AppSettings.KeyNamed | app/src/main/java/com/spectre7/spmp/model/Settings.kt:100 | `values().first { it.name == key }` finds a key with that name, none iff there is none |
| AppSettings.GetDefaultProvider | app/src/main/java/com/spectre7/spmp/model/Settings.kt:98-101 | the provider fails iff no key has the name, otherwise gives that key's default |
| AppSettings.NameInjective | app/src/main/java/com/spectre7/spmp/model/Settings.kt:8-44 | no two keys share a name |
| AppSettings.DefaultProviderOfName | app/src/main/java/com/spectre7/spmp/model/Settings.kt:98-101 | the provider maps every key's name to that key's default |
| PlaylistPage.Reversed | shared/src/commonMain/kotlin/com/toasterofbread/spmp/ui/layout/playlistpage/PlaylistPage.kt:328 | `asReversed` puts element i at position n-1-i |
| PlaylistPage.SortItemsMeaning | shared/src/commonMain/kotlin/com/toasterofbread/spmp/ui/layout/playlistpage/PlaylistPage.kt:325-341 | playlist order is kept or exactly reversed; other options give a permutation ordered by the key and stable for equal keys, with duration 0 for null or non-songs; only `ALPHABET` over an untitled item throws |
| PlaylistPage.ReversedTwice | shared/src/commonMain/kotlin/com/toasterofbread/spmp/ui/layout/playlistpage/PlaylistPage.kt:328 | reversing twice gives the playlist order back |
| PlaylistPage.KeepCounts | shared/src/commonMain/kotlin/com/toasterofbread/spmp/ui/layout/playlistpage/PlaylistPage.kt:113 | `filter` keeps each element as often as it occurs when it passes, and never otherwise |
| PlaylistPage.FilterItemsMeaning | shared/src/commonMain/kotlin/com/toasterofbread/spmp/ui/layout/playlistpage/PlaylistPage.kt:111-114 | no filter keeps everything; a filter throws iff some title is null, and otherwise keeps exactly the items whose title contains it, ignoring case |
| PlaylistPage.Indexed | shared/src/commonMain/kotlin/com/toasterofbread/spmp/ui/layout/playlistpage/PlaylistPage.kt:119-121 | the pairing has one entry per item |
| PlaylistPage.IndexedMeaning | shared/src/commonMain/kotlin/com/toasterofbread/spmp/ui/layout/playlistpage/PlaylistPage.kt:119-121 | each item is paired with its position |
| PlaylistPage.ListingInPlaylistOrder | shared/src/commonMain/kotlin/com/toasterofbread/spmp/ui/layout/playlistpage/PlaylistPage.kt:107-123 | unfiltered and in playlist order, each row pairs a playlist item with its own index |
| PlaylistPage.ListingKeyNamesAnotherItem | shared/src/commonMain/kotlin/com/toasterofbread/spmp/ui/layout/playlistpage/PlaylistPage.kt:54-66 | as written, filtering "y" over items "x","y" lists "y" under key 0, and removing that selection removes "x" |
| PlaylistPage.PositionedListingRows | shared/src/commonMain/kotlin/com/toasterofbread/spmp/ui/layout/playlistpage/PlaylistPage.kt:107-123 | keying rows by playlist position shows the same items in the same order with the same errors |
| PlaylistPage.PositionedKeys | shared/src/commonMain/kotlin/com/toasterofbread/spmp/ui/layout/playlistpage/PlaylistPage.kt:254-262 | in the corrected listing, every row's key is its own item's playlist position, and keys are distinct |
| PlaylistPage.MoveMeaning | shared/src/commonMain/kotlin/com/toasterofbread/spmp/ui/layout/playlistpage/PlaylistPage.kt:140 | `add(to, removeAt(from))` puts the element at `to` and keeps every element |
| PlaylistPage.MoveBack | shared/src/commonMain/kotlin/com/toasterofbread/spmp/ui/layout/playlistpage/PlaylistPage.kt:140 | moving back undoes a move |
| PlaylistPage.MovedListingIsMove | shared/src/commonMain/kotlin/com/toasterofbread/spmp/ui/layout/playlistpage/PlaylistPage.kt:139-141 | between item rows in range, `onMove` moves position from-2 to to-2 |
| PlaylistPage.DescendingRemoval | shared/src/commonMain/kotlin/com/toasterofbread/spmp/ui/layout/playlistpage/PlaylistPage.kt:60-64 | removing strictly decreasing in-range positions one by one removes exactly those positions |
| PlaylistPage.RemovalOrderDescending | shared/src/commonMain/kotlin/com/toasterofbread/spmp/ui/layout/playlistpage/PlaylistPage.kt:60 | `sortedByDescending` keeps the selection and orders its keys non-increasingly |
| PlaylistPage.RemovalKeysSelection | shared/src/commonMain/kotlin/com/toasterofbread/spmp/ui/layout/playlistpage/PlaylistPage.kt:60-62 | the keys handed to `removeItem` are exactly the selected keys |
| PlaylistPage.RemovalKeysDecrease | shared/src/commonMain/kotlin/com/toasterofbread/spmp/ui/layout/playlistpage/PlaylistPage.kt:60-62 | with distinct keys, the removal keys strictly decrease |
| PlaylistPage.SelectedRemoval | shared/src/commonMain/kotlin/com/toasterofbread/spmp/ui/layout/playlistpage/PlaylistPage.kt:60-64 | distinct in-range keys remove exactly the selected positions; no index is shifted by an earlier removal |
| PlaylistPage.PositionedRemoval | shared/src/commonMain/kotlin/com/toasterofbread/spmp/ui/layout/playlistpage/PlaylistPage.kt:54-66 | with rows keyed by playlist position, removing any selection removes exactly the positions holding the selected items |
| PlaylistPage.PlaylistPageState.constructor | shared/src/commonMain/kotlin/com/toasterofbread/spmp/ui/layout/playlistpage/PlaylistPage.kt:107 | the page starts empty, not reordering, unfiltered, in playlist order, with no calls made |
| PlaylistPage.PlaylistPageState.Refresh | shared/src/commonMain/kotlin/com/toasterofbread/spmp/ui/layout/playlistpage/PlaylistPage.kt:107-124 | the effect clears the list, then, when the playlist has items, fills it as Listing gives: filtered, sorted and keyed by row position, with the filter's and sort's exceptions; nothing else changes |
| PlaylistPage.PlaylistPageState.RefreshByPosition | shared/src/commonMain/kotlin/com/toasterofbread/spmp/ui/layout/playlistpage/PlaylistPage.kt:107-124 | corrected effect: the same rows as Refresh, each keyed by its item's playlist position, as PositionedListing gives; nothing else changes |
| PlaylistPage.PlaylistPageState.OnMove | shared/src/commonMain/kotlin/com/toasterofbread/spmp/ui/layout/playlistpage/PlaylistPage.kt:134-142 | `onMove` throws unless reordering, and then moves as MovedListing gives |
| PlaylistPage.PlaylistPageState.OnDragEnd | shared/src/commonMain/kotlin/com/toasterofbread/spmp/ui/layout/playlistpage/PlaylistPage.kt:143-147 | `onDragEnd` calls `moveItem(from-2, to-2)` only when both are item rows |
| PlaylistPage.PlaylistPageState.SetReorderable | shared/src/commonMain/kotlin/com/toasterofbread/spmp/ui/layout/playlistpage/PlaylistPage.kt:202-208 | reordering turns on only for an editable playlist and resets sort and filter; turning it off saves the playlist (lines 126-130) |
| PlaylistPage.PlaylistPageState.SetFilter | shared/src/commonMain/kotlin/com/toasterofbread/spmp/ui/layout/playlistpage/PlaylistPage.kt:210-213 | the filter changes iff not reordering; otherwise the call throws |
| PlaylistPage.PlaylistPageState.SetSortOption | shared/src/commonMain/kotlin/com/toasterofbread/spmp/ui/layout/playlistpage/PlaylistPage.kt:215-218 | the sort option changes iff not reordering; otherwise the call throws |
| PlaylistPage.PlaylistPageState.RemoveSelected | shared/src/commonMain/kotlin/com/toasterofbread/spmp/ui/layout/playlistpage/PlaylistPage.kt:54-66 | nothing for a non-editable playlist; a null key throws before any removal; otherwise one `removeItem` per selected key in descending order, then a save |
| FuriganaText.CalculateAnnotatedString | shared/src/commonMain/kotlin/com/spectre7/utils/FuriganaText.kt:122-148 | the loops return Lines(terms) and the one map InlineMap(terms) |
| FuriganaText.AppendNewlines | shared/src/commonMain/kotlin/com/spectre7/utils/FuriganaText.kt:130-145 | the newline loop of one term emits as NewlineEvents describes |
| FuriganaText.LinesCount | shared/src/commonMain/kotlin/com/spectre7/utils/FuriganaText.kt:127-145 | one line is returned per newline character over all terms |
| FuriganaText.TrailingTextDropped | shared/src/commonMain/kotlin/com/spectre7/utils/FuriganaText.kt:122-148 | a final term without a newline adds no line |
| FuriganaText.NewlineLines | shared/src/commonMain/kotlin/com/spectre7/utils/FuriganaText.kt:130-145 | n newlines close the open line, then n-1 lines holding only a newline marker |
| FuriganaText.SingleTermLines | shared/src/commonMain/kotlin/com/spectre7/utils/FuriganaText.kt:130-145 | a term with n newlines gives n lines: its placeholder (none for empty text), then marker-only lines |
| FuriganaText.InlineMapKeys | shared/src/commonMain/kotlin/com/spectre7/utils/FuriganaText.kt:43-55 | the map's keys are exactly the non-empty stripped texts of the terms |
| FuriganaText.InlineMapLastWriter | shared/src/commonMain/kotlin/com/spectre7/utils/FuriganaText.kt:53-55 | a stripped text maps to the content of the last term with that text |
| App.LanguageAtIndexOf | shared/src/commonMain/kotlin/App.kt:68-69 | a language stored as its index reads back as that language; the -1 of a missing one throws |
| App.LanguageAtMeaning | shared/src/commonMain/kotlin/App.kt:68-69 | `elementAt` succeeds iff the index is in range, and distinct indices name distinct keys |
| App.FirstEndingMeaning | shared/src/commonMain/kotlin/App.kt:137-139 | the first font directory ending with the suffix is the first such resource name in listing order; none iff none is |
| App.FontDirectoryMeaning | shared/src/commonMain/kotlin/App.kt:139-148 | the full locale's directory wins; else the base language's when the locale has '-' after its first character; "font" iff neither exists |
| App.FontPathMeaning | shared/src/commonMain/kotlin/App.kt:135-149 | the path is always the chosen directory's "regular.ttf", failing only as the lookups do |
| App.ReportedMeaning | shared/src/commonMain/kotlin/App.kt:161-165 | the keys are the old and reported ones; a key holds its last report wrapped; other keys are unchanged |
| App.ReportedCount | shared/src/commonMain/kotlin/App.kt:161-165 | from empty, the error count is the number of distinct reported keys |
| App.ErrorManager.constructor | shared/src/commonMain/kotlin/App.kt:161 | the manager starts with no errors |
| App.ErrorManager.OnError | shared/src/commonMain/kotlin/App.kt:163-165 | `onError` stores the wrapped error, replacing the key's earlier one |
| App.ErrorManager.Clear | shared/src/commonMain/kotlin/App.kt:188-192 | swiping the indicator away clears every error |
| App.ToggledMeaning | shared/src/commonMain/kotlin/App.kt:267-274 | the clicked error is expanded iff it was not; otherwise nothing is: at most one is ever expanded |
| App.ToggledTwice | shared/src/commonMain/kotlin/App.kt:267-274 | clicking the same error twice restores the state |
| App.ErrorList.constructor | shared/src/commonMain/kotlin/App.kt:260 | no error is expanded at first |
| App.ErrorList.Click | shared/src/commonMain/kotlin/App.kt:267-274 | a click toggles as Toggled gives |
| MusicTopBar.ModeStateMeaning | shared/src/commonMain/kotlin/com/toasterofbread/spmp/ui/component/MusicTopBar.kt:29-36 | lyrics yield a state iff synced, namely those lyrics; the visualiser always yields itself |
| MusicTopBar.Fallback | shared/src/commonMain/kotlin/com/toasterofbread/spmp/ui/component/MusicTopBar.kt:157-163 | a found position is at or below the target and its mode yields a state |
| MusicTopBar.FallbackMeaning | shared/src/commonMain/kotlin/com/toasterofbread/spmp/ui/component/MusicTopBar.kt:154-165 | the search finds the highest mode at or below the target with a state; none iff no such mode has one |
| MusicTopBar.FallbackFindsVisualiser | shared/src/commonMain/kotlin/com/toasterofbread/spmp/ui/component/MusicTopBar.kt:154-164 | with the visualiser at or below the target, the search always succeeds |
| MusicTopBar.TopBar.constructor | shared/src/commonMain/kotlin/com/toasterofbread/spmp/ui/component/MusicTopBar.kt:149 | `mode_state` starts at the target mode |
| MusicTopBar.TopBar.CurrentState | shared/src/commonMain/kotlin/com/toasterofbread/spmp/ui/component/MusicTopBar.kt:154-167 | the downward loop returns the found mode's state and sets `mode_state` to it, or throws `NotImplementedError` leaving it unchanged |
| MusicTopBar.IndexOfMode | shared/src/commonMain/kotlin/com/toasterofbread/spmp/ui/component/MusicTopBar.kt:157 | the target's ordinal is its position in the mode order |
| MusicTopBar.TargetMeaning | shared/src/commonMain/kotlin/com/toasterofbread/spmp/ui/component/MusicTopBar.kt:154-169 | targeting the visualiser shows it, active iff it may show and the player plays; synced lyrics are shown and always active |
| LibraryPage.SortChosenMeaning | shared/src/commonMain/kotlin/com/toasterofbread/spmp/ui/layout/library/LibraryPage.kt:89-96 | choosing the current option flips the direction; another option replaces it and keeps the direction; nothing else changes |
| LibraryPage.SortChosenTwice | shared/src/commonMain/kotlin/com/toasterofbread/spmp/ui/layout/library/LibraryPage.kt:89-96 | choosing the current option twice, or a new one then the old, restores the state |
| LibraryPage.LibraryPageState.constructor | shared/src/commonMain/kotlin/com/toasterofbread/spmp/ui/layout/library/LibraryPage.kt:58-68 | the page starts in the state `onOpened` resets to |
| LibraryPage.LibraryPageState.OnOpened | shared/src/commonMain/kotlin/com/toasterofbread/spmp/ui/layout/library/LibraryPage.kt:70-77 | search hidden and cleared, menu hidden, play count ascending, first tab |
| LibraryPage.LibraryPageState.ChooseSortOption | shared/src/commonMain/kotlin/com/toasterofbread/spmp/ui/layout/library/LibraryPage.kt:89-96 | the choice callback changes the state as SortChosen gives |
| LibraryPage.LibraryPageState.DismissSortMenu | shared/src/commonMain/kotlin/com/toasterofbread/spmp/ui/layout/library/LibraryPage.kt:88 | dismissing hides the sort menu and changes nothing else |
| LibraryPage.LibraryPageState.ToggleSortMenu | shared/src/commonMain/kotlin/com/toasterofbread/spmp/ui/layout/library/LibraryPage.kt:166-168 | the sort button toggles the menu and changes nothing else |
| LibraryPage.LibraryPageState.ToggleSearch | shared/src/commonMain/kotlin/com/toasterofbread/spmp/ui/layout/library/LibraryPage.kt:105-110 | the search button negates `show_search_field` and keeps the filter |
| LibraryPage.LibraryPageState.SetSearchFilter | shared/src/commonMain/kotlin/com/toasterofbread/spmp/ui/layout/library/LibraryPage.kt:122 | typing sets the filter and nothing else |
| LibraryPage.LibraryPageState.SelectTab | shared/src/commonMain/kotlin/com/toasterofbread/spmp/ui/layout/library/LibraryPage.kt:138-142 | a chip selects its tab, which is always one of `tabs` |
| DiscordLogin.IsEmptyMeaning | shared/src/commonMain/kotlin/com/spectre7/spmp/ui/layout/DiscordLogin.kt:57-79 | a response is empty iff its six constructor fields are null, whatever its token |
| DiscordLogin.ParseBuiltAvatarUrl | shared/src/commonMain/kotlin/com/spectre7/spmp/ui/layout/DiscordLogin.kt:72 | the CDN avatar URL reads back the id (when it holds no '/') and the avatar hash |
| DiscordLogin.AvatarUrlMeaning | shared/src/commonMain/kotlin/com/spectre7/spmp/ui/layout/DiscordLogin.kt:68-74 | a URL is built iff the response is non-empty with an id; with an avatar it is the CDN URL reading back id and hash; without one the default avatar, which is no CDN URL |
| DiscordLogin.SaveRestore | shared/src/commonMain/kotlin/com/spectre7/spmp/ui/layout/DiscordLogin.kt:100-116 | an empty response saves to an empty map and restores as EMPTY; any other saves the seven keys and restores exactly, token included |
| DiscordLogin.LoginTokenMeaning | shared/src/commonMain/kotlin/com/spectre7/spmp/ui/layout/DiscordLogin.kt:42-49 | the login finishes with a token iff the request is under the API URL and has an `Authorization` header, whose value it takes; the login page itself never does |
| DiscordLoginPage.RunLatched | shared/src/commonMain/kotlin/com/toasterofbread/spmp/ui/layout/apppage/settingspage/DiscordLoginPage.kt:54-56 | once exited, no later result changes anything |
| DiscordLoginPage.RunLeavesOnce | shared/src/commonMain/kotlin/com/toasterofbread/spmp/ui/layout/apppage/settingspage/DiscordLoginPage.kt:53-78 | over any results, `goBack` is called once iff the page has exited, never twice |
| DiscordLoginPage.RunAuth | shared/src/commonMain/kotlin/com/toasterofbread/spmp/ui/layout/apppage/settingspage/DiscordLoginPage.kt:64-71 | the stored token is the old one or the token of a successful result; toasts only accumulate |
| DiscordLoginPage.FirstExitDecides | shared/src/commonMain/kotlin/com/toasterofbread/spmp/ui/layout/apppage/settingspage/DiscordLoginPage.kt:53-78 | after failures, a null result or a success exits; a success stores its non-null token, otherwise the old token stays; later results are ignored |
| DiscordLoginPage.RunFailures | shared/src/commonMain/kotlin/com/toasterofbread/spmp/ui/layout/apppage/settingspage/DiscordLoginPage.kt:72-76 | failures never exit and never touch the stored token |
| DiscordLoginPage.LoginPage.constructor | shared/src/commonMain/kotlin/com/toasterofbread/spmp/ui/layout/apppage/settingspage/DiscordLoginPage.kt:51 | the page starts not exited, with no back navigation or toast, over the stored token and its property's default |
| DiscordLoginPage.LoginPage.OnAuthInfo | shared/src/commonMain/kotlin/com/toasterofbread/spmp/ui/layout/apppage/settingspage/DiscordLoginPage.kt:53-78 | the callback changes the state as Callback gives |
| DiscordLoginPage.LoginPage.ResetKeys | shared/src/commonMain/kotlin/com/toasterofbread/spmp/ui/layout/apppage/settingspage/DiscordLoginPage.kt:81-83 | `resetKeys` sets the stored token back to its property's default string and changes nothing else |

## Left out

- Network and HTTP (`Api.request`, `getStream`, the Discord account request) are not modelled. A request is a function from request to a decoded response, given as a parameter.
- JSON decoding (Klaxon, Gson) is not modelled. Responses are already-decoded trees of optional fields. A body that does not decode is a failure value.
- The saver's `restore` is modelled as a lookup of each field by name, absent names reading as null. Klaxon's object mapping is not part of this model.
- The database is not modelled as such. Its transaction is replaced by fields of the item: stored items, stored continuation, saved ids and a saved flag. A transaction that throws keeps their old values.
- Coroutines, `LaunchedEffect` scheduling and `derivedStateOf` recomputation are left out. Each effect is a method called when its keys change.
- Floating-point layout is left out: furigana placeholder widths, font sizes, the visualiser width check and tab chip widths.
- Helpers whose source is not part of this model become fields or parameters:
  - `toMediaItemData`, `getMediaItemsAndSetIds`, `getViewMore`, `getArtist` and `fromThumbnails` are already decoded into the response tree;
  - `parseYoutubeDurationString`, `parseYoutubeSubscribersString` and the localised-string builder are function parameters;
  - `putAny` is a function parameter, and the round trip assumes it stores the default for null.
- These are inputs rather than constants, since their declarations are not part of this model:
  - the `MusicTopBarMode` declaration order;
  - the ordinals of `AudioQuality.MEDIUM` and `VOLUME_INTERCEPT_MODE.NEVER`;
  - `MediaItemSortType`'s entries other than play count;
  - the registry's play count.
- `SettingsCategory.fromId` is modelled as the first registered category with that id. An unknown id is a failure that leaves the store unchanged. The real lookup is not part of this model.
- The playlist object (`moveItem`, `removeItem`, `saveItems`) is not modelled. The page's calls on it are recorded in order as an edit log, and removal is taken to be `removeAt` by playlist position.
- The multiselect context's `setItemSelected` bookkeeping after each removal is not modelled.
- The `check(item is Song)` made while rendering each playlist row is not modelled.
- `WebViewLogin`'s own URL filter (`startsWith(DISCORD_LOGIN_URL)`) and the fallback `openUrl` are left out; `WebViewLogin` is not part of this model.
- Text.ContainsIgnoreCase: case folding covers ASCII letters only, so matches that need Unicode case folding are not modelled.
- Text.IsDigit: only the ASCII digits '0'-'9' count. Kotlin's `isDigit` and `toInt` also accept other Unicode decimal digits, such as fullwidth "２０２３". So `YearOf`, `ItemCountOfWords`, `DigitsOf` and `ToInt` treat such runs as non-digits, where the source reads them as numbers.
- Seqs.LexLess: strings are compared by Unicode code point. Kotlin's `String.compareTo` compares UTF-16 code units, so the `ALPHABET` sort can order titles with characters outside the Basic Multilingual Plane differently.
- `updateLanguage`, `loadLanguages`, the error indicator's swipe animation and the error popup are UI-only and are not modelled.
- MusicTopBar.IsStateActive: the player's playing status is a parameter, read from the player state at composition time.

## Findings

| source | as written | input that shows it | evidently intended | confidence | as-written member | corrected member |
|---|---|---|---|---|---|---|
| shared/src/commonMain/kotlin/com/toasterofbread/spmp/ui/layout/playlistpage/PlaylistPage.kt:54-66 | Each row's multiselect key is its position in the filtered and sorted list (lines 119-120 and 262). The remove action passes that key to `playlist.removeItem`, which removes by playlist position. | Two items titled "x" and "y", with the filter "y". The only row is "y", under key 0. Selecting it and removing calls `removeItem(0)`, which removes "x". | Remove the selected items themselves, by keying each row with its item's playlist position. | medium; not executed; `removeItem`'s source is not part of this model | PlaylistPage.ListingKeyNamesAnotherItem | PlaylistPage.PositionedRemoval |
