# Music player session controller, modelled in Dafny

This project models the view model of a small music app, `MusicPlayerViewModel`.
It owns the song catalog fetched from the iTunes search service, the search text
and the filtered list on screen, the current song, the play/pause state, and the
media player. The model keeps the source's shape:

- `ViewModel.MusicPlayerViewModel` is a class with the same fields. Each Swift
  method becomes a Dafny method with a field-precise `modifies` frame, so
  "nothing else changes" is part of every contract.
- The pure parts are functions with lemmas. These are the search filter
  (`Search`), case-insensitive substring matching (`Text`), the wrap-around
  index arithmetic (`PlaylistIndex`), the error texts (`ErrorMessages`) and
  integer-to-text rendering (`Decimal`).
- `Model` holds the `Song` record. `Network` holds the failure type the catalog
  source reports. `Wrappers` holds Swift's `Optional` and `Result`.
- `Scenarios` replays the app's unit tests against the class contracts. Each
  scenario holds for every URL parser.

Two invariants of the controller are stated as predicates:

- `Consistent()`: the filtered list is an order-preserving subsequence of the
  catalog, and the current song belongs to the catalog.
- `Synced()`: `currentSongIndex` points at the current song.

Each method's contract says when each of them is kept.

Behaviour the model keeps exactly as the code has it:

- `selectAndPlay` compares ids only. Selecting the current song does nothing,
  whether it is playing or paused.
- A successful fetch resets the filtered list to the whole catalog, whatever
  the search text is. It does not reset `currentSongIndex` or `isPlaying`. It
  selects the first song without playing it. It leaves `errorMessage` alone;
  `fetchSongs` has already cleared it.
- `stop` drops the player and clears the play flag. It does not reset the
  saved position, and it keeps the current song.
- `nextSong` and `previousSong` step through the whole catalog, not the
  filtered list. They trap on an empty catalog (a remainder by zero), so the
  model gives them the precondition `|songs| > 0`. While the controls are on
  screen there is a current song, and under `Consistent()` that song is in the
  catalog.
- `localizedCaseInsensitiveContains` never finds the empty string. So the
  filter alone would show nothing for an empty query, and the `isEmpty` test
  in `searchSongs` is what brings back the whole catalog. A query of blanks is
  not treated as empty.
- When the preview reference does not parse as a URL, `playSong` does nothing.
  The session is still marked as playing, and any earlier player is kept.

## Model

| member | source | states |
|---|---|---|
| `Model.FirstIndexOfId` | simple-music-app/ViewModel/MusicPlayerViewModel.swift:105 | the result is the first position whose song has the id, or None exactly when no song has it |
| `Model.FirstIndexOfListedSong` | simple-music-app/ViewModel/MusicPlayerViewModel.swift:105-106 | with unique ids, the first index of a listed song's id is that song's position |
| `Text.Lower` | simple-music-app/ViewModel/MusicPlayerViewModel.swift:73-74 | ASCII upper-case letters fold to their lower-case letters, every other character is kept, and no folded character is upper-case |
| `Text.CaseInsensitiveContains` | simple-music-app/ViewModel/MusicPlayerViewModel.swift:73-74 | the empty needle is never found; any other needle is found exactly when, after ASCII folding, it occurs at some position of the text, so it is no longer than the text |
| `Text.LowerStringIdempotent` | simple-music-app/ViewModel/MusicPlayerViewModel.swift:73-74 | folding twice is folding once |
| `Text.ContainsIffOccurs` | simple-music-app/ViewModel/MusicPlayerViewModel.swift:73-74 | the left-to-right scan finds the pattern exactly when it occurs at some position |
| `Text.ContainsTransitive` | simple-music-app/ViewModel/MusicPlayerViewModel.swift:73-74 | a substring of a substring is a substring |
| `Text.MissingCharNotContained` | simple-music-app/ViewModel/MusicPlayerViewModel.swift:73-74 | a text lacking some character of the pattern does not contain it |
| `Text.CaseInsensitiveContainsIgnoresCase` | simple-music-app/ViewModel/MusicPlayerViewModel.swift:73-74 | the case of the query does not change the outcome |
| `Text.CaseInsensitiveContainsTransitive` | simple-music-app/ViewModel/MusicPlayerViewModel.swift:73-74 | a non-empty piece of a found query is found too |
| `Search.Matches` | simple-music-app/ViewModel/MusicPlayerViewModel.swift:72-75 | a song matches a non-empty query exactly when, up to ASCII case, the query occurs in its track name or in its artist name |
| `Search.Filter` | simple-music-app/ViewModel/MusicPlayerViewModel.swift:72-75 | the result is no longer than the catalog and every song in it matches the query |
| `Search.FilterIsSubsequence` | simple-music-app/ViewModel/MusicPlayerViewModel.swift:72-75 | the filtered list keeps catalog order: it is a subsequence of the catalog |
| `Search.FilterCounts` | simple-music-app/ViewModel/MusicPlayerViewModel.swift:72-75 | each matching song is kept as many times as the catalog holds it; no other song is kept |
| `Search.FilterMembership` | simple-music-app/ViewModel/MusicPlayerViewModel.swift:72-75 | a song is shown if and only if it is in the catalog and its name or artist contains the query, ignoring case |
| `Search.FilterEmptyQuery` | simple-music-app/ViewModel/MusicPlayerViewModel.swift:69-75 | the filter alone keeps nothing for the empty query, which is why the empty query is handled first |
| `Search.FilterIdempotent` | simple-music-app/ViewModel/MusicPlayerViewModel.swift:72-75 | filtering the filtered list again with the same query changes nothing |
| `Search.MatchesShorterQuery` | simple-music-app/ViewModel/MusicPlayerViewModel.swift:72-75 | a song matching a query matches every non-empty piece of it |
| `Search.FilterWidensForShorterQuery` | simple-music-app/ViewModel/MusicPlayerViewModel.swift:68-77 | since filtering restarts from the catalog, a shorter query shows a supersequence of what the longer one showed |
| `Search.SubsequenceReflexive` | simple-music-app/ViewModel/MusicPlayerViewModel.swift:70 | the whole catalog is a subsequence of itself |
| `Search.SubsequenceDropFirst` | simple-music-app/ViewModel/MusicPlayerViewModel.swift:72-75 | dropping the first entry of a subsequence leaves a subsequence |
| `Decimal.DigitChar` | simple-music-app/ViewModel/MusicPlayerViewModel.swift:127 | the character for a digit is a digit character and reads back as that digit |
| `Decimal.DigitValue` | simple-music-app/ViewModel/MusicPlayerViewModel.swift:127 | a digit character denotes a value below ten |
| `Decimal.NatDigits` | simple-music-app/ViewModel/MusicPlayerViewModel.swift:127 | the text for a non-negative number is non-empty, all digits, without a leading zero |
| `Decimal.DecimalString` | simple-music-app/ViewModel/MusicPlayerViewModel.swift:127 | the text for a status code is non-empty and starts with a digit exactly when the code is not negative |
| `Decimal.NatDigitsRoundTrip` | simple-music-app/ViewModel/MusicPlayerViewModel.swift:127 | reading back the digits of a number gives the number |
| `Decimal.DecimalRoundTrip` | simple-music-app/ViewModel/MusicPlayerViewModel.swift:127 | reading back the text of a status code gives the code, sign included |
| `Decimal.DecimalStringInjective` | simple-music-app/ViewModel/MusicPlayerViewModel.swift:127 | different status codes get different texts |
| `ErrorMessages.ErrorMessage` | simple-music-app/ViewModel/MusicPlayerViewModel.swift:122-137 | every failure kind gets a non-empty message |
| `ErrorMessages.ServerErrorEmbedsStatusCode` | simple-music-app/ViewModel/MusicPlayerViewModel.swift:126-127 | the server message is the fixed prefix followed by a signed decimal numeral that reads back as the status code |
| `ErrorMessages.CancelPrefix` | simple-music-app/ViewModel/MusicPlayerViewModel.swift:125-129 | messages with one prefix are equal only when their variable parts are equal |
| `ErrorMessages.MessageStartsWithKindTag` | simple-music-app/ViewModel/MusicPlayerViewModel.swift:123-136 | each failure kind's message opens with its own two characters |
| `ErrorMessages.ErrorMessageInjective` | simple-music-app/ViewModel/MusicPlayerViewModel.swift:123-136 | the message determines the failure: kind, status code and description |
| `PlaylistIndex.NextIndex` | simple-music-app/ViewModel/MusicPlayerViewModel.swift:86 | the next index is always in range, even from a stale index |
| `PlaylistIndex.PreviousIndex` | simple-music-app/ViewModel/MusicPlayerViewModel.swift:93 | the previous index is always in range, even from a stale index |
| `PlaylistIndex.NextIndexInRange` | simple-music-app/ViewModel/MusicPlayerViewModel.swift:86 | from an index in range, next steps up by one and wraps from the last position to 0 |
| `PlaylistIndex.PreviousIndexInRange` | simple-music-app/ViewModel/MusicPlayerViewModel.swift:93 | from an index in range, previous steps down by one and wraps from 0 to the last position |
| `PlaylistIndex.PreviousAfterNext` | simple-music-app/ViewModel/MusicPlayerViewModel.swift:86-93 | previous undoes next on an index in range |
| `PlaylistIndex.NextAfterPrevious` | simple-music-app/ViewModel/MusicPlayerViewModel.swift:86-93 | next undoes previous on an index in range |
| `PlaylistIndex.NextIndexTimesAdvances` | simple-music-app/ViewModel/MusicPlayerViewModel.swift:86 | k steps forward (k at most the length) move k places on, modulo the length |
| `PlaylistIndex.NextIndexFullTurn` | simple-music-app/ViewModel/MusicPlayerViewModel.swift:86 | as many steps forward as there are songs come back to the start |
| `ViewModel.MusicPlayerViewModel.constructor` | simple-music-app/ViewModel/MusicPlayerViewModel.swift:14-29 | the initial state is empty, with no song, no player and index 0, and a fetch is under way |
| `ViewModel.MusicPlayerViewModel.FetchSongs` | simple-music-app/ViewModel/MusicPlayerViewModel.swift:31-33 | starting a fetch sets the loading flag and clears the error, and nothing else; `Consistent()` and `Synced()` are kept |
| `ViewModel.MusicPlayerViewModel.CompleteFetch` | simple-music-app/ViewModel/MusicPlayerViewModel.swift:35-47 | loading always ends. On success the catalog and list become the result, the first song (or none) is selected, the error stays, and the invariant holds. On failure only the message changes. |
| `ViewModel.MusicPlayerViewModel.HandleError` | simple-music-app/ViewModel/MusicPlayerViewModel.swift:122-137 | the message becomes the failure's text, and nothing else changes; `Consistent()` and `Synced()` are kept |
| `ViewModel.MusicPlayerViewModel.PlayPause` | simple-music-app/ViewModel/MusicPlayerViewModel.swift:51-66 | a no-op without a current song; otherwise the play flag flips. Pausing saves the player's position (0 without a player). Resuming builds a player only when there is none.; `Consistent()` and `Synced()` are kept |
| `ViewModel.MusicPlayerViewModel.SearchSongs` | simple-music-app/ViewModel/MusicPlayerViewModel.swift:68-77 | the list is the catalog for the empty query, and otherwise the matching songs in catalog order; it is recomputed from the catalog, never from the old list |
| `ViewModel.MusicPlayerViewModel.Stop` | simple-music-app/ViewModel/MusicPlayerViewModel.swift:79-83 | no player and not playing; the current song, catalog and position are untouched, so a second stop changes nothing; `Consistent()` and `Synced()` are kept |
| `ViewModel.MusicPlayerViewModel.NextSong` | simple-music-app/ViewModel/MusicPlayerViewModel.swift:85-90 | on a non-empty catalog: the index is the wrapped successor and in range, the current song is the song there, playing is on, and the index is synced |
| `ViewModel.MusicPlayerViewModel.PreviousSong` | simple-music-app/ViewModel/MusicPlayerViewModel.swift:92-97 | on a non-empty catalog: the index is the wrapped predecessor and in range, the current song is the song there, playing is on, and the index is synced |
| `ViewModel.MusicPlayerViewModel.SelectAndPlay` | simple-music-app/ViewModel/MusicPlayerViewModel.swift:99-110 | a song with the current id changes no field. Any other song becomes current and plays on a fresh player, and the index moves to the song's first catalog position if there is one. |
| `ViewModel.MusicPlayerViewModel.PlaySong` | simple-music-app/ViewModel/MusicPlayerViewModel.swift:112-120 | a player is built for the preview reference when it parses as a URL; otherwise nothing changes |
| `Scenarios.Loaded` | simple-music-appTests/simple_music_appTests.swift:40-57 | a fresh controller after a successful fetch shows the whole result with the first song selected |
| `Scenarios.FetchSongsSuccess` | simple-music-appTests/simple_music_appTests.swift:101-121 | three fetched songs: 3 in the catalog, 3 shown, song 1 current, not loading, no error |
| `Scenarios.FetchSongsNetworkError` | simple-music-appTests/simple_music_appTests.swift:132-144 | a network failure leaves a message containing "Network error", and loading has ended |
| `Scenarios.FetchServerErrorKeepsCatalog` | simple-music-app/ViewModel/MusicPlayerViewModel.swift:31-47 | a status-500 failure after a successful fetch keeps the catalog and reports "Server error: 500" |
| `Scenarios.SearchByTrackName` | simple-music-appTests/simple_music_appTests.swift:150-166 | "Rock" leaves exactly the song named "Rock Song" |
| `Scenarios.SearchByArtistName` | simple-music-appTests/simple_music_appTests.swift:168-184 | "beatles" leaves exactly the song by "Beatles" |
| `Scenarios.SearchWithNoMatches` | simple-music-appTests/simple_music_appTests.swift:186-201 | a query nobody contains empties the list, and clearing it brings the whole catalog back |
| `Scenarios.PlayPauseStartsPlaying` | simple-music-appTests/simple_music_appTests.swift:207-217 | play/pause on the selected song starts playback |
| `Scenarios.PlayPauseTwice` | simple-music-app/ViewModel/MusicPlayerViewModel.swift:51-66 | two presses of play/pause restore the play flag; the song, catalog and list are unchanged |
| `Scenarios.StopStopsPlayback` | simple-music-appTests/simple_music_appTests.swift:219-231 | stop clears the play flag and keeps the song; a second stop changes nothing |
| `Scenarios.NextSongPlaysNextTrack` | simple-music-appTests/simple_music_appTests.swift:233-248 | from song 1 of three, next gives ids 2, 3 and then 1, playing |
| `Scenarios.PreviousThenNext` | simple-music-app/ViewModel/MusicPlayerViewModel.swift:85-97 | from song 1 of three, previous wraps to song 3 and next comes back to song 1 |
| `Scenarios.SelectAndPlayDifferentSong` | simple-music-appTests/simple_music_appTests.swift:250-266 | selecting song 2 makes it current and playing |
| `Scenarios.SelectAndPlaySameSong` | simple-music-appTests/simple_music_appTests.swift:268-281 | selecting the current song keeps it and keeps the play flag, whichever it was |
| `Scenarios.RockQueryFacts` | simple-music-appTests/simple_music_appTests.swift:153-165 | "Rock" is in "Rock Song" and in no other name or artist of that test |
| `Scenarios.RockNotInPopSong` | simple-music-appTests/simple_music_appTests.swift:155 | "Rock" is in neither "Pop Song" nor "Artist B" |
| `Scenarios.RockNotInJazzMelody` | simple-music-appTests/simple_music_appTests.swift:156 | "Rock" is in neither "Jazz Melody" nor "Artist C" |
| `Scenarios.BeatlesQueryFacts` | simple-music-appTests/simple_music_appTests.swift:171-183 | "beatles" is in the artist "Beatles" but not in the name "Song A", nor in the other song |
| `Scenarios.NonExistentQueryFacts` | simple-music-appTests/simple_music_appTests.swift:189-200 | "NonExistentSong" is in no name or artist of that test |
| `Scenarios.FilterFirstOfThree` | simple-music-app/ViewModel/MusicPlayerViewModel.swift:72-75 | when only the first of three songs matches, the filter gives that song alone |
| `Scenarios.FilterFirstOfTwo` | simple-music-app/ViewModel/MusicPlayerViewModel.swift:72-75 | when only the first of two songs matches, the filter gives that song alone |
| `Scenarios.FilterNoneOfTwo` | simple-music-app/ViewModel/MusicPlayerViewModel.swift:72-75 | when neither of two songs matches, the filter gives nothing |
| `Scenarios.MatchByPrefix` | simple-music-app/ViewModel/MusicPlayerViewModel.swift:73-74 | a query that begins the text, up to case, is found in it |
| `Scenarios.NotContainedWithout` | simple-music-app/ViewModel/MusicPlayerViewModel.swift:73-74 | a text with no letter that folds to one of the query's letters does not contain the query |
| `Scenarios.AvoidsNotIn` | simple-music-app/ViewModel/MusicPlayerViewModel.swift:73-74 | a text with no character folding to c has no c in its folded form |

## Left out

- Media playback (AVFoundation). The `AVPlayer` is the field `player`, the preview reference it was built for, or `None` for `nil`. The player's `play`, `pause` and `seek` commands change no modelled state and are not modelled. `player.currentTime()` is the parameter `elapsed` of `PlayPause`. `CMTime` is a natural number in the player's own units.
- URL parsing: `URL(string:)` comes from the platform. It is the function `urlParses`, which the controller receives at construction.
- The `print` of the preview URL in `playSong` is output only, and is left out.
- Locale rules: `localizedCaseInsensitiveContains` is modelled as ASCII case folding plus a substring search. Other scripts, diacritics and locale-specific folding are not modelled.
- `localizedDescription` of a wrapped Foundation error: it depends on the platform. It is an opaque string in `NetworkFailure` and `DecodingError`.
- The network request itself (`NetworkManager.fetchSongs`): URLSession I/O, the 200-299 status check and JSON decoding through `Codable`, including the `CodingKeys` and `SearchResponse` in Song.swift. The controller side is split in two. `FetchSongs` is what happens when the request goes out. `CompleteFetch` is the callback, taking the catalog source's `Result`.
- Threading: `@MainActor`, `DispatchQueue.main.async`, `@Published` observation and the `[weak self]` capture are not modelled. The completion runs as an ordinary synchronous call on a live controller, and overlapping fetches are not modelled.
- Integer width: Swift's `Int` is 64 bits. `currentSongIndex + 1` and the status code are unbounded here, because the index never comes near the limit.
- The SwiftUI views only forward taps and text. The search bar writes `searchText` and then calls `searchSongs`; `Scenarios` does the same by assigning the field.
- The test suite's mock subclasses and its `Task.sleep` waits are replaced by direct calls in `Scenarios`.
