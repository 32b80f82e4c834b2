/** The scenarios of the app's test suite (simple-music-appTests), replayed
    against the contracts of the view model. Each holds for every URL parser. */
module Scenarios {
  import opened Wrappers
  import opened Model
  import opened Network
  import opened Text
  import opened ErrorMessages
  import opened Search
  import opened ViewModel

  /** `Song.fixture` of the test suite, with its default album and URLs. */
  function Fixture(id: int, trackName: string, artistName: string): Song
  {
    Song(id, trackName, "Test Album", artistName, "https://example.com/song.jpg", "https://example.com/song.mp3")
  }

  /** A view model whose first fetch returned `fetched`. */
  method Loaded(urlParses: string -> bool, fetched: seq<Song>) returns (vm: MusicPlayerViewModel)
    ensures fresh(vm) && vm.urlParses == urlParses
    ensures vm.songs == fetched && vm.filteredSongs == fetched && vm.searchText == ""
    ensures vm.currentSong == (if fetched == [] then None else Some(fetched[0]))
    ensures !vm.isPlaying && !vm.isLoading && vm.errorMessage == None
    ensures vm.player == None && vm.currentSongIndex == 0
    ensures vm.Consistent()
  {
    vm := new MusicPlayerViewModel(urlParses);
    vm.CompleteFetch(Success(fetched));
  }

  /** A successful fetch loads the catalog, shows all of it, selects the
      first song and ends loading without an error. */
  method FetchSongsSuccess(urlParses: string -> bool)
    returns (count: nat, shown: nat, current: Option<int>, loading: bool, error: Option<string>)
    ensures count == 3 && shown == 3 && current == Some(1) && !loading && error == None
  {
    var vm := Loaded(urlParses, [Fixture(1, "Song 1", "Test Artist"), Fixture(2, "Song 2", "Test Artist"),
                                 Fixture(3, "Song 3", "Test Artist")]);
    count, shown, loading, error := |vm.songs|, |vm.filteredSongs|, vm.isLoading, vm.errorMessage;
    current := if vm.currentSong.Some? then Some(vm.currentSong.value.id) else None;
  }

  /** A failed fetch reports a network error and ends loading. */
  method FetchSongsNetworkError(urlParses: string -> bool, description: string)
    returns (error: Option<string>, loading: bool)
    ensures error.Some? && Contains(error.value, "Network error") && !loading
  {
    var vm := new MusicPlayerViewModel(urlParses);
    vm.CompleteFetch(Failure(NetworkFailure(description)));
    error, loading := vm.errorMessage, vm.isLoading;
    assert error.value[..13] == "Network error";
  }

  /** A server failure after a successful fetch keeps the catalog and shows
      the status code. */
  method FetchServerErrorKeepsCatalog(urlParses: string -> bool, fetched: seq<Song>)
    returns (songs: seq<Song>, error: Option<string>, loading: bool)
    ensures songs == fetched && error == Some("Server error: 500") && !loading
  {
    var vm := Loaded(urlParses, fetched);
    vm.FetchSongs();
    vm.CompleteFetch(Failure(ServerError(500)));
    songs, error, loading := vm.songs, vm.errorMessage, vm.isLoading;
    assert ErrorMessage(ServerError(500)) == "Server error: 500";
  }

  /** Searching "Rock" keeps only the song with that word in its name. */
  method SearchByTrackName(urlParses: string -> bool, rock: Song, pop: Song, jazz: Song)
    returns (shown: seq<Song>)
    requires rock == Fixture(1, "Rock Song", "Artist A") && pop == Fixture(2, "Pop Song", "Artist B")
    requires jazz == Fixture(3, "Jazz Melody", "Artist C")
    ensures |shown| == 1 && shown[0].trackName == "Rock Song"
  {
    var vm := Loaded(urlParses, [rock, pop, jazz]);
    vm.searchText := "Rock";
    vm.SearchSongs();
    RockQueryFacts();
    FilterFirstOfThree(rock, pop, jazz, "Rock");
    shown := vm.filteredSongs;
  }

  /** Searching "beatles" finds the song by its artist, whatever the case. */
  method SearchByArtistName(urlParses: string -> bool, a: Song, b: Song) returns (shown: seq<Song>)
    requires a == Fixture(1, "Song A", "Beatles") && b == Fixture(2, "Song B", "Rolling Stones")
    ensures |shown| == 1 && shown[0].artistName == "Beatles"
  {
    var vm := Loaded(urlParses, [a, b]);
    vm.searchText := "beatles";
    vm.SearchSongs();
    BeatlesQueryFacts();
    FilterFirstOfTwo(a, b, "beatles");
    shown := vm.filteredSongs;
  }

  /** A query no song contains empties the list; clearing the query brings
      the whole catalog back. */
  method SearchWithNoMatches(urlParses: string -> bool, a: Song, b: Song)
    returns (shown: seq<Song>, cleared: seq<Song>, catalog: seq<Song>)
    requires a == Fixture(1, "Song A", "Test Artist") && b == Fixture(2, "Song B", "Test Artist")
    ensures shown == [] && cleared == catalog && catalog == [a, b]
  {
    var vm := Loaded(urlParses, [a, b]);
    vm.searchText := "NonExistentSong";
    vm.SearchSongs();
    NonExistentQueryFacts();
    FilterNoneOfTwo(a, b, "NonExistentSong");
    shown := vm.filteredSongs;
    vm.searchText := "";
    vm.SearchSongs();
    cleared, catalog := vm.filteredSongs, vm.songs;
  }

  /** `playPause` on the selected song starts playback. */
  method PlayPauseStartsPlaying(urlParses: string -> bool, elapsed: nat) returns (playing: bool)
    ensures playing
  {
    var vm := Loaded(urlParses, [Fixture(1, "Test Song", "Test Artist")]);
    vm.PlayPause(elapsed);
    playing := vm.isPlaying;
  }

  /** Two presses of play/pause restore the play flag and leave the song,
      the catalog and the list on screen as they were. */
  method PlayPauseTwice(vm: MusicPlayerViewModel, firstElapsed: nat, secondElapsed: nat)
    modifies vm
    ensures vm.isPlaying == old(vm.isPlaying) && vm.currentSong == old(vm.currentSong)
    ensures vm.songs == old(vm.songs) && vm.filteredSongs == old(vm.filteredSongs)
  {
    vm.PlayPause(firstElapsed);
    vm.PlayPause(secondElapsed);
  }

  /** `stop` clears the play flag and keeps the current song; a second
      `stop` changes nothing more. */
  method StopStopsPlayback(urlParses: string -> bool)
    returns (playing: bool, current: Option<Song>, playingAgain: bool, currentAgain: Option<Song>)
    ensures !playing && current == Some(Fixture(1, "Test Song", "Test Artist"))
    ensures playingAgain == playing && currentAgain == current
  {
    var vm := Loaded(urlParses, [Fixture(1, "Test Song", "Test Artist")]);
    vm.isPlaying := true;
    vm.Stop();
    playing, current := vm.isPlaying, vm.currentSong;
    vm.Stop();
    playingAgain, currentAgain := vm.isPlaying, vm.currentSong;
  }

  /** From the first of three songs, `nextSong` plays ids 2, 3 and then wraps to 1. */
  method NextSongPlaysNextTrack(urlParses: string -> bool) returns (ids: seq<int>, playing: bool)
    ensures ids == [2, 3, 1] && playing
  {
    var vm := Loaded(urlParses, [Fixture(1, "Song 1", "Test Artist"), Fixture(2, "Song 2", "Test Artist"),
                                 Fixture(3, "Song 3", "Test Artist")]);
    vm.NextSong();
    ids := [vm.currentSong.value.id];
    vm.NextSong();
    ids := ids + [vm.currentSong.value.id];
    vm.NextSong();
    ids := ids + [vm.currentSong.value.id];
    playing := vm.isPlaying;
  }

  /** `previousSong` from the first song wraps to the last one, and
      `nextSong` brings the first one back. */
  method PreviousThenNext(urlParses: string -> bool) returns (ids: seq<int>)
    ensures ids == [3, 1]
  {
    var vm := Loaded(urlParses, [Fixture(1, "Song 1", "Test Artist"), Fixture(2, "Song 2", "Test Artist"),
                                 Fixture(3, "Song 3", "Test Artist")]);
    vm.PreviousSong();
    ids := [vm.currentSong.value.id];
    vm.NextSong();
    ids := ids + [vm.currentSong.value.id];
  }

  /** Selecting another song makes it current and plays it. */
  method SelectAndPlayDifferentSong(urlParses: string -> bool) returns (current: Option<int>, playing: bool)
    ensures current == Some(2) && playing
  {
    var target := Fixture(2, "Target Song", "Test Artist");
    var vm := Loaded(urlParses, [Fixture(1, "Test Song", "Test Artist"), target, Fixture(3, "Test Song", "Test Artist")]);
    vm.SelectAndPlay(target);
    current := if vm.currentSong.Some? then Some(vm.currentSong.value.id) else None;
    playing := vm.isPlaying;
  }

  /** Selecting the current song leaves the play state as it was. */
  method SelectAndPlaySameSong(urlParses: string -> bool, startPlaying: bool)
    returns (current: Option<int>, playing: bool)
    ensures current == Some(1) && playing == startPlaying
  {
    var song := Fixture(1, "Test Song", "Test Artist");
    var vm := Loaded(urlParses, [song]);
    vm.isPlaying := startPlaying;
    vm.SelectAndPlay(song);
    current := if vm.currentSong.Some? then Some(vm.currentSong.value.id) else None;
    playing := vm.isPlaying;
  }

  /** "Rock" is in the rock song's name and in no other name or artist of
      the track-name test. */
  lemma RockQueryFacts()
    ensures CaseInsensitiveContains("Rock Song", "Rock")
    ensures !CaseInsensitiveContains("Pop Song", "Rock") && !CaseInsensitiveContains("Artist B", "Rock")
    ensures !CaseInsensitiveContains("Jazz Melody", "Rock") && !CaseInsensitiveContains("Artist C", "Rock")
  {
    MatchByPrefix("Rock Song", "Rock");
    RockNotInPopSong();
    RockNotInJazzMelody();
  }

  /** "Rock" is in neither the name nor the artist of the pop song. */
  lemma RockNotInPopSong()
    ensures !CaseInsensitiveContains("Pop Song", "Rock") && !CaseInsensitiveContains("Artist B", "Rock")
  {
    NotContainedWithout("Pop Song", "Rock", 3);
    NotContainedWithout("Artist B", "Rock", 3);
  }

  /** "Rock" is in neither the name nor the artist of the jazz song. */
  lemma RockNotInJazzMelody()
    ensures !CaseInsensitiveContains("Jazz Melody", "Rock") && !CaseInsensitiveContains("Artist C", "Rock")
  {
    NotContainedWithout("Jazz Melody", "Rock", 3);
    NotContainedWithout("Artist C", "Rock", 3);
  }

  /** "beatles" is in the artist "Beatles", whatever the case, and in no
      other name or artist of the artist-name test. */
  lemma BeatlesQueryFacts()
    ensures CaseInsensitiveContains("Beatles", "beatles") && !CaseInsensitiveContains("Song A", "beatles")
    ensures !CaseInsensitiveContains("Song B", "beatles") && !CaseInsensitiveContains("Rolling Stones", "beatles")
  {
    MatchByPrefix("Beatles", "beatles");
    NotContainedWithout("Song A", "beatles", 1);
    NotContainedWithout("Song B", "beatles", 2);
    assert AvoidsFrom("Rolling Stones", 'a', 7);
    NotContainedWithout("Rolling Stones", "beatles", 2);
  }

  /** "NonExistentSong" is in no name or artist of the no-match test. */
  lemma NonExistentQueryFacts()
    ensures !CaseInsensitiveContains("Song A", "NonExistentSong") && !CaseInsensitiveContains("Song B", "NonExistentSong")
    ensures !CaseInsensitiveContains("Test Artist", "NonExistentSong")
  {
    NotContainedWithout("Song A", "NonExistentSong", 4);
    NotContainedWithout("Song B", "NonExistentSong", 4);
    NotContainedWithout("Test Artist", "NonExistentSong", 4);
  }

  /** Of three songs only the first matches. */
  lemma FilterFirstOfThree(x: Song, y: Song, z: Song, query: string)
    requires Matches(x, query) && !Matches(y, query) && !Matches(z, query)
    ensures Filter([x, y, z], query) == [x]
  {
    FilterCons(z, [], query);
    FilterCons(y, [z], query);
    FilterCons(x, [y, z], query);
    assert [x, y, z] == [x] + [y, z];
  }

  /** Of two songs only the first matches. */
  lemma FilterFirstOfTwo(x: Song, y: Song, query: string)
    requires Matches(x, query) && !Matches(y, query)
    ensures Filter([x, y], query) == [x]
  {
    FilterCons(y, [], query);
    FilterCons(x, [y], query);
    assert [x, y] == [x] + [y];
  }

  /** Of two songs none matches. */
  lemma FilterNoneOfTwo(x: Song, y: Song, query: string)
    requires !Matches(x, query) && !Matches(y, query)
    ensures Filter([x, y], query) == []
  {
    FilterCons(y, [], query);
    FilterCons(x, [y], query);
    assert [x, y] == [x] + [y];
  }

  /** A needle that starts `text`, up to case, is contained in it. */
  lemma MatchByPrefix(text: string, needle: string)
    requires needle != "" && |needle| <= |text|
    requires forall i :: 0 <= i < |needle| ==> Lower(text[i]) == Lower(needle[i])
    ensures CaseInsensitiveContains(text, needle)
  {
    assert LowerString(text)[..|needle|] == LowerString(needle);
  }

  /** No character of `s` from position `from` on lower-cases to `c`. */
  predicate AvoidsFrom(s: string, c: char, from: nat)
    decreases |s| - from
  {
    from >= |s| || (Lower(s[from]) != c && AvoidsFrom(s, c, from + 1))
  }

  /** A text that avoids a letter of the needle does not contain the needle. */
  lemma NotContainedWithout(text: string, needle: string, k: nat)
    requires k < |needle| && AvoidsFrom(text, Lower(needle[k]), 0)
    ensures !CaseInsensitiveContains(text, needle)
  {
    AvoidsNotIn(text, Lower(needle[k]), 0);
    MissingCharNotContained(LowerString(text), LowerString(needle), Lower(needle[k]));
  }

  lemma {:induction false} AvoidsNotIn(s: string, c: char, from: nat)
    requires AvoidsFrom(s, c, from)
    ensures forall i :: from <= i < |s| ==> LowerString(s)[i] != c
    decreases |s| - from
  {
    if from < |s| {
      AvoidsNotIn(s, c, from + 1);
    }
  }
}
