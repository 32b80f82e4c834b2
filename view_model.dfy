/** The session controller of the app (ViewModel/MusicPlayerViewModel.swift):
    it owns the catalog, the search text and its filtered view, the current
    song and the play state, and it drives the media player. */
module ViewModel {
  import opened Wrappers
  import opened Model
  import opened Network
  import opened Search
  import opened ErrorMessages
  import opened PlaylistIndex

  class MusicPlayerViewModel {
    /** The catalog, in the order the catalog source returned it. */
    var songs: seq<Song>
    /** The query the search bar writes. */
    var searchText: string
    /** The list on screen. */
    var filteredSongs: seq<Song>
    var currentSong: Option<Song>
    var isPlaying: bool
    var isLoading: bool
    var errorMessage: Option<string>
    /** The playback position saved on pause (`CMTime`), in the player's own units. */
    var currentTime: nat
    /** The media player: `Some(url)` when a player was built for the preview
        reference `url`, `None` when the player is `nil`. */
    var player: Option<string>
    var currentSongIndex: nat
    /** `URL(string:)`: whether a preview reference parses as a URL. */
    const urlParses: string -> bool

    /** The filtered list is drawn from the catalog in catalog order, and the
        current song, when there is one, belongs to the catalog. */
    ghost predicate Consistent()
      reads this
    {
      IsSubsequence(filteredSongs, songs) && (currentSong.Some? ==> currentSong.value in songs)
    }

    /** `currentSongIndex` points at the current song. */
    ghost predicate Synced()
      reads this
    {
      currentSong.Some? && currentSongIndex < |songs| && songs[currentSongIndex] == currentSong.value
    }

    /** `init()`: empty state, then a catalog fetch is started. */
    constructor (urlParses: string -> bool)
      ensures this.urlParses == urlParses
      ensures songs == [] && searchText == "" && filteredSongs == [] && currentSong == None
      ensures !isPlaying && isLoading && errorMessage == None
      ensures currentTime == 0 && player == None && currentSongIndex == 0
      ensures Consistent()
    {
      this.urlParses := urlParses;
      songs, searchText, filteredSongs, currentSong := [], "", [], None;
      isPlaying, isLoading, errorMessage := false, false, None;
      currentTime, player, currentSongIndex := 0, None, 0;
      new;
      FetchSongs();
    }

    /** The synchronous part of `fetchSongs`: mark the fetch as running and
        clear the last error. The request goes to the catalog source, whose
        answer arrives later through `CompleteFetch`. */
    method FetchSongs()
      modifies this`isLoading, this`errorMessage
      ensures isLoading && errorMessage == None
      ensures old(Consistent()) ==> Consistent()
      ensures old(Synced()) ==> Synced()
    {
      isLoading := true;
      errorMessage := None;
    }

    /** The completion handler of `fetchSongs`. A success replaces the catalog
        and the list on screen wholesale and selects the first song without
        playing it; a failure only records a message. Either way loading ends. */
    method CompleteFetch(result: Result<seq<Song>, NetworkError>)
      modifies this`isLoading, this`songs, this`filteredSongs, this`currentSong, this`errorMessage
      ensures !isLoading
      ensures result.Success? ==>
        && songs == result.value && filteredSongs == result.value
        && currentSong == (if result.value == [] then None else Some(result.value[0]))
        && errorMessage == old(errorMessage)
      ensures result.Failure? ==>
        && songs == old(songs) && filteredSongs == old(filteredSongs) && currentSong == old(currentSong)
        && errorMessage == Some(ErrorMessage(result.error))
      ensures result.Success? || old(Consistent()) ==> Consistent()
      ensures result.Success? && result.value != [] && currentSongIndex == 0 ==> Synced()
    {
      isLoading := false;
      match result
      case Success(fetched) =>
        songs := fetched;
        filteredSongs := fetched;
        currentSong := if fetched == [] then None else Some(fetched[0]);
        SubsequenceReflexive(fetched);
      case Failure(error) =>
        HandleError(error);
    }

    /** `handleError`: store the message for `error`. */
    method HandleError(error: NetworkError)
      modifies this`errorMessage
      ensures errorMessage == Some(ErrorMessage(error))
      ensures old(Consistent()) ==> Consistent()
      ensures old(Synced()) ==> Synced()
    {
      errorMessage := Some(ErrorMessage(error));
    }

    /** `playPause`: without a current song nothing happens. Otherwise pausing
        saves the player's position (`elapsed`, what the player reports; zero
        when there is no player), resuming builds a player if there is none,
        and the play flag flips. */
    method PlayPause(elapsed: nat)
      modifies this`isPlaying, this`currentTime, this`player
      ensures currentSong.None? ==>
        isPlaying == old(isPlaying) && currentTime == old(currentTime) && player == old(player)
      ensures currentSong.Some? ==> isPlaying == !old(isPlaying)
      ensures currentSong.Some? && old(isPlaying) ==>
        currentTime == (if old(player).Some? then elapsed else 0) && player == old(player)
      ensures currentSong.Some? && !old(isPlaying) ==>
        && currentTime == old(currentTime)
        && player == (if old(player).None? && urlParses(currentSong.value.previewUrl)
                      then Some(currentSong.value.previewUrl) else old(player))
      ensures old(Consistent()) ==> Consistent()
      ensures old(Synced()) ==> Synced()
    {
      if currentSong.None? {
        return;
      }
      if isPlaying {
        currentTime := if player.Some? then elapsed else 0;
      } else if player.None? {
        PlaySong(currentSong.value);
      }
      isPlaying := !isPlaying;
    }

    /** `searchSongs`: recompute the list on screen from the whole catalog.
        The empty query shows the whole catalog. */
    method SearchSongs()
      modifies this`filteredSongs
      ensures searchText == "" ==> filteredSongs == songs
      ensures searchText != "" ==> filteredSongs == Filter(songs, searchText)
      ensures IsSubsequence(filteredSongs, songs)
      ensures forall s :: s in filteredSongs <==> s in songs && (searchText == "" || Matches(s, searchText))
      ensures old(Consistent()) ==> Consistent()
    {
      if searchText == "" {
        filteredSongs := songs;
        SubsequenceReflexive(songs);
      } else {
        filteredSongs := Filter(songs, searchText);
        FilterIsSubsequence(songs, searchText);
        forall s ensures s in filteredSongs <==> s in songs && Matches(s, searchText) {
          FilterMembership(songs, searchText, s);
        }
      }
    }

    /** `stop`: drop the player and clear the play flag; the current song stays. */
    method Stop()
      modifies this`player, this`isPlaying
      ensures player == None && !isPlaying
      ensures old(Consistent()) ==> Consistent()
      ensures old(Synced()) ==> Synced()
    {
      player := None;
      isPlaying := false;
    }

    /** `nextSong`: step to the next catalog position, wrapping at the end, and
        play that song. The catalog must not be empty (the source traps on a
        remainder by zero). */
    method NextSong()
      requires |songs| > 0
      modifies this`currentSongIndex, this`currentSong, this`player, this`isPlaying
      ensures currentSongIndex == NextIndex(old(currentSongIndex), |songs|)
      ensures currentSongIndex < |songs| && currentSong == Some(songs[currentSongIndex])
      ensures isPlaying
      ensures player == (if urlParses(songs[currentSongIndex].previewUrl)
                         then Some(songs[currentSongIndex].previewUrl) else old(player))
      ensures Synced()
      ensures old(Consistent()) ==> Consistent()
    {
      currentSongIndex := (currentSongIndex + 1) % |songs|;
      currentSong := Some(songs[currentSongIndex]);
      PlaySong(songs[currentSongIndex]);
      isPlaying := true;
    }

    /** `previousSong`: step to the previous catalog position, wrapping at the
        start, and play that song. The catalog must not be empty. */
    method PreviousSong()
      requires |songs| > 0
      modifies this`currentSongIndex, this`currentSong, this`player, this`isPlaying
      ensures currentSongIndex == PreviousIndex(old(currentSongIndex), |songs|)
      ensures currentSongIndex < |songs| && currentSong == Some(songs[currentSongIndex])
      ensures isPlaying
      ensures player == (if urlParses(songs[currentSongIndex].previewUrl)
                         then Some(songs[currentSongIndex].previewUrl) else old(player))
      ensures Synced()
      ensures old(Consistent()) ==> Consistent()
    {
      currentSongIndex := (currentSongIndex - 1 + |songs|) % |songs|;
      currentSong := Some(songs[currentSongIndex]);
      PlaySong(songs[currentSongIndex]);
      isPlaying := true;
    }

    /** `selectAndPlay`: a song with the current song's id changes nothing,
        whether playing or paused. Any other song is made current and played
        from the start, and the index moves to the song's first position in
        the catalog when it is there. */
    method SelectAndPlay(song: Song)
      modifies this`player, this`isPlaying, this`currentSong, this`currentSongIndex
      ensures old(currentSong).Some? && old(currentSong).value.id == song.id ==>
        && currentSong == old(currentSong) && isPlaying == old(isPlaying)
        && player == old(player) && currentSongIndex == old(currentSongIndex)
      ensures !(old(currentSong).Some? && old(currentSong).value.id == song.id) ==>
        && currentSong == Some(song) && isPlaying
        && currentSongIndex == (match FirstIndexOfId(songs, song.id)
                                case Some(i) => i
                                case None => old(currentSongIndex))
        && player == (if urlParses(song.previewUrl) then Some(song.previewUrl) else None)
      ensures old(Consistent()) && song in songs ==> Consistent()
      ensures (!(old(currentSong).Some? && old(currentSong).value.id == song.id)
               && song in songs && UniqueIds(songs)) ==> Synced()
    {
      if currentSong.Some? && currentSong.value.id == song.id {
        return;
      }
      Stop();
      currentSong := Some(song);
      var found := FirstIndexOfId(songs, song.id);
      if found.Some? {
        currentSongIndex := found.value;
      }
      PlaySong(song);
      isPlaying := true;
      if song in songs && UniqueIds(songs) {
        var k :| 0 <= k < |songs| && songs[k] == song;
        FirstIndexOfListedSong(songs, k);
      }
    }

    /** `playSong`: build a player for the song's preview reference and start
        it; when the reference does not parse as a URL nothing happens. */
    method PlaySong(song: Song)
      modifies this`player
      ensures player == (if urlParses(song.previewUrl) then Some(song.previewUrl) else old(player))
    {
      if !urlParses(song.previewUrl) {
        return;
      }
      player := Some(song.previewUrl);
    }
  }
}
