/** The track record the catalog is made of (Model/Song.swift). */
module Model {
  import opened Wrappers

  /** One catalog entry. `id` is the catalog source's track id; the other
      fields are free text, the last two being URL strings. */
  datatype Song = Song(
    id: int,
    trackName: string,
    collectionName: string,
    artistName: string,
    artworkUrl100: string,
    previewUrl: string)

  /** No two entries of `songs` share an id. */
  predicate UniqueIds(songs: seq<Song>)
  {
    forall i, j :: 0 <= i < |songs| && 0 <= j < |songs| && songs[i].id == songs[j].id ==> i == j
  }

  /** Swift's `songs.firstIndex(where: { $0.id == id })`: the first position
      holding a song with that id, or `None` when there is none. */
  function FirstIndexOfId(songs: seq<Song>, id: int): (r: Option<nat>)
    ensures r.Some? ==> r.value < |songs| && songs[r.value].id == id
    ensures r.Some? ==> forall j :: 0 <= j < r.value ==> songs[j].id != id
    ensures r.None? ==> forall j :: 0 <= j < |songs| ==> songs[j].id != id
  {
    if |songs| == 0 then None
    else if songs[0].id == id then Some(0)
    else match FirstIndexOfId(songs[1..], id)
      case None => None
      case Some(k) => Some(k + 1)
  }

  /** When ids are unique, the first index with the id of a listed song is
      that song's own position. */
  lemma FirstIndexOfListedSong(songs: seq<Song>, k: nat)
    requires UniqueIds(songs) && k < |songs|
    ensures FirstIndexOfId(songs, songs[k].id) == Some(k)
  {
  }
}
