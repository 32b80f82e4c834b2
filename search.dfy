/** The filter inside `searchSongs`: a song is kept when its track name or
    its artist name contains the query, ignoring case. */
module Search {
  import opened Model
  import opened Text

  /** The closure passed to `songs.filter` in `searchSongs`. */
  predicate Matches(song: Song, query: string): (r: bool)
    ensures r <==> (query != "" &&
                    ((exists i: nat :: OccursAt(LowerString(song.trackName), LowerString(query), i))
                     || (exists i: nat :: OccursAt(LowerString(song.artistName), LowerString(query), i))))
    ensures r ==> |query| <= |song.trackName| || |query| <= |song.artistName|
  {
    CaseInsensitiveContains(song.trackName, query) || CaseInsensitiveContains(song.artistName, query)
  }

  /** `songs.filter { Matches($0, query) }`: the matching songs, in catalog order. */
  function Filter(songs: seq<Song>, query: string): (r: seq<Song>)
    ensures |r| <= |songs|
    ensures forall s :: s in r ==> Matches(s, query)
  {
    if songs == [] then []
    else (if Matches(songs[0], query) then [songs[0]] else []) + Filter(songs[1..], query)
  }

  /** The filter decides on the first song, then goes on with the rest. */
  lemma FilterCons(song: Song, rest: seq<Song>, query: string)
    ensures Filter([song] + rest, query) == (if Matches(song, query) then [song] else []) + Filter(rest, query)
  {
    assert ([song] + rest)[1..] == rest;
  }

  /** `a` is `b` with some entries left out and the rest kept in order. */
  predicate IsSubsequence<T(==)>(a: seq<T>, b: seq<T>)
    decreases |b|
  {
    a == []
    || (b != [] && ((a[0] == b[0] && IsSubsequence(a[1..], b[1..])) || IsSubsequence(a, b[1..])))
  }

  /** Every sequence is a subsequence of itself. */
  lemma {:induction false} SubsequenceReflexive<T>(a: seq<T>)
    ensures IsSubsequence(a, a)
    decreases |a|
  {
    if a != [] {
      SubsequenceReflexive(a[1..]);
    }
  }

  /** The filter keeps the catalog order: its result is a subsequence of the catalog. */
  lemma {:induction false} FilterIsSubsequence(songs: seq<Song>, query: string)
    ensures IsSubsequence(Filter(songs, query), songs)
    decreases |songs|
  {
    if songs != [] {
      FilterIsSubsequence(songs[1..], query);
      var r := Filter(songs, query);
      if Matches(songs[0], query) {
        assert r[0] == songs[0] && r[1..] == Filter(songs[1..], query);
      } else {
        assert r == Filter(songs[1..], query);
      }
    }
  }

  /** The filter keeps every matching song as often as the catalog holds it,
      and no other song. */
  lemma {:induction false} FilterCounts(songs: seq<Song>, query: string, s: Song)
    ensures multiset(Filter(songs, query))[s] == if Matches(s, query) then multiset(songs)[s] else 0
    decreases |songs|
  {
    if songs != [] {
      FilterCounts(songs[1..], query, s);
      assert songs == [songs[0]] + songs[1..];
    }
  }

  /** A song is in the filtered list exactly when it is in the catalog and matches. */
  lemma FilterMembership(songs: seq<Song>, query: string, s: Song)
    ensures s in Filter(songs, query) <==> s in songs && Matches(s, query)
  {
    FilterCounts(songs, query, s);
  }

  /** With the empty query the filter keeps nothing: the platform's
      `localizedCaseInsensitiveContains("")` is false. This is why
      `searchSongs` tests for the empty query before filtering. */
  lemma {:induction false} FilterEmptyQuery(songs: seq<Song>)
    ensures Filter(songs, "") == []
    decreases |songs|
  {
    if songs != [] {
      FilterEmptyQuery(songs[1..]);
    }
  }

  /** Filtering a filtered list again with the same query changes nothing. */
  lemma {:induction false} FilterIdempotent(songs: seq<Song>, query: string)
    ensures Filter(Filter(songs, query), query) == Filter(songs, query)
    decreases |songs|
  {
    if songs != [] {
      FilterIdempotent(songs[1..], query);
      var rest := Filter(songs[1..], query);
      if Matches(songs[0], query) {
        var r := [songs[0]] + rest;
        assert r[0] == songs[0] && r[1..] == rest;
        assert Filter(r, query) == [songs[0]] + Filter(rest, query);
      } else {
        assert Filter(songs, query) == [] + rest == rest;
      }
    }
  }

  /** A song matching a query matches every non-empty piece of it. */
  lemma MatchesShorterQuery(song: Song, query: string, shorter: string)
    requires Matches(song, query) && CaseInsensitiveContains(query, shorter)
    ensures Matches(song, shorter)
  {
    if CaseInsensitiveContains(song.trackName, query) {
      CaseInsensitiveContainsTransitive(song.trackName, query, shorter);
    } else {
      CaseInsensitiveContainsTransitive(song.artistName, query, shorter);
    }
  }

  /** Shortening the query can only bring songs back: the result for the
      longer query is a subsequence of the result for the shorter one. */
  lemma {:induction false} FilterWidensForShorterQuery(songs: seq<Song>, query: string, shorter: string)
    requires CaseInsensitiveContains(query, shorter)
    ensures IsSubsequence(Filter(songs, query), Filter(songs, shorter))
    decreases |songs|
  {
    if songs != [] {
      FilterWidensForShorterQuery(songs[1..], query, shorter);
      var long, short := Filter(songs, query), Filter(songs, shorter);
      var longRest, shortRest := Filter(songs[1..], query), Filter(songs[1..], shorter);
      if Matches(songs[0], query) {
        MatchesShorterQuery(songs[0], query, shorter);
        assert long[0] == short[0] && long[1..] == longRest && short[1..] == shortRest;
      } else if Matches(songs[0], shorter) {
        assert long == longRest && short[1..] == shortRest && short != [];
        if long != [] && long[0] == short[0] {
          SubsequenceDropFirst(long, shortRest);
        }
      } else {
        assert long == longRest && short == shortRest;
      }
    }
  }

  /** Dropping the first entry of a subsequence leaves a subsequence. */
  lemma {:induction false} SubsequenceDropFirst<T>(a: seq<T>, b: seq<T>)
    requires a != [] && IsSubsequence(a, b)
    ensures IsSubsequence(a[1..], b)
    decreases |b|
  {
    if a[0] == b[0] && IsSubsequence(a[1..], b[1..]) {
      SubsequenceSkip(a[1..], b);
    } else {
      SubsequenceDropFirst(a, b[1..]);
      SubsequenceSkip(a[1..], b);
    }
  }

  /** A subsequence of the tail of `b` is a subsequence of `b`. */
  lemma SubsequenceSkip<T>(a: seq<T>, b: seq<T>)
    requires b != [] && IsSubsequence(a, b[1..])
    ensures IsSubsequence(a, b)
  {
  }
}
