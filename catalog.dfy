/**
 * The song document of the catalog (`albums/{albumId}/songs/{songId}`) and the two list updates the
 * upload handlers apply to it: the lyric list keyed by track id and the track list keyed by name.
 */
module Catalog {
  import opened Wrappers
  import opened JsNumbers

  /** A track record `{name, src}`; `extra` holds the other fields a stored record may carry. */
  datatype Track = Track(name: string, src: string, extra: map<string, string>)

  /** A lyric record `{trackId, trackName, lrc}`; `trackId` is the Number `parseInt` gave. */
  datatype LyricEntry = LyricEntry(trackId: IntOrNaN, trackName: string, lrc: string)

  /** The fields of a song document this model reads or writes; `None` is an absent field. */
  datatype Song = Song(tracks: Option<seq<Track>>, lrcs: Option<seq<LyricEntry>>, sharedWith: Option<seq<string>>)

  /** The field of an album document this model writes. */
  datatype Album = Album(sharedWith: Option<seq<string>>)

  /** `Array.prototype.findIndex`: the first position whose element satisfies `p`, or -1. */
  function FirstIndex<T>(s: seq<T>, p: T -> bool): (r: int)
    ensures -1 <= r < |s|
    ensures r == -1 <==> forall i :: 0 <= i < |s| ==> !p(s[i])
    ensures 0 <= r ==> p(s[r]) && forall i :: 0 <= i < r ==> !p(s[i])
  {
    if s == [] then -1
    else if p(s[0]) then 0
    else
      var k := FirstIndex(s[1..], p);
      if k == -1 then -1 else k + 1
  }

  /** `list || []`: an absent list reads as the empty one. */
  function OrEmpty<T>(list: Option<seq<T>>): seq<T> {
    match list
    case None => []
    case Some(s) => s
  }

  // ---------------------------------------------------------------- lyrics

  /** The handler's test `lrc.trackId === parseInt(trackId)`. */
  predicate MatchesTrackId(e: LyricEntry, key: IntOrNaN) {
    StrictEquals(e.trackId, key)
  }

  /** `lrcs.findIndex(lrc => lrc.trackId === key)`. */
  function LrcIndex(lrcs: seq<LyricEntry>, key: IntOrNaN): (r: int)
    ensures -1 <= r < |lrcs|
    ensures r == -1 <==> forall i :: 0 <= i < |lrcs| ==> !MatchesTrackId(lrcs[i], key)
    ensures 0 <= r ==> MatchesTrackId(lrcs[r], key) && forall i :: 0 <= i < r ==> !MatchesTrackId(lrcs[i], key)
  {
    FirstIndex(lrcs, (e: LyricEntry) => MatchesTrackId(e, key))
  }

  /** The first matching position is the only one the contract of `LrcIndex` admits. */
  lemma LrcIndexIs(lrcs: seq<LyricEntry>, key: IntOrNaN, i: int)
    requires 0 <= i < |lrcs| && MatchesTrackId(lrcs[i], key)
    requires forall j :: 0 <= j < i ==> !MatchesTrackId(lrcs[j], key)
    ensures LrcIndex(lrcs, key) == i
  {
  }

  /** `lrcs.find(lrc => lrc.trackId === key)`. */
  function FindLrc(lrcs: seq<LyricEntry>, key: IntOrNaN): (r: Option<LyricEntry>)
    ensures r.None? <==> forall i :: 0 <= i < |lrcs| ==> !MatchesTrackId(lrcs[i], key)
    ensures r.Some? ==>
      exists i :: && 0 <= i < |lrcs| && lrcs[i] == r.value && MatchesTrackId(lrcs[i], key)
                  && forall j :: 0 <= j < i ==> !MatchesTrackId(lrcs[j], key)
  {
    var i := LrcIndex(lrcs, key);
    if i > -1 then Some(lrcs[i]) else None
  }

  /**
   * The lyric list after the upload of `url` for `key`: the first entry with that track id gets the
   * new URL, or a new entry is pushed at the end. With an entry for `key` the length stays and only
   * that entry's `lrc` changes; no track id or track name changes.
   */
  function UpsertLrc(lrcs: seq<LyricEntry>, key: IntOrNaN, trackName: string, url: string): (r: seq<LyricEntry>)
    ensures (exists j :: 0 <= j < |lrcs| && MatchesTrackId(lrcs[j], key)) ==> |r| == |lrcs|
    ensures (forall j :: 0 <= j < |lrcs| ==> !MatchesTrackId(lrcs[j], key)) ==> r == lrcs + [LyricEntry(key, trackName, url)]
    ensures |lrcs| <= |r|
    ensures forall j :: 0 <= j < |lrcs| ==>
      r[j] == (if MatchesTrackId(lrcs[j], key) && forall i :: 0 <= i < j ==> !MatchesTrackId(lrcs[i], key)
               then lrcs[j].(lrc := url) else lrcs[j])
  {
    var i := LrcIndex(lrcs, key);
    if i > -1 then lrcs[i := lrcs[i].(lrc := url)] else lrcs + [LyricEntry(key, trackName, url)]
  }

  /** The lyric URL the list gives for a track id: that of the first entry with an equal id. */
  function LyricUrl(lrcs: seq<LyricEntry>, key: IntOrNaN): Option<string> {
    match FindLrc(lrcs, key)
    case None => None
    case Some(e) => Some(e.lrc)
  }

  /** No two entries have `===`-equal track ids. */
  predicate UniqueTrackIds(lrcs: seq<LyricEntry>) {
    forall i, j :: 0 <= i < j < |lrcs| ==> !MatchesTrackId(lrcs[i], lrcs[j].trackId)
  }

  /**
   * Reading after writing: a numeric track id maps to the uploaded URL, and every other numeric id
   * maps to what it mapped to before.
   */
  lemma UpsertLrcLookup(lrcs: seq<LyricEntry>, key: IntOrNaN, trackName: string, url: string, other: IntOrNaN)
    requires key.Int?
    ensures LyricUrl(UpsertLrc(lrcs, key, trackName, url), key) == Some(url)
    ensures !StrictEquals(other, key) ==>
      LyricUrl(UpsertLrc(lrcs, key, trackName, url), other) == LyricUrl(lrcs, other)
  {
    var r := UpsertLrc(lrcs, key, trackName, url);
    var i := LrcIndex(lrcs, key);
    if i == -1 {
      assert r[|lrcs|] == LyricEntry(key, trackName, url);
      LrcIndexIs(r, key, |lrcs|);
    } else {
      LrcIndexIs(r, key, i);
    }
    if !StrictEquals(other, key) {
      UpsertLrcLookupOther(lrcs, key, trackName, url, other);
    }
  }

  /** An upsert for one key leaves the lookup of any key that does not match it as it was. */
  lemma UpsertLrcLookupOther(lrcs: seq<LyricEntry>, key: IntOrNaN, trackName: string, url: string, other: IntOrNaN)
    requires !StrictEquals(other, key)
    ensures LyricUrl(UpsertLrc(lrcs, key, trackName, url), other) == LyricUrl(lrcs, other)
  {
    var r := UpsertLrc(lrcs, key, trackName, url);
    var i := LrcIndex(lrcs, key);
    var o := LrcIndex(lrcs, other);
    if o >= 0 {
      assert o != i;
      assert r[o] == lrcs[o];
      LrcIndexIs(r, other, o);
    } else {
      assert forall j :: 0 <= j < |lrcs| ==> !MatchesTrackId(r[j], other);
      assert i == -1 ==> !MatchesTrackId(r[|lrcs|], other);
    }
  }

  /** An upsert keeps track ids unique, so the catalog holds at most one entry per track. */
  lemma UpsertLrcKeepsIdsUnique(lrcs: seq<LyricEntry>, key: IntOrNaN, trackName: string, url: string)
    requires UniqueTrackIds(lrcs)
    ensures UniqueTrackIds(UpsertLrc(lrcs, key, trackName, url))
  {
    var r := UpsertLrc(lrcs, key, trackName, url);
    if LrcIndex(lrcs, key) == -1 {
      forall i, j | 0 <= i < j < |r| ensures !MatchesTrackId(r[i], r[j].trackId) {
        if j == |lrcs| {
          assert !MatchesTrackId(lrcs[i], key);
        }
      }
    }
  }

  /** Uploading the same lyric URL for a numeric track id twice is the same as uploading it once. */
  lemma UpsertLrcIdempotent(lrcs: seq<LyricEntry>, key: IntOrNaN, trackName: string, url: string)
    requires key.Int?
    ensures UpsertLrc(UpsertLrc(lrcs, key, trackName, url), key, trackName, url) == UpsertLrc(lrcs, key, trackName, url)
  {
    var r := UpsertLrc(lrcs, key, trackName, url);
    var i := LrcIndex(lrcs, key);
    if i == -1 {
      LrcIndexIs(r, key, |lrcs|);
    } else {
      LrcIndexIs(r, key, i);
    }
  }

  /**
   * A track id that `parseInt` turns into NaN matches no entry, not even one written for the same
   * form value: every such upload appends one more entry.
   */
  lemma UpsertLrcNaNAppends(lrcs: seq<LyricEntry>, trackName: string, url: string)
    ensures UpsertLrc(lrcs, NaN, trackName, url) == lrcs + [LyricEntry(NaN, trackName, url)]
    ensures |UpsertLrc(UpsertLrc(lrcs, NaN, trackName, url), NaN, trackName, url)| == |lrcs| + 2
  {
  }

  // ---------------------------------------------------------------- tracks

  /** `tracks.find(t => t.name === trackName)`, as a position. */
  function TrackIndex(tracks: seq<Track>, name: string): (r: int)
    ensures -1 <= r < |tracks|
    ensures r == -1 <==> forall i :: 0 <= i < |tracks| ==> tracks[i].name != name
    ensures 0 <= r ==> tracks[r].name == name && forall i :: 0 <= i < r ==> tracks[i].name != name
  {
    FirstIndex(tracks, (t: Track) => t.name == name)
  }

  lemma TrackIndexIs(tracks: seq<Track>, name: string, i: int)
    requires 0 <= i < |tracks| && tracks[i].name == name
    requires forall j :: 0 <= j < i ==> tracks[j].name != name
    ensures TrackIndex(tracks, name) == i
  {
  }

  /**
   * The track list after the upload of `url` for `name`: the first track of that name gets the new
   * `src`, or `{name, src}` is pushed at the end. With a track of that name the length stays and
   * only that track's `src` changes; no name or other field changes.
   */
  function UpsertTrack(tracks: seq<Track>, name: string, url: string): (r: seq<Track>)
    ensures (exists j :: 0 <= j < |tracks| && tracks[j].name == name) ==> |r| == |tracks|
    ensures (forall j :: 0 <= j < |tracks| ==> tracks[j].name != name) ==> r == tracks + [Track(name, url, map[])]
    ensures |tracks| <= |r|
    ensures forall j :: 0 <= j < |tracks| ==>
      r[j] == (if tracks[j].name == name && forall i :: 0 <= i < j ==> tracks[i].name != name
               then tracks[j].(src := url) else tracks[j])
  {
    var i := TrackIndex(tracks, name);
    if i >= 0 then tracks[i := tracks[i].(src := url)] else tracks + [Track(name, url, map[])]
  }

  /** The `src` the list gives for a name: that of the first track of that name. */
  function TrackSrc(tracks: seq<Track>, name: string): Option<string> {
    var i := TrackIndex(tracks, name);
    if i >= 0 then Some(tracks[i].src) else None
  }

  predicate UniqueNames(tracks: seq<Track>) {
    forall i, j :: 0 <= i < j < |tracks| ==> tracks[i].name != tracks[j].name
  }

  /** Reading after writing: the name maps to the uploaded URL, every other name as before. */
  lemma UpsertTrackLookup(tracks: seq<Track>, name: string, url: string, other: string)
    ensures TrackSrc(UpsertTrack(tracks, name, url), name) == Some(url)
    ensures other != name ==> TrackSrc(UpsertTrack(tracks, name, url), other) == TrackSrc(tracks, other)
  {
    var r := UpsertTrack(tracks, name, url);
    var i := TrackIndex(tracks, name);
    if i == -1 {
      TrackIndexIs(r, name, |tracks|);
    } else {
      TrackIndexIs(r, name, i);
    }
    if other != name {
      UpsertTrackLookupOther(tracks, name, url, other);
    }
  }

  /** An upsert for one name leaves the lookup of every other name as it was. */
  lemma UpsertTrackLookupOther(tracks: seq<Track>, name: string, url: string, other: string)
    requires other != name
    ensures TrackSrc(UpsertTrack(tracks, name, url), other) == TrackSrc(tracks, other)
  {
    var r := UpsertTrack(tracks, name, url);
    var o := TrackIndex(tracks, other);
    if o >= 0 {
      assert r[o] == tracks[o];
      TrackIndexIs(r, other, o);
    } else {
      assert forall j :: 0 <= j < |tracks| ==> r[j].name != other;
      assert |r| > |tracks| ==> r[|tracks|].name == name;
    }
  }

  /** A track upsert keeps names unique. */
  lemma UpsertTrackKeepsNamesUnique(tracks: seq<Track>, name: string, url: string)
    requires UniqueNames(tracks)
    ensures UniqueNames(UpsertTrack(tracks, name, url))
  {
    var r := UpsertTrack(tracks, name, url);
    if TrackIndex(tracks, name) == -1 {
      forall i, j | 0 <= i < j < |r| ensures r[i].name != r[j].name {
        if j == |tracks| {
          assert tracks[i].name != name;
        }
      }
    }
  }

  /** Uploading the same URL for a name twice is the same as uploading it once. */
  lemma UpsertTrackIdempotent(tracks: seq<Track>, name: string, url: string)
    ensures UpsertTrack(UpsertTrack(tracks, name, url), name, url) == UpsertTrack(tracks, name, url)
  {
    var r := UpsertTrack(tracks, name, url);
    var i := TrackIndex(tracks, name);
    if i == -1 {
      TrackIndexIs(r, name, |tracks|);
    } else {
      TrackIndexIs(r, name, i);
    }
  }
}
