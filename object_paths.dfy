/**
 * Names of the objects the two upload handlers write to the object store:
 * `sounds/{albumId}/{songId}/{songId}_{trackName}.mp3` for audio and
 * `sounds/{albumId}/{songId}/{songId}_{trackName}_track-{trackId}.lrc` for lyrics.
 * Form fields are inserted as they arrive; nothing is escaped.
 */
module ObjectPaths {
  import opened JsNumbers

  const Root: string := "sounds/"

  /** The object `fileName` in the folder of one song of one album. */
  function ObjectPath(albumId: string, songId: string, fileName: string): (r: string)
    ensures |Root| <= |r| && r[..|Root|] == Root
  {
    Root + albumId + "/" + songId + "/" + fileName
  }

  function AudioFileName(songId: string, trackName: string): string {
    songId + "_" + trackName + ".mp3"
  }

  function LyricFileName(songId: string, trackName: string, trackId: string): string {
    songId + "_" + trackName + "_track-" + trackId + ".lrc"
  }

  /** The folder of one song of one album, in which both handlers write. */
  function SongFolder(albumId: string, songId: string): string {
    Root + albumId + "/" + songId + "/"
  }

  /** The object an audio upload writes: in the song's folder, named after the song and track, `.mp3`. */
  function AudioPath(albumId: string, songId: string, trackName: string): (r: string)
    ensures var folder := SongFolder(albumId, songId);
      && |folder| + |songId| + |trackName| + 5 == |r|
      && r[..|folder|] == folder
      && r[|folder|..|folder| + |songId|] == songId
      && r[|folder| + |songId|] == '_'
      && r[|folder| + |songId| + 1..|r| - 4] == trackName
      && r[|r| - 4..] == ".mp3"
  {
    ObjectPath(albumId, songId, AudioFileName(songId, trackName))
  }

  /**
   * The object a lyric upload writes: in the song's folder, named after the song, the track name
   * and the track id as sent, `.lrc`.
   */
  function LyricPath(albumId: string, songId: string, trackName: string, trackId: string): (r: string)
    ensures var folder := SongFolder(albumId, songId);
      && |folder| + |songId| + |trackName| + |trackId| + 12 == |r|
      && r[..|folder|] == folder
      && r[|folder|..|folder| + |songId|] == songId
      && r[|folder| + |songId|] == '_'
      && r[|folder| + |songId| + 1..|folder| + |songId| + 1 + |trackName|] == trackName
      && r[|folder| + |songId| + 1 + |trackName|..|r| - 4 - |trackId|] == "_track-"
      && r[|r| - 4 - |trackId|..|r| - 4] == trackId
      && r[|r| - 4..] == ".lrc"
  {
    ObjectPath(albumId, songId, LyricFileName(songId, trackName, trackId))
  }

  predicate NoSlash(s: string) {
    forall i :: 0 <= i < |s| ==> s[i] != '/'
  }

  lemma {:induction false} CancelPrefix(p: string, x: string, y: string)
    requires p + x == p + y
    ensures x == y
  {
    assert x == (p + x)[|p|..];
    assert y == (p + y)[|p|..];
  }

  lemma {:induction false} CancelSuffix(x: string, y: string, q: string)
    requires x + q == y + q
    ensures x == y
  {
    assert x == (x + q)[..|x|];
    assert y == (y + q)[..|y|];
  }

  /** A slash-free segment followed by `/` is determined by the string it starts. */
  lemma {:induction false} SplitAtSlash(x: string, y: string, x': string, y': string)
    requires NoSlash(x) && NoSlash(x')
    requires x + "/" + y == x' + "/" + y'
    ensures x == x' && y == y'
  {
    var s := x + "/" + y;
    assert s[|x|] == '/' && s[|x'|] == '/';
    assert x == s[..|x|] && x' == s[..|x'|];
    assert x + "/" + y == x + "/" + y';
    CancelPrefix(x + "/", y, y');
  }

  /**
   * Different songs never share a folder: when album and song ids contain no `/`, the path
   * determines the album id, the song id and the file name.
   */
  lemma {:induction false} ObjectPathInjective(a: string, s: string, f: string, a': string, s': string, f': string)
    requires NoSlash(a) && NoSlash(s) && NoSlash(a') && NoSlash(s')
    requires ObjectPath(a, s, f) == ObjectPath(a', s', f')
    ensures a == a' && s == s' && f == f'
  {
    assert ObjectPath(a, s, f) == Root + (a + "/" + (s + "/" + f));
    assert ObjectPath(a', s', f') == Root + (a' + "/" + (s' + "/" + f'));
    CancelPrefix(Root, a + "/" + (s + "/" + f), a' + "/" + (s' + "/" + f'));
    SplitAtSlash(a, s + "/" + f, a', s' + "/" + f');
    SplitAtSlash(s, f, s', f');
  }

  /** Audio objects of different tracks, songs or albums have different names. */
  lemma AudioPathInjective(a: string, s: string, t: string, a': string, s': string, t': string)
    requires NoSlash(a) && NoSlash(s) && NoSlash(a') && NoSlash(s')
    requires AudioPath(a, s, t) == AudioPath(a', s', t')
    ensures a == a' && s == s' && t == t'
  {
    ObjectPathInjective(a, s, AudioFileName(s, t), a', s', AudioFileName(s', t'));
    CancelSuffix(s + "_" + t, s + "_" + t', ".mp3");
    CancelPrefix(s + "_", t, t');
  }

  /**
   * Lyric objects of different tracks, songs or albums have different names, provided the track
   * ids are digit strings: a digit string cannot absorb the `-` of `_track-`.
   */
  lemma LyricPathInjective(a: string, s: string, n: string, d: string, a': string, s': string, n': string, d': string)
    requires NoSlash(a) && NoSlash(s) && NoSlash(a') && NoSlash(s')
    requires IsDecimal(d) && IsDecimal(d')
    requires LyricPath(a, s, n, d) == LyricPath(a', s', n', d')
    ensures a == a' && s == s' && n == n' && d == d'
  {
    ObjectPathInjective(a, s, LyricFileName(s, n, d), a', s', LyricFileName(s', n', d'));
    LyricFileNameInjective(s, n, d, n', d');
  }

  /** Within one song, the lyric file name determines the track name and the digit-string track id. */
  lemma LyricFileNameInjective(s: string, n: string, d: string, n': string, d': string)
    requires IsDecimal(d) && IsDecimal(d')
    requires LyricFileName(s, n, d) == LyricFileName(s, n', d')
    ensures n == n' && d == d'
  {
    var u := s + "_" + n + "_track";
    var u' := s + "_" + n' + "_track";
    assert LyricFileName(s, n, d) == u + ("-" + d + ".lrc");
    assert LyricFileName(s, n', d') == u' + ("-" + d' + ".lrc");
    TailDeterminesDigits(u, d, u', d');
    CancelSuffix(s + "_" + n, s + "_" + n', "_track");
    CancelPrefix(s + "_", n, n');
  }

  /** `u-d.lrc` with `d` a digit string determines `u` and `d`. */
  lemma {:induction false} TailDeterminesDigits(u: string, d: string, u': string, d': string)
    requires IsDecimal(d) && IsDecimal(d')
    requires u + ("-" + d + ".lrc") == u' + ("-" + d' + ".lrc")
    ensures u == u' && d == d'
  {
    var x := u + ("-" + d + ".lrc");
    var k := |x| - 4;
    assert x[k - |d| - 1] == '-' && x[k - |d'| - 1] == '-';
    assert |u| == |u'|;
    assert u == x[..|u|] && u' == x[..|u'|];
    assert d == x[|u| + 1..k] && d' == x[|u'| + 1..k];
  }

  /** An audio object and a lyric object never have the same name: `.mp3` is not `.lrc`. */
  lemma AudioIsNeverLyric(a: string, s: string, t: string, a': string, s': string, n: string, d: string)
    ensures AudioPath(a, s, t) != LyricPath(a', s', n, d)
  {
    var x := AudioPath(a, s, t);
    var y := LyricPath(a', s', n, d);
    assert x[|x| - 3] == 'm';
    assert y[|y| - 3] == 'l';
  }
}
