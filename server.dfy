/**
 * The three request handlers of the server (`/upload-lyrics`, `/upload-audio`, `/share`) and the
 * quota check they call, over in-memory stand-ins for the document store (user, album and song
 * documents) and the object store (object name to bytes).
 *
 * Each handler is specified by a function from the stores before the request to the stores after
 * it and the reply; class `Backend` holds the stores as fields and performs the same steps one
 * after another, each method proved to end in the state and reply its function gives.
 */
module Server {
  import opened Wrappers
  import opened JsNumbers
  import opened ArrayUnion
  import opened ObjectPaths
  import opened Catalog
  import opened Quota

  type Bytes = seq<bv8>

  /** A song document is addressed by its album id and its own id. */
  type SongKey = (string, string)

  /** A stored object: its bytes and the content type it was saved with. */
  datatype Blob = Blob(data: Bytes, contentType: string)

  datatype State = State(
    users: map<string, User>,
    albums: map<string, Album>,
    songs: map<SongKey, Song>,
    objects: map<string, Blob>)

  /**
   * What the client gets back: a status and a body, or nothing at all when an error escapes the
   * handler (an error thrown inside the encoder's completion callback is outside the `try`).
   */
  datatype Response = Reply(status: int, body: string) | Unhandled(error: string)

  datatype Outcome = Outcome(state: State, response: Response)

  /** The text fields of an `/upload-lyrics` request. */
  datatype LyricsForm = LyricsForm(albumId: string, songId: string, trackId: string, trackName: string)

  /** The text fields of an `/upload-audio` request. */
  datatype AudioForm = AudioForm(albumId: string, songId: string, trackName: string)

  const NoFileUploaded: string := "No file uploaded"
  const LrcUpdated: string := "LRC updated successfully"
  const AudioUploaded: string := "Audio file uploaded and compressed successfully"
  const SharedSuccessfully: string := "Shared successfully"

  // Messages of errors thrown by the JavaScript runtime and by the store clients.
  const ReadLrcsOfUndefined: string := "Cannot read properties of undefined (reading 'lrcs')"
  const ReadTracksOfUndefined: string := "Cannot read properties of undefined (reading 'tracks')"
  const ReadFindOfUndefined: string := "Cannot read properties of undefined (reading 'find')"
  const NoDocumentToUpdate: string := "NOT_FOUND: No document to update"

  function NoSuchObject(name: string): string {
    "No such object: " + name
  }

  /** `file.publicUrl()`: the bucket's base URL followed by the object name. */
  function PublicUrl(urlBase: string, path: string): (r: string)
    ensures |urlBase| <= |r| && r[..|urlBase|] == urlBase
  {
    urlBase + path
  }

  /** Different objects have different public URLs. */
  lemma PublicUrlInjective(urlBase: string, p: string, q: string)
    requires PublicUrl(urlBase, p) == PublicUrl(urlBase, q)
    ensures p == q
  {
    CancelPrefix(urlBase, p, q);
  }

  /**
   * `storage.file(name).delete()` on the object map: it fails when no object has that name, and
   * otherwise removes exactly that object.
   */
  function DeletedObjects(objects: map<string, Blob>, name: string): (r: Result<map<string, Blob>>)
    ensures r.Success? <==> name in objects
    ensures r.Success? ==> r.value.Keys == objects.Keys - {name}
    ensures r.Success? ==> forall n :: n in r.value ==> r.value[n] == objects[n]
    ensures r.Failure? ==> r.error == NoSuchObject(name)
  {
    if name in objects then Success(objects - {name}) else Failure(NoSuchObject(name))
  }

  /** Every object name lies under `sounds/`, as every name the handlers write does. */
  predicate UnderRoot(objects: map<string, Blob>) {
    forall name :: name in objects ==> |Root| <= |name| && name[..|Root|] == Root
  }

  /** The `if (songId)` test: an absent or empty `songId` is false. */
  predicate Truthy(field: Option<string>) {
    field.Some? && field.value != ""
  }

  // ---------------------------------------------------------------- /upload-lyrics

  /**
   * `/upload-lyrics`: without a file, 400 and nothing changes. Otherwise the file's size is
   * charged; a refused charge is a 500 and nothing changes. Only a granted charge is followed by
   * the object write and then by the catalog step.
   */
  function LyricsUploadOutcome(s: State, urlBase: string, userId: string, form: LyricsForm, file: Option<Bytes>): (r: Outcome)
    ensures file.None? ==> r == Outcome(s, Reply(400, NoFileUploaded))
    ensures file.Some? && Reserve(s.users, userId, |file.value|).outcome.Failure? ==>
      r == Outcome(s, Reply(500, Reserve(s.users, userId, |file.value|).outcome.error))
    ensures r.state.users != s.users || r.state.objects != s.objects || r.state.songs != s.songs ==>
      && file.Some?
      && r.state.users == Reserve(s.users, userId, |file.value|).users
      && r == LyricsCatalogStep(s.(users := r.state.users,
                                   objects := s.objects[LyricObject(form) := Blob(file.value, "text/plain")]),
                                form, PublicUrl(urlBase, LyricObject(form)))
  {
    if file.None? then Outcome(s, Reply(400, NoFileUploaded))
    else
      var charge := Reserve(s.users, userId, |file.value|);
      if charge.outcome.Failure? then Outcome(s, Reply(500, charge.outcome.error))
      else
        var path := LyricObject(form);
        var saved := s.(users := charge.users, objects := s.objects[path := Blob(file.value, "text/plain")]);
        LyricsCatalogStep(saved, form, PublicUrl(urlBase, path))
  }

  /** The object a lyric upload writes. */
  function LyricObject(form: LyricsForm): string {
    LyricPath(form.albumId, form.songId, form.trackName, form.trackId)
  }

  /**
   * The catalog part of `/upload-lyrics`, run on the stores after the charge and the object write:
   * read the song (a missing song document is a 500), delete the object whose name a previous
   * entry for the track id holds (a missing object is a 500), then store the upserted list. The
   * user documents and the album documents are never touched, nor any other song.
   */
  function LyricsCatalogStep(saved: State, form: LyricsForm, newSrc: string): (r: Outcome)
    ensures r.state.users == saved.users && r.state.albums == saved.albums
    ensures r.response.Reply? && r.response.status in {200, 500}
    ensures r.response.status == 500 ==> r.state == saved
    ensures r.state.songs.Keys == saved.songs.Keys
    ensures forall k :: k in saved.songs && k != (form.albumId, form.songId) ==> r.state.songs[k] == saved.songs[k]
    ensures r.state.objects.Keys <= saved.objects.Keys
    ensures forall n :: n in r.state.objects ==> r.state.objects[n] == saved.objects[n]
    ensures r.response.status == 200 ==>
      && r.response == Reply(200, LrcUpdated)
      && var key := (form.albumId, form.songId);
      && key in saved.songs
      && r.state.songs[key] == saved.songs[key].(lrcs := Some(UpsertLrc(OrEmpty(saved.songs[key].lrcs),
           ParseInt(form.trackId), form.trackName, newSrc)))
      && match LyricUrl(OrEmpty(saved.songs[key].lrcs), ParseInt(form.trackId))
         case None => r.state.objects == saved.objects
         case Some(previous) => r.state.objects == saved.objects - {previous}
    ensures var key := (form.albumId, form.songId);
      r.response.status == 500 <==>
        || key !in saved.songs
        || var previous := LyricUrl(OrEmpty(saved.songs[key].lrcs), ParseInt(form.trackId));
           previous.Some? && previous.value !in saved.objects
  {
    var key := (form.albumId, form.songId);
    if key !in saved.songs then Outcome(saved, Reply(500, ReadLrcsOfUndefined))
    else
      var song := saved.songs[key];
      var trackKey := ParseInt(form.trackId);
      var existing := if song.lrcs.Some? then FindLrc(song.lrcs.value, trackKey) else None;
      var deleted := if existing.Some? then DeletedObjects(saved.objects, existing.value.lrc) else Success(saved.objects);
      if deleted.Failure? then Outcome(saved, Reply(500, deleted.error))
      else
        var lrcs := UpsertLrc(OrEmpty(song.lrcs), trackKey, form.trackName, newSrc);
        Outcome(saved.(objects := deleted.value, songs := saved.songs[key := song.(lrcs := Some(lrcs))]), Reply(200, LrcUpdated))
  }

  // ---------------------------------------------------------------- /upload-audio

  /**
   * `/upload-audio`: without a file, 400 and nothing changes; an encoder failure is a 500 and
   * nothing changes. Otherwise the size of the encoder's output is charged; a refused charge
   * leaves everything as it was and produces no reply, since it is thrown inside the encoder's
   * callback. Only a granted charge is followed by the object write and then by the catalog step.
   */
  function AudioUploadOutcome(s: State, urlBase: string, userId: string, form: AudioForm, file: Option<Bytes>,
                              transcoded: Result<Bytes>): (r: Outcome)
    ensures file.None? ==> r == Outcome(s, Reply(400, NoFileUploaded))
    ensures file.Some? && transcoded.Failure? ==> r == Outcome(s, Reply(500, transcoded.error))
    ensures file.Some? && transcoded.Success? && Reserve(s.users, userId, |transcoded.value|).outcome.Failure? ==>
      r == Outcome(s, Unhandled(Reserve(s.users, userId, |transcoded.value|).outcome.error))
    ensures r.state.users != s.users || r.state.objects != s.objects || r.state.songs != s.songs ==>
      && file.Some? && transcoded.Success?
      && r.state.users == Reserve(s.users, userId, |transcoded.value|).users
      && r == AudioCatalogStep(s.(users := r.state.users,
                                  objects := s.objects[AudioObject(form) := Blob(transcoded.value, "audio/mpeg")]),
                               form, PublicUrl(urlBase, AudioObject(form)))
  {
    if file.None? then Outcome(s, Reply(400, NoFileUploaded))
    else if transcoded.Failure? then Outcome(s, Reply(500, transcoded.error))
    else
      var compressed := transcoded.value;
      var charge := Reserve(s.users, userId, |compressed|);
      if charge.outcome.Failure? then Outcome(s, Unhandled(charge.outcome.error))
      else
        var path := AudioObject(form);
        var saved := s.(users := charge.users, objects := s.objects[path := Blob(compressed, "audio/mpeg")]);
        AudioCatalogStep(saved, form, PublicUrl(urlBase, path))
  }

  /** The object an audio upload writes. */
  function AudioObject(form: AudioForm): string {
    AudioPath(form.albumId, form.songId, form.trackName)
  }

  /**
   * The catalog part of `/upload-audio`, run on the stores after the charge and the object write:
   * read the song (a missing song document or a missing `tracks` field throws), delete the object
   * whose name the first track of that name holds in `src` (a missing object throws), then store
   * the upserted list. Every error here escapes without a reply.
   */
  function AudioCatalogStep(saved: State, form: AudioForm, newSrc: string): (r: Outcome)
    ensures r.state.users == saved.users && r.state.albums == saved.albums
    ensures r.response.Unhandled? ==> r.state == saved
    ensures r.response.Reply? ==> r.response == Reply(200, AudioUploaded)
    ensures r.state.songs.Keys == saved.songs.Keys
    ensures forall k :: k in saved.songs && k != (form.albumId, form.songId) ==> r.state.songs[k] == saved.songs[k]
    ensures r.state.objects.Keys <= saved.objects.Keys
    ensures forall n :: n in r.state.objects ==> r.state.objects[n] == saved.objects[n]
    ensures r.response.Reply? ==>
      var key := (form.albumId, form.songId);
      && key in saved.songs && saved.songs[key].tracks.Some?
      && r.state.songs[key] == saved.songs[key].(tracks := Some(UpsertTrack(saved.songs[key].tracks.value,
           form.trackName, newSrc)))
      && match TrackSrc(saved.songs[key].tracks.value, form.trackName)
         case None => r.state.objects == saved.objects
         case Some(previous) => r.state.objects == saved.objects - {previous}
    ensures var key := (form.albumId, form.songId);
      r.response.Unhandled? <==>
        || key !in saved.songs
        || saved.songs[key].tracks.None?
        || var previous := TrackSrc(saved.songs[key].tracks.value, form.trackName);
           previous.Some? && previous.value !in saved.objects
  {
    var key := (form.albumId, form.songId);
    if key !in saved.songs then Outcome(saved, Unhandled(ReadTracksOfUndefined))
    else
      var song := saved.songs[key];
      if song.tracks.None? then Outcome(saved, Unhandled(ReadFindOfUndefined))
      else
        var tracks := song.tracks.value;
        var i := TrackIndex(tracks, form.trackName);
        var deleted := if i >= 0 then DeletedObjects(saved.objects, tracks[i].src) else Success(saved.objects);
        if deleted.Failure? then Outcome(saved, Unhandled(deleted.error))
        else
          var updated := UpsertTrack(tracks, form.trackName, newSrc);
          Outcome(saved.(objects := deleted.value, songs := saved.songs[key := song.(tracks := Some(updated))]),
                  Reply(200, AudioUploaded))
  }

  // ---------------------------------------------------------------- /share

  /**
   * `/share`: with a `songId`, `arrayUnion` on the song's `sharedWith`; without one, on the album's.
   * A missing document makes the update fail with 500 and nothing changes.
   */
  function ShareOutcome(s: State, albumId: string, songId: Option<string>, shareWithUserId: string): (r: Outcome)
    ensures r.state.users == s.users && r.state.objects == s.objects
    ensures Truthy(songId) ==> r.state.albums == s.albums
    ensures !Truthy(songId) ==> r.state.songs == s.songs
    ensures r.state.songs.Keys == s.songs.Keys && r.state.albums.Keys == s.albums.Keys
    ensures r.response.Reply? && r.response.status in {200, 500}
    ensures r.response.status == 500 ==> r == Outcome(s, Reply(500, NoDocumentToUpdate))
    ensures Truthy(songId) ==>
      var key := (albumId, songId.value);
      && (r.response.status == 200 <==> key in s.songs)
      && (key in s.songs ==>
            && r.state.songs == s.songs[key := s.songs[key].(sharedWith := Some(UnionField(s.songs[key].sharedWith, shareWithUserId)))]
            && shareWithUserId in r.state.songs[key].sharedWith.value)
    ensures !Truthy(songId) ==>
      && (r.response.status == 200 <==> albumId in s.albums)
      && (albumId in s.albums ==>
            && r.state.albums == s.albums[albumId := s.albums[albumId].(sharedWith := Some(UnionField(s.albums[albumId].sharedWith, shareWithUserId)))]
            && shareWithUserId in r.state.albums[albumId].sharedWith.value)
  {
    if Truthy(songId) then
      var key := (albumId, songId.value);
      if key !in s.songs then Outcome(s, Reply(500, NoDocumentToUpdate))
      else
        var song := s.songs[key];
        var shared := Some(UnionField(song.sharedWith, shareWithUserId));
        Outcome(s.(songs := s.songs[key := song.(sharedWith := shared)]), Reply(200, SharedSuccessfully))
    else if albumId !in s.albums then Outcome(s, Reply(500, NoDocumentToUpdate))
    else
      var album := s.albums[albumId];
      var shared := Some(UnionField(album.sharedWith, shareWithUserId));
      Outcome(s.(albums := s.albums[albumId := album.(sharedWith := shared)]), Reply(200, SharedSuccessfully))
  }

  // ---------------------------------------------------------------- properties across requests

  /** Sharing twice with the same user is sharing once: the second request changes nothing. */
  lemma ShareIdempotent(s: State, albumId: string, songId: Option<string>, shareWithUserId: string)
    requires ShareOutcome(s, albumId, songId, shareWithUserId).response.status == 200
    ensures var once := ShareOutcome(s, albumId, songId, shareWithUserId).state;
      ShareOutcome(once, albumId, songId, shareWithUserId) == Outcome(once, Reply(200, SharedSuccessfully))
  {
    var once := ShareOutcome(s, albumId, songId, shareWithUserId).state;
    if Truthy(songId) {
      var key := (albumId, songId.value);
      UnionIdempotent(OrEmpty(s.songs[key].sharedWith), shareWithUserId);
      assert once.songs[key := once.songs[key]] == once.songs;
    } else {
      UnionIdempotent(OrEmpty(s.albums[albumId].sharedWith), shareWithUserId);
      assert once.albums[albumId := once.albums[albumId]] == once.albums;
    }
  }

  /**
   * After a successful lyric upload with a numeric track id the song's list gives the new object's
   * public URL for that id, and every other numeric id what it gave before.
   */
  lemma LyricsUploadRecordsUrl(s: State, urlBase: string, userId: string, form: LyricsForm, file: Option<Bytes>, other: IntOrNaN)
    requires LyricsUploadOutcome(s, urlBase, userId, form, file).response.status == 200
    requires ParseInt(form.trackId).Int?
    ensures var key := (form.albumId, form.songId);
      var lrcs := LyricsUploadOutcome(s, urlBase, userId, form, file).state.songs[key].lrcs.value;
      && LyricUrl(lrcs, ParseInt(form.trackId)) == Some(PublicUrl(urlBase, LyricPath(form.albumId, form.songId, form.trackName, form.trackId)))
      && (!StrictEquals(other, ParseInt(form.trackId)) ==> LyricUrl(lrcs, other) == LyricUrl(OrEmpty(s.songs[key].lrcs), other))
  {
    var key := (form.albumId, form.songId);
    var url := PublicUrl(urlBase, LyricPath(form.albumId, form.songId, form.trackName, form.trackId));
    UpsertLrcLookup(OrEmpty(s.songs[key].lrcs), ParseInt(form.trackId), form.trackName, url, other);
  }

  /**
   * What an upload leaves alone: album documents, every song document but the one addressed, the
   * cap on every counter and the `sounds/` prefix of every object name.
   */
  lemma LyricsUploadFrame(s: State, urlBase: string, userId: string, form: LyricsForm, file: Option<Bytes>)
    ensures var r := LyricsUploadOutcome(s, urlBase, userId, form, file);
      && r.state.albums == s.albums
      && r.state.songs.Keys == s.songs.Keys
      && (forall k :: k in s.songs && k != (form.albumId, form.songId) ==> r.state.songs[k] == s.songs[k])
      && (WithinLimit(s.users) ==> WithinLimit(r.state.users))
      && (UnderRoot(s.objects) ==> UnderRoot(r.state.objects))
  {
  }

  lemma AudioUploadFrame(s: State, urlBase: string, userId: string, form: AudioForm, file: Option<Bytes>, transcoded: Result<Bytes>)
    ensures var r := AudioUploadOutcome(s, urlBase, userId, form, file, transcoded);
      && r.state.albums == s.albums
      && r.state.songs.Keys == s.songs.Keys
      && (forall k :: k in s.songs && k != (form.albumId, form.songId) ==> r.state.songs[k] == s.songs[k])
      && (WithinLimit(s.users) ==> WithinLimit(r.state.users))
      && (UnderRoot(s.objects) ==> UnderRoot(r.state.objects))
  {
  }

  /** A public URL is never the name of an object under `sounds/` when the URL base is not. */
  lemma UrlIsNoObjectName(objects: map<string, Blob>, urlBase: string, p: string)
    requires UnderRoot(objects)
    requires |Root| <= |urlBase| && urlBase[..|Root|] != Root
    ensures PublicUrl(urlBase, p) !in objects
  {
    assert (urlBase + p)[..|Root|] == urlBase[..|Root|];
  }

  /**
   * Re-uploading lyrics for a track whose entry holds a public URL: the handler passes that URL to
   * `storage.file()` as an object name, so the delete fails. The charge and the new object stay,
   * the catalog is not updated, and the reply is 500.
   */
  lemma LyricsReuploadDeletesByUrl(s: State, urlBase: string, userId: string, form: LyricsForm, file: Bytes, p: string)
    requires UnderRoot(s.objects)
    requires |Root| <= |urlBase| && urlBase[..|Root|] != Root
    requires Reserve(s.users, userId, |file|).outcome.Success?
    requires (form.albumId, form.songId) in s.songs
    requires var lrcs := s.songs[(form.albumId, form.songId)].lrcs;
      lrcs.Some? && LyricUrl(lrcs.value, ParseInt(form.trackId)) == Some(PublicUrl(urlBase, p))
    ensures LyricsUploadOutcome(s, urlBase, userId, form, Some(file)) ==
      Outcome(s.(users := Reserve(s.users, userId, |file|).users, objects := s.objects[LyricObject(form) := Blob(file, "text/plain")]),
              Reply(500, NoSuchObject(PublicUrl(urlBase, p))))
  {
    var saved := s.(users := Reserve(s.users, userId, |file|).users, objects := s.objects[LyricObject(form) := Blob(file, "text/plain")]);
    assert UnderRoot(saved.objects);
    UrlIsNoObjectName(saved.objects, urlBase, p);
    assert LyricsCatalogStep(saved, form, PublicUrl(urlBase, LyricObject(form))) == Outcome(saved, Reply(500, NoSuchObject(PublicUrl(urlBase, p))));
  }

  /**
   * The same for audio: re-uploading a track whose `src` is a public URL charges the user and
   * stores the new object, then the delete fails inside the encoder's callback; there is no reply
   * and the catalog is not updated.
   */
  lemma AudioReuploadDeletesByUrl(s: State, urlBase: string, userId: string, form: AudioForm, file: Bytes, compressed: Bytes, p: string)
    requires UnderRoot(s.objects)
    requires |Root| <= |urlBase| && urlBase[..|Root|] != Root
    requires Reserve(s.users, userId, |compressed|).outcome.Success?
    requires (form.albumId, form.songId) in s.songs
    requires var tracks := s.songs[(form.albumId, form.songId)].tracks;
      tracks.Some? && TrackSrc(tracks.value, form.trackName) == Some(PublicUrl(urlBase, p))
    ensures AudioUploadOutcome(s, urlBase, userId, form, Some(file), Success(compressed)) ==
      Outcome(s.(users := Reserve(s.users, userId, |compressed|).users, objects := s.objects[AudioObject(form) := Blob(compressed, "audio/mpeg")]),
              Unhandled(NoSuchObject(PublicUrl(urlBase, p))))
  {
    var saved := s.(users := Reserve(s.users, userId, |compressed|).users, objects := s.objects[AudioObject(form) := Blob(compressed, "audio/mpeg")]);
    assert UnderRoot(saved.objects);
    UrlIsNoObjectName(saved.objects, urlBase, p);
    AudioCatalogStepFailedDelete(saved, form, PublicUrl(urlBase, AudioObject(form)), PublicUrl(urlBase, p));
    AudioUploadReachesCatalog(s, urlBase, userId, form, file, compressed);
  }

  /** After a granted charge, the audio upload is the catalog step on the charged and written stores. */
  lemma AudioUploadReachesCatalog(s: State, urlBase: string, userId: string, form: AudioForm, file: Bytes, compressed: Bytes)
    requires Reserve(s.users, userId, |compressed|).outcome.Success?
    ensures AudioUploadOutcome(s, urlBase, userId, form, Some(file), Success(compressed)) ==
      AudioCatalogStep(s.(users := Reserve(s.users, userId, |compressed|).users, objects := s.objects[AudioObject(form) := Blob(compressed, "audio/mpeg")]),
                       form, PublicUrl(urlBase, AudioObject(form)))
  {
  }

  /** The audio catalog step when the object named by the previous `src` does not exist. */
  lemma AudioCatalogStepFailedDelete(saved: State, form: AudioForm, newSrc: string, oldSrc: string)
    requires (form.albumId, form.songId) in saved.songs
    requires var tracks := saved.songs[(form.albumId, form.songId)].tracks;
      tracks.Some? && TrackSrc(tracks.value, form.trackName) == Some(oldSrc)
    requires oldSrc !in saved.objects
    ensures AudioCatalogStep(saved, form, newSrc) == Outcome(saved, Unhandled(NoSuchObject(oldSrc)))
  {
    var tracks := saved.songs[(form.albumId, form.songId)].tracks.value;
    var i := TrackIndex(tracks, form.trackName);
    assert i >= 0 && tracks[i].src == oldSrc;
    assert DeletedObjects(saved.objects, oldSrc) == Failure(NoSuchObject(oldSrc));
  }

  /** After a granted charge, the lyric upload is the catalog step on the charged and written stores. */
  lemma LyricsUploadReachesCatalog(s: State, urlBase: string, userId: string, form: LyricsForm, file: Bytes)
    requires Reserve(s.users, userId, |file|).outcome.Success?
    ensures LyricsUploadOutcome(s, urlBase, userId, form, Some(file)) ==
      LyricsCatalogStep(s.(users := Reserve(s.users, userId, |file|).users, objects := s.objects[LyricObject(form) := Blob(file, "text/plain")]),
                        form, PublicUrl(urlBase, LyricObject(form)))
  {
  }

  /**
   * Were an entry to hold the object name itself rather than its URL, re-uploading the same track
   * would succeed and delete the object it has just written: the name is the same, and the delete
   * comes after the write. The catalog then points at an object that is gone.
   */
  lemma LyricsReuploadOverOwnName(s: State, urlBase: string, userId: string, form: LyricsForm, file: Bytes)
    requires Reserve(s.users, userId, |file|).outcome.Success?
    requires (form.albumId, form.songId) in s.songs
    requires var lrcs := s.songs[(form.albumId, form.songId)].lrcs;
      lrcs.Some? && LyricUrl(lrcs.value, ParseInt(form.trackId)) == Some(LyricObject(form))
    ensures var r := LyricsUploadOutcome(s, urlBase, userId, form, Some(file));
      && r.response == Reply(200, LrcUpdated)
      && r.state.users == Reserve(s.users, userId, |file|).users
      && LyricObject(form) !in r.state.objects
  {
    LyricsUploadReachesCatalog(s, urlBase, userId, form, file);
  }

  /**
   * The same for audio, where the name of the object depends on the track name only: a track whose
   * `src` were its object name would lose its object on every re-upload.
   */
  lemma AudioReuploadOverOwnName(s: State, urlBase: string, userId: string, form: AudioForm, file: Bytes, compressed: Bytes)
    requires Reserve(s.users, userId, |compressed|).outcome.Success?
    requires (form.albumId, form.songId) in s.songs
    requires var tracks := s.songs[(form.albumId, form.songId)].tracks;
      tracks.Some? && TrackSrc(tracks.value, form.trackName) == Some(AudioObject(form))
    ensures var r := AudioUploadOutcome(s, urlBase, userId, form, Some(file), Success(compressed));
      && r.response == Reply(200, AudioUploaded)
      && r.state.users == Reserve(s.users, userId, |compressed|).users
      && AudioObject(form) !in r.state.objects
  {
    AudioUploadReachesCatalog(s, urlBase, userId, form, file, compressed);
  }

  /**
   * The object name uses the `trackId` field as sent, the catalog its `parseInt` value: `"07"` and
   * `"7"` write different objects but address the same lyric entry.
   */
  lemma ZeroPaddedTrackIdSharesEntry(form: LyricsForm, n: nat)
    requires n > 0 && form.trackId == DecimalString(n)
    ensures var padded := form.(trackId := "0" + DecimalString(n));
      && ParseInt(padded.trackId) == ParseInt(form.trackId) == Int(n)
      && LyricObject(padded) != LyricObject(form)
  {
    ParseIntOfDecimal([], n, []);
    assert [] + DecimalString(n) + [] == DecimalString(n);
    ParseIntOfZeroPadded(n);
    var padded := form.(trackId := "0" + DecimalString(n));
    assert |LyricObject(padded)| == |LyricObject(form)| + 1;
  }

  // ---------------------------------------------------------------- the stores as objects

  class Backend {
    var users: map<string, User>
    var albums: map<string, Album>
    var songs: map<SongKey, Song>
    var objects: map<string, Blob>
    /** The prefix `publicUrl()` puts before an object name. */
    const urlBase: string

    constructor (urlBase: string, initial: State)
      ensures this.urlBase == urlBase && Snapshot() == initial
    {
      this.urlBase := urlBase;
      users, albums, songs, objects := initial.users, initial.albums, initial.songs, initial.objects;
    }

    function Snapshot(): State
      reads this
    {
      State(users, albums, songs, objects)
    }

    /** `checkStorageLimit`: read the user document, check the new total, write it back. */
    method CheckStorageLimit(userId: string, newFileSize: nat) returns (r: Result<int>)
      modifies this
      ensures r == Reserve(old(users), userId, newFileSize).outcome
      ensures Snapshot() == old(Snapshot()).(users := Reserve(old(users), userId, newFileSize).users)
    {
      if userId !in users {
        return Failure(UserNotFound);
      }
      var userData := users[userId];
      var newStorageUsage := StoredUsage(userData) + newFileSize;
      if newStorageUsage > StorageLimit {
        return Failure(LimitExceeded);
      }
      users := users[userId := userData.(usedStorageMB := Some(newStorageUsage))];
      return Success(newStorageUsage);
    }

    /** `file.save(data, {metadata: {contentType}})`: create or overwrite the object. */
    method Save(path: string, data: Bytes, contentType: string)
      modifies this
      ensures Snapshot() == old(Snapshot()).(objects := old(objects)[path := Blob(data, contentType)])
    {
      objects := objects[path := Blob(data, contentType)];
    }

    /** `storage.file(name).delete()`. */
    method Delete(name: string) returns (r: Result<()>)
      modifies this
      ensures DeletedObjects(old(objects), name).Success? <==> r.Success?
      ensures r.Failure? ==> r.error == DeletedObjects(old(objects), name).error && Snapshot() == old(Snapshot())
      ensures r.Success? ==> Snapshot() == old(Snapshot()).(objects := DeletedObjects(old(objects), name).value)
    {
      if name !in objects {
        return Failure(NoSuchObject(name));
      }
      objects := objects - {name};
      return Success(());
    }

    method UploadLyrics(userId: string, form: LyricsForm, file: Option<Bytes>) returns (resp: Response)
      modifies this
      ensures Outcome(Snapshot(), resp) == LyricsUploadOutcome(old(Snapshot()), urlBase, userId, form, file)
    {
      if file.None? {
        return Reply(400, NoFileUploaded);
      }
      var newFile := file.value;
      var charged := CheckStorageLimit(userId, |newFile|);
      if charged.Failure? {
        return Reply(500, charged.error);
      }
      var path := LyricPath(form.albumId, form.songId, form.trackName, form.trackId);
      Save(path, newFile, "text/plain");
      var newSrc := PublicUrl(urlBase, path);
      var key := (form.albumId, form.songId);
      if key !in songs {
        return Reply(500, ReadLrcsOfUndefined);
      }
      var songData := songs[key];
      var trackKey := ParseInt(form.trackId);
      var existingLrc := if songData.lrcs.Some? then FindLrc(songData.lrcs.value, trackKey) else None;
      if existingLrc.Some? {
        var deleted := Delete(existingLrc.value.lrc);
        if deleted.Failure? {
          return Reply(500, deleted.error);
        }
      }
      var updatedLrcs := OrEmpty(songData.lrcs);
      var lrcIndex := LrcIndex(updatedLrcs, trackKey);
      if lrcIndex > -1 {
        updatedLrcs := updatedLrcs[lrcIndex := updatedLrcs[lrcIndex].(lrc := newSrc)];
      } else {
        updatedLrcs := updatedLrcs + [LyricEntry(trackKey, form.trackName, newSrc)];
      }
      songs := songs[key := songData.(lrcs := Some(updatedLrcs))];
      return Reply(200, LrcUpdated);
    }

    method UploadAudio(userId: string, form: AudioForm, file: Option<Bytes>, transcoded: Result<Bytes>)
      returns (resp: Response)
      modifies this
      ensures Outcome(Snapshot(), resp) == AudioUploadOutcome(old(Snapshot()), urlBase, userId, form, file, transcoded)
    {
      if file.None? {
        return Reply(400, NoFileUploaded);
      }
      if transcoded.Failure? {
        return Reply(500, transcoded.error);
      }
      var compressedFile := transcoded.value;
      var charged := CheckStorageLimit(userId, |compressedFile|);
      if charged.Failure? {
        return Unhandled(charged.error);
      }
      var path := AudioPath(form.albumId, form.songId, form.trackName);
      Save(path, compressedFile, "audio/mpeg");
      var newSrc := PublicUrl(urlBase, path);
      var key := (form.albumId, form.songId);
      if key !in songs {
        return Unhandled(ReadTracksOfUndefined);
      }
      var songData := songs[key];
      if songData.tracks.None? {
        return Unhandled(ReadFindOfUndefined);
      }
      var tracks := songData.tracks.value;
      var i := TrackIndex(tracks, form.trackName);
      if i >= 0 {
        var deleted := Delete(tracks[i].src);
        if deleted.Failure? {
          return Unhandled(deleted.error);
        }
        tracks := tracks[i := tracks[i].(src := newSrc)];
      } else {
        tracks := tracks + [Track(form.trackName, newSrc, map[])];
      }
      songs := songs[key := songData.(tracks := Some(tracks))];
      return Reply(200, AudioUploaded);
    }

    method Share(albumId: string, songId: Option<string>, shareWithUserId: string) returns (resp: Response)
      modifies this
      ensures Outcome(Snapshot(), resp) == ShareOutcome(old(Snapshot()), albumId, songId, shareWithUserId)
    {
      if Truthy(songId) {
        var key := (albumId, songId.value);
        if key !in songs {
          return Reply(500, NoDocumentToUpdate);
        }
        var song := songs[key];
        songs := songs[key := song.(sharedWith := Some(UnionField(song.sharedWith, shareWithUserId)))];
      } else {
        if albumId !in albums {
          return Reply(500, NoDocumentToUpdate);
        }
        var album := albums[albumId];
        albums := albums[albumId := album.(sharedWith := Some(UnionField(album.sharedWith, shareWithUserId)))];
      }
      return Reply(200, SharedSuccessfully);
    }
  }
}
