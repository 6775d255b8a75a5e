# rehearsalAppBackend server: a Dafny model

This project models the request handlers of the rehearsal-app backend (`server.js`) over in-memory
stand-ins for its two stores:

- the document store: user documents (`users/{uid}`, holding the storage counter), album documents
  (`albums/{albumId}`) and song documents (`albums/{albumId}/songs/{songId}`, holding `tracks`,
  `lrcs` and `sharedWith`);
- the object store: object name → bytes and content type.

The model covers four decision rules and what surrounds them:

- the per-user quota check-and-charge `checkStorageLimit`;
- the lyric-list upsert keyed by the `parseInt` value of `trackId`;
- the track-list upsert keyed by track name;
- the `arrayUnion` share grant on a song's or an album's `sharedWith`;
- the object-name templates, and the order of the steps in each upload request.

Modules:

- `Wrappers`: `Option` and `Result`.
- `JsNumbers`: ECMAScript `parseInt` (white space, sign, `0x` prefix, longest digit run, NaN) and
  `===` on Numbers, where NaN equals nothing.
- `ArrayUnion`: the `arrayUnion` transform, including an absent field.
- `ObjectPaths`: the object names `sounds/{albumId}/{songId}/{songId}_{trackName}.mp3` and
  `sounds/{albumId}/{songId}/{songId}_{trackName}_track-{trackId}.lrc`.
- `Catalog`: the song document, `findIndex`/`find`, and the two upserts.
- `Quota`: the 100·1024·1024-byte cap and the check-and-charge rule, also over a sequence of uploads.
- `Server`: each handler as a function from the stores before the request to the stores after it and
  the response. Class `Server.Backend` holds the stores as fields. Its methods perform the
  handler's steps one after another, mutating the lists in place as the handler does. Each method is
  proved to end in exactly the state and response that its function gives.

Behaviours of the code that the model makes explicit:

- The old object is deleted through `storage.file(existing.lrc)` and `storage.file(track.src)`. The
  stored value is the object's *public URL*, not its name, so the delete looks for an object that
  does not exist and fails. A re-upload therefore charges the quota and writes the new object, then
  fails before the catalog is updated. For lyrics the reply is 500. For audio there is no reply,
  because the error is thrown inside the encoder's `end` callback, outside the `try`. See
  `LyricsReuploadDeletesByUrl` and `AudioReuploadDeletesByUrl`.
- If an entry did hold the bare object name, a re-upload of the same track would delete the object it
  has just written, because the delete comes after the write and the name is the same
  (`LyricsReuploadOverOwnName`, `AudioReuploadOverOwnName`).
- Every error after the encoder finishes escapes without a reply (`Response.Unhandled`). This
  includes a refused quota charge, a missing song document and a missing `tracks` field.
- A `trackId` that `parseInt` turns into NaN matches no entry, so every such upload appends another
  entry. `"07"` and `"7"` name different objects but address the same entry.
- The storage counter is stored in a field called `usedStorageMB` but counts bytes.

- Each upload request carries a single file. A refused charge is a 500 for lyrics and produces no
  reply for audio.
- Sharing adds the user id to one document's `sharedWith` with `arrayUnion`: repeating it changes
  nothing, and nobody's permission to share is checked.
- The object store keeps only the bytes and the content type of each object.
- A missing song document is not created: the catalog step fails instead.

## Model

| member | source | states |
|---|---|---|
| Quota.Reserve | server.js:14-35 | A missing user document fails with "User document not found" and nothing changes. A total strictly above 100·1024·1024 fails with "Storage limit exceeded" and nothing changes. The charge succeeds exactly when the user exists and stored usage (0 when absent) + size is at most the cap; a total equal to the cap is accepted. On success the returned value and the new counter are both old + size, and no other user document changes. A counter within the cap stays within it. |
| Quota.ChargeAllExact | server.js:22-32 | Successive charges of one user whose sizes fit together are all granted; the counter grows by exactly their sum. |
| Quota.ChargeAllBounded | server.js:22-32 | Whatever the successive charges, a counter starting within the cap never exceeds it and never decreases, and other users' documents are untouched. |
| Server.Backend.CheckStorageLimit | server.js:14-35 | The imperative read-check-write returns the outcome of `Reserve` and leaves exactly the user documents `Reserve` gives. |
| ObjectPaths.ObjectPath | server.js:55 | Every object name the handlers build starts with `sounds/`. |
| ObjectPaths.AudioPath | server.js:132-133 | The audio object lies in `sounds/{albumId}/{songId}/` and is named `{songId}_{trackName}.mp3`: each part sits at its own position of the name. |
| ObjectPaths.LyricPath | server.js:54-55 | The lyric object lies in `sounds/{albumId}/{songId}/` and is named `{songId}_{trackName}_track-{trackId}.lrc`, with the track id as sent: each part sits at its own position of the name. |
| ObjectPaths.ObjectPathInjective | server.js:55 | When album and song ids contain no `/`, the object name determines the album id, the song id and the file name. |
| ObjectPaths.AudioPathInjective | server.js:132-133 | Audio object names of different (album, song, track name) triples differ, for slash-free ids. |
| ObjectPaths.LyricPathInjective | server.js:54-55 | Lyric object names of different (album, song, track name, track id) tuples differ, for slash-free ids and digit-string track ids. |
| ObjectPaths.TailDeterminesDigits | server.js:54 | The suffix `-{digits}.lrc` of a lyric name determines both the digits and what precedes them. |
| ObjectPaths.AudioIsNeverLyric | server.js:54-55 | An audio object name is never a lyric object name (`.mp3` versus `.lrc`). |
| ObjectPaths.SplitAtSlash | server.js:55 | A slash-free segment followed by `/` is determined by the string it starts. |
| JsNumbers.TrimStart | server.js:65 | `parseInt`'s white-space skip returns a suffix of the input, drops only white space, and stops at a non-white-space character. |
| JsNumbers.DigitPrefix | server.js:65 | `parseInt`'s digit scan returns the longest prefix made of digits of the radix. |
| JsNumbers.DecimalStringValue | server.js:65 | The decimal rendering of n is a non-empty digit string with no leading zero (except "0") that denotes n. |
| JsNumbers.DigitPrefixOfDigits | server.js:65 | A digit run followed by a non-digit, or by nothing, is the whole digit prefix. |
| JsNumbers.TrimStartSkipsWhiteSpace | server.js:65 | Leading white space is dropped whatever follows. |
| JsNumbers.ParseIntOfDecimal | server.js:65 | `parseInt` reads back n from its decimal rendering, with leading white space and with trailing text not starting with a digit (nor `x` after "0"). |
| JsNumbers.ParseIntSkipsWhiteSpace | server.js:65 | `parseInt` ignores leading white space. |
| JsNumbers.ParseIntOfUnsigned | server.js:65 | A string starting with a decimal digit and no `0x` prefix parses to the value of its digit prefix. |
| JsNumbers.LeadingZeroValue | server.js:65 | A leading zero does not change the value of a digit string. |
| JsNumbers.ParseIntOfZeroPadded | server.js:65 | `parseInt("0" + String(n))` is n for every n: "07" reads as 7 and "00" as 0. |
| JsNumbers.ParseIntOfNegative | server.js:65 | `parseInt("-" + String(n))` is -n. |
| JsNumbers.ParseInt | server.js:65 | A string that contains no decimal digit, such as `""` or `"intro"`, parses to NaN whatever its sign or white space. |
| Catalog.FirstIndex | server.js:71 | `findIndex` returns -1 exactly when no element matches, and otherwise the first matching position. |
| Catalog.LrcIndex | server.js:71 | The position of the first entry whose `trackId` is `===` the key, or -1 when there is none. |
| Catalog.LrcIndexIs | server.js:71 | A matching position with no match before it is the one `findIndex` returns. |
| Catalog.FindLrc | server.js:65 | `find` gives nothing exactly when no entry's `trackId` is `===` the key, and otherwise an entry that matches with no match before it. |
| Catalog.UpsertLrc | server.js:70-77 | The first entry whose `trackId` is `===` the key gets the new URL as its `lrc`, and every other entry stays as it was, so the length is unchanged. Without such an entry the list is the old one with `{trackId, trackName, lrc}` appended at the end. |
| Catalog.UpsertLrcLookup | server.js:65-77 | After the upsert a numeric key finds the new URL, and every other numeric key finds what it found before. |
| Catalog.UpsertLrcKeepsIdsUnique | server.js:70-77 | An upsert keeps the track ids of the list pairwise distinct. |
| Catalog.UpsertLrcIdempotent | server.js:70-77 | Upserting the same URL for the same numeric key twice equals upserting it once. |
| Catalog.UpsertLrcNaNAppends | server.js:71-76 | A NaN key matches nothing: each upsert with it appends an entry. |
| Catalog.TrackIndex | server.js:143 | The position of the first track with the given name, or -1 when there is none. |
| Catalog.TrackIndexIs | server.js:143 | A position holding the name with none before it is the one `find` reaches. |
| Catalog.UpsertTrack | server.js:143-152 | The first track of that name gets the new URL as its `src`, and every other track stays as it was, so the length is unchanged. This includes later tracks of the same name and all other fields. Without such a track the list is the old one with `{name, src}` appended. |
| Catalog.UpsertTrackLookup | server.js:143-152 | After the upsert the name finds the new URL, and every other name finds what it found before. |
| Catalog.UpsertTrackKeepsNamesUnique | server.js:143-152 | An upsert keeps track names pairwise distinct. |
| Catalog.UpsertTrackIdempotent | server.js:143-152 | Upserting the same URL for the same name twice equals upserting it once. |
| ArrayUnion.Union | server.js:94 | The result contains the id. Its members are the old members plus the id. It extends the old array by at most one element at the end. It equals the old array exactly when the id was already there. It introduces no duplicates. |
| ArrayUnion.UnionField | server.js:94 | The result contains the id, and its members are the id plus those of the field (none when absent). A present array is kept as a prefix, unchanged when it already holds the id. At most one element is added, and no duplicate is introduced. |
| ArrayUnion.UnionIdempotent | server.js:94 | Applying the same grant twice equals applying it once. |
| ArrayUnion.UnionCommutesAsMultiset | server.js:94-99 | Two grants in either order leave the same elements, each as often. |
| Server.LyricsUploadOutcome | server.js:41-84 | No file gives 400 with nothing changed. A refused charge gives 500 with its message and nothing changed. Any change to the stores implies a file was sent, the users are exactly those after the granted charge, and the outcome is the catalog step run after writing the object `LyricPath` as `text/plain`. |
| Server.LyricsCatalogStep | server.js:60-83 | Users and albums are never touched, and no song other than the addressed one. The reply is 200 or 500, and a 500 changes nothing further. It is 500 exactly when the song document is missing or the previous entry names an object that does not exist. On 200 the song's `lrcs` is `UpsertLrc` of the old list (absent read as empty) with the parsed track id and the new public URL, and exactly the previously named object is deleted. |
| Server.AudioUploadOutcome | server.js:110-163 | No file gives 400 with nothing changed. An encoder error gives 500 with its message and nothing changed. A refused charge gives no reply and nothing changed. Any change implies a granted charge of the encoded size, followed by the catalog step after writing `AudioPath` as `audio/mpeg`. |
| Server.AudioCatalogStep | server.js:138-156 | Users, albums and other songs are never touched. An unhandled error changes nothing further and occurs exactly when the song document or its `tracks` is missing, or the previous `src` names no object. Otherwise the reply is 200, `tracks` becomes `UpsertTrack` with the new URL, and exactly the previously named object is deleted. |
| Server.ShareOutcome | server.js:87-107 | Users and objects are never touched. With a truthy `songId` only the song's `sharedWith` changes, and otherwise only the album's. The reply is 200 exactly when the addressed document exists, and then its `sharedWith` is `arrayUnion` of the old one and contains the id. Otherwise it is 500 with nothing changed. |
| Server.ShareIdempotent | server.js:91-101 | Repeating a successful share changes nothing and again replies 200. |
| Server.LyricsUploadRecordsUrl | server.js:65-80 | After a 200 with a numeric track id the song's list gives the new object's public URL for that id, and every other numeric id gives what it did before. |
| Server.LyricsUploadFrame | server.js:41-84 | A lyric upload leaves albums and every other song untouched and keeps the set of song documents. It keeps every counter within the cap and every object name under `sounds/`. |
| Server.AudioUploadFrame | server.js:110-163 | The same for an audio upload. |
| Server.UrlIsNoObjectName | server.js:60-68 | A public URL whose base does not start with `sounds/` is never the name of a stored object. |
| Server.PublicUrl | server.js:60 | A public URL starts with the bucket's URL base. |
| Server.PublicUrlInjective | server.js:138 | Different object names have different public URLs. |
| Server.DeletedObjects | server.js:67 | Deleting succeeds exactly when the object exists. It then removes exactly that object and keeps every other one. Otherwise it fails with "No such object". |
| Server.LyricsReuploadDeletesByUrl | server.js:51-83 | Re-uploading lyrics for an id whose entry holds a public URL keeps the charge and the new object, leaves the catalog as it was and replies 500 "No such object". |
| Server.AudioReuploadDeletesByUrl | server.js:127-156 | Re-uploading audio for a track whose `src` is a public URL keeps the charge and the new object, leaves the catalog as it was and produces no reply. |
| Server.LyricsUploadReachesCatalog | server.js:47-63 | After a granted charge the lyric upload is the catalog step run on the charged stores plus the new object. |
| Server.AudioUploadReachesCatalog | server.js:127-141 | The same for an audio upload. |
| Server.AudioCatalogStepFailedDelete | server.js:143-145 | When the previous `src` names no object, the catalog step throws "No such object" and changes nothing. |
| Server.LyricsReuploadOverOwnName | server.js:54-79 | If the previous entry held the bare object name, a re-upload replies 200 and leaves that object deleted. |
| Server.AudioReuploadOverOwnName | server.js:132-154 | If the previous `src` were the bare object name, a re-upload replies 200 and leaves that object deleted. |
| Server.ZeroPaddedTrackIdSharesEntry | server.js:54-76 | Track ids "0n" and "n" parse to the same number but name different objects. |
| Server.Backend.Save | server.js:56-58 | `file.save` creates or overwrites exactly one object and changes nothing else. |
| Server.Backend.Delete | server.js:67 | `delete` succeeds exactly when the object exists. It removes exactly that object, and on failure changes nothing. |
| Server.Backend.UploadLyrics | server.js:41-84 | The imperative handler, with its in-place index update or push, ends in the state and response of `LyricsUploadOutcome`. |
| Server.Backend.UploadAudio | server.js:110-163 | The imperative handler, with its in-place `src` update or push, ends in the state and response of `AudioUploadOutcome`. |
| Server.Backend.Share | server.js:87-107 | The imperative handler ends in the state and response of `ShareOutcome`. |

## Left out

- Express, body-parser, multer, the authentication middleware and `app.listen` (server.js:1-12, 38, 165-168) are HTTP and process plumbing. The caller's uid, the form fields and the uploaded file are parameters.
- The ffmpeg transcode and both `/tmp` files (server.js:120-128, 157-159) are an external encoder and the filesystem. Their result is a parameter: the encoded bytes or an encoder error. Temporary-file name collisions between concurrent requests are not modelled.
- The store clients are in-memory maps: document `get`/`update`, object `save`/`delete`, and `publicUrl()`.
- `publicUrl()` is modelled as the URL base followed by the object name. The percent-encoding of the name in the real URL is not modelled. The model relies only on the URL base not starting with `sounds/`.
- Error messages of the runtime and the store clients are fixed strings in the model, such as "No such object: …" and "NOT_FOUND: No document to update". Only their presence and the status matter.
- JsNumbers.ParseInt: the value is an exact integer. JavaScript rounds it to a double, so track ids above 2^53 that differ only after rounding address the same lyric entry there and different ones here; a run of about 309 or more digits gives Infinity there. The lemmas relating `parseInt` to `DecimalString` match JavaScript only up to 2^53, and `String(n)` writes `DecimalString(n)` only below 10^21.
- Server.AudioUploadOutcome: an error thrown inside the encoder's `end` callback is an unhandled promise rejection. Under Node's default since version 15 this ends the process and drops every request in flight. What happens to the process is not modelled: `Response.Unhandled` means only that no reply is sent, and the model goes on with the stores as the failed request left them.
- Concurrency: requests are sequential. The read-then-write race in `checkStorageLimit` is not modelled.
- Absent or non-string form fields are not modelled. Form fields are strings, so the template rendering of `undefined` and `doc(undefined)` errors are out of scope. The exception is `songId` in `/share`, whose absence or emptiness is modelled.
- Document ids containing `/`, and empty ids, are not modelled as store errors. The path lemmas assume slash-free ids.
- Quota.Reserve: the counter is an unbounded integer. A non-numeric stored `usedStorageMB`, and Number rounding above 2^53, are not modelled.
- Catalog.UpsertLrc: an existing `lrcs`, `tracks` or `sharedWith` value that is not an array is not modelled.
- Fields of stored lyric entries other than `trackId`, `trackName` and `lrc` are not modelled. Track records do carry their other fields (`extra`), and the upsert keeps them.
- `/share` performs no authorization check on who may grant access. The model reproduces this and states nothing about it.
