# obsidian.fm core, modelled in Dafny

obsidian.fm is an Obsidian plugin that logs what the user plays on Spotify
into notes. Each track or album gets one note, named by its id. Each log
appends an entry to a note: a date header, the user's text with an optional
`^blockId` block marker, and a line with the reference link and/or the
playback position. While writing an entry, the user can reference other
tracks and albums. Each referenced item's note then gets an entry that
embeds the new block. The plugin talks to the Spotify Web API with a PKCE
token store in `localStorage`.

The repository holds three generations of this logic, with different rules:

- the oldest, at the repository root: `SpotifyLogger.ts` (`logSong`, which
  keeps a "log count"), `SpotifyLogModal.ts`, `utils.ts` and `api.ts`;
- `src/SpotifyLogger.ts`, with `src/ui/LogModal.ts` and
  `src/ui/SpotifyLogModal.ts`;
- the newest, `src/Scrobbler.ts`, with `src/ui/ScrobbleModal.ts`.

`src/utils.ts` holds the formatters and encoders the later generations
share. `FolderSuggest.ts` is the folder picker of the settings.

The modules follow the files:

- **Utils**: `src/utils.ts`. Its `generateRandomString`, `base64encode` and
  `generateBlockID` have the same text in root `utils.ts`, so the same
  members model both.
- **LegacyUtils**: the parts of root `utils.ts` that differ.
- **Api**: `api.ts`.
- **Scrobbler**: `src/Scrobbler.ts`.
- **SpotifyLogger**: `src/SpotifyLogger.ts`.
- **LegacyLogger**: root `SpotifyLogger.ts`.
- **ScrobbleModal**: `src/ui/ScrobbleModal.ts`.
- **LogModal**: `src/ui/LogModal.ts`.
- **SpotifyLogModal**: `src/ui/SpotifyLogModal.ts`.
- **LegacyLogModal**: root `SpotifyLogModal.ts`.
- **FolderSuggest**: `FolderSuggest.ts`.

Supporting modules:

- **Wrappers**: `Option` and `Result`.
- **Text**: JavaScript's `toString`, `padStart`, `split`, `join`,
  `includes` and `indexOf`; `toLowerCase` on ASCII letters only, and
  `parseInt` on unsigned numerals (see "## Left out").
- **Base64**: `btoa` as section 4 of RFC 4648, and the URL-safe alphabet of
  section 5.
- **Wikilinks**: a parser for the `[[id#^block|name]]` links the plugin
  renders, used to state that rendering is injective and reversible.
- **Items**: tracks, albums and settings.
- **Vault**: the Obsidian vault as a class holding a map from path to
  note. A note is a frontmatter map plus a body string.
- **Drain**: the pop-from-the-end loop that the reference modals share.

Stateful code takes the source's form:

- The vault and `localStorage` are classes, and the loggers' operations
  are methods that change them. Each method is proved equal to a `...Spec`
  function, and lemmas state the properties of that function.
- The modals are classes with the source's fields (`input`, the pending
  queue, `blockId`). `updateFiles` is a `while` loop popping the queue.
- A constructor that throws is modelled by a module-level `Open` that
  returns a `Result`.

Values the model takes as inputs:

- Randomness is a function from draw index to alphabet index.
- Digests and random bytes are byte sequences.
- The clock is a number of milliseconds.
- HTTP responses are values.
- `normalizePath` and the helpers the sources import but do not define are
  function-typed fields of a host record.

## Model

| member | source | states |
|---|---|---|
| Utils.GenerateRandomString | src/utils.ts:10-15 | the result has the input's length, and character i is the alphabet's character at byte i mod 62 (the copy in the root utils.ts, lines 4-9, is the same) |
| Utils.RandomStringIsCodeVerifier | src/utils.ts:10-15 | 43 to 128 random bytes make a code verifier that section 4.1 of RFC 7636 accepts (43-128 unreserved characters) |
| Utils.AlphabetIsAlnum | src/utils.ts:11-12 | the alphabet has 62 characters, each a letter or a digit |
| Utils.GenerateBlockID | src/utils.ts:48-58 | the loop returns exactly idLen characters, character i being the alphabet character of draw i, so all are alphanumeric (the same loop in the root utils.ts, lines 38-48) |
| Utils.BlockIdOf | src/utils.ts:53-55 | the block id has length n, and its i-th character is the alphabet character of draw i |
| Utils.Base64Encode | src/utils.ts:23-28 | btoa followed by the three replacements equals unpadded base64url (section 5 of RFC 4648), so no '=', '+' or '/' remains (the same post-processing in the root utils.ts, lines 17-22) |
| Utils.CodeChallengeShape | src/utils.ts:23-28 | a 32-byte SHA-256 digest encodes to 43 unreserved characters, the S256 code challenge shape of section 4.2 of RFC 7636 |
| Utils.UrlAlphabetChars | src/utils.ts:25-27 | a string over the URL-safe alphabet holds no '=', '+' or '/' and only unreserved characters |
| Base64.UrlSafeBtoa | src/utils.ts:24-27 | removing '=' and mapping '+' to '-' and '/' to '_' in standard padded base64 gives unpadded base64url, for every input |
| Base64.Base64UrlLength | src/utils.ts:23-28 | unpadded base64url of n bytes has (4n+2)/3 characters |
| Base64.Encode | src/utils.ts:24 | every output character is in the alphabet, or is '=' padding when padding is on |
| Base64.Btoa | src/utils.ts:24 | `btoa` writes only standard-alphabet characters and '=' padding |
| Base64.ReplaceAll | src/utils.ts:26-27 | `replace(/x/g, y)`: same length, and exactly the occurrences of x become y |
| Base64.RemoveAll | src/utils.ts:25 | `replace(/=/g, "")`: no occurrence of the character remains |
| Utils.FormatMsFields | src/utils.ts:30-45 | formatMs splits at ':' into 3 fields iff floor(ms/1000) >= 3600, else 2; the seconds field always has two digits, and the minutes field has two in the hour form; the hours field is the unpadded hour count; the fields read back as floor(ms/1000) |
| Utils.FormatMs | src/utils.ts:30-45 | the printed duration reads back, under an independent reader of H:MM:SS and M:SS, as floor(ms/1000) seconds |
| Utils.FormatMsHour | src/utils.ts:39-42 | in the hour form: unpadded hours, two-digit minutes and seconds, reading back as the total seconds |
| Utils.FormatMsShort | src/utils.ts:44 | below an hour: minutes unpadded and two-digit seconds, reading back as the total seconds |
| Utils.FormatMsOfClock | src/utils.ts:31-35 | any decomposition of floor(ms/1000) into h, m < 60, s < 60 is the one formatMs prints |
| Utils.FormatMsExamples | src/utils.ts:30-45 | 0 gives "0:00", 65000 gives "1:05", 3600000 gives "1:00:00", 3661000 gives "1:01:01" |
| Utils.ClockArithmetic | src/utils.ts:31-35 | hours, minutes and seconds recompose the total, and minutes stay below 60 |
| Utils.PaddedField | src/utils.ts:37 | `padStart(2, "0")` of a number below 100 has two characters and reads back as that number |
| Text.PadStart | src/utils.ts:37 | `padStart`: the result has the target width (or the input's length), and is fill characters followed by the input |
| Text.NatToRadix | src/utils.ts:37 | `toString(radix)` of a natural number is a numeral with no leading zero, one character exactly below the radix |
| Text.ParseNatToRadix | src/utils.ts:37 | the numeral `toString` prints reads back as the number |
| Text.SplitJoin | src/utils.ts:30-45 | splitting a join of separator-free parts at the separator gives the parts back |
| Utils.ParsePlayingAsWikilink | src/utils.ts:74-82 | for a well-formed id, block id and name the link parses back to (embed, id, blockId, name); since Parse reads back only renderings (Wikilinks.RenderParse), the text is exactly '!' iff embed, '[[id', '#^blockId' iff the block id is non-empty, '\|name]]' |
| Wikilinks.ParseRender | src/utils.ts:74-82 | every well-formed wikilink's rendering parses back to the same link |
| Wikilinks.RenderInjective | src/utils.ts:74-82 | two well-formed wikilinks with the same rendering are equal |
| Wikilinks.RenderParse | src/utils.ts:74-82 | Parse accepts only renderings: a text it reads is well formed and is the rendering of the link it read, so '#^' with no block id after it is refused |
| LegacyUtils.ParseTrackAsWikilink | utils.ts:50-58 | the root rule: the link parses back to its parts, and by Wikilinks.RenderParse it is exactly '!' iff embed, '[[id', '#^blockId' iff the block id is non-empty, '\|name]]' |
| Utils.RawFilePath | src/utils.ts:84-86 | the raw path is the folder, '/', the id and '.md', in that order |
| Utils.RawFilePathInjective | src/utils.ts:84-86 | within one folder, different ids give different raw paths |
| Utils.GetFilePathInjective | src/utils.ts:84-86 | when normalizePath merges no two paths, two ids in one folder with the same note path are the same id |
| Utils.GetFilePath | src/utils.ts:84-86 | `getFilePath`: normalizePath of the raw path; what it promises is stated by Utils.RawFilePath and Utils.GetFilePathInjective |
| Vault.FileAt | src/utils.ts:88-101 | getFile returns a note iff one exists at the path, and then that note |
| Utils.NowPlayingAsString | src/utils.ts:103-107 | the artists, then " - ", then the name |
| Utils.HexByte | src/utils.ts:69 | `b.toString(16).padStart(2, "0")` is two hex digits reading back as b |
| Utils.HexBytes | src/utils.ts:68-70 | two hex digits per byte |
| Utils.DecodeHexBytes | src/utils.ts:68-70 | decoding the joined hex text gives the bytes back |
| Utils.HexId | src/utils.ts:68-71 | the id is the first 22 characters of the hex text (or all of it when shorter), all lowercase hex |
| Utils.HexIdRoundTrip | src/utils.ts:68-71 | for a digest of at least 11 bytes the id has 22 digits and decodes to the digest's first 11 bytes |
| Utils.IdFromTrack | src/utils.ts:62-72 | the id is lowercase hex; given a digest of at least 11 bytes it has 22 digits decoding to the first 11 bytes of the digest of "artists - name", so it depends only on artists and name |
| LegacyUtils.FormatMsPatternAgrees | utils.ts:24-36 | the root formatMs picks "HH:mm:ss" iff the parsed ms is at least 3600000, exactly when the newer formatMs prints three fields |
| LegacyUtils.FormatMsPatternOfNaN | utils.ts:25-33 | a string parseInt reads as NaN takes the "mm:ss" pattern |
| Text.ParseIntOfNatToString | utils.ts:25 | parseInt reads back the decimal text of a natural number |
| Api.LocalStorage.SetItem | api.ts:13 | setItem stores the value under the key and changes no other key |
| Api.ExpiryString | api.ts:38-39 | the stored expiry parses as now + expires_in*1000, or as NaN when expires_in is missing |
| Api.SetTokensSpec | api.ts:33-48 | the expiry is now + expiresIn*1000; access_token is always overwritten; refresh_token is overwritten only when the response has one, otherwise the old value is kept; no other key changes |
| Api.SetTokens | api.ts:33-48 | the store after setTokens is SetTokensSpec of the store before |
| Api.StaleExactlyAfterLifetime | api.ts:38-39 | after setTokens, a refresh is due exactly from expires_in seconds after storing; an expiry that is NaN never triggers one |
| Api.FreshTokenIsServed | api.ts:137-144 | before the lifetime ends, the stored token is not stale and is the response's access token |
| Api.SetTokensKeepsSession | api.ts:44-47 | with a non-empty access token, the session is authenticated after setTokens iff the response has a refresh token or one was already stored |
| Api.RefreshTokens | api.ts:85-116 | a request happens iff a refresh token is stored; without one the store is unchanged; otherwise the store becomes SetTokensSpec of the response |
| Api.RequestToken | api.ts:51-83 | a request happens iff a code verifier is stored; without one the store is unchanged; otherwise the store becomes SetTokensSpec |
| Api.StoreCodeVerifier | api.ts:12-13 | 64 random bytes give a verifier that RFC 7636 accepts, stored under code_verifier with nothing else changed |
| Api.GetAccessToken | api.ts:127-145 | without a stored expiry: null, no refresh and no change; otherwise a refresh exactly when now >= expiry, and the token is whatever access token the store then holds (the stored one unchanged when fresh); the store afterwards is StoreAfterAccess: SetTokensSpec of the response when the token was stale and a refresh token is stored, else unchanged |
| Api.IsAuthenticated | api.ts:149-154 | both tokens are stored; Api.SetTokensKeepsSession states when setTokens keeps it true |
| Api.NeedsRefresh | api.ts:128-140 | an expiry is stored, parses, and now has reached it; Api.StaleExactlyAfterLifetime and Api.FreshTokenIsServed state it against setTokens |
| Api.ClassifyBody | api.ts:178-183 | data gives success; error status 400 gives the "connect" message; any other error gives the server message verbatim |
| Api.ClassifyPlayback | api.ts:172-183 | status 204 gives "Playback not available or active"; otherwise the body is classified as above |
| Api.GetCurrentlyPlayingTrack | api.ts:156-186 | not authenticated: the "connect" failure with no request and the store unchanged; otherwise a request whose response is classified, with the store as getAccessToken leaves it (StoreAfterAccess) |
| Api.SearchTrack | api.ts:188-224 | not authenticated: the "connect" failure; empty query: null with no request, the store unchanged; otherwise the same 400/other error mapping as for playback, with the store as getAccessToken leaves it (StoreAfterAccess) |
| Api.SameErrorMapping | api.ts:178-183 | apart from 204, both calls map a response to the same result, a failure iff the body is an error |
| Api.ProcessTrack | api.ts:238-249 | id, name, album and album id are copied, artist names are joined with ", " in order, the image is the last album image, the duration is the track's and there is no progress |
| Api.ProcessTrackArtists | api.ts:242 | the i-th artist name occurs at its join offset, and ", " separates it from the next |
| Api.LastImage | api.ts:245 | no image iff the list is empty, else the last one |
| Api.FormatMsLegacy | api.ts:246 | the duration keeps its ms and takes the hour pattern iff ms >= 3600000 |
| Api.ProcessCurrentlyPlayingResponse | api.ts:226-235 | null iff an episode is playing; otherwise the processed track, with the progress formatted from progress_ms |
| Scrobbler.EntryLayout | src/Scrobbler.ts:15-50 | for single-line parts, an entry splits into lines: the bold date, a blank line, the input followed by '^blockId' iff a block id is given, then the progress line (reference link first when given) iff progress is non-empty, else the reference line iff given; then '---' and a blank line |
| Scrobbler.EntryIsLines | src/Scrobbler.ts:15-50 | either entry form is the newline join of EntryLines |
| Scrobbler.EntryLines | src/Scrobbler.ts:15-50 | every entry starts with the date header and the input line and ends with "---", "", "" |
| Scrobbler.FormatInput | src/Scrobbler.ts:15-33 | `formatInput`, the entry with a progress line; Scrobbler.EntryIsLines and Scrobbler.EntryLayout state its lines |
| Scrobbler.FormatInputNoTimestamp | src/Scrobbler.ts:35-50 | `formatInputNoTimestamp`, the entry with the reference line iff one is given; Scrobbler.EntryIsLines and Scrobbler.EntryLayout state its lines |
| Scrobbler.AppendInput | src/Scrobbler.ts:52-71 | a missing note gives the "could not be found" failure with no change; otherwise the entry, in the progress form iff progress is non-empty, is appended to that note's body and nothing else changes |
| Scrobbler.AlbumFields | src/Scrobbler.ts:149-167 | name, artists, tracks and aliases are always written; type, release date, duration and tags exactly when their switch is on; no other key |
| Scrobbler.TrackFields | src/Scrobbler.ts:197-205 | name, artists, album and aliases are always written; album is the album link when one is given, else the plain album name; type, duration and tags exactly when their switch is on |
| Scrobbler.UpdateTrackFrontmatter | src/Scrobbler.ts:73-86 | only the track note's album key changes, to the album's wikilink |
| Scrobbler.UpdateAlbumFrontmatter | src/Scrobbler.ts:88-107 | the first tracks entry equal to the track's name becomes the track's wikilink; the list is unchanged without one; a note without a tracks list, which makes the source fail and report, is left unchanged; no other key or note changes |
| Vault.ReplaceFirst | src/Scrobbler.ts:95-102 | only the first element equal to the name is replaced, and the list keeps its length; with no such element it is unchanged |
| Vault.UpdateAlbumTracks | src/Scrobbler.ts:93-103 | the edit succeeds iff tracks is a list, and then only that key changes |
| Vault.SetAlbumLink | src/Scrobbler.ts:79-82 | album becomes the link, and every other key keeps its value |
| Vault.Edited | src/Scrobbler.ts:77-85 | processFrontMatter changes only that note's frontmatter; a failed edit leaves it as it was |
| Vault.Appended | src/Scrobbler.ts:70 | vault.append adds the text at the end of that note's body only |
| Vault.CreateFileSpec | src/Scrobbler.ts:109-132 | an existing note is returned untouched; otherwise a note with an empty body is added, whose frontmatter is the callback's result on the notes that already hold the new note; nothing else changes |
| Vault.CreateFileIdempotent | src/Scrobbler.ts:109-132 | a second create for the same path changes nothing, whatever callback it carries |
| Vault.Vault.Create | src/Scrobbler.ts:121 | vault.create adds an empty note at a free path |
| Vault.Vault.Append | src/Scrobbler.ts:70 | the note's body gets the text at its end |
| Vault.Vault.ProcessFrontMatter | src/Scrobbler.ts:77-85 | the note's frontmatter becomes the edit's result; the body and other notes are unchanged |
| Scrobbler.CreateFile | src/Scrobbler.ts:109-132 | the path is getFilePath(folder, id), and the vault after the call is CreateFileSpec of the vault before: the callback runs after the note is created |
| Scrobbler.CreateAlbumFileSpec | src/Scrobbler.ts:135-168 | an existing album note is kept untouched; otherwise one is created with AlbumFields, the track list computed on the notes that already hold the new album note |
| Scrobbler.CreateAlbumFile | src/Scrobbler.ts:135-168 | the method's vault and path are those of CreateAlbumFileSpec |
| Scrobbler.CreateAlbumFileIdempotent | src/Scrobbler.ts:135-168 | after one call the album note exists, and a second call changes nothing |
| Scrobbler.TrackId | src/Scrobbler.ts:179-182 | a local track without an id is filed under the derived id, any other under its own; Scrobbler.CreateTrackFileDerivesId states the consequence |
| Scrobbler.AlbumLink | src/Scrobbler.ts:193 | for a well-formed album id and name the text parses back to that plain link, so by Wikilinks.RenderParse it is exactly "[[albumid\|album]]" |
| Scrobbler.CreateTrackFileSpec | src/Scrobbler.ts:171-206 | an id-less track gets the derived id; the path is getFilePath of that id; exactly that path is added |
| Scrobbler.CreateTrackFile | src/Scrobbler.ts:171-206 | the method's vault, path and track are those of CreateTrackFileSpec |
| Scrobbler.CreateTrackFileExisting | src/Scrobbler.ts:184-187 | an existing track note leaves the whole vault, album note included, untouched |
| Scrobbler.CreateTrackFileNew | src/Scrobbler.ts:189-205 | a new track note has an empty body; its album is "[[albumid\|album]]" iff the album note exists, else the plain name; the album note's tracks entry is updated; no other note changes |
| Scrobbler.CreateTrackFileDerivesId | src/Scrobbler.ts:179-182 | an id-less track behaves as the same track carrying the derived id |
| Scrobbler.CreateTrackFileIdempotent | src/Scrobbler.ts:171-206 | a second call for the same track changes nothing and returns the same path |
| Scrobbler.CreateTracksSpec | src/Scrobbler.ts:230-234 | creating an album's track notes in order only adds notes |
| Scrobbler.EveryTrackHasNote | src/Scrobbler.ts:230-234 | after the loop, every track of the album has a note |
| Scrobbler.PrepareSpec | src/Scrobbler.ts:223-237 | the item's note exists afterwards and no note is lost |
| Scrobbler.ScrobbleItem | src/Scrobbler.ts:208-243 | no item: "Playback state not supported" with no change; otherwise the track or album note (with every track note first, when the switch is on) is prepared and the entry is appended to the item's note |
| SpotifyLogger.AppendInput | src/SpotifyLogger.ts:44-64 | a missing note is skipped with no write; otherwise the entry is appended, in the progress form iff progress is non-empty |
| SpotifyLogger.UpdateTrackFrontmatter | src/SpotifyLogger.ts:66-79 | only the album key of the track note changes, to "[[albumid\|album]]" |
| SpotifyLogger.UpdateAlbumFrontmatter | src/SpotifyLogger.ts:81-100 | only the first tracks entry equal to the track's name becomes its link; no other key or note changes |
| SpotifyLogger.PlainLink | src/SpotifyLogger.ts:90 | the link parsePlayingAsWikilink gives without embed or block id is "[[id\|name]]" |
| SpotifyLogger.AlbumFields | src/SpotifyLogger.ts:130-146 | title, artists, tracks and aliases (the album name) are always written; type, release date, duration and tags exactly when their switch is on |
| SpotifyLogger.TrackFields | src/SpotifyLogger.ts:180-188 | title, artists, album and aliases are always written; the album link when one is given, else the plain name; type, duration and tags exactly when switched on |
| SpotifyLogger.CreateAlbumFileSpec | src/SpotifyLogger.ts:103-152 | an existing album note is returned unchanged; otherwise one is created and gets AlbumFields, with the track list computed after the creation |
| SpotifyLogger.CreateAlbumFile | src/SpotifyLogger.ts:103-152 | the method's vault and path are those of CreateAlbumFileSpec |
| SpotifyLogger.CreateTrackFileSpec | src/SpotifyLogger.ts:155-194 | the path is getFilePath of the track id, and exactly that path is added |
| SpotifyLogger.CreateTrackFile | src/SpotifyLogger.ts:155-194 | the method's vault and path are those of CreateTrackFileSpec |
| SpotifyLogger.CreateTrackFileExisting | src/SpotifyLogger.ts:161-164 | an existing track note leaves the vault, album note included, untouched |
| SpotifyLogger.CreateTrackFileNew | src/SpotifyLogger.ts:166-192 | a new note gets TrackFields with "[[albumid\|album]]" iff the album note exists, else the plain name; the album's first matching tracks entry is updated; no other note changes |
| SpotifyLogger.TrackNoteCreatedBeforeAlbumLookup | src/SpotifyLogger.ts:167-177 | because the track note is created before the album lookup, a track whose album id equals its own id finds itself as the album and gets the link |
| SpotifyLogger.CreateTrackFileIdempotent | src/SpotifyLogger.ts:155-194 | a second call for the same track changes nothing |
| SpotifyLogger.ItemFileSpec | src/SpotifyLogger.ts:212-224 | the playing item's note is at getFilePath of its id, and only that path is added |
| SpotifyLogger.CreateItemFile | src/SpotifyLogger.ts:212-224 | the method's vault and path are those of ItemFileSpec |
| SpotifyLogger.CreateTracksSpec | src/SpotifyLogger.ts:218-222 | every listed track gets a note, and no note is lost |
| SpotifyLogger.PrepareSpec | src/SpotifyLogger.ts:212-224 | the playing item's note exists afterwards, and no note is lost |
| SpotifyLogger.LogPlaying | src/SpotifyLogger.ts:196-249 | nothing playing: no log and no change; otherwise the item's note (and, for an album with the switch on, every track's note) is prepared, and the entry is appended |
| LegacyLogger.NewFields | SpotifyLogger.ts:37-43 | a new note gets exactly title, artists (names joined with ", "), album, "log count" = 1 and aliases |
| LegacyLogger.Increment | SpotifyLogger.ts:51 | JavaScript's += 1: a number grows by one; null gives 1, true 2 and false 1; a missing value or NaN gives NaN; a string, or a list joined with ",", gets "1" appended |
| LegacyLogger.Counted | SpotifyLogger.ts:47-57 | only "log count" changes, by exactly one when it is a number |
| LegacyLogger.LogSongSpec | SpotifyLogger.ts:19-58 | the path is normalizePath(folder + "/" + id + ".md"); only that note is added or changed, and its body is untouched |
| LegacyLogger.LogSong | SpotifyLogger.ts:19-58 | the method's vault and path are those of LogSongSpec |
| LegacyLogger.LogSongNew | SpotifyLogger.ts:31-46 | a song without a note gets NewFields |
| LegacyLogger.LogSongOnlyCounts | SpotifyLogger.ts:47-57 | a song with a note gets "log count" incremented by one and no other key changed |
| LegacyLogger.LogSongCountsLogs | SpotifyLogger.ts:29-57 | from no note, n logs of the same song leave "log count" = n |
| Drain.DrainedOrder | src/ui/ScrobbleModal.ts:43-44 | popping from the end handles all later picks before any earlier one |
| Drain.EarliestLast | src/ui/ScrobbleModal.ts:43-44 | the earliest pick is handled last, on the notes the other picks left |
| Drain.Drained | src/ui/ScrobbleModal.ts:43-76 | the queue drained from its end; Drain.DrainedOrder, Drain.EarliestLast and Drain.DrainedKeys state what it does |
| Drain.DrainedKeys | src/ui/ScrobbleModal.ts:43-76 | if each step adds exactly its item's note, the drain adds exactly the queued items' notes |
| Drain.EveryQueuedItemHasNote | src/ui/ScrobbleModal.ts:43-76 | every queued item has a note afterwards, whether or not its link is still in the text |
| ScrobbleModal.ScrobbleModal.Choose | src/ui/ScrobbleModal.ts:79-92 | picking the subject itself is rejected with no change; any other pick goes to the end of pendingItems and its wikilink to the end of the input |
| ScrobbleModal.ScrobbleModal.Backlink | src/ui/ScrobbleModal.ts:45-75 | the item's note exists, and its body gets the subject's block embed and link, in the progress form iff the subject has progress |
| ScrobbleModal.ScrobbleModal.BacklinkLast | src/ui/ScrobbleModal.ts:43-76 | one loop turn pops the last pick and writes its backlink |
| ScrobbleModal.ScrobbleModal.Step | src/ui/ScrobbleModal.ts:45-75 | each turn of the drain writes the popped item's backlink with the one id drawn before the loop, whatever its position |
| ScrobbleModal.ScrobbleModal.UpdateFiles | src/ui/ScrobbleModal.ts:41-77 | one block id is drawn before the loop, even for an empty queue, and shared by all backlinks; the queue is drained last pick first and ends empty |
| ScrobbleModal.ScrobbleModal.DrainAddsQueuedNotes | src/ui/ScrobbleModal.ts:43-76 | the drain adds exactly the queued items' notes |
| ScrobbleModal.ScrobbleModal.EarliestPickLast | src/ui/ScrobbleModal.ts:43-44 | the earliest pick's backlink is the last one written |
| ScrobbleModal.ScrobbleModal.Submit | src/ui/ScrobbleModal.ts:31-40 | onSubmit gets the input and the drawn block id; afterwards blockId is null and the queue is empty |
| ScrobbleModal.ScrobbleModal.Edit | src/ui/ScrobbleModal.ts:132-134 | onChange sets the input and nothing else |
| ScrobbleModal.ScrobbleModal.CreateItemNote | src/ui/ScrobbleModal.ts:45-52 | the picked track or album note is created (or kept) through the Scrobbler rules |
| ScrobbleModal.Open | src/ui/ScrobbleModal.ts:94-116 | the constructor fails with the invalid-folder message iff the folder does not exist; otherwise the modal starts empty |
| LogModal.LogModal.Choose | src/ui/LogModal.ts:80-94 | a self-reference is rejected with no change; otherwise the pick goes to the end of pendingPlayings and its plain wikilink to the end of the input |
| LogModal.LogModal.BacklinkLast | src/ui/LogModal.ts:42-77 | one loop turn pops the last pick, draws a fresh block id, keeps it in blockId and writes the backlink with it |
| LogModal.LogModal.Step | src/ui/LogModal.ts:42-77 | the turn that pops an item after j others writes its backlink with the j-th id drawn |
| LogModal.LogModal.UpdateFiles | src/ui/LogModal.ts:40-78 | the queue is drained last pick first, with one fresh id per item; blockId ends as the last id drawn, or stays as it was when nothing was queued |
| LogModal.LogModal.SubmittedId | src/ui/LogModal.ts:35 | with no queued item the id is the earlier one; otherwise it is the last id drawn |
| LogModal.LogModal.EarliestPickGetsSubmittedId | src/ui/LogModal.ts:42-54 | the earliest pick's backlink is written last, on the notes the others left, with the last id drawn (the one SubmittedId hands to onSubmit) |
| LogModal.LogModal.EarliestPickNoteEndsWithSubmittedEntry | src/ui/LogModal.ts:42-76 | the earliest pick's note ends with the entry that embeds the submitted block id |
| LogModal.LogModal.DrainAddsQueuedNotes | src/ui/LogModal.ts:42-77 | every queued item gets a note, and no other note is added |
| LogModal.LogModal.DrainedAfterBacklink | src/ui/LogModal.ts:42-77 | one loop turn followed by the rest of the drain is the whole drain |
| LogModal.LogModal.Backlink | src/ui/LogModal.ts:55-76 | the item's note exists, and its body ends with the subject's block embed under that id |
| LogModal.LogModal.Submit | src/ui/LogModal.ts:33-38 | onSubmit gets the input and the submitted id (undefined when nothing was queued and no id was set); afterwards blockId is null |
| LogModal.LogModal.Edit | src/ui/LogModal.ts:138-140 | onChange sets the input and nothing else |
| LogModal.DrawnId | src/ui/LogModal.ts:54 | every drawn block id has six characters |
| LogModal.Open | src/ui/LogModal.ts:96-122 | the constructor fails with "not supported" when nothing is playing and with the invalid-folder message when the folder is missing; otherwise the modal starts empty |
| SpotifyLogModal.SpotifyLogModal.Choose | src/ui/SpotifyLogModal.ts:33-88 | no subject or a self-reference: no change to the text, the id or the vault; otherwise the pick's note is made, its link is appended to the input, a fresh block id replaces the last one, and the backlink is appended to the pick's note |
| SpotifyLogModal.SpotifyLogModal.Backlink | src/ui/SpotifyLogModal.ts:47-87 | the pick's note exists afterwards, its body gets the backlink entry, and no other note changes beyond its creation |
| SpotifyLogModal.SpotifyLogModal.PickedNoteEndsWithEntry | src/ui/SpotifyLogModal.ts:65-87 | the picked note ends with the entry that embeds the block id drawn for it |
| SpotifyLogModal.SpotifyLogModal.Submit | src/ui/SpotifyLogModal.ts:28-32 | onSubmit gets the input and the latest id; afterwards blockId is null |
| SpotifyLogModal.SpotifyLogModal.Edit | src/ui/SpotifyLogModal.ts:133-135 | onChange sets the input and nothing else |
| SpotifyLogModal.Open | src/ui/SpotifyLogModal.ts:89-117 | with nothing playing the modal has no body; otherwise the constructor fails iff the folder does not exist |
| SpotifyLogModal.SettingsReadFromString | src/ui/SpotifyLogModal.ts:48 | the settings read from the folder path string: folder "undefined", every switch off |
| SpotifyLogModal.AsWrittenPathIgnoresFolder | src/ui/SpotifyLogModal.ts:48-57 | as written, a pick's note path is normalizePath("undefined/" + id + ".md") whatever the folder |
| SpotifyLogModal.AsWrittenMisplacesNote | src/ui/SpotifyLogModal.ts:48 | with an identity normaliser, folder "Music" and id "x" give "undefined/x.md" rather than "Music/x.md" |
| SpotifyLogModal.IntendedSettings | src/ui/SpotifyLogModal.ts:52-57 | the intended settings carry the modal's folder and album switch |
| SpotifyLogModal.IntendedPathInFolder | src/ui/SpotifyLogModal.ts:48-57 | with the intended settings, a pick's note is at getFilePath of the modal's folder |
| LegacyLogModal.LegacyLogModal.constructor | SpotifyLogModal.ts:23-35 | the track is the processed playback state, absent exactly for an episode |
| LegacyLogModal.LegacyLogModal.Choose | SpotifyLogModal.ts:75-110 | the input gets "[[id\|name]]" of the pick; blockId becomes a fresh six-character id; a backlink request (the current song's block embed, its progress and link) exists iff the current song has progress |
| LegacyLogModal.LegacyLogModal.Submit | SpotifyLogModal.ts:47-52 | onSubmit gets the input and the latest block id; blockId is reset to "" |
| LegacyLogModal.LegacyLogModal.Edit | SpotifyLogModal.ts:62-64 | onChange sets the input and nothing else |
| LegacyLogModal.SongLink | SpotifyLogModal.ts:84-86 | the plain link parses back to (id, name) with no embed or block, so by Wikilinks.RenderParse it is exactly "[[id\|name]]" |
| LegacyLogModal.BlockEmbed | SpotifyLogModal.ts:90 | "![[" + id + "#^" + blockId + "]]" |
| LegacyLogModal.RequestEmbedsLatestBlock | SpotifyLogModal.ts:88-93 | the requested embed ends with the block id, six alphanumeric characters, that the next submit hands on |
| FolderSuggest.Suggestions | FolderSuggest.ts:15-20 | a folder is suggested iff it is listed and its lower-cased path contains the lower-cased query; never more than listed |
| FolderSuggest.Matches | FolderSuggest.ts:16-18 | the lower-cased folder path includes the lower-cased query; FolderSuggest.Suggestions filters by it |
| FolderSuggest.SuggestionsOfConcat | FolderSuggest.ts:17-19 | filtering keeps the order: the suggestions of a concatenation are those of each part, in turn |
| FolderSuggest.SuggestionsCount | FolderSuggest.ts:17-19 | each folder occurs in the result as often as in the list when it matches, else not at all |
| FolderSuggest.EmptyQuerySuggestsAll | FolderSuggest.ts:16-19 | the empty query suggests every folder, in order |
| FolderSuggest.QueryCaseInsensitive | FolderSuggest.ts:16 | a query and its lower-cased form suggest the same folders |
| Text.IncludesIff | FolderSuggest.ts:18 | `includes` holds iff the needle occurs at some offset |
| Text.Includes | FolderSuggest.ts:18 | `includes`; Text.IncludesIff states it is substring search |
| Text.ToLower | FolderSuggest.ts:16-18 | the ASCII fold: same length, each character lowered on its own, 'A'..'Z' to 'a'..'z' and every other character kept (see "## Left out") |
| Text.ToLowerIdempotent | FolderSuggest.ts:16 | lower-casing twice is lower-casing once |
| FolderSuggest.FolderSuggest.Select | FolderSuggest.ts:26-30 | the chosen folder becomes the field's value |

## Left out

- Network calls are not modelled: `fetch`, URL and query-string building, `getAuthUrl`, `handleAuth`, `window.open` and the protocol handler. HTTP responses are inputs.
- Crypto and randomness are inputs, not computed: `sha256`, `crypto.subtle`, `crypto.getRandomValues` and `Math.random` become digests, byte sequences and index functions.
- moment.js formatting is not modelled: the entry header date is a string parameter, and root `formatMs` keeps only its milliseconds and the pattern it chooses.
- Obsidian host APIs are not modelled:
  - `normalizePath` is an uninterpreted function;
  - opening leaves and files, editor cursor moves and `cachedRead` (src/Scrobbler.ts:245-261) are left out;
  - root `appendDate` and `Notice`, `console` and `showError` output are left out.
- The vault's folder listing used by the constructors is a `set<string>` parameter.
- Some helpers the sources import are not defined in them, so they are fields of a host record:
  - for src/Scrobbler.ts: `parseItemAsWikilink`, `itemAsString`, `generateIdFromTrack` and `tracksAsWikilinks`;
  - for src/SpotifyLogger.ts: `tracksAsWikilinks`;
  - `reloadOFMT` and `showNotice` are left out.
- Root `SpotifyLogModal.ts` imports `createSongFile` and `appendInput`, which are not defined in the root sources. `LegacyLogModal.LegacyLogModal.Choose` returns the backlink request it would hand them.
- A `processFrontMatter` edit that fails is modelled as an edit that returns no frontmatter, and the note is left unchanged. The surrounding try/catch (src/Scrobbler.ts:78-85) never sees that failure, because the call is not awaited; the resulting unhandled rejection is not modelled.
- Async ordering and concurrency are not modelled: every `await` is a sequential step.
- Floating point is not modelled: milliseconds are natural numbers, and `Math.floor` is integer division.
- Episodes are not modelled beyond the playback state that says one is playing: no episode notes and no episode fields.
- UI is left out:
  - modal DOM construction, key handlers and `close`;
  - search debouncing, `SearchModal` and `SpotifySearchModal`;
  - `RecentSongsModal`, `SettingTab`, and the commands and settings defaults of main.ts;
  - `FolderSuggest.renderSuggestion`.
- `requireAuth`'s guard is modelled only where the core uses it: `isAuthenticated` is checked inside `getCurrentlyPlayingTrack` and `searchTrack`.
- Utils.IdFromTrack: it takes the SHA-256 function as a parameter, so "the id depends only on artists and name" holds for any hash function.
- Api.GetAccessToken: the refresh response is a parameter, used only when the stored token is stale.
- SpotifyLogger.CreateTrackFileNew: stated only for a track whose album note path differs from its own note path. The case where the two paths coincide is stated by SpotifyLogger.TrackNoteCreatedBeforeAlbumLookup.
- FolderSuggest.Suggestions: lower-casing is ASCII only. JavaScript's `toLowerCase` folds all of Unicode, so folders ["Été"] with query "été" give ["Été"] in the plugin and [] in the model. Both agree on ASCII folder paths and queries.
- FolderSuggest.QueryCaseInsensitive: proved for the ASCII fold only. The Unicode fold of JavaScript is not modelled.
- Text.ToLower: one character in, one out. JavaScript's `toLowerCase` can lengthen a string ("İ" becomes two code units); that is not modelled.
- Text.ParseInt: reads an unsigned run of leading digits. JavaScript's `parseInt` also skips leading white space and reads a sign. The plugin parses only numerals it wrote itself (the stored expiry, a millisecond count), where the two agree.
- Missing ids: a field JavaScript leaves undefined is "" in the model. Where the plugin interpolates one into text, JavaScript writes "undefined" and the model writes nothing. Examples are an album lookup for a local track without an album id (src/Scrobbler.ts:190-191, src/SpotifyLogger.ts:173), giving "folder/undefined.md" rather than "folder/.md", and a link to an id-less item (src/utils.ts:81), giving "[[undefined|…" rather than "[[|…".
- SpotifyLogModal.SpotifyLogModal.Choose: writes with the corrected settings (SpotifyLogModal.IntendedSettings, see "## Findings"). As written, the pick's note goes to "undefined/<id>.md" with every display switch off, which SpotifyLogModal.AsWrittenPathIgnoresFolder states.
- SpotifyLogModal.SpotifyLogModal.Backlink: follows the same corrected settings as Choose. The as-written path is stated by SpotifyLogModal.AsWrittenPathIgnoresFolder.

## Findings

| source | as written | input that shows it | evidently intended | confidence | as-written member | corrected member |
|---|---|---|---|---|---|---|
| src/ui/SpotifyLogModal.ts:48 | `createTrackFile` and `createAlbumFile` are called with the modal's folder path string where they expect the settings record, so the `folderPath` they destructure is undefined and every display switch is off | folder "Music", picked item id "x", normalizePath the identity: the note is made at "undefined/x.md" | the modal's own folder (and album switch), giving "Music/x.md" | not executed | SpotifyLogModal.AsWrittenMisplacesNote | SpotifyLogModal.IntendedPathInFolder |
