# SpotifyTrueShuffle: OAuth token bookkeeping, playback routes and input checks in Dafny

This project models the core of a desktop companion app for a music-streaming service. The
app runs a small local Flask server. The server sends the browser to the service's
authorization page and receives the authorization code at `/callback`. It exchanges that code
for tokens and keeps them in a module-level dict, `user_tokens`, refreshing them when they
expire. Every playback route uses those tokens: listing playlists, reading the queue, queueing
a random track of a playlist, skipping and pausing. Two Tk windows feed the server. One
collects and stores the API credentials (client id and secret, 32 characters each, in
`config.conf`). The other asks how many songs to shuffle (1 to 25).

The model keeps what the code decides and makes every outside effect explicit:

- each answer from the service (the token endpoint, the playback API) is a parameter;
- each request the code sends is returned as a log (`TokenRequest`, `ApiRequest`);
- the clock is an integer `now`;
- the random pick is a nondeterministic choice among the collected tracks;
- the config file is its text, or `None` when it cannot be opened;
- widgets, message boxes and callbacks are fields and event logs of the window classes.

Modules, one per component:

- `PyBuiltins` (`pybuiltins.dfy`): `None`, `str.isspace`, `str.strip`, the narrower whitespace
  that `int()` skips, and `int(text)` / `str(n)` for integers, with the round trip
  `int(str(n)) == n`.
- `PyDict` (`pydict.dfy`): Python's insertion-ordered `dict`. Assigning to an existing key keeps
  its place, so `next(iter(d.values()))` always reads the oldest entry.
- `Http` (`http.dfy`): decoded JSON values, the replies a Flask route produces, and the
  "success iff status 204" check.
- `AuthorizationUrl` (`auth_url.dfy`): the authorization URL, as in section 4.1.1 of RFC 6749.
- `TokenStore` (`token_store.dfy`): the `TokenServer` class (credentials plus `user_tokens`)
  with the callback, `get_valid_token`, `clear_user_token` and `check_authentication`.
- `PlaybackGateway` (`playback_gateway.dfy`): the projection loop of `/playlists` and
  `/get_queue`, the paging loop of `/add_random_song_to_queue`, and the five routes.
- `ApiCredentials` (`api_credentials.dfy`): the credentials window, the `config.conf` format
  and its parser.
- `ShuffleInput` (`shuffle_input.dfy`): the shuffle-count popup.

Error behaviour of the code, which the model follows:

- A route called before anyone has logged in raises in `next(iter({}.values()))`, and Flask
  answers 500 (`InternalError`).
- A refresh response without an access token stores and returns `None`. Only a missing
  `expires_in` fails, and it fails after the access token has already been overwritten.
- An empty playlist is answered with `{"error": ...}` as an ordinary 200 JSON body.
- Non-200 answers from the service are returned as `(message, status)` pairs.

## Model

| member | source | states |
|---|---|---|
| `PyBuiltins.Strip` | ApiCredentialsWindow.py:208-209 | the result is no longer than the input and neither starts nor ends with a character of the given whitespace set: `STR_SPACE` (exactly `str.isspace()`) for `strip()`, `INT_SPACE` for `int()` |
| `PyBuiltins.StripCutsOnlySpace` | ApiCredentialsWindow.py:208-209 | the result is an infix of the input, and everything cut away on either side is in the whitespace set; with `Strip`'s contract this determines `strip()` |
| `PyBuiltins.StripUnchanged` | ApiCredentialsWindow.py:208-209 | a text with no whitespace at either end is left as it is by `strip()` |
| `PyBuiltins.ParseInt` | ShuffleInputPopupBox.py:154 | every number `int()` returns has at most 4300 digits, so `str()` can write it back under CPython's default limit |
| `PyBuiltins.ParseIntCanonical` | ShuffleInputPopupBox.py:154 | whatever number `int()` reads from a text, `int(str(n))` reads the same number |
| `PyBuiltins.ParseFormatInt` | ShuffleInputPopupBox.py:154 | `int(str(n)) == n` for every integer of at most 4300 digits (the ones `str` can write under CPython's default limit), negative ones included |
| `PyBuiltins.TooManyDigits` | ShuffleInputPopupBox.py:154 | a digit group of more than 4300 digits (underscores not counted) makes `int()` raise `ValueError`, whatever its value |
| `PyBuiltins.ParseIntIgnoresSpace` | ShuffleInputPopupBox.py:154 | `int()` gives the same answer with one more character it skips on either side: the six ASCII blanks `\t \n \v \f \r` and space, or any non-ASCII `str.isspace()` character |
| `PyBuiltins.SeparatorStrippedByStr` | ApiCredentialsWindow.py:208-209 | `strip()` cuts the separator U+001C off, as `str.isspace()` counts it as whitespace |
| `PyBuiltins.SeparatorRefusedByInt` | ShuffleInputPopupBox.py:154 | `int()` does not skip the separator U+001C: the text U+001C followed by "5" raises `ValueError` |
| `PyBuiltins.NoBreakSpaceSkippedByInt` | ShuffleInputPopupBox.py:154 | `int()` skips a non-ASCII space: U+00A0 followed by "5" reads as 5 |
| `PyDict.Dict.Set` | FlaskServer.py:184-188 | `d[k] = v` keeps the dict well formed, maps `k` to `v`, leaves every other entry alone, appends a new key to the order and leaves an existing key in its place |
| `PyDict.SetKeepsFirst` | FlaskServer.py:130 | no assignment moves the oldest entry, which is the one `next(iter(...))` yields |
| `PyDict.EmptyIffNoEntries` | FlaskServer.py:222 | a dict is falsy exactly when it has no entries |
| `AuthorizationUrl.AuthUrl` | FlaskServer.py:65-78 | the URL is exactly `AUTH_URL?response_type=code&redirect_uri=REDIRECT_URI&scope=SCOPE&client_id=<id>`, in that key order, with nothing escaped; a missing client id is spelled `None` |
| `AuthorizationUrl.JoinFour` | FlaskServer.py:78 | joining four pairs gives `k0=v0&k1=v1&k2=v2&k3=v3` |
| `AuthorizationUrl.ScopeHasDoubleSpace` | FlaskServer.py:18-23 | the scope holds the raw double space after `user-modify-playback-state` (characters 60 and 61); `AuthUrl` puts the scope into the URL verbatim, so the space goes out unescaped |
| `AuthorizationUrl.AuthUrlInjective` | FlaskServer.py:72-78 | the client id is the URL's tail and can be read back: two URLs are equal only when the client ids are spelled the same (`None` and the string "None" share one spelling) |
| `TokenStore.Login` | FlaskServer.py:180-188 | a successful exchange adds the entry keyed by the returned access token, with `expires_at = now + expires_in`, and leaves every other entry untouched |
| `TokenStore.ValidToken` | FlaskServer.py:123-139 | on an empty store: `NoToken`, no refresh request, store unchanged. When `now <= expires_at` of the oldest entry: its access token, no request, store unchanged. Otherwise: exactly one refresh grant carrying that entry's refresh token. The entry's access token becomes the response's, its refresh token and key are kept, and `expires_at` becomes `now + expires_in`. Without `expires_in` the access token is already overwritten, the expiry is kept, and the call fails. Keys and other entries never change |
| `TokenStore.RefreshLeavesStaleKey` | FlaskServer.py:130-139 | after a refresh that issues a different token, the entry is still filed under the old token, so the key no longer equals the record's access token |
| `TokenStore.LoginThenValidToken` | FlaskServer.py:123-139 | right after a login on an empty store, any request before expiry gets the new token back without a refresh request |
| `TokenStore.SecondLoginKeepsFirst` | FlaskServer.py:184-188 | a later login never displaces the entry that `get_valid_token` uses |
| `TokenStore.TokenServer.constructor` | FlaskServer.py:14-25 | at start-up there are no credentials and no tokens |
| `TokenStore.TokenServer.UpdateApiCredentials` | FlaskServer.py:40-51 | replaces the client id and secret and leaves the tokens alone |
| `TokenStore.TokenServer.Callback` | FlaskServer.py:161-189 | a truthy `error` parameter sends the failure page, posts nothing and leaves the store unchanged. Otherwise exactly one code exchange is posted with the code, redirect URI, client id and secret. An `error` member in the answer fails with the store unchanged. A missing `expires_in` raises with the store unchanged. Anything else adds the `Login` entry and sends the success page |
| `TokenStore.TokenServer.GetValidToken` | FlaskServer.py:123-139 | the new store, the outcome and the refresh requests posted are those of `ValidToken`; the credentials are unchanged |
| `TokenStore.TokenServer.ClearUserToken` | FlaskServer.py:142-147 | leaves the store empty and the credentials unchanged |
| `TokenStore.TokenServer.CheckAuthentication` | FlaskServer.py:214-225 | answers `{"success": true}` iff the store has an entry |
| `TokenStore.ClearThenCheck` | FlaskServer.py:222-225 | after `clear_user_token`, `check_authentication` answers `{"success": false}` |
| `Http.GetOrEmptyList` | FlaskServer.py:242 | `body.get(key, [])`: the member when present, an empty list when missing, a failure when the body is not an object |
| `Http.Elements` | FlaskServer.py:244 | a `for` loop over an array visits its elements in order; `null`, booleans and numbers cannot be iterated |
| `Http.NoContentReply` | FlaskServer.py:340-343 | the action succeeds iff the status is exactly 204; any other status is returned with the failure text |
| `PlaybackGateway.Restrict` | FlaskServer.py:245-249 | the built object has exactly the kept fields, each with the element's value |
| `PlaybackGateway.Project` | FlaskServer.py:243-249 | the projection succeeds iff every element is an object holding the kept fields; then it has one restricted object per element, in the same order |
| `PlaybackGateway.ProjectItems` | FlaskServer.py:243-249 | the append loop computes `Project` |
| `PlaybackGateway.FormatList` | FlaskServer.py:241-252 | the route's reply after the request is `ListReply`, computed with the loop |
| `PlaybackGateway.ListReplyShape` | FlaskServer.py:241-252 | on a status other than 200 the failure text comes back with that status. On 200 with the key missing the reply is an empty list. On 200 with an array, the reply fails iff some element lacks a kept field; otherwise it has one object per element, in order, with exactly the kept fields and their values |
| `PlaybackGateway.StopsAtFirstShortPage` | FlaskServer.py:297-308 | if pages 0..k-1 are full 200 pages and page k is not, the loop makes exactly k+1 requests. It returns page k's failing status, or the tracks of pages 0..k concatenated in order |
| `PlaybackGateway.ThreePages` | FlaskServer.py:293-308 | pages of 100, 100 and 50 tracks take exactly 3 requests and yield all 250 tracks in order |
| `PlaybackGateway.EmptyPlaylist` | FlaskServer.py:302-304 | an empty first page takes one request and yields no tracks |
| `PlaybackGateway.FetchAllTracks` | FlaskServer.py:293-310 | the loop's result is `Accumulate(pages)`; it makes `FetchCount(pages)` requests, and the k-th carries `limit=100` and `offset=100*k` |
| `PlaybackGateway.QueueRandomTrack` | FlaskServer.py:293-324 | a failed page returns that status with no enqueue request. An empty result returns the "No tracks found" body with no enqueue request. Otherwise exactly one enqueue request follows the page requests, with the URI of a collected track, and the reply is the 204 check of its answer |
| `PlaybackGateway.Playlists` | FlaskServer.py:228-252 | the store is left as `get_valid_token` leaves it. If that raises, the reply is 500 and nothing is sent. Otherwise one GET goes out with the bearer token and the reply is the `id`/`name`/`images` projection of `items` |
| `PlaybackGateway.GetQueueRoute` | FlaskServer.py:255-276 | same as `/playlists` with the `id` projection of `queue` |
| `PlaybackGateway.AddRandomSongToQueue` | FlaskServer.py:279-324 | token first as above, then the requests and reply of `QueueRandomTrack` with the bearer token |
| `PlaybackGateway.SkipToNextSong` | FlaskServer.py:327-343 | token first as above, then one POST, success iff 204 |
| `PlaybackGateway.PausePlayback` | FlaskServer.py:346-362 | token first as above, then one PUT, success iff 204 |
| `ApiCredentials.ReadLine` | ApiCredentialsWindow.py:208-209 | the line read is a prefix of the text without line breaks, and it ends at a line break or at the end of the text |
| `ApiCredentials.ReadLineRest` | ApiCredentialsWindow.py:208-209 | what is left for the next read is empty at the end of the text, and otherwise exactly the text after the break that ended the line (`\r\n` is one break, a lone `\n` or `\r` is one) |
| `ApiCredentials.ParseConfig` | ApiCredentialsWindow.py:208-212 | an accepted pair has two values of exactly 32 characters |
| `ApiCredentials.ParseConfigAccepts` | ApiCredentialsWindow.py:208-212 | the pair is accepted iff both stripped first two lines have length exactly 32, and it is then those two stripped lines |
| `ApiCredentials.Serialize` | ApiCredentialsWindow.py:233 | the file holds the two values and two line breaks, nothing else |
| `ApiCredentials.ReadWrittenLine` | ApiCredentialsWindow.py:208-209 | reading a line written with `\n`, `\r\n` or `\r` gives back the line and exactly what followed it |
| `ApiCredentials.RoundTrip` | ApiCredentialsWindow.py:208-212 | saving two 32-character values with no surrounding whitespace or line break, then loading, gives back the same two values |
| `ApiCredentials.RoundTripOnDisk` | ApiCredentialsWindow.py:208-233 | the same round trip holds whichever line ending text mode writes to disk (`\n`, `\r\n` on Windows, `\r`) |
| `ApiCredentials.LeadingSpaceIsNotReloaded` | ApiCredentialsWindow.py:208-210 | a 32-character id starting with a space passes the form check, but the saved file is not loaded again |
| `ApiCredentials.ApiCredentialsWindow.LoadApiCredentialsFromFile` | ApiCredentialsWindow.py:201-214 | an unreadable file is reported and changes no entry. A readable file fills the entries (text inserted at position 0) only when both stripped lines have length 32, and otherwise changes nothing |
| `ApiCredentials.ApiCredentialsWindow.CheckCredentials` | ApiCredentialsWindow.py:216-223 | saves and hands over iff both entries have length exactly 32; otherwise shows the error box, writes nothing and does not call the callback |
| `ApiCredentials.ApiCredentialsWindow.GetCredentials` | ApiCredentialsWindow.py:225-234 | the file becomes exactly `id\nsecret\n`, then the callback receives those same two values |
| `ApiCredentials.ReloadSaved` | ApiCredentialsWindow.py:201-214 | a fresh window built over a file that holds a saved, unpadded, well-formed pair shows exactly that pair |
| `ApiCredentials.SaveThenReload` | ApiCredentialsWindow.py:201-234 | credentials accepted in one run fill the entries of the next run's window unchanged |
| `ShuffleInput.Classify` | ShuffleInputPopupBox.py:153-167 | not an integer, at most 0, above 25, or accepted with the parsed value; each holds exactly when `int()` gives that case, so 25 is accepted |
| `ShuffleInput.ClassifyWrittenNumber` | ShuffleInputPopupBox.py:158-167 | typing `str(n)`, for any n of at most 4300 digits, is accepted iff 1 <= n <= 25, with that same n |
| `ShuffleInput.ClassifyTooManyDigits` | ShuffleInputPopupBox.py:153-170 | an entry of more than 4300 digits is refused by `int()`, so the popup shows "Please enter a number into the text box", not the "less than 25" message |
| `ShuffleInput.ClassifyIgnoresSpace` | ShuffleInputPopupBox.py:154 | a character `int()` skips, on either side of the entry, does not change the decision |
| `ShuffleInput.ClassifySeparator` | ShuffleInputPopupBox.py:153-170 | an entry of U+001C followed by "5" is not a number, so the popup asks for a number instead of accepting 5 |
| `ShuffleInput.ShuffleInputPopupBox.GetInputPopupbox` | ShuffleInputPopupBox.py:149-170 | text that is not a number, not positive or above 25 shows its own error box and forces focus, without calling the callback or destroying the window. An accepted count leads to exactly one callback with that count. If the callback returns, the window is destroyed. If it raises `ValueError`, the "enter a number" box is shown, focus is forced and the window stays open |

## Left out

- Flask plumbing is not modelled: routing, `redirect`/`url_for`, the HTML pages, the JSON
  encoding done by `jsonify`, `app.run` and `os.urandom` (FlaskServer.py:54-62, 150-211). The
  `/` route only redirects to `AuthUrl`.
- The HTTP layer is not modelled: `requests` calls, their query-string encoding and
  `response.json()` decode errors. Requests are logged as values and answers are parameters.
- `TokenStore.ValidToken`: `time.time()` is read twice in `get_valid_token` (lines 131 and 137).
  The model reads one integer `now` for both, so a fractional, moving clock is not captured.
- Token responses carry `expires_in` as an integer or not at all. A non-numeric `expires_in`
  (also a `TypeError` in the source) is not a separate case.
- `PlaybackGateway.FetchAllTracks`: pages beyond the supplied sequence are answered as empty
  200 pages. A service that returns full pages forever makes the source loop forever; the model
  always ends.
- Playlist-track items are reduced to their track URI, and `items` is taken to be a list. Items
  without `track`/`uri`, or with a `null` track, raise in the source and are not modelled.
- `PlaybackGateway.QueueRandomTrack`: `random.shuffle`/`random.choice` become "some collected
  track". Uniformity is not stated.
- `Http.Elements`: iterating a non-empty JSON object yields its keys in Python. The model merges
  that case into the failures, which is what the projection then does with them.
- `PyBuiltins.ParseInt`: accepts only ASCII digits. Python's `int()` also accepts other Unicode
  decimal digits; the model treats those as not a number. The digit limit is CPython's default
  of 4300. A limit changed through `sys.set_int_max_str_digits` is not modelled, and neither are
  Python versions without a limit.
- `ApiCredentials.ApiCredentialsWindow.GetCredentials`: the file content is the text as written,
  with `\n`. Text-mode newline translation on write (`\r\n` on Windows) is not modelled;
  `RoundTripOnDisk` shows that reading back is unaffected by it.
- `ShuffleInput.ShuffleInputPopupBox.GetInputPopupbox`: of the exceptions the callback may
  raise, only `ValueError` is modelled. Any other exception leaves the popup's handler, and it is
  not modelled.
- The `is None` test in `get_input_popupbox` (ShuffleInputPopupBox.py:155-157) cannot succeed,
  since `int()` never returns `None`. `ShuffleInput.Verdict` therefore has no such case.
- `print` output (ShuffleInputPopupBox.py:166, ApiCredentialsWindow.py:214) is not modelled. The
  load failure is recorded as an event; the printed count is not.
- Exceptions other than a missing file while reading `config.conf` (decoding errors, for
  example) are not modelled. The file is its text or `None`.
- AuthenticateWindow.py is not part of this model: it is window construction with no logic.
- Widget layout, styling, window centring, hyperlinks, the clipboard context menus and
  `mainloop()` are not modelled.
- Concurrency is not modelled. `app.run` serves each request on its own thread, so two routes can
  refresh the same expired token at once; the model runs one request at a time.
