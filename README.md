# Spotify now-playing and artist widgets, modelled in Dafny

The application is a small Next.js site. It has three server routes and a few client components.

- The login and callback routes implement the authorization-code flow of RFC 6749 against Spotify. Together they store the access and refresh tokens in HttpOnly cookies.
- The currently-playing route answers with the user's current track. Failing that, it answers with the most recently played track, or with a small error or empty body.
- The dashboard page polls that route once a second. Between polls it advances the song's progress locally on every animation frame.
- Three widgets render the song or an artist's track list. These are the dashboard's song card, the now-playing card and the artist card.
- Helpers in `lib/spotify-utils.ts` validate and format artist names and build widget configurations.

The model has one Dafny module per source file. These are `ArtistUtils`, `Dashboard`, `CurrentlyPlaying`, `Callback`, `Login`, `LinkMe`, `NowPlaying` and `Widget`.

Small modules stand in for the runtime pieces the code relies on:

- `Js`: `trim`, ASCII case mapping, UTF-16 `length`, `split`/`join`, `slice`, `padStart`, number printing, the truncating `%`, truthiness and caught values.
- `Utf8`: RFC 3629.
- `Base64`: section 4 of RFC 4648.
- `FormUrlEncoded`: the WHATWG application/x-www-form-urlencoded serializer and parser used by `URLSearchParams`, plus `encodeURIComponent`.
- `Json`: parsed bodies and property reads.
- `Http`: response cookies with the attributes of section 4.1 of RFC 6265, and the handler responses.
- `Playback`: the song record the currently-playing route sends.
- `ServerEnv`: the environment variables.
- `TimeFormat`: `formatTime`. The three widgets each write it out identically, and the model defines it once.

Each piece takes the form of its source:

- The route handlers and the pure helpers are functions, with lemmas about them.
- The dashboard page is a class, `Dashboard.Page`. Its fields are the React state and refs, and it has one method per event: a poll that produced a body, a poll that failed, an animation frame at clock time `now`, a run of frames, and unmounting.
- The artist card's fetch and click state is a class, `LinkMe.ArtistCard`. The now-playing menu is a class, `NowPlaying.Menu`.
- The callback's cookie collection is a class, `Http.CookieJar`. `Callback.Exchanged` allocates one and calls `Set` twice on it, as the handler does.

Provider replies, the cookie store, environment variables and the clock are parameters. They are not I/O.

Three behaviours of the code are worth stating plainly:

- The callback's success redirect uses `NextResponse.redirect` without a status, so it answers 307. Before that, ``new URL(`${base}/dashboard`)`` throws when the base has no scheme (for example `example.com`), and the `catch` answers the internal 500 with details "Invalid URL". `Callback.SuccessResponse` states both.
- `formatTime` uses JavaScript's truncating `%`. For a negative time the seconds part can be negative, as in `-1:-1`. Its properties are therefore stated for non-negative times.
- `slice(0, n)` with a negative `initialTrackCount` drops tracks from the end, as JavaScript does. `LinkMe.DisplayedPrefix` states both cases.

## Model

| member | source | states |
|---|---|---|
| ArtistUtils.ValidateArtistName | lib/spotify-utils.ts:10-21 | null exactly for a non-string, or for a trimmed name that is empty or longer than 100 UTF-16 code units (a character outside the BMP counts twice); otherwise the trimmed name |
| ArtistUtils.ValidatedNameShape | lib/spotify-utils.ts:15-20 | a validated name has 1..100 UTF-16 code units, so at most 100 characters, no whitespace at either end, and is the input's contiguous piece starting after the leading whitespace |
| ArtistUtils.ValidateIdempotent | lib/spotify-utils.ts:15-20 | validating an already validated name returns it unchanged |
| ArtistUtils.FormatUnfold | lib/spotify-utils.ts:109-114 | the formatted name is the first space-separated word capitalised, a space, and the rest formatted; a name without spaces is simply capitalised |
| ArtistUtils.Capitalize | lib/spotify-utils.ts:112 | a word keeps its length, its first character upper-cased and every later one lower-cased |
| ArtistUtils.CapitalizeAll | lib/spotify-utils.ts:110-113 | one result per word, each that word capitalised |
| ArtistUtils.FormatArtistNameChars | lib/spotify-utils.ts:109-114 | formatting keeps the length, and each position holds its character upper-cased at a word start and lower-cased elsewhere |
| ArtistUtils.FormatKeepsSpaces | lib/spotify-utils.ts:109-114 | spaces stay where they are, and no other character becomes a space |
| ArtistUtils.FormatIdempotent | lib/spotify-utils.ts:109-114 | formatting twice equals formatting once |
| ArtistUtils.CreateArtistWidgetConfigSpec | lib/spotify-utils.ts:131-137 | `??` defaults (true, 5, true) replace only missing options, so explicit false/0 are kept; className is '' when missing or empty; artistName is the trimmed name when it validates, else the raw input |
| ArtistUtils.CreateMultipleAppend | lib/spotify-utils.ts:164-170 | the builder distributes over concatenation of the name list, so the order of the names is kept |
| ArtistUtils.CreateMultipleSingle | lib/spotify-utils.ts:164-170 | one name gives one configuration, carrying its trimmed form, exactly when it validates, and none otherwise |
| ArtistUtils.CreateMultipleLength | lib/spotify-utils.ts:164-166 | the result length is the number of valid names, at most the input length |
| ArtistUtils.CreateMultipleCarriesBase | lib/spotify-utils.ts:167-170 | every base key reaches every element; a base artistName key overrides the element's name, and one whose value is undefined leaves the name undefined |
| ArtistUtils.Present | lib/spotify-utils.ts:166 | dropping nulls keeps exactly the values some entry holds, and never lengthens the list |
| ArtistUtils.PresentSingle | lib/spotify-utils.ts:166 | a single entry is kept when present and dropped when null; with PresentAppend this fixes the filter on every list |
| ArtistUtils.Validated | lib/spotify-utils.ts:165 | one result per name, each the validation of the name at its index |
| ArtistUtils.PresentAppend | lib/spotify-utils.ts:166 | dropping nulls distributes over concatenation |
| ArtistUtils.ValidatedAppend | lib/spotify-utils.ts:165 | validating each name distributes over concatenation |
| ArtistUtils.CountValid | lib/spotify-utils.ts:164-166 | the number of valid names is at most the number of names, and equals it exactly when every name validates |
| Js.TrimSpec | lib/spotify-utils.ts:15 | `trim` removes exactly the leading and trailing ECMAScript whitespace: the result is the piece after the leading run, with no whitespace at either end, and only whitespace is cut |
| Js.TrimIdempotent | lib/spotify-utils.ts:15 | trimming twice equals trimming once |
| Js.SplitJoin | lib/spotify-utils.ts:110-113 | splitting a join of separator-free parts gives the parts back |
| Js.JoinSplit | lib/spotify-utils.ts:110-113 | joining the split of a string gives the string back |
| Js.Split | lib/spotify-utils.ts:111 | `split` gives at least one piece, none containing the separator |
| Js.LowerAll | lib/spotify-utils.ts:112 | `toLowerCase` keeps the length, leaves no letter A-Z, and keeps every character that is not one |
| Js.LowerAllIdempotent | lib/spotify-utils.ts:112 | lower-casing twice equals lower-casing once |
| Js.Utf16Length | lib/spotify-utils.ts:16 | `length` counts UTF-16 code units: between one and two per character, and one per character exactly when all lie in the BMP |
| Js.SliceTo | components/spotify-artist-linkme.tsx:216 | `slice(0, n)` is a prefix of length min(n, len) for n >= 0, and drops -n elements from the end for n < 0 |
| Js.PadStart | components/spotify-artist-linkme.tsx:175 | `padStart` ends with the input, prefixed by pad characters up to the width |
| Js.NatToString | components/spotify-artist-linkme.tsx:175 | a natural number prints as decimal digits without a leading zero, and as one digit exactly below 10 |
| Js.NatToStringRoundTrip | components/spotify-artist-linkme.tsx:175 | the printed digits read back as the number |
| Js.Rem | components/spotify-artist-linkme.tsx:174 | `%` truncates: the remainder takes the dividend's sign, and `a == b * trunc(a / b) + r` |
| Js.FloorDiv | components/spotify-artist-linkme.tsx:172-173 | `Math.floor(a / b)` is the q with b*q <= a < b*q + b |
| TimeFormat.MinutesFloor | components/spotify-artist-linkme.tsx:172-173 | floor(floor(ms/1000)/60) equals floor(ms/60000) for every ms |
| TimeFormat.FormatTimeShape | components/spotify-artist-linkme.tsx:171-176 | for ms >= 0 the label is floor(ms/60000) without leading zeros, ':', and floor(ms/1000) mod 60 as exactly two digits |
| TimeFormat.PadSeconds | components/spotify-artist-linkme.tsx:174-175 | a seconds value below 60 pads to its two-digit form |
| TimeFormat.SecondsTwoDigits | components/spotify-now-playing.tsx:60-65 | for ms >= 0 the label ends in ':' and two digits whose value is in 00..59 |
| TimeFormat.ParseFormatTime | app/spotify-widget.tsx:61-66 | round trip: parsing the label of ms >= 0 gives m, s with 60*m + s == floor(ms/1000) and s < 60 |
| TimeFormat.ParseLabel | app/spotify-widget.tsx:61-66 | parsing a label built from m and two-digit s gives (m, s) back |
| TimeFormat.TwoDigitsValue | app/spotify-widget.tsx:61-66 | the two-digit form of n < 100 reads back as n |
| Dashboard.Advance | app/dashboard/page.tsx:60-67 | one frame gives min(duration, prev + (now - last)): never above the duration, and never below prev for a clock that has not run back |
| Dashboard.FramesTelescope | app/dashboard/page.tsx:61-67 | under a non-decreasing clock, N frames leave min(duration, p0 + (tN - t0)) |
| Dashboard.FramesMonotone | app/dashboard/page.tsx:61-67 | under a non-decreasing clock the progress after i frames is at most that after j >= i frames, and at most the duration |
| Dashboard.Page.constructor | app/dashboard/page.tsx:18-24 | initial state: no song, loading, no error, progress 0, clock reference `now`, first load pending, no frame loop |
| Dashboard.Page.SyncLoop | app/dashboard/page.tsx:56-75 | after the effect the loop runs exactly when the page is mounted and the song plays, with that song's duration; nothing else changes |
| Dashboard.Page.FinishPoll | app/dashboard/page.tsx:43-48 | the first completion ends loading for good; later ones leave `isLoading` alone |
| Dashboard.Page.PollSucceeded | app/dashboard/page.tsx:33-39 | a playing or last-played record replaces the song and the progress, and resets the clock only when playing; any other body clears the song and keeps the progress; loading ends; the error is kept |
| Dashboard.Page.PollFailed | app/dashboard/page.tsx:40-42 | the error is set to the fixed message, the song is cleared, and loading ends |
| Dashboard.Page.Tick | app/dashboard/page.tsx:57-69 | with the loop running, progress becomes Advance(prev, last, now, duration) and the clock reference becomes `now`; with no loop (no song, paused, or stopped) nothing changes; song, flags, error and first-load ref are kept |
| Dashboard.Page.RunFrames | app/dashboard/page.tsx:59-69 | with the loop running, a run of frames leaves the Frames fold of the old state (under a non-decreasing clock min(duration, p0 + (tN - t0))) and the last frame's time as clock reference; with no loop nothing changes; song, flags, error, mount and first-load ref are kept |
| Dashboard.Page.Unmount | app/dashboard/page.tsx:71-74 | unmounting stops the loop and changes nothing else |
| Dashboard.Apply | app/dashboard/page.tsx:27-75 | any one event keeps the page state consistent and either keeps the error or sets it to the fetch-failure text; no event clears it |
| Dashboard.Page.WidgetData | app/dashboard/page.tsx:78-80 | the widget gets the song with its progress replaced by the local one, or null with no song |
| Dashboard.Page.Screen | app/dashboard/page.tsx:85-87 | the loading line exactly while loading, "Error: " + error exactly with a truthy error, and the widget exactly when neither |
| Dashboard.ErrorIsSticky | app/dashboard/page.tsx:40-42 | after a failed poll, for every sequence of later polls, frames and unmounting, the error stays the fetch-failure text, the error line shows and the widget never shows |
| CurrentlyPlaying.Get | app/api/spotify/currently-playing/route.ts:4-87 | 401 with no provider call exactly without a token; otherwise `/me` is the first call and every call carries the bearer token; the handler throws exactly when a 2xx `/me`, a 2xx current reply other than 204, or a 2xx history it reads is not JSON, and after only one call for `/me`; the history is queried exactly on 204 or on 200 without item; ApiError exactly for another non-2xx current status, with that status; a failed history passes its status through; song bodies are 200 with the profile URL |
| CurrentlyPlaying.ProfileNeverFails | app/api/spotify/currently-playing/route.ts:17-21 | whatever status `/me` answers, provided a 2xx body is JSON, the calls, the outcome kind, status and body are the same apart from `profileUrl` |
| CurrentlyPlaying.ProfileUnparsable | app/api/spotify/currently-playing/route.ts:18-20 | a 2xx `/me` whose body is not JSON makes the handler throw after that single call, whatever the other replies |
| CurrentlyPlaying.HistoryFallback | app/api/spotify/currently-playing/route.ts:30-60 | the third call is the limit-1 history; non-2xx passes its status through; a 2xx non-JSON history throws; an empty history is 200 with `lastPlayed: null`; else not playing, progress == duration == track length, and `lastPlayed` is `played_at` |
| CurrentlyPlaying.CurrentTrack | app/api/spotify/currently-playing/route.ts:63-87 | a 2xx current reply past the fallback: two calls; a throw exactly when its body is not JSON; else 200 NotPlaying exactly without item, and otherwise the record copies `is_playing` and `progress_ms` and has no lastPlayed |
| CurrentlyPlaying.SongArtists | app/api/spotify/currently-playing/route.ts:46-58 | the artist text is the names joined with ", ", and the name and URL lists run parallel to the credits |
| CurrentlyPlaying.SongProgressInRange | app/api/spotify/currently-playing/route.ts:46-85 | every song record has progress within its duration when the provider's progress is |
| Callback.Get | app/api/auth/spotify/callback/route.ts:14-32 | a missing credential gives the 500 text before the code is consulted; a missing code gives the 400 text; otherwise the exchange for that code |
| Callback.Exchange | app/api/auth/spotify/callback/route.ts:34-50 | past both checks the token request is made, for the configured client and that code; a thrown exchange gives a 500 |
| Callback.Exchanged | app/api/auth/spotify/callback/route.ts:71-84 | allocating the redirect's cookie jar and setting the two cookies in turn gives exactly `Exchange` |
| Callback.RequestMade | app/api/auth/spotify/callback/route.ts:14-47 | the token endpoint is called exactly when configured and with a truthy code, and with that code |
| Callback.ExchangeAnswers | app/api/auth/spotify/callback/route.ts:50-84 | the exchange answers the token reply, with the token cookies exactly when the reply has a body |
| Callback.GetAnswers | app/api/auth/spotify/callback/route.ts:34-95 | past both checks the handler's response is that answer |
| Callback.TokenRequestBody | app/api/auth/spotify/callback/route.ts:36-46 | POST to the token URL as a form whose body decodes to exactly grant_type=authorization_code, code, redirect_uri, in order |
| Callback.BasicCredentials | app/api/auth/spotify/callback/route.ts:40 | the header is "Basic " plus base64 that decodes, through UTF-8, to id:secret, split back at the first colon when the id has none |
| Callback.TwoTokenCookies | app/api/auth/spotify/callback/route.ts:73-83 | exactly two cookies: the access token with maxAge from `expires_in`, then the refresh token with none; both HttpOnly, path "/", Secure exactly in production |
| Json.ToText | app/api/auth/spotify/callback/route.ts:72-82 | `String(v)`: a string is itself, null "null", a boolean "true"/"false", a plain object "[object Object]", an empty array "" |
| Json.StringArrayText | app/api/auth/spotify/callback/route.ts:72-82 | an array of strings reads as the strings joined with ",", and splits back into them when none contains a comma |
| Callback.ProviderError | app/api/auth/spotify/callback/route.ts:52-62 | a non-2xx reply gives its status with message `error_description` when truthy, else the default, and details the body verbatim |
| Callback.NullTokenBody | app/api/auth/spotify/callback/route.ts:50-64 | a null body ends in the internal 500, because reading or destructuring it throws |
| Callback.SuccessResponse | app/api/auth/spotify/callback/route.ts:64-95 | a 2xx reply with a body redirects (307) to `${base}/dashboard`, base defaulting to http://127.0.0.1:3000, with the two token cookies, when that URL has a scheme; without one `new URL` throws and the answer is the internal 500 with details "Invalid URL" |
| Callback.DefaultBaseHasScheme | app/api/auth/spotify/callback/route.ts:66-68 | the default base gives a URL with a scheme, so without NEXT_PUBLIC_BASE_URL a 2xx reply redirects |
| Callback.HttpHasScheme | app/api/auth/spotify/callback/route.ts:66-68 | every URL text that starts with `http:` has a scheme, whatever follows, so such a base always redirects |
| Callback.SchemelessBaseFails | app/api/auth/spotify/callback/route.ts:66-68 | a base without a colon, such as `example.com`, turns a 2xx reply into the internal 500 "Invalid URL" |
| Callback.ExchangeThrew | app/api/auth/spotify/callback/route.ts:85-95 | anything thrown gives the 500 "Internal server error" JSON, with the error's message as details when it is an Error |
| Http.PutSpec | app/api/auth/spotify/callback/route.ts:73-83 | after `set` the name finds the new cookie, other names find what they found before, names stay distinct, and the collection grows by at most one |
| Http.PutDistinct | app/api/auth/spotify/callback/route.ts:73-83 | `set` keeps cookie names distinct |
| Http.Find | app/api/auth/spotify/callback/route.ts:73-83 | a found cookie is in the collection under that name; none found means no cookie has it |
| Http.CookieJar.constructor | app/api/auth/spotify/callback/route.ts:71 | a fresh response has no cookies |
| Http.CookieJar.Set | app/api/auth/spotify/callback/route.ts:73-83 | the collection becomes Put(old, c), which then finds c, with names still distinct |
| Base64.DecodeEncode | app/api/auth/spotify/callback/route.ts:40 | strict decoding inverts the RFC 4648 encoding |
| Base64.EncodeAlphabet | app/api/auth/spotify/callback/route.ts:40 | every character of an encoding is in the alphabet or is `=` |
| Base64.Encode | app/api/auth/spotify/callback/route.ts:40 | the encoding's length is a multiple of four |
| Base64.Symbol | app/api/auth/spotify/callback/route.ts:40 | each 6-bit value maps to an alphabet character that decodes back to it |
| Utf8.DecodeEncode | app/api/auth/spotify/callback/route.ts:40 | UTF-8 decoding inverts encoding for every string |
| Utf8.EncodeChar | app/api/auth/spotify/callback/route.ts:40 | a character encodes to 1..4 bytes, one byte exactly below 0x80, the rest continuation bytes |
| Utf8.EncodeAppend | app/api/auth/spotify/callback/route.ts:40 | encoding distributes over concatenation |
| Utf8.DecodeFirstEncodeChar | app/api/auth/spotify/callback/route.ts:40 | the first character of an encoding decodes back, consuming its own length |
| FormUrlEncoded.EncodePair | app/api/auth/spotify/login/route.ts:35-42 | an encoded pair contains no `&` |
| FormUrlEncoded.EncodeBytes | app/api/auth/spotify/login/route.ts:35-42 | the bytes of an encoded name or value are written as ASCII with no `&` or `=`, so pairs and name/value stay separable |
| FormUrlEncoded.ParseSerialize | app/api/auth/spotify/login/route.ts:35-42 | the urlencoded parser gives back exactly the serialized pairs, in order |
| FormUrlEncoded.DecodeEncodeComponent | app/api/auth/spotify/login/route.ts:35-42 | decoding an encoded component gives it back |
| FormUrlEncoded.ParseEncodedPair | app/api/auth/spotify/login/route.ts:35-42 | an encoded pair parses back to the pair |
| FormUrlEncoded.Get | app/api/auth/spotify/callback/route.ts:6-7 | `searchParams.get` is null exactly when no pair has the name, and otherwise the value of a pair with it |
| FormUrlEncoded.EncodeUriComponent | components/spotify-artist-linkme.tsx:152 | `encodeURIComponent` output is ASCII and contains none of `/?#&=+` or space |
| FormUrlEncoded.DecodeEncodeUriComponent | components/spotify-artist-linkme.tsx:152 | percent-decoding then UTF-8-decoding `encodeURIComponent(s)` gives s back |
| Json.Lookup | app/api/auth/spotify/callback/route.ts:57 | a property is present exactly when some field has the key, and its value is the last binding of the key, as `JSON.parse` keeps it |
| Json.Member | app/api/auth/spotify/callback/route.ts:57 | reading a property of null throws, and of a non-object gives undefined |
| Login.Get | app/api/auth/spotify/login/route.ts:12-54 | a missing client id gives its 500 text first, then a missing redirect URI its own; a redirect exactly when both are set, with status 302 and no cookies |
| Login.AuthorizeQuery | app/api/auth/spotify/login/route.ts:32-54 | Location is the authorize endpoint plus a query that decodes to exactly response_type=code, client_id, the fixed scope and redirect_uri, in order, with no state |
| Login.NoState | app/api/auth/spotify/login/route.ts:35-40 | none of the four parameter names is `state` |
| LinkMe.FinalErrorMessage | components/spotify-artist-linkme.tsx:145 | the prop when truthy, else the non-empty default |
| LinkMe.FinalLoadingMessage | components/spotify-artist-linkme.tsx:144 | the prop when truthy, else the non-empty default |
| LinkMe.DefaultEndpoint | components/spotify-artist-linkme.tsx:152 | without an explicit endpoint the name is one path segment after the artist route, and decodes back to the name |
| LinkMe.DisplayedPrefix | components/spotify-artist-linkme.tsx:216 | the shown tracks are a prefix of the active list: all when expanded, else min(n, count) for count >= 0 |
| LinkMe.SeeMoreOffered | components/spotify-artist-linkme.tsx:217 | with showSeeMore, the button is offered exactly when collapsing hides tracks |
| LinkMe.ArtistCard.constructor | components/spotify-artist-linkme.tsx:122-141 | initially loading, no data, no error, the default tab (top when omitted), collapsed |
| LinkMe.ArtistCard.RunEffect | components/spotify-artist-linkme.tsx:147-169 | a request is made exactly for a non-empty name, to the endpoint, with loading on and the error cleared; otherwise nothing changes |
| LinkMe.ArtistCard.FetchCompleted | components/spotify-artist-linkme.tsx:153-163 | loading ends; a 2xx stores the record; a non-2xx sets "Failed to fetch artist data: <status>"; a throw sets its message or the final error message |
| LinkMe.ArtistCard.SelectTab | components/spotify-artist-linkme.tsx:262-279 | either tab button selects its tab and collapses the list |
| LinkMe.ArtistCard.ToggleSeeMore | components/spotify-artist-linkme.tsx:355 | the button flips `showAllTracks` and nothing else |
| LinkMe.ArtistCard.ToggleTwice | components/spotify-artist-linkme.tsx:355 | two clicks restore the list state |
| LinkMe.ArtistCard.View | components/spotify-artist-linkme.tsx:187-217 | the spinner with the final loading text exactly while loading; the failure card exactly with an error or no record, with the final error text and the error or "Artist not found"; otherwise the displayed prefix, each track's formatted duration as its label, a button exactly when more tracks exist reading "Show Less" exactly when expanded and "See More" otherwise, and the no-tracks line exactly for an empty list |
| NowPlaying.Render | components/spotify-now-playing.tsx:48-58 | no data gives the loading view; not playing with a truthy lastPlayed gives the last-played view with only the duration label; anything else the listening view with progress then duration |
| NowPlaying.ArtistSpans | components/spotify-now-playing.tsx:128-142 | one span per name, in order, linked to the URL at its index, followed by ", " except after the last |
| NowPlaying.SpansJoin | components/spotify-now-playing.tsx:204-218 | the spans read exactly as the names joined with ", " |
| NowPlaying.ArtistLineText | components/spotify-now-playing.tsx:128-142 | for a record the route built, the linked line reads as the plain artist text |
| NowPlaying.Menu.constructor | components/spotify-now-playing.tsx:45 | the menu starts closed |
| NowPlaying.Menu.Toggle | components/spotify-now-playing.tsx:91 | the menu button flips `menuOpen` |
| NowPlaying.Menu.ToggleTwice | components/spotify-now-playing.tsx:166 | two clicks restore the menu |
| NowPlaying.Menu.ClickProfile | components/spotify-now-playing.tsx:94-101 | the visible profile link closes the menu when followed, and is then hidden |
| Widget.Render | app/spotify-widget.tsx:47-59 | null gives "Nothing playing right now."; a record gives its title, its artist, its cover URL when non-empty and the placeholder cover otherwise, and the labels progress then duration |
| Widget.CardLabels | app/spotify-widget.tsx:101-102 | for non-negative times the two labels read back as the whole seconds of progress and of duration, in that order |

## Left out

- Network, cookie-store and environment I/O: `fetch`, `cookies()`, `process.env` and `console.log`. Provider replies, the token cookie and environment values are inputs. Responses are abstract records of status, body and cookies.
- Scheduling: `setInterval`, `requestAnimationFrame`/`cancelAnimationFrame` and React's effect timing. These become explicit event methods. React ignoring a state update after unmount becomes a poll that an unmounted page ignores.
- Concurrency between overlapping polls. Each poll is one atomic event.
- Floating point: the progress bar's `progressPercentage` and the follower count's `toFixed`.
- `formatDateTime` (locale-dependent date formatting) and `getRandomArtist` (`Math.random`).
- JSX markup, styling, icons, `next/image`, audio previews, and the static pages.
- The artist-aggregation route that the artist card fetches. Its source is not part of this model, and its reply is an input.
- URL normalisation by `new URL(...)`. The callback's query arrives as decoded pairs, and the redirect location is the unnormalised string.
- Callback.SuccessResponse: of the URL parser's failures only a missing scheme is modelled (`Callback.HasScheme`). A dashboard URL with a scheme that the parser still rejects, such as an invalid host or port in `http://a b`, is taken to redirect, where the source answers the internal 500 "Invalid URL".
- Set-Cookie header serialization. Cookies are records of name, value and attributes.
- Invalid UTF-8 in a query: `FormUrlEncoded.Parse` answers None where the standard substitutes U+FFFD.
- Unicode case mapping: `toUpperCase`/`toLowerCase` are modelled on ASCII letters.
- Lone surrogates: strings are sequences of Dafny characters (Unicode scalar values), not UTF-16 code units. JavaScript `length` is modelled by `Js.Utf16Length`.
- JSON parse failures are inputs: each provider reply says whether its body is a JSON object, and a rejected `.json()` is a thrown outcome. What the framework answers for a thrown route handler is not modelled. A body that parses to a non-object value is treated as unparsable.
- Structurally malformed provider bodies (a missing `album`, non-array `artists`) are not modelled; parsed bodies have the fields the code reads.
- Callback.CookieText: JSON numbers are integers (`JNum` holds an `int`), so a fractional `access_token`, `refresh_token` or `expires_in` and its decimal text are not modelled.
- The login route's `catch` branch. Building the 302 response cannot throw, so that branch is unreachable and is not modelled.
- Dashboard.Page.PollSucceeded: a body whose `progressMs` is not a number (JSON gives `undefined`) is not modelled; progress is an integer.
- TypeError messages are V8's wording. Other engines word them differently.
