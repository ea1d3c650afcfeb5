# tv-motrix client core in Dafny

tv-motrix is a single-page client for browsing IPTV and YouTube TV channels
by country. The user picks a country, searches and filters its channels, and
plays one. A channel plays either as an adaptive HLS stream in a video
element or as an embedded YouTube frame. All of its logic lives in `app.js`.
This project models that logic in two parts.

**Pure selection rules** (modules `Text`, `Flags`, `Channels`, `Countries`, `Playback`):

- The flag-code resolver maps `UK` and `GB`, in any letter case, to `gb`.
  Any other code is lower-cased.
- The channel filter keeps a channel when its lower-cased name contains the
  search term and the category tab (`all`, `iptv`, `youtube`) accepts it.
  Kept channels stay in their original order.
- The country grid lists the metadata entries with `hasChannels`, sorted by
  country name.
- The country search hides each picker item whose text and code both lack
  the lower-cased term.
- Playback picks the first IPTV URL when there is one, else the first
  YouTube URL.
- Engine errors are dispatched as follows. Fatal network errors restart
  loading. Fatal media errors attempt media recovery. Other fatal errors
  release the engine. Non-fatal errors are ignored.

**The page state machine** (class `Client.App`). Its fields are the
module-level variables `selectedCountry`, `currentChannels`, `activeFilter`,
`currentChannel`, `currentPlayer` and `currentHls`. Beside them the class
holds:

- the set of live streaming engines;
- a record of what the channel browser, the player modal and the country
  picker currently show.

Each handler is a method. Outside effects are passed in as parameters: the
result of each fetch, and whether the browser supports the engine or native
HLS playback. The object invariant `Valid()` holds these facts:

- at most one player is mounted;
- the mounted player is `currentPlayer`;
- every live engine is the one `currentHls` names, so at most one engine is
  alive and none is unreachable;
- channels are loaded only while a country is selected.

The last fact matters because rendering a non-empty channel list reads
`selectedCountry.code` (app.js:118). `LoadCountryChannels` therefore
requires a selected country; both of its callers, `selectCountry` and
`retryLastAction`, set or check one first (app.js:176, app.js:240).

`setupIPTVPlayer` and `closePlayer` destroy the engine before removing the
player. `setupYouTubePlayer` and the pre-clear in `playChannel` do not. So the
invariant does NOT include "no engine is alive while the YouTube frame is
mounted". `Client.EngineOutlivesSwitchToYouTube` builds the state the code
reaches when the user switches a channel from IPTV to YouTube: the frame is
mounted and the engine is still alive.

Some consequences of the code worth stating plainly:

- `setupYouTubePlayer` does not tear down the engine (app.js:442-450).
- Fatal network and media errors are answered with a retry on every
  occurrence; nothing counts them (app.js:374-381).
- A fatal "other" error destroys the engine but leaves `currentHls`
  pointing at it (app.js:384). A later teardown destroys it again, which the
  model treats as a no-op.
- Nothing removes the loading placeholder: `hideLoading` is empty. The
  channel grid's content replaces the placeholder.
- When a country with no channels loads, `filterAndDisplayChannels` returns
  early. A "no results" message left from before stays visible, and the
  counter shows 0.

## Model

| member | source | states |
|---|---|---|
| Text.LowerIsLowerCase | app.js:14 | `toLowerCase` yields a string with no upper-case letter and is idempotent |
| Text.CaseFoldAgree | app.js:14 | comparing upper-cased forms and comparing lower-cased forms agree, so the upper-case alias lookup is a case-insensitive match |
| Text.ContainsIffOccurs | app.js:79 | the `includes` scan succeeds exactly when the needle occurs at some index of the haystack |
| Text.ContainsEmpty | app.js:108 | every string includes the empty string, so an empty search term matches every channel name (and, at app.js:79, every picker item) |
| Flags.GetFlagCode | app.js:7-15 | the result is lower-case; it is `gb` for `uk`/`gb` in any letter case and the lower-cased input otherwise |
| Flags.FlagCodeIgnoresCase | app.js:13-15 | resolving the lower-cased code gives the same flag code |
| Channels.FilterChannels | app.js:107-113 | a channel is in the result iff it is in the list, its lower-cased name contains the term and the tab accepts it; the result is no longer than the list |
| Channels.FilterIsSubsequence | app.js:107-113 | kept channels keep their original relative order |
| Channels.FilterConcat | app.js:107-113 | filtering a concatenation is the concatenation of the filtered parts |
| Channels.FilterKeepsAllPassing | app.js:107-113 | a list whose every channel passes comes back unchanged |
| Channels.ShowAllOnReset | app.js:196-198 | with the empty term and the `all` tab every channel is shown, in order |
| Channels.FilterIdempotent | app.js:107-113 | filtering again with the same term and tab changes nothing |
| Countries.LookupCode | app.js:55-57 | finds an entry with the requested code, and finds none exactly when no entry has that code |
| Countries.WithChannels | app.js:153 | keeps exactly the entries whose `hasChannels` is true |
| Countries.NameLeTotal | app.js:154 | any two country names are comparable |
| Countries.NameLeTransitive | app.js:154 | the name order is transitive |
| Countries.InsertByName | app.js:154 | inserting into a sorted list keeps it sorted and adds exactly the new entry |
| Countries.SortByName | app.js:154 | the sorted list is ordered by name and is a permutation of its input |
| Countries.CountryGridEntries | app.js:151-154 | the grid lists exactly the entries with channels, sorted by name, as a permutation of the filtered entries |
| Countries.WithChannelsKeepsUnique | app.js:153 | filtering keeps country codes distinct |
| Countries.InsertKeepsUnique | app.js:154 | inserting an entry with a new code keeps codes distinct |
| Countries.SortKeepsUnique | app.js:154 | sorting keeps codes distinct |
| Countries.GridListsEachCountryOnce | app.js:151-154 | each country appears in the grid at most once |
| Countries.GridItemsIdentifyCountries | app.js:151-171 | the picker holds an item for every country with channels and for no other, and no two items carry the same `data-code` when the metadata keys are distinct |
| Countries.EmptyTermMatches | app.js:252-256 | the empty search term matches every picker item |
| Countries.NameTermMatches | app.js:76-79 | an item matches any term found in its lower-cased country name |
| Playback.DefaultSource | app.js:307-312 | the first IPTV URL when there is one, else the first YouTube URL, else nothing |
| Playback.RecoveryFor | app.js:371-388 | non-fatal errors are ignored; fatal network errors restart loading, fatal media errors recover, other fatal errors release the engine |
| Playback.RecoveryMessage | app.js:375-383 | a message is shown for every recovery action and for no ignored error |
| Playback.AtMostOneLiveEngine | app.js:318-321 | when every live engine is the current handle's, at most one engine is alive, and none when there is no handle |
| Client.App.constructor | app.js:34-42 | initial state: nothing selected, no channels, tab `all`, no player, no engine |
| Client.App.PopulateCountryGrid | app.js:151-172 | the picker items are those of `CountryGridEntries`, all visible |
| Client.App.HandleCountrySearch | app.js:72-82 | each item is visible iff it matches the lower-cased value; the items themselves are unchanged |
| Client.App.TypeCountrySearch | app.js:51 | typing updates the search box and applies the match rule |
| Client.App.OpenCountryModal | app.js:246-249 | the picker becomes visible, nothing else changes |
| Client.App.CloseCountryModal | app.js:252-256 | the picker is hidden, its search cleared and every item visible |
| Client.App.FilterAndDisplay | app.js:104-141 | no change without channels; otherwise grid, message and counter follow `FilterChannels`, with "no results" and a hidden counter when it is empty |
| Client.App.ToggleFilter | app.js:94-101 | the tab is set and the grid is re-filtered with the current search text |
| Client.App.TypeChannelSearch | app.js:85-91 | a keystroke changes only the search box |
| Client.App.ChannelSearchTimerFires | app.js:87-90 | the debounced filter runs with the box's current text and the current tab |
| Client.App.ReceiveChannels | app.js:193-198 | the list is replaced wholesale and shown in full with its count; search cleared; tab `all` |
| Client.App.LoadCountryChannels | app.js:189-205 | records the request for the lower-cased code; success as in `ReceiveChannels`; failure keeps list and tab and shows the error placeholder |
| Client.App.RetryLastAction | app.js:239-243 | reloads the selected country's code when a country is selected, and changes nothing otherwise |
| Client.App.SelectCountry | app.js:175-186 | records the country, closes and resets the picker, and loads its channels |
| Client.App.Init | app.js:45-62 | lists the countries, all visible; when the metadata has `IR` it is selected, the picker closed and its channel list loaded as in `LoadCountryChannels`, otherwise the channel browser and the picker are untouched; a failed metadata fetch shows the error placeholder and keeps list, tab, selection and picker |
| Client.App.ShowPlayerError | app.js:422-439 | the message is added only while a video container is mounted |
| Client.App.TearDownPlayer | app.js:318-326 | the current engine is destroyed and the player removed; afterwards no engine is alive |
| Client.App.SetupIptvPlayer | app.js:316-419 | tears down first, mounts the video, and creates a fresh engine only when the engine is supported; unsupported playback shows its message |
| Client.App.SetupYouTubePlayer | app.js:442-457 | mounts the embed frame in place of the old player and leaves `currentHls` and the live engines as they were |
| Client.App.PlayChannel | app.js:290-313 | opens the player, hides each toggle whose URL list is empty, and mounts the player `DefaultSource` picks; the whole player view is stated per case, and with no URL the container is emptied while the engine and the highlighted button stay as they were |
| Client.App.ToggleIptv | app.js:299 | the IPTV button re-mounts the channel's first IPTV URL through the teardown path; the old engine is destroyed, the error list is reset (or holds only the unsupported message), modal and button visibility stay as they were |
| Client.App.ToggleYouTube | app.js:300 | the YouTube button mounts the first YouTube URL, clears the error list and keeps the engine state; modal and button visibility stay as they were |
| Client.App.OnEngineError | app.js:371-388 | a live engine's error shows the recovery message; a fatal "other" error destroys it but `currentHls` still refers to it |
| Client.App.ClosePlayer | app.js:460-471 | the player is hidden and emptied, and no engine is alive |
| Client.App.OnKeyDown | app.js:474-478 | Escape closes the player only while it is visible: the modal is hidden and emptied, no engine is alive, and the current channel and the buttons stay as they were; any other key changes nothing |
| Client.ValidAppHasOneEngine | app.js:35-36 | in every valid state at most one engine is alive |
| Client.EngineOutlivesSwitchToYouTube | app.js:442-450 | after IPTV playback and a switch to YouTube, the frame is mounted while the engine is still alive |

## Left out

- Network fetches, JSON parsing and async interleaving are out of scope.
  Each fetch result is a parameter. Stale responses that arrive after a
  newer selection are not modelled.
- HTML string building, flag image URLs, image fallbacks, CSS classes and
  the selected-country label are not modelled. The toggle-button styling
  is kept only as an abstract "highlighted backend".
- `highlightText` is not modelled: its regular-expression semantics are out
  of scope. A card grid only records the term it was rendered with.
- The 300 ms debounce timing is not modelled. A keystroke and the timer
  firing are two separate methods, and any order of calls is allowed.
- hls.js internals and browser media APIs are not modelled: attach/load
  events, `startLoad`, `recoverMediaError`, `play()` promises and
  autoplay-failure messages. The same holds for the video's loading
  indicator.
- `localeCompare` is replaced by lexicographic order on characters.
  `toLowerCase`/`toUpperCase` are ASCII-only.
- A country item's text content is the country name and the capital joined
  by one newline. The whitespace of the real template matters only for
  search terms that contain whitespace.
- Tab values other than `all`, `iptv` and `youtube` are not modelled. The
  page only produces those three.
- Clicking a hidden toggle button is not modelled (such a click would pass
  an undefined URL). Clicks happen only when the channel has a URL of that
  kind.
- The initial visibility of the two modals comes from the page markup,
  which is not part of this model. The constructor starts with both
  hidden.
- `console` logging is not modelled.
- Countries.SortByName: does not state that entries with equal names keep
  their metadata order (the sort is stable, but that is not proved).
- Countries.LookupCode: returns the first entry with the code. A parsed
  JSON object has distinct keys, so this is the only such entry.
