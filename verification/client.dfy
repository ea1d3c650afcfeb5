/** The page's module-level state and the handlers that change it.
    Outside effects are parameters: the outcome of each fetch, and whether
    the browser supports the streaming engine or native stream playback. */
module Client {
  import opened Wrappers
  import opened Text
  import opened Channels
  import opened Countries
  import opened Playback

  /** What the channel grid holds. */
  datatype Grid =
    | Blank                                             // emptied
    | Loading                                           // the loading placeholder
    | ErrorPanel(message: string)                       // error placeholder with a retry button
    | Cards(channels: seq<Channel>, highlight: string)  // one card per channel

  /** The channel browser as the user sees it. */
  datatype ChannelView = ChannelView(
    grid: Grid,
    noResultsShown: bool,  // the "no results" message
    countShown: bool,      // the results counter
    count: nat,            // the number the counter shows
    searchText: string)    // the channel search box

  /** The player modal as the user sees it. */
  datatype PlayerView = PlayerView(
    visible: bool,
    container: seq<Player>,        // what is mounted in the player container
    errors: seq<string>,           // error messages inside the video container
    iptvButtonHidden: bool,
    youtubeButtonHidden: bool,
    highlighted: Option<Backend>)  // which toggle button is styled as active

  /** The country picker modal and its search box. */
  datatype PickerView = PickerView(visible: bool, searchText: string)

  const InitFailedMessage := "Failed to initialize the application. Please try again later."
  const LoadFailedMessage := "Failed to load channels. Please try again."

  /** The country loaded when the page starts. */
  const DefaultCountryCode := "IR"

  class App {
    // Application state
    var selectedCountry: Option<CountryEntry>
    var currentChannels: seq<Channel>
    var activeFilter: Filter
    var currentChannel: Option<Channel>
    var currentPlayer: Player
    var currentHls: Option<nat>
    // Engines created and not yet destroyed; new ones are numbered from nextEngine
    var liveEngines: set<nat>
    var nextEngine: nat

    var playerView: PlayerView
    var channelView: ChannelView
    var fetchLog: seq<string>          // channel documents requested, by lower-cased code
    var countryItems: seq<CountryItem>
    var countryShown: seq<bool>        // the `display` of each country item
    var picker: PickerView

    /** At most one player is mounted, it is `currentPlayer`, every live
        engine is reachable through `currentHls`, and channels are loaded
        only for a selected country. */
    ghost predicate Valid()
      reads this
    {
      && |countryShown| == |countryItems|
      && playerView.container == (if currentPlayer == NoPlayer then [] else [currentPlayer])
      && EnginesOwned(liveEngines, currentHls)
      && (currentHls.Some? ==> currentHls.value < nextEngine)
      && (playerView.errors != [] ==> currentPlayer.Video?)
      && (currentChannels != [] ==> selectedCountry.Some?)
    }

    twostate predicate PlayerUnchanged()
      reads this
    {
      && old(currentChannel) == currentChannel && old(currentPlayer) == currentPlayer
      && old(currentHls) == currentHls && old(liveEngines) == liveEngines
      && old(nextEngine) == nextEngine && old(playerView) == playerView
    }

    twostate predicate BrowserUnchanged()
      reads this
    {
      && old(selectedCountry) == selectedCountry && old(currentChannels) == currentChannels
      && old(activeFilter) == activeFilter && old(channelView) == channelView
      && old(fetchLog) == fetchLog
    }

    twostate predicate PickerUnchanged()
      reads this
    {
      && old(countryItems) == countryItems && old(countryShown) == countryShown
      && old(picker) == picker
    }

    /** The state before `init` runs; both modals start hidden. */
    constructor ()
      ensures Valid()
      ensures selectedCountry == None && currentChannels == [] && activeFilter == All
      ensures currentChannel == None && currentPlayer == NoPlayer && currentHls == None
      ensures liveEngines == {} && !playerView.visible && playerView.container == []
      ensures channelView.searchText == "" && fetchLog == []
      ensures countryItems == [] && !picker.visible
    {
      selectedCountry, currentChannels, activeFilter := None, [], All;
      currentChannel, currentPlayer, currentHls := None, NoPlayer, None;
      liveEngines, nextEngine := {}, 0;
      playerView := PlayerView(false, [], [], false, false, None);
      channelView := ChannelView(Blank, false, false, 0, "");
      fetchLog := [];
      countryItems, countryShown := [], [];
      picker := PickerView(false, "");
    }

    // ---------------------------------------------------------------- country picker

    /** `populateCountryGrid`: one visible item per country with channels,
        sorted by name. */
    method PopulateCountryGrid(entries: seq<CountryEntry>)
      requires Valid()
      modifies this
      ensures Valid() && PlayerUnchanged() && BrowserUnchanged()
      ensures countryItems == ItemsOf(CountryGridEntries(entries))
      ensures forall i :: 0 <= i < |countryShown| ==> countryShown[i]
      ensures picker == old(picker)
    {
      countryItems := ItemsOf(CountryGridEntries(entries));
      countryShown := seq(|countryItems|, _ => true);
    }

    /** `handleCountrySearch`: show each item whose text or code contains the
        lower-cased value, hide the others; no item is removed. */
    method HandleCountrySearch(value: string)
      requires Valid()
      modifies this
      ensures Valid() && PlayerUnchanged() && BrowserUnchanged()
      ensures countryItems == old(countryItems) && picker == old(picker)
      ensures forall i :: 0 <= i < |countryItems| ==> countryShown[i] == ItemMatches(countryItems[i], Lower(value))
    {
      var term := Lower(value);
      var i := 0;
      while i < |countryItems|
        invariant 0 <= i <= |countryItems| == |countryShown|
        invariant forall k :: 0 <= k < i ==> countryShown[k] == ItemMatches(countryItems[k], term)
        invariant Valid() && PlayerUnchanged() && BrowserUnchanged()
        invariant countryItems == old(countryItems) && picker == old(picker)
      {
        countryShown := countryShown[i := ItemMatches(countryItems[i], term)];
        i := i + 1;
      }
    }

    /** The user types into the country search box. */
    method TypeCountrySearch(value: string)
      requires Valid()
      modifies this
      ensures Valid() && PlayerUnchanged() && BrowserUnchanged()
      ensures picker == old(picker).(searchText := value) && countryItems == old(countryItems)
      ensures forall i :: 0 <= i < |countryItems| ==> countryShown[i] == ItemMatches(countryItems[i], Lower(value))
    {
      picker := picker.(searchText := value);
      HandleCountrySearch(value);
    }

    /** `openCountryModal`. */
    method OpenCountryModal()
      requires Valid()
      modifies this
      ensures Valid() && PlayerUnchanged() && BrowserUnchanged()
      ensures picker == old(picker).(visible := true)
      ensures countryItems == old(countryItems) && countryShown == old(countryShown)
    {
      picker := picker.(visible := true);
    }

    /** `closeCountryModal`: hide the picker and clear its search, which
        makes every item visible again. */
    method CloseCountryModal()
      requires Valid()
      modifies this
      ensures Valid() && PlayerUnchanged() && BrowserUnchanged()
      ensures picker == PickerView(false, "")
      ensures countryItems == old(countryItems)
      ensures forall i :: 0 <= i < |countryShown| ==> countryShown[i]
    {
      picker := PickerView(false, "");
      HandleCountrySearch("");
      forall i | 0 <= i < |countryShown| ensures countryShown[i] {
        assert Lower("") == "";
        EmptyTermMatches(countryItems[i]);
      }
    }

    // ---------------------------------------------------------------- channel browser

    /** `filterAndDisplayChannels`: nothing happens while no channels are
        loaded; otherwise show the channels `FilterChannels` keeps, or the
        "no results" message when it keeps none. */
    method FilterAndDisplay(term: string, filter: Filter)
      requires Valid()
      modifies this
      ensures Valid() && PlayerUnchanged() && PickerUnchanged()
      ensures selectedCountry == old(selectedCountry) && currentChannels == old(currentChannels)
      ensures activeFilter == old(activeFilter) && fetchLog == old(fetchLog)
      ensures currentChannels == [] ==> channelView == old(channelView)
      ensures currentChannels != [] ==>
                var r := FilterChannels(currentChannels, term, filter);
                channelView ==
                  if r == [] then old(channelView).(grid := Blank, noResultsShown := true, countShown := false)
                  else old(channelView).(grid := Cards(r, term), noResultsShown := false, countShown := true, count := |r|)
    {
      if |currentChannels| == 0 {
        return;
      }
      var filtered := FilterChannels(currentChannels, term, filter);
      if |filtered| == 0 {
        channelView := channelView.(grid := Blank, noResultsShown := true, countShown := false);
      } else {
        channelView := channelView.(noResultsShown := false, countShown := true);
        channelView := channelView.(grid := Cards(filtered, term));
        channelView := channelView.(count := |filtered|);
      }
    }

    /** `toggleFilter`: switch the tab and filter again at once with the
        current search text. */
    method ToggleFilter(filter: Filter)
      requires Valid()
      modifies this
      ensures Valid() && PlayerUnchanged() && PickerUnchanged()
      ensures activeFilter == filter
      ensures selectedCountry == old(selectedCountry) && currentChannels == old(currentChannels)
      ensures fetchLog == old(fetchLog)
      ensures currentChannels == [] ==> channelView == old(channelView)
      ensures currentChannels != [] ==>
                var term := Lower(channelView.searchText);
                var r := FilterChannels(currentChannels, term, filter);
                channelView ==
                  if r == [] then old(channelView).(grid := Blank, noResultsShown := true, countShown := false)
                  else old(channelView).(grid := Cards(r, term), noResultsShown := false, countShown := true, count := |r|)
    {
      activeFilter := filter;
      FilterAndDisplay(Lower(channelView.searchText), filter);
    }

    /** A keystroke in the channel search box: only the box's text changes;
        filtering waits for the debounce timer. */
    method TypeChannelSearch(value: string)
      requires Valid()
      modifies this
      ensures Valid() && PlayerUnchanged() && PickerUnchanged()
      ensures channelView == old(channelView).(searchText := value)
      ensures selectedCountry == old(selectedCountry) && currentChannels == old(currentChannels)
      ensures activeFilter == old(activeFilter) && fetchLog == old(fetchLog)
    {
      channelView := channelView.(searchText := value);
    }

    /** The debounce timer fires: filter with the box's text as it is now and
        the tab active now. */
    method ChannelSearchTimerFires()
      requires Valid()
      modifies this
      ensures Valid() && PlayerUnchanged() && PickerUnchanged()
      ensures selectedCountry == old(selectedCountry) && currentChannels == old(currentChannels)
      ensures activeFilter == old(activeFilter) && fetchLog == old(fetchLog)
      ensures currentChannels == [] ==> channelView == old(channelView)
      ensures currentChannels != [] ==>
                var term := Lower(channelView.searchText);
                var r := FilterChannels(currentChannels, term, activeFilter);
                channelView ==
                  if r == [] then old(channelView).(grid := Blank, noResultsShown := true, countShown := false)
                  else old(channelView).(grid := Cards(r, term), noResultsShown := false, countShown := true, count := |r|)
    {
      FilterAndDisplay(Lower(channelView.searchText), activeFilter);
    }

    /** The part of `loadCountryChannels` that runs once the channel
        document has arrived: replace the list wholesale, show it in full
        with its count, clear the search box and select the `all` tab. */
    method ReceiveChannels(channels: seq<Channel>)
      requires Valid() && selectedCountry.Some?
      modifies this
      ensures Valid() && PlayerUnchanged() && PickerUnchanged()
      ensures selectedCountry == old(selectedCountry) && fetchLog == old(fetchLog)
      ensures currentChannels == channels && activeFilter == All
      ensures channelView == ChannelView(
                Cards(channels, ""),
                if channels == [] then old(channelView.noResultsShown) else false,
                true, |channels|, "")
    {
      currentChannels := channels;
      channelView := channelView.(grid := Cards(channels, ""), count := |channels|, countShown := true, searchText := "");
      activeFilter := All;
      assert Lower(channelView.searchText) == "";
      ShowAllOnReset(channels);
      ToggleFilter(All);
    }

    /** `loadCountryChannels`: show the loading placeholder and request the
        country's channel document. On success the list is replaced
        wholesale and shown in full, with the search cleared and the `all`
        tab selected; on failure the list and the tab are kept and the
        error placeholder is shown. */
    method LoadCountryChannels(code: string, fetched: Fetched<seq<Channel>>)
      requires Valid() && selectedCountry.Some?
      modifies this
      ensures Valid() && PlayerUnchanged() && PickerUnchanged()
      ensures selectedCountry == old(selectedCountry)
      ensures fetchLog == old(fetchLog) + [Lower(code)]
      ensures fetched.Ok? ==>
                && currentChannels == fetched.value && activeFilter == All
                && channelView == ChannelView(
                     Cards(fetched.value, ""),
                     if fetched.value == [] then old(channelView.noResultsShown) else false,
                     true, |fetched.value|, "")
      ensures fetched.Failed? ==>
                && currentChannels == old(currentChannels) && activeFilter == old(activeFilter)
                && channelView == old(channelView).(grid := ErrorPanel(LoadFailedMessage))
    {
      channelView := channelView.(grid := Loading);
      fetchLog := fetchLog + [Lower(code)];
      match fetched
      case Ok(channels) =>
        ReceiveChannels(channels);
      case Failed =>
        channelView := channelView.(grid := ErrorPanel(LoadFailedMessage));
    }

    /** `retryLastAction`: load the selected country again, if there is one. */
    method RetryLastAction(fetched: Fetched<seq<Channel>>)
      requires Valid()
      modifies this
      ensures Valid() && PlayerUnchanged() && PickerUnchanged()
      ensures selectedCountry == old(selectedCountry)
      ensures selectedCountry.None? ==> BrowserUnchanged()
      ensures selectedCountry.Some? ==> fetchLog == old(fetchLog) + [Lower(selectedCountry.value.code)]
      ensures selectedCountry.Some? && fetched.Ok? ==>
                && currentChannels == fetched.value && activeFilter == All
                && channelView == ChannelView(
                     Cards(fetched.value, ""),
                     if fetched.value == [] then old(channelView.noResultsShown) else false,
                     true, |fetched.value|, "")
      ensures selectedCountry.Some? && fetched.Failed? ==>
                && currentChannels == old(currentChannels) && activeFilter == old(activeFilter)
                && channelView == old(channelView).(grid := ErrorPanel(LoadFailedMessage))
    {
      if selectedCountry.Some? {
        LoadCountryChannels(selectedCountry.value.code, fetched);
      }
    }

    /** `selectCountry`: remember the country, close the picker and load
        its channels. */
    method SelectCountry(entry: CountryEntry, fetched: Fetched<seq<Channel>>)
      requires Valid()
      modifies this
      ensures Valid() && PlayerUnchanged()
      ensures selectedCountry == Some(entry)
      ensures picker == PickerView(false, "") && countryItems == old(countryItems)
      ensures forall i :: 0 <= i < |countryShown| ==> countryShown[i]
      ensures fetchLog == old(fetchLog) + [Lower(entry.code)]
      ensures fetched.Ok? ==>
                && currentChannels == fetched.value && activeFilter == All
                && channelView == ChannelView(
                     Cards(fetched.value, ""),
                     if fetched.value == [] then old(channelView.noResultsShown) else false,
                     true, |fetched.value|, "")
      ensures fetched.Failed? ==>
                && currentChannels == old(currentChannels) && activeFilter == old(activeFilter)
                && channelView == old(channelView).(grid := ErrorPanel(LoadFailedMessage))
    {
      selectedCountry := Some(entry);
      CloseCountryModal();
      LoadCountryChannels(entry.code, fetched);
    }

    /** `init`: list the countries of the metadata document and load the
        default country when the document has it; a failed metadata fetch
        leaves an error placeholder in the channel grid. */
    method Init(metadata: Fetched<seq<CountryEntry>>, defaultChannels: Fetched<seq<Channel>>)
      requires Valid()
      modifies this
      ensures Valid() && PlayerUnchanged()
      ensures metadata.Failed? ==>
                && channelView == old(channelView).(grid := ErrorPanel(InitFailedMessage))
                && PickerUnchanged() && selectedCountry == old(selectedCountry) && fetchLog == old(fetchLog)
                && currentChannels == old(currentChannels) && activeFilter == old(activeFilter)
      ensures metadata.Ok? ==>
                && countryItems == ItemsOf(CountryGridEntries(metadata.value))
                && forall i :: 0 <= i < |countryShown| ==> countryShown[i]
      ensures metadata.Ok? && LookupCode(metadata.value, DefaultCountryCode).None? ==>
                && BrowserUnchanged() && picker == old(picker)
      ensures metadata.Ok? && LookupCode(metadata.value, DefaultCountryCode).Some? ==>
                var e := LookupCode(metadata.value, DefaultCountryCode).value;
                && selectedCountry == Some(e) && picker == PickerView(false, "")
                && fetchLog == old(fetchLog) + [Lower(e.code)]
                && (defaultChannels.Ok? ==>
                      && currentChannels == defaultChannels.value && activeFilter == All
                      && channelView == ChannelView(
                           Cards(defaultChannels.value, ""),
                           if defaultChannels.value == [] then old(channelView.noResultsShown) else false,
                           true, |defaultChannels.value|, ""))
                && (defaultChannels.Failed? ==>
                      && currentChannels == old(currentChannels) && activeFilter == old(activeFilter)
                      && channelView == old(channelView).(grid := ErrorPanel(LoadFailedMessage)))
    {
      match metadata
      case Failed =>
        channelView := channelView.(grid := ErrorPanel(InitFailedMessage));
      case Ok(entries) =>
        PopulateCountryGrid(entries);
        match LookupCode(entries, DefaultCountryCode)
        case None =>
        case Some(e) =>
          SelectCountry(e, defaultChannels);
    }

    // ---------------------------------------------------------------- playback

    /** `showPlayerError`: the message lands in the video container, which
        exists only while a video is mounted. */
    method ShowPlayerError(message: string)
      requires Valid()
      modifies this
      ensures Valid() && BrowserUnchanged() && PickerUnchanged()
      ensures playerView ==
                if currentPlayer.Video? then old(playerView).(errors := old(playerView.errors) + [message])
                else old(playerView)
      ensures currentChannel == old(currentChannel) && currentPlayer == old(currentPlayer)
      ensures currentHls == old(currentHls) && liveEngines == old(liveEngines)
      ensures nextEngine == old(nextEngine)
    {
      if currentPlayer.Video? {
        playerView := playerView.(errors := playerView.errors + [message]);
      }
    }

    /** The teardown shared by `setupIPTVPlayer` and `closePlayer`: destroy
        the engine `currentHls` refers to, remove the player and empty the
        container. Afterwards no engine is alive. */
    method TearDownPlayer()
      requires Valid()
      modifies this
      ensures Valid() && BrowserUnchanged() && PickerUnchanged()
      ensures currentPlayer == NoPlayer && currentHls == None && liveEngines == {}
      ensures old(currentHls).Some? ==> old(currentHls).value !in liveEngines
      ensures playerView == old(playerView).(container := [], errors := [])
      ensures nextEngine == old(nextEngine) && currentChannel == old(currentChannel)
    {
      AtMostOneLiveEngine(liveEngines, currentHls);
      if currentHls.Some? {
        liveEngines := liveEngines - {currentHls.value};
        currentHls := None;
      }
      currentPlayer := NoPlayer;
      playerView := playerView.(container := [], errors := []);
    }

    /** `setupIPTVPlayer`: destroy the live engine and remove the old player
        before mounting a video; a new engine is created for it only when
        the browser supports the engine. */
    method SetupIptvPlayer(url: string, engineSupported: bool, nativeSupported: bool)
      requires Valid()
      modifies this
      ensures Valid() && BrowserUnchanged() && PickerUnchanged()
      ensures currentPlayer == Video(url, ModeFor(engineSupported, nativeSupported))
      ensures old(currentHls).Some? ==> old(currentHls).value !in liveEngines
      ensures engineSupported ==>
                currentHls == Some(old(nextEngine)) && liveEngines == {old(nextEngine)}
                && old(nextEngine) !in old(liveEngines)
      ensures !engineSupported ==> currentHls == None && liveEngines == {}
      ensures playerView == old(playerView).(
                container := [currentPlayer],
                errors := if !engineSupported && !nativeSupported then [UnsupportedMessage] else [],
                highlighted := Some(IptvBackend))
      ensures currentChannel == old(currentChannel)
    {
      TearDownPlayer();
      currentPlayer := Video(url, ModeFor(engineSupported, nativeSupported));
      playerView := playerView.(container := [currentPlayer]);
      if engineSupported {
        currentHls := Some(nextEngine);
        liveEngines := {nextEngine};
        nextEngine := nextEngine + 1;
      } else if !nativeSupported {
        ShowPlayerError(UnsupportedMessage);
      }
      playerView := playerView.(highlighted := Some(IptvBackend));
    }

    /** `setupYouTubePlayer`: mount an embed frame in place of whatever was
        mounted. The engine handle is left as it was: an engine attached to
        the replaced video stays alive. */
    method SetupYouTubePlayer(url: string)
      requires Valid()
      modifies this
      ensures Valid() && BrowserUnchanged() && PickerUnchanged()
      ensures currentPlayer == Iframe(url)
      ensures playerView == old(playerView).(container := [Iframe(url)], errors := [], highlighted := Some(YouTubeBackend))
      ensures currentHls == old(currentHls) && liveEngines == old(liveEngines)
      ensures nextEngine == old(nextEngine) && currentChannel == old(currentChannel)
    {
      playerView := playerView.(container := [], errors := []);
      playerView := playerView.(container := [Iframe(url)]);
      currentPlayer := Iframe(url);
      playerView := playerView.(highlighted := Some(YouTubeBackend));
    }

    /** `playChannel`: open the player for `ch`, hide each toggle button
        whose URL list is empty, clear the old player and start the
        channel's default source. */
    method PlayChannel(ch: Channel, engineSupported: bool, nativeSupported: bool)
      requires Valid()
      modifies this
      ensures Valid() && BrowserUnchanged() && PickerUnchanged()
      ensures currentChannel == Some(ch)
      ensures var shown := old(playerView).(visible := true,
                                             iptvButtonHidden := ch.iptvUrls == [],
                                             youtubeButtonHidden := ch.youtubeUrls == []);
              match DefaultSource(ch)
              case None =>
                && currentPlayer == NoPlayer && playerView == shown.(container := [], errors := [])
                && currentHls == old(currentHls) && liveEngines == old(liveEngines) && nextEngine == old(nextEngine)
              case Some(Source(IptvBackend, u)) =>
                && currentPlayer == Video(u, ModeFor(engineSupported, nativeSupported))
                && (old(currentHls).Some? ==> old(currentHls).value !in liveEngines)
                && (engineSupported ==> liveEngines == {old(nextEngine)} && currentHls == Some(old(nextEngine)))
                && (!engineSupported ==> liveEngines == {} && currentHls == None)
                && playerView == shown.(
                     container := [currentPlayer],
                     errors := if !engineSupported && !nativeSupported then [UnsupportedMessage] else [],
                     highlighted := Some(IptvBackend))
              case Some(Source(YouTubeBackend, u)) =>
                && currentPlayer == Iframe(u)
                && currentHls == old(currentHls) && liveEngines == old(liveEngines) && nextEngine == old(nextEngine)
                && playerView == shown.(container := [Iframe(u)], errors := [], highlighted := Some(YouTubeBackend))
    {
      currentChannel := Some(ch);
      playerView := playerView.(visible := true);
      playerView := playerView.(iptvButtonHidden := |ch.iptvUrls| == 0, youtubeButtonHidden := |ch.youtubeUrls| == 0);

      if currentPlayer != NoPlayer {
        playerView := playerView.(container := [], errors := []);
        currentPlayer := NoPlayer;
      }

      if |ch.iptvUrls| > 0 {
        SetupIptvPlayer(ch.iptvUrls[0], engineSupported, nativeSupported);
      } else if |ch.youtubeUrls| > 0 {
        SetupYouTubePlayer(ch.youtubeUrls[0]);
      }
    }

    /** A click on the IPTV toggle button, which is visible only when the
        current channel has an IPTV URL. */
    method ToggleIptv(engineSupported: bool, nativeSupported: bool)
      requires Valid()
      modifies this
      ensures Valid() && BrowserUnchanged() && PickerUnchanged()
      ensures currentChannel == old(currentChannel)
      ensures currentChannel.Some? && currentChannel.value.iptvUrls != [] ==>
                currentPlayer == Video(currentChannel.value.iptvUrls[0], ModeFor(engineSupported, nativeSupported))
                && (old(currentHls).Some? ==> old(currentHls).value !in liveEngines)
                && (engineSupported ==> liveEngines == {old(nextEngine)} && currentHls == Some(old(nextEngine)))
                && (!engineSupported ==> liveEngines == {} && currentHls == None)
                && playerView == old(playerView).(
                     container := [currentPlayer],
                     errors := if !engineSupported && !nativeSupported then [UnsupportedMessage] else [],
                     highlighted := Some(IptvBackend))
      ensures !(currentChannel.Some? && currentChannel.value.iptvUrls != []) ==> PlayerUnchanged()
    {
      if currentChannel.Some? && |currentChannel.value.iptvUrls| > 0 {
        SetupIptvPlayer(currentChannel.value.iptvUrls[0], engineSupported, nativeSupported);
      }
    }

    /** A click on the YouTube toggle button, which is visible only when the
        current channel has a YouTube URL. */
    method ToggleYouTube()
      requires Valid()
      modifies this
      ensures Valid() && BrowserUnchanged() && PickerUnchanged()
      ensures currentChannel == old(currentChannel)
      ensures currentHls == old(currentHls) && liveEngines == old(liveEngines)
      ensures currentChannel.Some? && currentChannel.value.youtubeUrls != [] ==>
                var u := currentChannel.value.youtubeUrls[0];
                && currentPlayer == Iframe(u) && nextEngine == old(nextEngine)
                && playerView == old(playerView).(container := [Iframe(u)], errors := [], highlighted := Some(YouTubeBackend))
      ensures !(currentChannel.Some? && currentChannel.value.youtubeUrls != []) ==> PlayerUnchanged()
    {
      if currentChannel.Some? && |currentChannel.value.youtubeUrls| > 0 {
        SetupYouTubePlayer(currentChannel.value.youtubeUrls[0]);
      }
    }

    /** The engine `engine` reports an error. A destroyed engine reports
        nothing; a live one shows the recovery message and, on a fatal
        error other than network or media, is destroyed, while
        `currentHls` keeps referring to it. */
    method OnEngineError(engine: nat, fatal: bool, kind: ErrorKind)
      requires Valid()
      modifies this
      ensures Valid() && BrowserUnchanged() && PickerUnchanged()
      ensures currentHls == old(currentHls) && currentPlayer == old(currentPlayer)
      ensures nextEngine == old(nextEngine) && currentChannel == old(currentChannel)
      ensures liveEngines ==
                if engine in old(liveEngines) && RecoveryFor(fatal, kind) == Release
                then old(liveEngines) - {engine} else old(liveEngines)
      ensures playerView ==
                if engine in old(liveEngines) && fatal && currentPlayer.Video?
                then old(playerView).(errors := old(playerView.errors) + [RecoveryMessage(RecoveryFor(fatal, kind)).value])
                else old(playerView)
    {
      if engine in liveEngines {
        var recovery := RecoveryFor(fatal, kind);
        match RecoveryMessage(recovery)
        case None =>
        case Some(message) =>
          ShowPlayerError(message);
        if recovery == Release {
          liveEngines := liveEngines - {engine};
        }
      }
    }

    /** `closePlayer`: hide the player, destroy the engine and remove the
        player; afterwards no engine is alive. */
    method ClosePlayer()
      requires Valid()
      modifies this
      ensures Valid() && BrowserUnchanged() && PickerUnchanged()
      ensures playerView == old(playerView).(visible := false, container := [], errors := [])
      ensures currentPlayer == NoPlayer && currentHls == None
      ensures liveEngines == {}
      ensures nextEngine == old(nextEngine) && currentChannel == old(currentChannel)
    {
      playerView := playerView.(visible := false);
      TearDownPlayer();
    }

    /** The keydown listener: Escape closes the player while it is shown. */
    method OnKeyDown(key: string)
      requires Valid()
      modifies this
      ensures Valid() && BrowserUnchanged() && PickerUnchanged()
      ensures key == "Escape" && old(playerView.visible) ==>
                && playerView == old(playerView).(visible := false, container := [], errors := [])
                && currentPlayer == NoPlayer && currentHls == None && liveEngines == {}
                && currentChannel == old(currentChannel) && nextEngine == old(nextEngine)
      ensures !(key == "Escape" && old(playerView.visible)) ==> PlayerUnchanged()
    {
      if key == "Escape" && playerView.visible {
        ClosePlayer();
      }
    }
  }

  /** The application never has more than one live engine. */
  lemma ValidAppHasOneEngine(app: App)
    requires app.Valid()
    ensures |app.liveEngines| <= 1
    ensures app.currentHls.None? ==> app.liveEngines == {}
  {
    AtMostOneLiveEngine(app.liveEngines, app.currentHls);
  }

  /** Playing a channel over IPTV and then switching to YouTube leaves the
      engine alive while the embed frame is mounted. */
  method EngineOutlivesSwitchToYouTube() returns (app: App)
    ensures app.Valid()
    ensures app.currentPlayer.Iframe? && app.playerView.container == [app.currentPlayer]
    ensures app.currentHls.Some? && app.liveEngines == {app.currentHls.value}
  {
    app := new App();
    var ch := Channel("x1", "News One", ["http://a"], ["http://y"]);
    app.PlayChannel(ch, true, false);
    app.ToggleYouTube();
  }
}
