/**
  The desktop shell's main process (electron-main.js): the always-on-top flag
  and the channel list held between IPC calls, the TWITCH_CHANNELS string it
  hands to the relay, the window slot with its `closed`/`activate` life cycle,
  and the bounded retry loop that loads the setup page.

  Electron itself is not modelled: a window is an identifier, loading a URL is
  an outcome passed in, and timers are collapsed (see README).
 */
module DesktopShell {
  import opened JsCore
  import Relay

  /** The TWITCH_CHANNELS string used when no channel has been configured. */
  const DefaultEnv: string := "brz_ren,vavo_tv,fuzzyrjtv"

  /** How many times the setup page is requested before the local copy is
      loaded instead. */
  const MaxRetries: nat := 10

  // ---------------------------------------------------------------------------
  // The TWITCH_CHANNELS string handed to the relay
  // ---------------------------------------------------------------------------

  /** What `startIntegratedServer` puts into TWITCH_CHANNELS: the configured
      channels joined with ',', or the default string when there are none
      (see StartupEnvReachesRelay). */
  function StartupEnv(configured: seq<string>): (r: string)
    ensures configured == [] ==> r == DefaultEnv
  {
    if |configured| > 0 then Join(configured, ',') else DefaultEnv
  }

  /** The shell's default string, read by the relay, is the relay's own default
      list. */
  lemma DefaultEnvMatchesRelay()
    ensures Relay.ParseChannels(Some(DefaultEnv)) == Relay.DefaultChannels
  {
    DefaultChannelsJoin();
    DefaultChannelsPlain();
    JoinParseRoundTrip(Relay.DefaultChannels);
  }

  /** The relay's default list, joined with ',', is the shell's default
      string. */
  lemma DefaultChannelsJoin()
    ensures Join(Relay.DefaultChannels, ',') == DefaultEnv
  {
  }

  /** No default channel name holds ',' or white space at either end. */
  lemma DefaultChannelsPlain()
    ensures forall i :: 0 <= i < |Relay.DefaultChannels| ==>
      ',' !in Relay.DefaultChannels[i] && IsTrimmed(Relay.DefaultChannels[i])
  {
  }

  /** Cross-file round trip: a channel list joined by the shell and parsed by
      the relay comes back unchanged, as long as no channel contains ',' or
      white space at either end, and the list is not the single empty name
      (see LoneEmptyChannel). */
  lemma {:induction false} JoinParseRoundTrip(xs: seq<string>)
    requires xs != [] && xs != [""]
    requires forall i :: 0 <= i < |xs| ==> ',' !in xs[i] && IsTrimmed(xs[i])
    ensures Relay.ParseChannels(Some(Join(xs, ','))) == xs
  {
    Relay.TrimAllTrimmed(xs);
    JoinParseTrimmed(xs);
  }

  /** Helper for JoinParseRoundTrip, with trimming stated on the whole list. */
  lemma {:induction false} JoinParseTrimmed(xs: seq<string>)
    requires xs != [] && xs != [""]
    requires forall i :: 0 <= i < |xs| ==> ',' !in xs[i]
    requires Relay.TrimAll(xs) == xs
    ensures Relay.ParseChannels(Some(Join(xs, ','))) == xs
  {
    SplitJoin(xs, ',');
    Relay.ParseTrimmedPieces(Join(xs, ','));
  }

  /** What the relay reads from the string `startIntegratedServer` sets: the
      configured channels, or the default list when none is configured (or
      the list is the single empty name). */
  lemma {:induction false} StartupEnvReachesRelay(configured: seq<string>)
    requires forall i :: 0 <= i < |configured| ==> ',' !in configured[i] && IsTrimmed(configured[i])
    ensures Relay.ParseChannels(Some(StartupEnv(configured)))
      == if configured == [] || configured == [""] then Relay.DefaultChannels else configured
  {
    if configured == [] {
      DefaultEnvMatchesRelay();
    } else if configured != [""] {
      JoinParseRoundTrip(configured);
    }
  }

  /** The list `[""]` joins to the empty string, which the relay treats as
      unset: it monitors the default channels instead. */
  lemma LoneEmptyChannel()
    ensures Join([""], ',') == ""
    ensures Relay.ParseChannels(Some(Join([""], ','))) == Relay.DefaultChannels
  {
  }

  // ---------------------------------------------------------------------------
  // Setup-page retry loop
  // ---------------------------------------------------------------------------

  /** Which page ends up in the window. */
  datatype SetupPage = SetupUrl | LocalSetupFile

  /** `tryLoadSetup`: requests the setup page from the integrated server; each
      failure adds one to `retryCount` and tries again until `MaxRetries`
      failures, after which the local copy is loaded. `loadSucceeds(k)` is the
      outcome of the request made after `k` failures. At most `MaxRetries`
      requests are made; the loop stops at the first success; the local copy
      is used exactly when all `MaxRetries` requests failed. */
  method TryLoadSetup(loadSucceeds: nat -> bool) returns (page: SetupPage, retryCount: nat, attempts: nat)
    ensures attempts <= MaxRetries
    ensures forall k :: 0 <= k < retryCount ==> !loadSucceeds(k)
    ensures page == SetupUrl ==> retryCount < MaxRetries && loadSucceeds(retryCount)
    ensures page == LocalSetupFile <==> retryCount == MaxRetries
    ensures attempts == retryCount + (if page == SetupUrl then 1 else 0)
  {
    page, retryCount, attempts := SetupUrl, 0, 0;
    var done := false;
    while !done
      invariant retryCount <= MaxRetries
      invariant forall k :: 0 <= k < retryCount ==> !loadSucceeds(k)
      invariant !done ==> retryCount < MaxRetries && attempts == retryCount
      invariant done && page == SetupUrl ==> retryCount < MaxRetries && loadSucceeds(retryCount)
      invariant done ==> (page == LocalSetupFile <==> retryCount == MaxRetries)
      invariant done ==> attempts == retryCount + (if page == SetupUrl then 1 else 0)
      decreases MaxRetries - retryCount, if done then 0 else 1
    {
      attempts := attempts + 1;
      if loadSucceeds(retryCount) {
        page, done := SetupUrl, true;
      } else {
        retryCount := retryCount + 1;
        if retryCount >= MaxRetries {
          page, done := LocalSetupFile, true;
        }
      }
    }
  }

  // ---------------------------------------------------------------------------
  // Main-process state
  // ---------------------------------------------------------------------------

  /** The `mainWindow` variable: never assigned yet (`undefined`), cleared by
      the `closed` handler (`null`), or holding a window. */
  datatype WindowSlot = Unset | Cleared | Window(id: nat)

  /** The module-level state of the main process, with the parts of the
      environment it touches: TWITCH_CHANNELS, and the channel list of the
      relay once its module has been loaded (a module is loaded once; later
      `require` calls return the loaded one). */
  class MainProcess {
    var mainWindow: WindowSlot
    var isAlwaysOnTop: bool
    var configuredChannels: seq<string>
    var env: Option<string>
    var relayChannels: Option<seq<string>>
    var windowsCreated: nat

    /** Process start: no window yet, not on top, no channel configured,
        TWITCH_CHANNELS as inherited, relay not loaded. */
    constructor (inheritedEnv: Option<string>)
      ensures mainWindow == Unset && !isAlwaysOnTop && configuredChannels == []
      ensures env == inheritedEnv && relayChannels == None && windowsCreated == 0
    {
      mainWindow := Unset;
      isAlwaysOnTop := false;
      configuredChannels := [];
      env := inheritedEnv;
      relayChannels := None;
      windowsCreated := 0;
    }

    /** `startIntegratedServer`: sets TWITCH_CHANNELS from the configured
        channels and loads the relay, which reads it only the first time. */
    method StartIntegratedServer()
      modifies this`env, this`relayChannels
      ensures env == Some(StartupEnv(configuredChannels))
      ensures relayChannels == if old(relayChannels).None?
                               then Some(Relay.ParseChannels(env)) else old(relayChannels)
    {
      env := Some(StartupEnv(configuredChannels));
      if relayChannels.None? {
        relayChannels := Some(Relay.ParseChannels(env));
      }
    }

    /** `createWindow`: a new window takes the slot and the server is started.
        The always-on-top flag is left as it was. */
    method CreateWindow()
      modifies this
      ensures mainWindow == Window(old(windowsCreated)) && windowsCreated == old(windowsCreated) + 1
      ensures isAlwaysOnTop == old(isAlwaysOnTop) && configuredChannels == old(configuredChannels)
      ensures env == Some(StartupEnv(configuredChannels))
      ensures relayChannels == if old(relayChannels).None?
                               then Some(Relay.ParseChannels(env)) else old(relayChannels)
    {
      mainWindow := Window(windowsCreated);
      windowsCreated := windowsCreated + 1;
      StartIntegratedServer();
    }

    /** The window's `closed` handler: the slot is cleared. */
    method OnClosed()
      modifies this`mainWindow
      ensures mainWindow == Cleared
    {
      mainWindow := Cleared;
    }

    /** The app's `activate` handler: a window is created only when the slot
        was cleared by `closed` (not while it was never assigned). A re-created
        window writes TWITCH_CHANNELS again, but a relay already loaded keeps
        the channel list it read the first time. */
    method Activate()
      modifies this
      ensures old(mainWindow) == Cleared ==>
        && mainWindow == Window(old(windowsCreated)) && windowsCreated == old(windowsCreated) + 1
        && env == Some(StartupEnv(configuredChannels))
        && relayChannels == if old(relayChannels).None?
                            then Some(Relay.ParseChannels(env)) else old(relayChannels)
      ensures old(mainWindow) != Cleared ==>
        && mainWindow == old(mainWindow) && windowsCreated == old(windowsCreated)
        && env == old(env) && relayChannels == old(relayChannels)
      ensures isAlwaysOnTop == old(isAlwaysOnTop) && configuredChannels == old(configuredChannels)
    {
      if mainWindow == Cleared {
        CreateWindow();
      }
    }

    /** `toggle-always-on-top`: with a window, flips the flag and returns the
        new value; without one, returns false and changes nothing. */
    method ToggleAlwaysOnTop() returns (r: bool)
      modifies this`isAlwaysOnTop
      ensures mainWindow.Window? ==> isAlwaysOnTop == !old(isAlwaysOnTop) && r == isAlwaysOnTop
      ensures !mainWindow.Window? ==> isAlwaysOnTop == old(isAlwaysOnTop) && !r
    {
      if mainWindow.Window? {
        isAlwaysOnTop := !isAlwaysOnTop;
        return isAlwaysOnTop;
      }
      return false;
    }

    /** Two toggles with a window restore the flag. */
    method ToggleTwiceRestores() returns (first: bool, second: bool)
      requires mainWindow.Window?
      modifies this`isAlwaysOnTop
      ensures first == !old(isAlwaysOnTop) && second == old(isAlwaysOnTop)
      ensures isAlwaysOnTop == old(isAlwaysOnTop)
    {
      first := ToggleAlwaysOnTop();
      second := ToggleAlwaysOnTop();
    }

    /** `get-always-on-top-status`: the current flag. */
    method GetAlwaysOnTopStatus() returns (r: bool)
      ensures r == isAlwaysOnTop
    {
      r := isAlwaysOnTop;
    }

    /** `start-with-channels`: a present, non-empty list becomes the configured
        list and its ','-join becomes TWITCH_CHANNELS, and true is returned;
        an absent or empty list is refused with false and nothing changes.
        The argument is absent or an array of strings (see README). */
    method StartWithChannels(channels: Option<seq<string>>) returns (accepted: bool)
      modifies this`configuredChannels, this`env
      ensures accepted <==> channels.Some? && |channels.value| > 0
      ensures accepted ==>
        && configuredChannels == channels.value
        && env == Some(Join(channels.value, ','))
      ensures !accepted ==> configuredChannels == old(configuredChannels) && env == old(env)
    {
      if channels.Some? && |channels.value| > 0 {
        configuredChannels := channels.value;
        env := Some(Join(channels.value, ','));
        return true;
      }
      return false;
    }

    /** `get-channels`: the most recently accepted list ([] before any). */
    method GetChannels() returns (r: seq<string>)
      ensures r == configuredChannels
    {
      r := configuredChannels;
    }
  }

  /** The start-up sequence as written: the app becomes ready and creates the
      window (which loads the relay with the default channels, since none is
      configured yet), then the setup page sends `channels`. The list is
      accepted and TWITCH_CHANNELS updated, but the relay, already loaded,
      keeps the default channels. */
  method SetupSequence(inheritedEnv: Option<string>, channels: seq<string>)
    returns (accepted: bool, relayChannels: Option<seq<string>>, env: Option<string>, stored: seq<string>)
    requires channels != []
    ensures accepted && stored == channels
    ensures env == Some(Join(channels, ','))
    ensures relayChannels == Some(Relay.DefaultChannels)
  {
    var p := new MainProcess(inheritedEnv);
    p.CreateWindow();
    DefaultEnvMatchesRelay();
    accepted := p.StartWithChannels(Some(channels));
    stored := p.GetChannels();
    relayChannels, env := p.relayChannels, p.env;
  }
}
