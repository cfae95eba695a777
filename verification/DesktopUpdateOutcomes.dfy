/** What comes of a check, of a healthy update and of a failure, after any run of the updater. */
module DesktopUpdateOutcomes {
  import opened Wrappers
  import opened DesktopUpdate

  lemma OneMore(w: World, actions: seq<(Action, nat)>, a: Action, tick: nat)
    ensures Run(w, actions + [(a, tick)]) == Do(Run(w, actions), a, tick)
  {
    assert (actions + [(a, tick)])[..|actions|] == actions;
  }

  // --- which checks reach the feed ---------------------------------------------------

  /** No feed check yet, none since the last unfreeze, or the last one is an interval old. */
  ghost predicate IsDue(feed: seq<Entry>, now: nat) {
    feed == [] || feed[|feed| - 1].FreezeCleared? || now - feed[|feed| - 1].at >= 60_000
  }

  /** What a check adds to the calls of the feed: nothing while there is something on offer, in idle and after an error
      one check if it is due, and when frozen a check that somebody asked for. */
  ghost function Adds(w: World, userInitiated: bool, asked: nat, resumed: nat): seq<Entry> {
    match w.c.current.phase
    case Idle => if IsDue(w.h.feed, asked) then [FeedChecked(resumed, Idle)] else []
    case Error => if IsDue(w.h.feed, asked) then [FeedChecked(resumed, Error)] else []
    case Unsupported => if userInitiated || w.c.checkWasRequested then [FreezeCleared(true), FeedChecked(resumed, Idle)] else []
    case _ => []
  }

  lemma CheckAdds(w: World, userInitiated: bool, wait: nat, loading: nat)
    requires Inv(w) && Supported(w.c.env) && w.c.loaded && w.c.check.NoCheck?
    ensures var asked := w.clock + wait;
      Do(Do(w, Check(userInitiated), wait), CheckResumes(true), loading).h.feed == w.h.feed + Adds(w, userInitiated, asked, asked + loading)
  {
    var u := Do(w, Check(userInitiated), wait);
    var asked := w.clock + wait;
    assert IsDue(w.h.feed, asked) <==> asked - w.c.lastCheck >= 60_000 || w.c.lastCheck == 0;
    if w.c.current.phase.Unsupported? && (userInitiated || w.c.checkWasRequested) {
      assert u.h.feed == w.h.feed + [FreezeCleared(true)];
      assert w.h.feed + [FreezeCleared(true)] + [FeedChecked(asked + loading, Idle)]
          == w.h.feed + [FreezeCleared(true), FeedChecked(asked + loading, Idle)];
    }
  }

  /** Exactly which checks reach the feed, after any run in an installed build whose updater is loaded and not checking. */
  lemma ChecksReachTheFeedExactly(env: Environment, start: nat, actions: seq<(Action, nat)>, userInitiated: bool, wait: nat, loading: nat)
    requires start > 0 && Supported(env)
    requires var w := Run(Initial(env, start), actions); w.c.loaded && w.c.check.NoCheck?
    ensures var w := Run(Initial(env, start), actions);
      var asked := w.clock + wait;
      Run(Initial(env, start), actions + [(Check(userInitiated), wait)] + [(CheckResumes(true), loading)]).h.feed
      == w.h.feed + Adds(w, userInitiated, asked, asked + loading)
  {
    hide Run;
    RunKeepsInv(env, start, actions);
    OneMore(Initial(env, start), actions, Check(userInitiated), wait);
    OneMore(Initial(env, start), actions + [(Check(userInitiated), wait)], CheckResumes(true), loading);
    CheckAdds(Run(Initial(env, start), actions), userInitiated, wait, loading);
  }

  /** A check and a download that are over make room for the next, however they ended. */
  lemma EndedPromisesAreCleared(w: World, error: Option<Failure>)
    requires Inv(w)
    ensures w.c.check.CheckAwaitsFeed? ==> Do(Do(w, FeedSettles(error), 0), CheckClears, 0).c.check.NoCheck?
    ensures w.c.check.CheckAwaitsUpdater? ==> Do(Do(w, CheckResumes(false), 0), CheckClears, 0).c.check.NoCheck?
    ensures w.c.download.DownloadAwaitsFile? ==> Do(Do(w, DownloadSettles(error), 0), DownloadClears, 0).c.download.NoDownload?
    ensures w.c.download.DownloadAwaitsUpdater? ==> Do(Do(w, DownloadResumes(false), 0), DownloadClears, 0).c.download.NoDownload?
  {
  }

  /** An installed build whose updates are not turned off starts idle, any other one without updates, and says why. */
  lemma StartsIdleExactlyWhenSupported(env: Environment, clock: nat)
    ensures var s := Initial(env, clock).c.current;
      && s.currentVersion == env.version && s.availableVersion.None? && s.percent.None? && s.checkedAt.None?
      && (if env.packaged && !env.disabled then s.phase.Idle? && s.message.None? else s.phase.Unsupported?)
      && (env.disabled ==> s.message == Some("Automatic updates are turned off for this install."))
      && (!env.disabled && !env.packaged ==> s.message == Some("Automatic updates only run in an installed build."))
  {
  }

  // --- a healthy update --------------------------------------------------------------

  /** Idle, loaded, and nothing under way. */
  predicate AtRest(w: World) {
    w.c.loaded && w.c.current.phase.Idle? && w.c.check.NoCheck? && w.c.download.NoDownload? && !w.c.installStarted && w.c.installing == 0
  }

  /** The feed offers a version: it is displayed, and its download starts by itself. */
  lemma OfferIsDownloaded(w: World, version: string, percent: real)
    requires AtRest(w)
    ensures var checking := Do(w, CheckingForUpdate, 0);
      var offered := Do(checking, UpdateAvailable(Some(version)), 0);
      var started := Do(offered, DownloadResumes(true), 0);
      var going := Do(started, DownloadProgress(Some(percent)), 0);
      && checking.c.current.phase.Checking?
      && offered.c.current.phase.Available? && offered.c.current.availableVersion == Some(version) && offered.c.current.checkedAt == Some(w.clock)
      && started.c.current.phase.Downloading? && started.c.current.percent == Some(0) && started.h.downloads == w.h.downloads + 1
      && going.c.current.phase.Downloading? && going.c.current.percent == Some(Clamp(percent)) && going.c.current.availableVersion == Some(version)
  {
  }

  /** A download that is done is ready and is installed when asked. */
  lemma DownloadIsInstalled(w: World, version: string)
    requires w.c.loaded && w.c.current.phase.Downloading? && !w.c.installStarted && w.c.installing == 0
    ensures var done := Do(w, UpdateDownloaded(Some(version)), 0);
      var installed := Do(Do(done, Install, 0), InstallResumes(true, None), 0);
      && done.c.current.phase.Ready? && done.c.current.availableVersion == Some(version) && done.c.current.percent == Some(100)
      && installed.c.installStarted && installed.c.current.phase.Ready? && |installed.h.installs| == |w.h.installs| + 1
  {
  }

  /** A started app in an installed build is at rest once its updater is loaded, and its first check reaches the feed. */
  lemma FirstCheckReachesTheFeed(env: Environment, start: nat, userInitiated: bool)
    requires start > 0 && Supported(env)
    ensures var w := Do(Initial(env, start), Loads, 0);
      AtRest(w) && Do(Do(w, Check(userInitiated), 0), CheckResumes(true), 0).h.feed == [FeedChecked(start, Idle)]
  {
    RunKeepsInv(env, start, []);
    StepKeeps(Initial(env, start), Loads, 0);
    CheckAdds(Do(Initial(env, start), Loads, 0), userInitiated, 0, 0);
  }

  /** A check that starts is displayed, but does not take an offer, a download or a finished one off the display. */
  lemma CheckStartKeepsTheOffer(w: World, tick: nat)
    requires w.c.loaded && !w.c.current.phase.Unsupported?
    ensures var s, v := w.c.current, Do(w, CheckingForUpdate, tick).c.current;
      if s.phase.Idle? || s.phase.Error? || s.phase.Checking? then
        v.phase.Checking? && v.message.None? && v.percent.None? && v.availableVersion == s.availableVersion
      else v == s
  {
  }

  /** Progress shows what is on offer as being downloaded, and is otherwise too late. */
  lemma ProgressIsShown(w: World, percent: real, tick: nat)
    requires w.c.loaded
    ensures var s, v := w.c.current, Do(w, DownloadProgress(Some(percent)), tick).c.current;
      if s.phase.Available? || s.phase.Downloading? then v == s.(phase := Downloading, percent := Some(Clamp(percent))) else v == s
  {
  }

  /** The reducer itself never leaves a finished download, whatever comes. */
  lemma ReducerKeepsReady(s: UpdateState, e: Event, now: nat)
    requires s.phase.Ready?
    ensures ReduceUpdateState(s, e, now).phase.Ready? && (!e.Downloaded? ==> ReduceUpdateState(s, e, now).availableVersion == s.availableVersion)
  {
  }

  /** Percentages are rounded to the nearest whole one, halves up, and kept within bounds. */
  lemma PercentIsRounded(percent: real)
    ensures var shown := Clamp(percent);
      && (0.0 <= percent <= 100.0 ==> -0.5 < shown as real - percent <= 0.5)
      && (percent < 0.0 ==> shown == 0) && (percent > 100.0 ==> shown == 100)
  {
    var floor := (percent + 0.5).Floor;
    assert floor as real <= percent + 0.5 < floor as real + 1.0;
  }

  /** An empty answer of the feed takes back an offer that is not yet downloaded, and nothing else. */
  lemma NothingNewTakesBackTheOffer(w: World, tick: nat)
    requires w.c.loaded && !w.c.current.phase.Unsupported?
    ensures var s, v := w.c.current, Do(w, UpdateNotAvailable, tick).c.current;
      if s.phase.Downloading? || s.phase.Ready? then v == s
      else v.phase.Idle? && v.availableVersion.None? && v.message.None? && v.checkedAt == Some(w.clock + tick)
  {
  }

  // --- failures ----------------------------------------------------------------------

  lemma FailureReduced(s: UpdateState, failure: Failure, asked: bool, now: nat)
    requires !s.phase.Unsupported? && !s.phase.Ready?
    ensures var v := ReduceUpdateState(s, Failed(failure, asked, false), now);
      && v.checkedAt == Some(now) && v.percent.None? && !v.phase.Ready?
      && (v.phase.Idle? <==> failure.Offline?)
      && (v.phase.Unsupported? <==> failure.NoReleases? && s.phase.Checking?)
      && (!v.phase.Idle? && !v.phase.Unsupported? ==> v.phase.Error? && v.message.Some?)
      && (v.phase.Idle? ==> v.message == if asked then Some("Could not reach the update server.") else None)
      && (v.phase.Unsupported? ==> v.availableVersion.None? && v.message == Some("No desktop releases are published for this build yet."))
  {
  }

  /** What an error of the updater leads to: an empty feed freezes the updater only while it checks; without a network it
      goes back to idle and says so only to somebody who asked; a download that is ready survives; the rest is an error. */
  lemma FailureIsShown(w: World, failure: Failure, tick: nat)
    requires w.c.loaded && !w.c.current.phase.Unsupported? && (w.c.installStarted ==> w.c.current.phase.Ready?)
    ensures var s, v := w.c.current, Do(w, UpdaterErrors(failure), tick).c;
      && (v.current.phase.Ready? <==> s.phase.Ready?)
      && (v.current.phase.Unsupported? <==> failure.NoReleases? && s.phase.Checking?)
      && (v.current.phase.Idle? <==> failure.Offline? && !s.phase.Ready?)
      && (v.current.phase.Error? <==> !s.phase.Ready? && !failure.Offline? && !(failure.NoReleases? && s.phase.Checking?))
      && (v.current.phase.Idle? ==> v.current.message == if w.c.checkWasRequested then Some("Could not reach the update server.") else None)
      && (v.current.phase.Error? ==> v.current.message.Some?)
      && (v.current.phase.Unsupported? ==> v.current.availableVersion.None? && v.current.message == Some("No desktop releases are published for this build yet."))
      && (!s.phase.Ready? ==> v.current.checkedAt == Some(w.clock + tick) && v.current.percent.None?)
      && (s.phase.Ready? && !w.c.installStarted ==> v.current == s)
      && !v.installStarted && !v.checkWasRequested
  {
    if !w.c.current.phase.Ready? {
      FailureReduced(w.c.current, failure, w.c.checkWasRequested, w.clock + tick);
    }
    hide StartCheck, ResumeCheck, SettleFeed, StartDownload, ResumeDownload, SettleDownload, StartInstall, ResumeInstall;
  }

  lemma LoaderFails(u: World, failure: Failure)
    requires !u.c.loaded && Supported(u.c.env)
    ensures Serve(u, LoadFails(failure)) == PushedFailure(u, failure)
  {
  }

  /** A loader that fails is an error too, while there is no updater in an installed build. */
  lemma LoaderFailureIsShown(w: World, failure: Failure, tick: nat)
    requires !w.c.current.phase.Unsupported? && !w.c.current.phase.Ready?
    requires !w.c.loaded && !w.c.env.disabled && w.c.env.packaged
    ensures var v := Do(w, LoadFails(failure), tick).c;
      && !v.loaded && v.current.checkedAt == Some(w.clock + tick) && !v.checkWasRequested
      && (v.current.phase.Idle? <==> failure.Offline?)
      && (v.current.phase.Unsupported? <==> failure.NoReleases? && w.c.current.phase.Checking?)
      && (!v.current.phase.Idle? && !v.current.phase.Unsupported? ==> v.current.phase.Error? && v.current.message.Some?)
  {
    hide ReduceUpdateState, Hear, Fail, StartCheck, ResumeCheck, SettleFeed, StartDownload, ResumeDownload, SettleDownload, StartInstall, ResumeInstall, Serve;
    FailureReduced(w.c.current, failure, w.c.checkWasRequested, w.clock + tick);
    LoaderFails(w.(clock := w.clock + tick), failure);
  }

  /** Otherwise it changes nothing. */
  lemma LateLoaderFailureChangesNothing(w: World, failure: Failure, tick: nat)
    requires w.c.loaded || w.c.env.disabled || !w.c.env.packaged
    ensures Do(w, LoadFails(failure), tick).c == w.c
  {
  }
}
