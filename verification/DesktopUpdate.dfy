/**
 The desktop updater: a reducer over updater events and the controller that runs checks, downloads
 and installs around it, as atomic steps between its awaits.
 */
module DesktopUpdate {
  import opened Wrappers

  const MIN_CHECK_INTERVAL_MS := 60_000
  const TRY_LATER := "The update could not be completed. Try again later."

  datatype Environment = Environment(packaged: bool, version: string, disabled: bool)

  predicate Supported(env: Environment) {
    !env.disabled && env.packaged
  }

  datatype Phase = Idle | Checking | Available | Downloading | Ready | Error | Unsupported

  /** `checkedAt` is the clock's time. */
  datatype UpdateState = UpdateState(phase: Phase, currentVersion: string, availableVersion: Option<string>,
                                     percent: Option<int>, message: Option<string>, checkedAt: Option<nat>)

  function InitialUpdateState(env: Environment): UpdateState {
    UpdateState(if Supported(env) then Idle else Unsupported, env.version, None, None,
                if Supported(env) then None
                else if env.disabled then Some("Automatic updates are turned off for this install.")
                else Some("Automatic updates only run in an installed build."), None)
  }

  /** What kind of failure an error's text is classified as. */
  datatype Failure = NoReleases | Offline | Signature | Other

  function MessageOf(failure: Failure): Option<string> {
    match failure
    case NoReleases => Some("No desktop releases are published for this build yet.")
    case Offline => None
    case Signature => Some("This update could not be verified. Reinstall Rakazo from a trusted download.")
    case Other => Some(TRY_LATER)
  }

  datatype Event =
    | CheckStart
    | Offer(version: string)
    | NotAvailable
    | DownloadStart
    | Progress(percent: real)
    | Downloaded(version: string)
    | Failed(failure: Failure, userInitiated: bool, installFailed: bool)

  function Clamp(percent: real): int {
    var rounded := (percent + 0.5).Floor;
    if rounded < 0 then 0 else if rounded > 100 then 100 else rounded
  }

  function ReduceUpdateState(s: UpdateState, e: Event, now: nat): UpdateState {
    if s.phase.Unsupported? then s
    else match e
      case CheckStart =>
        if s.phase.Available? || s.phase.Downloading? || s.phase.Ready? then s
        else s.(phase := Checking, percent := None, message := None)
      case Offer(version) =>
        if s.phase.Downloading? || s.phase.Ready? then s
        else s.(phase := Available, availableVersion := Some(version), percent := None, message := None, checkedAt := Some(now))
      case NotAvailable =>
        if s.phase.Downloading? || s.phase.Ready? then s
        else s.(phase := Idle, availableVersion := None, percent := None, message := None, checkedAt := Some(now))
      case DownloadStart =>
        if s.phase.Ready? then s else s.(phase := Downloading, percent := Some(0), message := None)
      case Progress(percent) =>
        if !s.phase.Available? && !s.phase.Downloading? then s
        else s.(phase := Downloading, percent := Some(Clamp(percent)))
      case Downloaded(version) =>
        s.(phase := Ready, availableVersion := Some(version), percent := Some(100), message := None)
      case Failed(failure, userInitiated, installFailed) =>
        if s.phase.Ready? then
          if !installFailed then s
          else s.(message := if MessageOf(failure).Some? then MessageOf(failure) else Some(TRY_LATER))
        else if failure.NoReleases? && s.phase.Checking? then
          s.(phase := Unsupported, availableVersion := None, percent := None, message := MessageOf(failure), checkedAt := Some(now))
        else if failure.NoReleases? then
          s.(phase := Error, percent := None, message := Some(TRY_LATER), checkedAt := Some(now))
        else if failure.Offline? && !installFailed then
          s.(phase := Idle, percent := None,
             message := if userInitiated then Some("Could not reach the update server.") else None, checkedAt := Some(now))
        else s.(phase := Error, percent := None, message := MessageOf(failure), checkedAt := Some(now))
  }

  function ShouldCheck(s: UpdateState, now: nat, lastCheck: nat, userInitiated: bool, supported: bool): bool {
    if s.phase.Unsupported? then userInitiated && supported
    else if !s.phase.Idle? && !s.phase.Error? then false
    else now - lastCheck >= MIN_CHECK_INTERVAL_MS || lastCheck == 0
  }

  // --- the controller ----------------------------------------------------------------

  /** Where the one check promise is: waiting for the updater (with the options it started with) or for the feed. */
  datatype CheckPromise = NoCheck | CheckAwaitsUpdater(userInitiated: bool) | CheckAwaitsFeed | CheckSettled

  datatype DownloadPromise = NoDownload | DownloadAwaitsUpdater | DownloadAwaitsFile | DownloadSettled

  /** `installing` counts the install calls that wait for the updater. */
  datatype Controller = Controller(env: Environment, current: UpdateState, lastCheck: nat, loaded: bool,
                                   check: CheckPromise, download: DownloadPromise, checkWasRequested: bool,
                                   installStarted: bool, installing: nat)

  datatype Entry = FeedChecked(at: nat, phase: Phase) | FreezeCleared(requested: bool)

  /** The calls made to the updater: feed checks and what unfroze them, downloads under way, the phase at each
      install, and the installs that failed. */
  datatype History = History(feed: seq<Entry>, downloads: nat, installs: seq<Phase>, installFailures: nat)

  datatype World = World(c: Controller, h: History, clock: nat)

  /** Each is what runs between two awaits; `got` is whether the awaited updater was there. */
  datatype Action =
    | Check(userInitiated: bool)
    | CheckResumes(got: bool)
    | FeedSettles(error: Option<Failure>)
    | CheckClears
    | Download
    | DownloadResumes(got: bool)
    | DownloadSettles(error: Option<Failure>)
    | DownloadClears
    | Install
    | InstallResumes(got: bool, thrown: Option<Failure>)
    | Loads
    | LoadFails(failure: Failure)
    | CheckingForUpdate
    | UpdateAvailable(version: Option<string>)
    | UpdateNotAvailable
    | DownloadProgress(percent: Option<real>)
    | UpdateDownloaded(version: Option<string>)
    | UpdaterErrors(failure: Failure)

  function Push(c: Controller, e: Event, now: nat): Controller {
    c.(current := ReduceUpdateState(c.current, e, now),
       checkWasRequested := if e.NotAvailable? || e.Downloaded? || e.Failed? then false else c.checkWasRequested)
  }

  function Fail(w: World, failure: Failure): World {
    var c := if w.c.installStarted then w.c.(installStarted := false) else w.c;
    w.(c := Push(c, Failed(failure, w.c.checkWasRequested || w.c.installStarted, w.c.installStarted), w.clock),
       h := if w.c.installStarted then w.h.(installFailures := w.h.installFailures + 1) else w.h)
  }

  function PushedFailure(w: World, failure: Failure): World {
    w.(c := Push(w.c, Failed(failure, w.c.checkWasRequested, false), w.clock))
  }

  function StartCheck(w: World, userInitiated: bool): World {
    var c := if userInitiated then w.c.(checkWasRequested := true) else w.c;
    var supported := Supported(c.env);
    if !c.check.NoCheck? then w.(c := c)
    else if !ShouldCheck(c.current, w.clock, c.lastCheck, c.checkWasRequested, supported) then w.(c := c.(check := CheckSettled))
    else if c.current.phase.Unsupported? && supported then
      w.(c := c.(current := c.current.(phase := Idle, availableVersion := None, percent := None, message := None),
                 lastCheck := 0, check := CheckAwaitsUpdater(c.checkWasRequested)),
         h := w.h.(feed := w.h.feed + [FreezeCleared(c.checkWasRequested)]))
    else w.(c := c.(check := CheckAwaitsUpdater(c.checkWasRequested)))
  }

  function ResumeCheck(w: World, got: bool): World {
    if !w.c.check.CheckAwaitsUpdater? then w
    else if !got || !ShouldCheck(w.c.current, w.clock, w.c.lastCheck, w.c.check.userInitiated, Supported(w.c.env)) then
      w.(c := w.c.(check := CheckSettled))
    else w.(c := w.c.(lastCheck := w.clock, check := CheckAwaitsFeed), h := w.h.(feed := w.h.feed + [FeedChecked(w.clock, w.c.current.phase)]))
  }

  function SettleFeed(w: World, error: Option<Failure>): World {
    if !w.c.check.CheckAwaitsFeed? then w
    else
      var v := if error.Some? && (w.c.current.phase.Idle? || w.c.current.phase.Checking?) then PushedFailure(w, error.value) else w;
      v.(c := v.c.(check := CheckSettled))
  }

  function StartDownload(w: World): World {
    if !w.c.download.NoDownload? then w
    else if !w.c.current.phase.Available? then w.(c := w.c.(download := DownloadSettled))
    else w.(c := w.c.(download := DownloadAwaitsUpdater))
  }

  function ResumeDownload(w: World, got: bool): World {
    if !w.c.download.DownloadAwaitsUpdater? then w
    else if !got || !w.c.current.phase.Available? then w.(c := w.c.(download := DownloadSettled))
    else w.(c := Push(w.c, DownloadStart, w.clock).(download := DownloadAwaitsFile), h := w.h.(downloads := w.h.downloads + 1))
  }

  function SettleDownload(w: World, error: Option<Failure>): World {
    if !w.c.download.DownloadAwaitsFile? || w.h.downloads == 0 then w
    else
      var v := if error.Some? && w.c.current.phase.Downloading? then PushedFailure(w, error.value) else w;
      v.(c := v.c.(download := DownloadSettled), h := v.h.(downloads := v.h.downloads - 1))
  }

  function StartInstall(w: World): World {
    if w.c.installStarted || !w.c.current.phase.Ready? then w else w.(c := w.c.(installing := w.c.installing + 1))
  }

  function ResumeInstall(w: World, got: bool, thrown: Option<Failure>): World {
    if w.c.installing == 0 then w
    else
      var c := w.c.(installing := w.c.installing - 1);
      if !got || c.installStarted || !c.current.phase.Ready? then w.(c := c)
      else
        var v := w.(c := c.(installStarted := true, current := c.current.(message := None)), h := w.h.(installs := w.h.installs + [c.current.phase]));
        if thrown.Some? then Fail(v, thrown.value) else v
  }

  function Hear(w: World, a: Action): World {
    match a
    case CheckingForUpdate => w.(c := Push(w.c, CheckStart, w.clock))
    case UpdateAvailable(version) =>
      if version.None? then PushedFailure(w, Other) else StartDownload(w.(c := Push(w.c, Offer(version.value), w.clock)))
    case UpdateNotAvailable => w.(c := Push(w.c, NotAvailable, w.clock))
    case DownloadProgress(percent) => if percent.None? then w else w.(c := Push(w.c, Progress(percent.value), w.clock))
    case UpdateDownloaded(version) =>
      if version.None? then PushedFailure(w, Other) else w.(c := Push(w.c, Downloaded(version.value), w.clock))
    case UpdaterErrors(failure) => Fail(w, failure)
    case _ => w
  }

  /** One step; the clock moves on by `tick` first. */
  function Do(w: World, a: Action, tick: nat): World {
    Serve(w.(clock := w.clock + tick), a)
  }

  /** The updater is there, and is heard, only once loaded. */
  function Serve(w: World, a: Action): World {
    match a
    case Check(userInitiated) => StartCheck(w, userInitiated)
    case CheckResumes(got) => ResumeCheck(w, got && w.c.loaded)
    case FeedSettles(error) => SettleFeed(w, error)
    case CheckClears => if w.c.check.CheckSettled? then w.(c := w.c.(check := NoCheck)) else w
    case Download => StartDownload(w)
    case DownloadResumes(got) => ResumeDownload(w, got && w.c.loaded)
    case DownloadSettles(error) => SettleDownload(w, error)
    case DownloadClears => if w.c.download.DownloadSettled? then w.(c := w.c.(download := NoDownload)) else w
    case Install => StartInstall(w)
    case InstallResumes(got, thrown) => ResumeInstall(w, got && w.c.loaded, thrown)
    case Loads => if Supported(w.c.env) then w.(c := w.c.(loaded := true)) else w
    case LoadFails(failure) => if Supported(w.c.env) && !w.c.loaded then PushedFailure(w, failure) else w
    case _ => if w.c.loaded then Hear(w, a) else w
  }

  // --- runs and the invariant --------------------------------------------------------

  function Initial(env: Environment, clock: nat): World {
    World(Controller(env, InitialUpdateState(env), 0, false, NoCheck, NoDownload, false, false, 0), History([], 0, [], 0), clock)
  }

  /** A run: the actions, each with the time that passed before it. */
  function Run(w: World, actions: seq<(Action, nat)>): World {
    if actions == [] then w
    else
      var last := actions[|actions| - 1];
      Do(Run(w, actions[..|actions| - 1]), last.0, last.1)
  }

  /** An offer has a version, and a percentage is one. */
  predicate StateOk(s: UpdateState) {
    && (s.phase.Available? || s.phase.Downloading? || s.phase.Ready? ==> s.availableVersion.Some?)
    && (s.percent.Some? ==> 0 <= s.percent.value <= 100)
  }

  ghost predicate LastCheckIs(feed: seq<Entry>, lastCheck: nat) {
    if feed == [] || feed[|feed| - 1].FreezeCleared? then lastCheck == 0
    else feed[|feed| - 1].at == lastCheck && lastCheck > 0
  }

  /** Feed checks that follow each other are far enough apart unless a requested check cleared a freeze between
      them, and none replaces an offer. */
  ghost predicate Spaced(feed: seq<Entry>) {
    && (forall i, j :: 0 <= i < |feed| && j == i + 1 && j < |feed| && feed[i].FeedChecked? && feed[j].FeedChecked? ==>
          feed[j].at - feed[i].at >= MIN_CHECK_INTERVAL_MS)
    && (forall i :: 0 <= i < |feed| && feed[i].FeedChecked? ==> feed[i].phase.Idle? || feed[i].phase.Error? || feed[i].phase.Unsupported?)
    && (forall i :: 0 <= i < |feed| && feed[i].FreezeCleared? ==> feed[i].requested)
  }

  ghost predicate CheckOk(c: Controller, feed: seq<Entry>, clock: nat) {
    && Spaced(feed) && LastCheckIs(feed, c.lastCheck) && c.lastCheck <= clock
    && (c.check.CheckAwaitsUpdater? ==> c.lastCheck == 0 || clock - c.lastCheck >= MIN_CHECK_INTERVAL_MS)
  }

  ghost predicate InstallOk(c: Controller, h: History) {
    && |h.installs| == h.installFailures + (if c.installStarted then 1 else 0)
    && (c.installStarted ==> c.current.phase.Ready?)
    && forall p :: p in h.installs ==> p.Ready?
  }

  ghost predicate Inv(w: World) {
    && w.clock > 0
    && StateOk(w.c.current)
    && (!Supported(w.c.env) ==> w.c.current.phase.Unsupported?)
    && w.h.downloads == (if w.c.download.DownloadAwaitsFile? then 1 else 0)
    && CheckOk(w.c, w.h.feed, w.clock)
    && InstallOk(w.c, w.h)
  }

  /** What every step keeps between two states of the controller. */
  ghost predicate Keeps(u: World, w: World) {
    && Inv(w) && w.c.env == u.c.env && w.clock >= u.clock
    && (u.c.current.phase.Ready? ==> w.c.current.phase.Ready?)
  }

  lemma ReduceKeepsState(s: UpdateState, e: Event, now: nat)
    requires StateOk(s) && (e.DownloadStart? ==> s.phase.Available? || s.phase.Unsupported?)
    ensures StateOk(ReduceUpdateState(s, e, now))
    ensures s.phase.Ready? || s.phase.Unsupported? ==> ReduceUpdateState(s, e, now).phase == s.phase
  {
  }

  lemma PushKeeps(w: World, e: Event)
    requires Inv(w) && (e.DownloadStart? ==> w.c.current.phase.Available?)
    ensures Keeps(w, w.(c := Push(w.c, e, w.clock)))
  {
    ReduceKeepsState(w.c.current, e, w.clock);
  }

  lemma FailKeeps(w: World, failure: Failure)
    requires Inv(w)
    ensures Keeps(w, Fail(w, failure))
  {
    var c := w.c.(installStarted := false);
    ReduceKeepsState(w.c.current, Failed(failure, w.c.checkWasRequested || w.c.installStarted, w.c.installStarted), w.clock);
  }

  lemma StartCheckKeeps(w: World, userInitiated: bool)
    requires Inv(w)
    ensures Keeps(w, StartCheck(w, userInitiated))
  {
  }

  lemma ResumeCheckKeeps(w: World, got: bool)
    requires Inv(w)
    ensures Keeps(w, ResumeCheck(w, got))
  {
  }

  lemma SettleFeedKeeps(w: World, error: Option<Failure>)
    requires Inv(w)
    ensures Keeps(w, SettleFeed(w, error))
  {
    if error.Some? {
      PushKeeps(w, Failed(error.value, w.c.checkWasRequested, false));
    }
  }

  lemma StartDownloadKeeps(w: World)
    requires Inv(w)
    ensures Keeps(w, StartDownload(w))
  {
  }

  lemma ResumeDownloadKeeps(w: World, got: bool)
    requires Inv(w)
    ensures Keeps(w, ResumeDownload(w, got))
  {
    if w.c.current.phase.Available? {
      PushKeeps(w, DownloadStart);
    }
  }

  lemma SettleDownloadKeeps(w: World, error: Option<Failure>)
    requires Inv(w)
    ensures Keeps(w, SettleDownload(w, error))
  {
    if error.Some? {
      PushKeeps(w, Failed(error.value, w.c.checkWasRequested, false));
    }
  }

  lemma InstallKeeps(w: World, got: bool, thrown: Option<Failure>)
    requires Inv(w)
    ensures Keeps(w, StartInstall(w)) && Keeps(w, ResumeInstall(w, got, thrown))
  {
    var c := if w.c.installing > 0 then w.c.(installing := w.c.installing - 1) else w.c;
    if w.c.installing > 0 && got && !c.installStarted && c.current.phase.Ready? {
      var v := w.(c := c.(installStarted := true, current := c.current.(message := None)),
                  h := w.h.(installs := w.h.installs + [c.current.phase]));
      assert Keeps(w, v);
      if thrown.Some? {
        FailKeeps(v, thrown.value);
      }
    }
  }

  lemma HearKeeps(w: World, a: Action)
    requires Inv(w)
    ensures Keeps(w, Hear(w, a))
  {
    match a
    case CheckingForUpdate => PushKeeps(w, CheckStart);
    case UpdateAvailable(version) =>
      if version.Some? {
        PushKeeps(w, Offer(version.value));
        StartDownloadKeeps(w.(c := Push(w.c, Offer(version.value), w.clock)));
      } else {
        PushKeeps(w, Failed(Other, w.c.checkWasRequested, false));
      }
    case UpdateNotAvailable => PushKeeps(w, NotAvailable);
    case DownloadProgress(percent) => if percent.Some? { PushKeeps(w, Progress(percent.value)); }
    case UpdateDownloaded(version) =>
      if version.Some? { PushKeeps(w, Downloaded(version.value)); } else { PushKeeps(w, Failed(Other, w.c.checkWasRequested, false)); }
    case UpdaterErrors(failure) => FailKeeps(w, failure);
    case _ =>
  }

  predicate IsUpdaterCall(a: Action) {
    a.Install? || a.InstallResumes? || a.Loads? || a.LoadFails? || IsHeard(a)
  }

  predicate IsHeard(a: Action) {
    a.CheckingForUpdate? || a.UpdateAvailable? || a.UpdateNotAvailable? || a.DownloadProgress? || a.UpdateDownloaded? || a.UpdaterErrors?
  }

  lemma PromiseStepKeeps(w: World, a: Action)
    requires Inv(w) && !IsUpdaterCall(a)
    ensures Keeps(w, Serve(w, a))
  {
    match a
    case Check(userInitiated) => StartCheckKeeps(w, userInitiated);
    case CheckResumes(got) => ResumeCheckKeeps(w, got && w.c.loaded);
    case FeedSettles(error) => SettleFeedKeeps(w, error);
    case CheckClears =>
    case Download => StartDownloadKeeps(w);
    case DownloadResumes(got) => ResumeDownloadKeeps(w, got && w.c.loaded);
    case DownloadSettles(error) => SettleDownloadKeeps(w, error);
    case DownloadClears =>
  }

  lemma UpdaterStepKeeps(w: World, a: Action)
    requires Inv(w) && IsUpdaterCall(a)
    ensures Keeps(w, Serve(w, a))
  {
    hide Hear, StartInstall, ResumeInstall, Push;
    if IsHeard(a) {
      HearKeeps(w, a);
    } else {
      match a
      case Install => InstallKeeps(w, false, None);
      case InstallResumes(got, thrown) => InstallKeeps(w, got && w.c.loaded, thrown);
      case Loads =>
      case LoadFails(failure) => PushKeeps(w, Failed(failure, w.c.checkWasRequested, false));
    }
  }

  lemma TickKeeps(w: World, tick: nat, x: World)
    requires Inv(w)
    ensures Inv(w.(clock := w.clock + tick))
    ensures Keeps(w.(clock := w.clock + tick), x) ==> Keeps(w, x)
  {
  }

  lemma StepKeeps(w: World, a: Action, tick: nat)
    requires Inv(w)
    ensures Keeps(w, Do(w, a, tick))
  {
    hide Inv, Keeps, Serve;
    var v := w.(clock := w.clock + tick);
    TickKeeps(w, tick, Serve(v, a));
    if IsUpdaterCall(a) {
      UpdaterStepKeeps(v, a);
    } else {
      PromiseStepKeeps(v, a);
    }
  }

  lemma {:induction false} RunKeepsInv(env: Environment, start: nat, actions: seq<(Action, nat)>)
    requires start > 0
    ensures Inv(Run(Initial(env, start), actions)) && Run(Initial(env, start), actions).c.env == env
  {
    if actions != [] {
      var last := actions[|actions| - 1];
      RunKeepsInv(env, start, actions[..|actions| - 1]);
      StepKeeps(Run(Initial(env, start), actions[..|actions| - 1]), last.0, last.1);
    }
  }

  // --- what holds in every run -------------------------------------------------------

  /** Whatever the order of calls, settlements and late updater events: offers carry a version, percentages are
      percentages, at most one download is under way, an install is only ever started on a verified download and
      once more than installs failed, and an install without update support stays without. */
  lemma EveryRunIsOrderly(env: Environment, start: nat, actions: seq<(Action, nat)>)
    requires start > 0
    ensures var w := Run(Initial(env, start), actions);
      && StateOk(w.c.current)
      && w.h.downloads <= 1
      && |w.h.installs| <= w.h.installFailures + 1 && (forall p :: p in w.h.installs ==> p.Ready?)
      && (!Supported(env) ==> w.c.current.phase.Unsupported?)
  {
    RunKeepsInv(env, start, actions);
  }

  /** Two feed checks in a row are at least the interval apart, unless a requested check cleared an empty-feed
      freeze between them; and no check replaces an offer. */
  lemma FeedChecksAreSpaced(env: Environment, start: nat, actions: seq<(Action, nat)>)
    requires start > 0
    ensures Spaced(Run(Initial(env, start), actions).h.feed)
  {
    RunKeepsInv(env, start, actions);
  }

  lemma LastStepKeeps(w: World, actions: seq<(Action, nat)>)
    requires actions != [] && Inv(Run(w, actions[..|actions| - 1]))
    ensures Keeps(Run(w, actions[..|actions| - 1]), Run(w, actions))
  {
    var last := actions[|actions| - 1];
    StepKeeps(Run(w, actions[..|actions| - 1]), last.0, last.1);
  }

  /** A verified download stays installable. */
  lemma {:induction false} ReadyIsNeverLeft(env: Environment, start: nat, actions: seq<(Action, nat)>, more: seq<(Action, nat)>)
    requires start > 0 && Run(Initial(env, start), actions).c.current.phase.Ready?
    ensures Run(Initial(env, start), actions + more).c.current.phase.Ready?
    decreases |more|
  {
    if more == [] {
      assert actions + more == actions;
    } else {
      var all, shorter := actions + more, more[..|more| - 1];
      ReadyIsNeverLeft(env, start, actions, shorter);
      assert all[..|all| - 1] == actions + shorter;
      RunKeepsInv(env, start, actions + shorter);
      LastStepKeeps(Initial(env, start), all);
    }
  }

  // --- what one step may do ----------------------------------------------------------

  /** An empty feed freezes the updater until a check that somebody asked for. */
  lemma OnlyARequestUnfreezes(w: World, a: Action, tick: nat)
    requires w.c.current.phase.Unsupported?
    ensures var v := Do(w, a, tick);
      !v.c.current.phase.Unsupported? ==>
        a.Check? && (a.userInitiated || w.c.checkWasRequested) && Supported(w.c.env)
        && v.c.current.phase.Idle? && v.c.lastCheck == 0 && v.c.check == CheckAwaitsUpdater(true)
  {
    if IsHeard(a) {
      HearFrozen(w.(clock := w.clock + tick), a);
    }
  }

  lemma HearFrozen(w: World, a: Action)
    requires w.c.current.phase.Unsupported?
    ensures Hear(w, a).c.current == w.c.current
  {
  }

  predicate IsFailure(a: Action) {
    a.UpdaterErrors? || (a.DownloadSettles? && a.error.Some?) || a.LoadFails?
    || (a.UpdateAvailable? && a.version.None?) || (a.UpdateDownloaded? && a.version.None?)
  }

  /** A download under way is displayed until it is ready or fails: neither checks nor new offers disturb it, and
      even a failure keeps the version that was offered. */
  lemma DownloadIsNotDisturbed(w: World, a: Action, tick: nat)
    requires w.c.current.phase.Downloading?
    ensures var s, v := w.c.current, Do(w, a, tick).c.current;
      && (v.phase.Downloading? || v.phase.Ready? || (IsFailure(a) && (v.phase.Idle? || v.phase.Error?)))
      && (v.phase.Ready? ==> a.UpdateDownloaded? && v.availableVersion == a.version)
      && (!v.phase.Ready? ==> v.availableVersion == s.availableVersion)
  {
    if IsHeard(a) {
      HearDownloading(w.(clock := w.clock + tick), a);
    }
  }

  lemma HearDownloading(w: World, a: Action)
    requires w.c.current.phase.Downloading?
    ensures var s, v := w.c.current, Hear(w, a).c.current;
      && (v.phase.Downloading? || v.phase.Ready? || (IsFailure(a) && (v.phase.Idle? || v.phase.Error?)))
      && (v.phase.Ready? ==> a.UpdateDownloaded? && v.availableVersion == a.version)
      && (!v.phase.Ready? ==> v.availableVersion == s.availableVersion)
  {
  }

  /** Late progress, and a failure of a check that is no longer displayed, change nothing. */
  lemma LateEventsChangeNothing(w: World, percent: Option<real>, failure: Failure, tick: nat)
    ensures !w.c.current.phase.Available? && !w.c.current.phase.Downloading? ==>
      Do(w, DownloadProgress(percent), tick).c.current == w.c.current
    ensures !w.c.current.phase.Idle? && !w.c.current.phase.Checking? ==>
      Do(w, FeedSettles(Some(failure)), tick).c.current == w.c.current
  {
  }

  /** A failed install keeps the verified download, says so, and can be tried again. */
  lemma InstallCanBeRetried(w: World, failure: Failure, tick: nat)
    requires w.c.current.phase.Ready? && w.c.loaded && w.c.installStarted
    ensures var v := Do(w, UpdaterErrors(failure), tick);
      && v.c.current == w.c.current.(message := v.c.current.message) && v.c.current.message.Some?
      && !v.c.installStarted && v.h.installFailures == w.h.installFailures + 1
      && Do(v, Install, 0).c.installing == w.c.installing + 1
  {
    hide Serve, Fail;
    var u := w.(clock := w.clock + tick);
    ErrorServed(u, failure);
    FailedInstall(u, failure);
    InstallServed(Fail(u, failure));
  }

  lemma ErrorServed(u: World, failure: Failure)
    requires u.c.loaded
    ensures Serve(u, UpdaterErrors(failure)) == Fail(u, failure)
  {
  }

  lemma FailedInstall(u: World, failure: Failure)
    requires u.c.current.phase.Ready? && u.c.installStarted
    ensures var v := Fail(u, failure);
      && v.c.current == u.c.current.(message := v.c.current.message) && v.c.current.message.Some?
      && v.c == u.c.(current := v.c.current, checkWasRequested := false, installStarted := false)
      && v.h.installFailures == u.h.installFailures + 1
  {
  }

  lemma InstallServed(v: World)
    requires v.c.current.phase.Ready? && !v.c.installStarted
    ensures Do(v, Install, 0).c.installing == v.c.installing + 1
  {
  }

  // --- the controller as an object ---------------------------------------------------

  lemma DownloadsOfRun(env: Environment, start: nat, actions: seq<(Action, nat)>)
    requires start > 0
    ensures var w := Run(Initial(env, start), actions); w.h.downloads == if w.c.download.DownloadAwaitsFile? then 1 else 0
  {
    RunKeepsInv(env, start, actions);
  }

  class DesktopUpdateController {
    const env: Environment
    var current: UpdateState
    var lastCheck: nat
    var loaded: bool
    var checkPromise: CheckPromise
    var downloadPromise: DownloadPromise
    var checkWasRequested: bool
    var installStarted: bool
    var installing: nat
    ghost var h: History
    ghost var clock: nat
    ghost const start: nat
    /** The calls, settlements and events so far, each with the time before it. */
    ghost var history: seq<(Action, nat)>

    constructor (env: Environment, ghost now: nat)
      requires now > 0
      ensures Valid() && Snapshot() == Initial(env, now) && history == []
    {
      start, history := now, [];
      this.env, current := env, InitialUpdateState(env);
      lastCheck, loaded, checkPromise, downloadPromise, checkWasRequested, installStarted, installing := 0, false, NoCheck, NoDownload, false, false, 0;
      h, clock := History([], 0, [], 0), now;
    }

    ghost function Snapshot(): World
      reads this
    {
      World(Controller(env, current, lastCheck, loaded, checkPromise, downloadPromise, checkWasRequested, installStarted, installing), h, clock)
    }

    /** The object is where a run of the machine ends, so what holds of every run holds of it. */
    ghost predicate Valid()
      reads this
    {
      start > 0 && Snapshot() == Run(Initial(env, start), history)
    }

    ghost method Record(a: Action, tick: nat)
      modifies `history
      ensures history == old(history) + [(a, tick)]
      ensures Run(Initial(env, start), history) == Do(Run(Initial(env, start), old(history)), a, tick)
    {
      history := history + [(a, tick)];
      assert history[..|history| - 1] == old(history);
    }

    method PushEvent(e: Event, now: nat)
      requires now == clock
      modifies this`current, this`checkWasRequested
      ensures Snapshot() == old(Snapshot()).(c := Push(old(Snapshot()).c, e, now))
    {
      current := ReduceUpdateState(current, e, now);
      if e.NotAvailable? || e.Downloaded? || e.Failed? {
        checkWasRequested := false;
      }
    }

    method Check(userInitiated: bool, now: nat)
      requires Valid() && now >= clock
      modifies this
      ensures Valid() && history == old(history) + [(Action.Check(userInitiated), now - old(clock))]
      ensures Snapshot() == Do(old(Snapshot()), Action.Check(userInitiated), now - old(clock))
    {
      hide Run, Initial;
      Record(Action.Check(userInitiated), now - clock);
      clock := now;
      if userInitiated { checkWasRequested := true; }
      if !checkPromise.NoCheck? { return; }
      var requested, supported := checkWasRequested, Supported(env);
      if !ShouldCheck(current, now, lastCheck, requested, supported) {
        checkPromise := CheckSettled;
        return;
      }
      if current.phase.Unsupported? && supported {
        current := current.(phase := Idle, availableVersion := None, percent := None, message := None);
        lastCheck := 0;
        h := h.(feed := h.feed + [FreezeCleared(requested)]);
      }
      checkPromise := CheckAwaitsUpdater(requested);
    }

    /** The check goes on with the updater, or without. */
    method CheckResumes(got: bool, now: nat)
      requires Valid() && now >= clock && checkPromise.CheckAwaitsUpdater? && (got ==> loaded)
      modifies this
      ensures Valid() && history == old(history) + [(Action.CheckResumes(got), now - old(clock))]
      ensures Snapshot() == Do(old(Snapshot()), Action.CheckResumes(got), now - old(clock))
    {
      hide Run, Initial;
      Record(Action.CheckResumes(got), now - clock);
      clock := now;
      if !got || !ShouldCheck(current, now, lastCheck, checkPromise.userInitiated, Supported(env)) {
        checkPromise := CheckSettled;
        return;
      }
      lastCheck := now;
      h := h.(feed := h.feed + [FeedChecked(now, current.phase)]);
      checkPromise := CheckAwaitsFeed;
    }

    method FeedSettles(error: Option<Failure>, now: nat)
      requires Valid() && now >= clock && checkPromise.CheckAwaitsFeed?
      modifies this
      ensures Valid() && history == old(history) + [(Action.FeedSettles(error), now - old(clock))]
      ensures Snapshot() == Do(old(Snapshot()), Action.FeedSettles(error), now - old(clock))
    {
      hide Run, Initial;
      Record(Action.FeedSettles(error), now - clock);
      clock := now;
      if error.Some? && (current.phase.Idle? || current.phase.Checking?) {
        PushEvent(Failed(error.value, checkWasRequested, false), now);
      }
      checkPromise := CheckSettled;
    }

    method Download(now: nat)
      requires Valid() && now >= clock
      modifies this
      ensures Valid() && history == old(history) + [(Action.Download, now - old(clock))]
      ensures Snapshot() == Do(old(Snapshot()), Action.Download, now - old(clock))
    {
      hide Run, Initial;
      Record(Action.Download, now - clock);
      clock := now;
      BeginDownload();
    }

    method BeginDownload()
      modifies `downloadPromise
      ensures Snapshot() == StartDownload(old(Snapshot()))
    {
      if !downloadPromise.NoDownload? { return; }
      downloadPromise := if current.phase.Available? then DownloadAwaitsUpdater else DownloadSettled;
    }

    method DownloadResumes(got: bool, now: nat)
      requires Valid() && now >= clock && downloadPromise.DownloadAwaitsUpdater? && (got ==> loaded)
      modifies this
      ensures Valid() && history == old(history) + [(Action.DownloadResumes(got), now - old(clock))]
      ensures Snapshot() == Do(old(Snapshot()), Action.DownloadResumes(got), now - old(clock))
      ensures h.downloads <= 1
    {
      hide Run, Initial;
      Record(Action.DownloadResumes(got), now - clock);
      DownloadsOfRun(env, start, history);
      clock := now;
      if !got || !current.phase.Available? {
        downloadPromise := DownloadSettled;
        return;
      }
      PushEvent(DownloadStart, now);
      h := h.(downloads := h.downloads + 1);
      downloadPromise := DownloadAwaitsFile;
    }

    method DownloadSettles(error: Option<Failure>, now: nat)
      requires Valid() && now >= clock && downloadPromise.DownloadAwaitsFile?
      modifies this
      ensures Valid() && history == old(history) + [(Action.DownloadSettles(error), now - old(clock))]
      ensures Snapshot() == Do(old(Snapshot()), Action.DownloadSettles(error), now - old(clock))
    {
      hide Run, Initial, Fail, Hear, ReduceUpdateState;
      DownloadsOfRun(env, start, history);
      Record(Action.DownloadSettles(error), now - clock);
      clock := now;
      if error.Some? && current.phase.Downloading? {
        PushEvent(Failed(error.value, checkWasRequested, false), now);
      }
      h := h.(downloads := h.downloads - 1);
      downloadPromise := DownloadSettled;
    }

    method Install(now: nat)
      requires Valid() && now >= clock
      modifies this
      ensures Valid() && history == old(history) + [(Action.Install, now - old(clock))]
      ensures Snapshot() == Do(old(Snapshot()), Action.Install, now - old(clock))
    {
      hide Run, Initial;
      Record(Action.Install, now - clock);
      clock := now;
      if installStarted || !current.phase.Ready? { return; }
      installing := installing + 1;
    }

    /** An install call goes on; `thrown` is what `quitAndInstall` throws. */
    method InstallResumes(got: bool, thrown: Option<Failure>, now: nat)
      requires Valid() && now >= clock && installing > 0 && (got ==> loaded)
      modifies this
      ensures Valid() && history == old(history) + [(Action.InstallResumes(got, thrown), now - old(clock))]
      ensures Snapshot() == Do(old(Snapshot()), Action.InstallResumes(got, thrown), now - old(clock))
    {
      hide Run, Initial, Fail, Hear, ReduceUpdateState;
      Record(Action.InstallResumes(got, thrown), now - clock);
      clock := now;
      installing := installing - 1;
      if !got || installStarted || !current.phase.Ready? { return; }
      installStarted := true;
      h := h.(installs := h.installs + [current.phase]);
      current := current.(message := None);
      if thrown.Some? {
        FailWith(thrown.value, now);
      }
    }

    method FailWith(failure: Failure, now: nat)
      requires now == clock
      modifies `current, `checkWasRequested, `installStarted, `h
      ensures Snapshot() == Fail(old(Snapshot()), failure)
    {
      var installFailed := installStarted;
      if installFailed {
        installStarted := false;
        h := h.(installFailures := h.installFailures + 1);
      }
      PushEvent(Failed(failure, checkWasRequested || installFailed, installFailed), now);
    }

    /** The updater's `update-available`. */
    method UpdateAvailable(version: Option<string>, now: nat)
      requires Valid() && now >= clock && loaded
      modifies this
      ensures Valid() && history == old(history) + [(Action.UpdateAvailable(version), now - old(clock))]
      ensures Snapshot() == Do(old(Snapshot()), Action.UpdateAvailable(version), now - old(clock))
    {
      hide Run, Initial;
      Record(Action.UpdateAvailable(version), now - clock);
      clock := now;
      if version.None? {
        PushEvent(Failed(Other, checkWasRequested, false), now);
        return;
      }
      PushEvent(Offer(version.value), now);
      BeginDownload();
    }

    /** The updater's `update-downloaded`. */
    method UpdateDownloaded(version: Option<string>, now: nat)
      requires Valid() && now >= clock && loaded
      modifies this
      ensures Valid() && history == old(history) + [(Action.UpdateDownloaded(version), now - old(clock))]
      ensures Snapshot() == Do(old(Snapshot()), Action.UpdateDownloaded(version), now - old(clock))
    {
      hide Run, Initial;
      Record(Action.UpdateDownloaded(version), now - clock);
      clock := now;
      if version.Some? {
        PushEvent(Downloaded(version.value), now);
      } else {
        PushEvent(Failed(Other, checkWasRequested, false), now);
      }
    }
  }
}
