/**
 * Properties of the terminal-pane controller over whole runs: every event the
 * controller reacts to, the invariant that every reachable state keeps, its
 * consequences for reachable states, and what the maximized flag says about the
 * divider's position.
 */
module PaneProperties {
  import opened Wrappers
  import opened PaneModel

  /** Everything that makes the controller act. */
  datatype Event =
    | ToggleAction(env: Env)             // the toggle action, or a click on the divider
    | ShowButton(env: Env)               // the divider's left one-touch button
    | HideButton(env: Env)               // the divider's right one-touch button
    | FocusGain(activeFolder: string, writeOk: bool)   // the terminal panel gains focus
    | DividerDrag(location: int, maxDivider: int)      // the user moves the divider
    | KeyPress(pressed: KeyStroke, accelerator: Option<KeyStroke>,
               alternateAccelerator: Option<KeyStroke>, env: Env)
    | PreferenceChange(pref: Preference, useCustomShell: bool, visible: bool, env: Env)
    | ShellExit                          // the session's shell process ends

  /** One event. Focus and key events come from the session's widget, so without
      a session there is nothing to deliver them and they change nothing. */
  function Step(s: Pane, e: Event): Pane {
    match e
    case ToggleAction(env) => ToggleTerminal(s, env)
    case ShowButton(env) => ShowTerminal(s, env)
    case HideButton(env) => HideTerminal(s, env)
    case FocusGain(folder, ok) => if s.terminal.Some? then SyncCwd(s, folder, ok) else s
    case DividerDrag(location, maxDivider) => SetDividerLocation(s, location, maxDivider)
    case KeyPress(k, a, alt, env) => if s.terminal.Some? then KeyPressed(s, k, a, alt, env).0 else s
    case PreferenceChange(pref, use, visible, env) => ConfigurationChanged(s, pref, use, visible, env)
    case ShellExit => Disconnect(s)
  }

  function Run(s: Pane, events: seq<Event>): Pane
    decreases |events|
  {
    if events == [] then s else Run(Step(s, events[0]), events[1..])
  }

  /** The states the controller can be in after construction and any events. */
  ghost predicate Reachable(s: Pane) {
    exists sep: string, divider: int, events: seq<Event> :: s == Run(Init(sep, divider), events)
  }

  /** What holds in every reachable state:
      - the pane is only maximized while there is a session;
      - at most one created session is still running, and it is the one held;
      - the held session was created by the controller;
      - the mirrored directory is the one the held session's shell was last sent to. */
  ghost predicate Inv(s: Pane) {
    && (s.terminalMaximized ==> s.terminal.Some?)
    && s.live == (if s.terminal.Some? && s.terminal.value.connected then {s.terminal.value.id} else {})
    && (s.terminal.Some? ==>
          && s.terminal.value.id < s.sessionCount
          && s.cwd == Some(ShellDir(s.terminal.value, s.lineSeparator)))
  }

  lemma InitInv(sep: string, divider: int)
    ensures Inv(Init(sep, divider))
  {
  }

  lemma SyncCwdInv(s: Pane, newCwd: string, writeOk: bool)
    requires Inv(s) && s.terminal.Some?
    ensures Inv(SyncCwd(s, newCwd, writeOk))
  {
    var r := SyncCwd(s, newCwd, writeOk);
    if r != s {
      var cmd := ChangeDirCommand(newCwd, s.lineSeparator);
      var input := r.terminal.value.input;
      assert input[|input| - 1] == cmd;
      ParseChangeDirRoundTrip(newCwd, s.lineSeparator);
      assert ShellDir(r.terminal.value, r.lineSeparator) == newCwd;
    }
  }

  lemma HideInv(s: Pane, env: Env)
    requires Inv(s)
    ensures Inv(HideTerminal(s, env))
  {
  }

  lemma ShowInv(s: Pane, env: Env)
    requires Inv(s)
    ensures Inv(ShowTerminal(s, env))
  {
    if NeedsNewSession(s) {
      if !env.createOk { HideInv(s, env); }
    } else {
      SyncCwdInv(s, env.activeFolder, env.writeOk);
    }
  }

  lemma DisconnectInv(s: Pane)
    requires Inv(s)
    ensures Inv(Disconnect(s))
  {
  }

  lemma StepInv(s: Pane, e: Event)
    requires Inv(s)
    ensures Inv(Step(s, e))
  {
    match e
    case ToggleAction(env) =>
      if !s.terminalMaximized || s.terminal.None? { ShowInv(s, env); } else { HideInv(s, env); }
    case ShowButton(env) => ShowInv(s, env);
    case HideButton(env) => HideInv(s, env);
    case FocusGain(folder, ok) => if s.terminal.Some? { SyncCwdInv(s, folder, ok); }
    case DividerDrag(location, maxDivider) =>
    case KeyPress(k, a, alt, env) => if s.terminal.Some? { HideInv(s, env); }
    case PreferenceChange(pref, use, visible, env) =>
      if AffectsShell(pref, use) && s.terminal.Some? {
        DisconnectInv(s);
        ShowInv(Disconnect(s), env);
      }
    case ShellExit => DisconnectInv(s);
  }

  lemma {:induction false} RunInv(s: Pane, events: seq<Event>)
    requires Inv(s)
    ensures Inv(Run(s, events))
    decreases |events|
  {
    if events != [] {
      StepInv(s, events[0]);
      RunInv(Step(s, events[0]), events[1..]);
    }
  }

  lemma ReachableInv(s: Pane)
    requires Reachable(s)
    ensures Inv(s)
  {
    var sep: string, divider: int, events: seq<Event> :| s == Run(Init(sep, divider), events);
    InitInv(sep, divider);
    RunInv(Init(sep, divider), events);
  }

  /** Wherever the invariant holds, and so in every reachable state, toggling
      shows the terminal when it is not maximized and hides it when it is: the
      `terminal == null` test of toggleTerminal never decides anything on its own. */
  lemma ToggleByFlag(s: Pane, env: Env)
    requires Inv(s)
    ensures ToggleTerminal(s, env) == if s.terminalMaximized then HideTerminal(s, env) else ShowTerminal(s, env)
  {
  }

  /** Showing twice without a hide or a disconnect in between creates no second
      session: the second call keeps the session and only synchronises the directory. */
  lemma ShowTwiceKeepsSession(s: Pane, env1: Env, env2: Env)
    requires !NeedsNewSession(s) || env1.createOk
    ensures var once := ShowTerminal(s, env1);
      var twice := ShowTerminal(once, env2);
      && twice.terminal.Some? && twice.terminal.value.id == once.terminal.value.id
      && twice.sessionCount == once.sessionCount
      && twice.terminal == SyncCwd(once, env2.activeFolder, env2.writeOk).terminal
      && twice.cwd == SyncCwd(once, env2.activeFolder, env2.writeOk).cwd
  {
  }

  /** At most one created session is running at any time, and it is the one the
      controller holds: no session is ever dropped or replaced while its shell runs. */
  lemma AtMostOneRunningSession(s: Pane)
    requires Reachable(s)
    ensures |s.live| <= 1
    ensures forall id :: id in s.live ==>
      s.terminal.Some? && s.terminal.value.id == id && s.terminal.value.connected
  {
    ReachableInv(s);
  }

  /** In a reachable state with a session, the mirrored directory is where the
      session's shell was last sent; after a successful synchronisation it is the
      active folder, and synchronising again to the same folder writes nothing. */
  lemma SyncCwdReachesFolder(s: Pane, folder: string, ok: bool)
    requires Inv(s) && s.terminal.Some?
    ensures var r := SyncCwd(s, folder, true);
      && ShellDir(r.terminal.value, r.lineSeparator) == folder
      && SyncCwd(r, folder, ok) == r
  {
    SyncCwdInv(s, folder, true);
  }

  // ---------------------------------------------------------------------------
  // Concrete runs

  /** A session created in "/home/x"; focusing it while the active folder is
      "/home/y" writes exactly one command, and a second focus writes nothing. */
  lemma FocusSyncExample()
    ensures var env := Env("/home/x", 1000, 990, true, true);
      var shown := Run(Init("\n", 700), [ToggleAction(env)]);
      var once := Step(shown, FocusGain("/home/y", true));
      var twice := Step(once, FocusGain("/home/y", true));
      && shown.terminal == Some(Session(0, true, "/home/x", []))
      && once.terminal.value.input == [" cd \"/home/y\"\n"]
      && twice == once
  {
    var env := Env("/home/x", 1000, 990, true, true);
    var shown := Step(Init("\n", 700), ToggleAction(env));
    assert Run(Init("\n", 700), [ToggleAction(env)]) == Run(shown, []);
    assert shown.cwd == Some("/home/x");
    assert ChangeDirCommand("/home/y", "\n") == " cd \"/home/y\"\n";
  }

  /** With a maximum divider location of 1000 the threshold is 300: a drag to 299
      or to exactly 300 maximizes the terminal, a drag to 301 minimizes it. */
  lemma DividerThresholdExample(s: Pane)
    requires s.terminal.Some?
    ensures DividerLocationChanged(s, 299, 1000).terminalMaximized
    ensures DividerLocationChanged(s, 300, 1000).terminalMaximized
    ensures DividerLocationChanged(s, 300, 1000).lastMaxDividerLocation == 300
    ensures !DividerLocationChanged(s, 301, 1000).terminalMaximized
    ensures DividerLocationChanged(s, 301, 1000).lastMinDividerLocation == 301
  {
  }

  /** With a pane height of 1000, a remembered minimized location of 250 is too
      close to the top and hiding falls back to the maximum location; 500 is kept. */
  lemma HideFallbackExample()
    ensures HideLocation(250, 1000, 990) == 990
    ensures HideLocation(500, 1000, 990) == 500
    ensures HideLocation(0, 1000, 990) == 990 && HideLocation(1001, 1000, 990) == 990
  {
  }

  /** A drag without a session leaves the flag false although the divider is in
      the maximized region: the flag tracks the divider only while a session exists. */
  lemma DragWithoutSessionExample()
    ensures var r := Step(Init("\n", 700), DividerDrag(0, 1000));
      r.dividerLocation == 0 && !Exceeds30Percent(r.dividerLocation, 1000) && !r.terminalMaximized
  {
  }

  /** showTerminal's own setDividerLocation goes through the divider listener, so
      a programmatic show can change the remembered minimized location. Here the
      maximized location 200 is remembered while the maximum divider location is
      990; after the pane shrinks to a maximum of 500, showing again moves the
      divider to 200, which the listener reads as a minimized location: it is
      remembered as such, and the pane ends maximized with the divider above 30%. */
  lemma ShowCanMoveRememberedLocation()
    ensures var large := Env("/", 1000, 990, true, true);
      var small := Env("/", 510, 500, true, true);
      var before := Run(Init("\n", 700), [ShowButton(large), DividerDrag(200, 990), HideButton(large)]);
      var r := ShowTerminal(before, small);
      && before.lastMaxDividerLocation == 200 && before.lastMinDividerLocation == 990
      && r.lastMinDividerLocation == 200 && r.terminalMaximized
      && r.dividerLocation == 200 && Exceeds30Percent(r.dividerLocation, small.maxDivider)
  {
    var large := Env("/", 1000, 990, true, true);
    var s0 := Init("\n", 700);
    var s1 := Step(s0, ShowButton(large));
    var s2 := Step(s1, DividerDrag(200, 990));
    var s3 := Step(s2, HideButton(large));
    assert Run(s0, [ShowButton(large), DividerDrag(200, 990), HideButton(large)])
        == Run(s1, [DividerDrag(200, 990), HideButton(large)]);
    assert Run(s1, [DividerDrag(200, 990), HideButton(large)]) == Run(s2, [HideButton(large)]);
    assert Run(s2, [HideButton(large)]) == Run(s3, []);
  }

  // ---------------------------------------------------------------------------
  // The maximized flag and the divider position

  /** The event uses one maximum divider location and one pane height. */
  predicate HasGeometry(e: Event, maxDivider: int, height: int) {
    match e
    case ToggleAction(env) => env.maxDivider == maxDivider && env.height == height
    case ShowButton(env) => env.maxDivider == maxDivider && env.height == height
    case HideButton(env) => env.maxDivider == maxDivider && env.height == height
    case FocusGain(_, _) => true
    case DividerDrag(_, m) => m == maxDivider
    case KeyPress(_, _, _, env) => env.maxDivider == maxDivider && env.height == height
    case PreferenceChange(_, _, _, env) => env.maxDivider == maxDivider && env.height == height
    case ShellExit => true
  }

  /** While a session exists, the pane is maximized exactly when the divider is at
      most 30% of the maximum divider location, and the remembered maximized
      location is always in that region. */
  ghost predicate FlagMatchesDivider(s: Pane, maxDivider: int) {
    && !Exceeds30Percent(s.lastMaxDividerLocation, maxDivider)
    && (s.terminal.Some? ==> (s.terminalMaximized <==> !Exceeds30Percent(s.dividerLocation, maxDivider)))
  }

  lemma InitFlagMatchesDivider(sep: string, divider: int, maxDivider: int)
    requires 0 < maxDivider
    ensures FlagMatchesDivider(Init(sep, divider), maxDivider)
  {
  }

  lemma HideFlagMatchesDivider(s: Pane, env: Env)
    requires 0 < env.maxDivider < env.height
    requires FlagMatchesDivider(s, env.maxDivider)
    ensures FlagMatchesDivider(HideTerminal(s, env), env.maxDivider)
    ensures Exceeds30Percent(HideTerminal(s, env).dividerLocation, env.maxDivider)
    ensures !HideTerminal(s, env).terminalMaximized
  {
    var loc := HideLocation(s.lastMinDividerLocation, env.height, env.maxDivider);
    assert Exceeds30Percent(loc, env.maxDivider);
  }

  lemma ShowFlagMatchesDivider(s: Pane, env: Env)
    requires 0 < env.maxDivider < env.height
    requires FlagMatchesDivider(s, env.maxDivider)
    ensures FlagMatchesDivider(ShowTerminal(s, env), env.maxDivider)
  {
    if NeedsNewSession(s) && !env.createOk {
      HideFlagMatchesDivider(s, env);
    }
  }

  lemma StepFlagMatchesDivider(s: Pane, e: Event, maxDivider: int, height: int)
    requires 0 < maxDivider < height && HasGeometry(e, maxDivider, height)
    requires FlagMatchesDivider(s, maxDivider)
    ensures FlagMatchesDivider(Step(s, e), maxDivider)
  {
    match e
    case ToggleAction(env) =>
      if !s.terminalMaximized || s.terminal.None? {
        ShowFlagMatchesDivider(s, env);
      } else {
        HideFlagMatchesDivider(s, env);
      }
    case ShowButton(env) => ShowFlagMatchesDivider(s, env);
    case HideButton(env) => HideFlagMatchesDivider(s, env);
    case FocusGain(_, _) =>
    case DividerDrag(_, _) =>
    case KeyPress(_, _, _, env) => if s.terminal.Some? { HideFlagMatchesDivider(s, env); }
    case PreferenceChange(pref, use, visible, env) =>
      if AffectsShell(pref, use) && s.terminal.Some? && visible {
        ShowFlagMatchesDivider(Disconnect(s), env);
      }
    case ShellExit =>
  }

  /** For every run whose events all see the same maximum divider location M and
      pane height H, with 0 < M < H, the flag keeps matching the divider. */
  lemma {:induction false} RunFlagMatchesDivider(s: Pane, events: seq<Event>, maxDivider: int, height: int)
    requires 0 < maxDivider < height
    requires forall i :: 0 <= i < |events| ==> HasGeometry(events[i], maxDivider, height)
    requires FlagMatchesDivider(s, maxDivider)
    ensures FlagMatchesDivider(Run(s, events), maxDivider)
    decreases |events|
  {
    if events != [] {
      StepFlagMatchesDivider(s, events[0], maxDivider, height);
      RunFlagMatchesDivider(Step(s, events[0]), events[1..], maxDivider, height);
    }
  }
}
