/** Option type used for the nullable Java references (`cwd`, `terminal`, accelerators). */
module Wrappers {
  datatype Option<T> = None | Some(value: T)
}

/**
 * The state and transitions of muCommander's terminal-pane controller
 * (class TerminalIntegration), written as values and functions. The functions
 * named after a method of the class in module TerminalPane specify that method;
 * the others are the steps and notions those functions are built from.
 */
module PaneModel {
  import opened Wrappers

  /** A terminal session (the JediTerm widget with its tty connector), kept abstract:
      an identity, whether its shell process is still connected, the directory it
      was created in, and every command the controller has written to its tty so far. */
  datatype Session = Session(id: nat, connected: bool, initialDir: string, input: seq<string>)

  /** The controller's fields, the split pane's current divider location, the
      platform line separator, and the bookkeeping of the sessions ever created:
      `sessionCount` of them, of which the ones in `live` are still running. */
  datatype Pane = Pane(
    terminal: Option<Session>,
    cwd: Option<string>,
    terminalMaximized: bool,
    lastMinDividerLocation: int,
    lastMaxDividerLocation: int,
    dividerLocation: int,
    lineSeparator: string,
    sessionCount: nat,
    live: set<nat>)

  /** What the controller queries from its surroundings during one operation. */
  datatype Env = Env(
    activeFolder: string,   // absolute path of the active panel's current folder
    height: int,            // verticalSplitPane.getHeight()
    maxDivider: int,        // verticalSplitPane.getMaximumDividerLocation()
    createOk: bool,         // TerminalWidget.createTerminal does not throw
    writeOk: bool)          // writing to the tty connector does not throw IOException

  /** A key stroke, compared by value as javax.swing.KeyStroke.equals does. */
  datatype KeyStroke = KeyStroke(keyChar: char, keyCode: int, modifiers: int, onKeyRelease: bool)

  /** The preference variables the shell configuration listener distinguishes. */
  datatype Preference = CustomShell | UseCustomShell | OtherPreference(name: string)

  /** The state after construction: no session, no mirrored directory, Java's
      default field values, and the split pane's initial divider location. */
  function Init(lineSeparator: string, dividerLocation: int): (s: Pane)
    ensures s.terminal.None? && s.cwd.None? && !s.terminalMaximized
    ensures s.lastMinDividerLocation == 0 && s.lastMaxDividerLocation == 0
    ensures s.dividerLocation == dividerLocation && s.lineSeparator == lineSeparator
    ensures s.live == {} && s.sessionCount == 0
  {
    Pane(None, None, false, 0, 0, dividerLocation, lineSeparator, 0, {})
  }

  // ---------------------------------------------------------------------------
  // The change-directory command (CHANGE_DIR_FORMAT)

  const ChangeDirPrefix: string := " cd \""

  /** The command written to the shell to move it to `path`: a leading space,
      `cd`, the path in double quotes, and the platform line separator. */
  function ChangeDirCommand(path: string, lineSeparator: string): string {
    ChangeDirPrefix + path + "\"" + lineSeparator
  }

  /** Recovers the path from a change-directory command; the inverse of ChangeDirCommand. */
  function ParseChangeDir(cmd: string, lineSeparator: string): (r: Option<string>)
    ensures r.Some? ==> ChangeDirCommand(r.value, lineSeparator) == cmd
  {
    var n := |ChangeDirPrefix|;
    var tail := "\"" + lineSeparator;
    if |cmd| >= n + |tail| && cmd[..n] == ChangeDirPrefix && cmd[|cmd| - |tail|..] == tail then
      var path := cmd[n..|cmd| - |tail|];
      assert cmd == cmd[..n] + path + cmd[|cmd| - |tail|..];
      Some(path)
    else
      None
  }

  lemma ParseChangeDirRoundTrip(path: string, lineSeparator: string)
    ensures ParseChangeDir(ChangeDirCommand(path, lineSeparator), lineSeparator) == Some(path)
  {
    var cmd := ChangeDirCommand(path, lineSeparator);
    var n := |ChangeDirPrefix|;
    var tail := "\"" + lineSeparator;
    assert cmd == ChangeDirPrefix + path + tail;
    assert cmd[..n] == ChangeDirPrefix;
    assert cmd[|cmd| - |tail|..] == tail;
    assert cmd[n..|cmd| - |tail|] == path;
  }

  /** Two different directories never produce the same command. */
  lemma ChangeDirCommandInjective(p: string, q: string, lineSeparator: string)
    requires ChangeDirCommand(p, lineSeparator) == ChangeDirCommand(q, lineSeparator)
    ensures p == q
  {
    ParseChangeDirRoundTrip(p, lineSeparator);
    ParseChangeDirRoundTrip(q, lineSeparator);
  }

  /** The directory the controller last told the shell of a session to move to:
      the path of the latest change-directory command in its input, or the
      directory it was created in. */
  function LastDir(initialDir: string, input: seq<string>, lineSeparator: string): (d: string)
    ensures d == initialDir || exists i :: 0 <= i < |input| && ParseChangeDir(input[i], lineSeparator) == Some(d)
    decreases |input|
  {
    if input == [] then initialDir
    else match ParseChangeDir(input[|input| - 1], lineSeparator)
      case Some(path) => path
      case None => LastDir(initialDir, input[..|input| - 1], lineSeparator)
  }

  function ShellDir(t: Session, lineSeparator: string): string {
    LastDir(t.initialDir, t.input, lineSeparator)
  }

  // ---------------------------------------------------------------------------
  // syncCWD

  /** syncCWD(newCwd): when the mirrored directory differs from `newCwd`, write one
      change-directory command; the mirror follows only if the write succeeded. */
  function SyncCwd(s: Pane, newCwd: string, writeOk: bool): (r: Pane)
    requires s.terminal.Some?
    ensures r.terminal.Some? && r.terminal.value.(input := s.terminal.value.input) == s.terminal.value
    ensures r.(terminal := s.terminal, cwd := s.cwd) == s
    ensures var before, after := s.terminal.value.input, r.terminal.value.input;
      if s.cwd != Some(newCwd) && writeOk
      then after == before + [ChangeDirCommand(newCwd, s.lineSeparator)]
      else after == before
    ensures r.cwd == Some(newCwd) <==> s.cwd == Some(newCwd) || writeOk
    ensures r.cwd != Some(newCwd) ==> r.cwd == s.cwd
  {
    if s.cwd.None? || s.cwd.value != newCwd then
      if writeOk then
        var t := s.terminal.value;
        s.(terminal := Some(t.(input := t.input + [ChangeDirCommand(newCwd, s.lineSeparator)])),
           cwd := Some(newCwd))
      else
        s
    else
      s
  }

  // ---------------------------------------------------------------------------
  // The divider

  /** `value > bound * TREAT_AS_MAXIMIZED` with the threshold taken as exactly 3/10. */
  predicate Exceeds30Percent(value: int, bound: int) {
    10 * value > 3 * bound
  }

  /** The divider-location property listener installed by prepareVerticalSplitPaneForTerminal. */
  function DividerLocationChanged(s: Pane, location: int, maxDivider: int): (r: Pane)
    ensures s.terminal.None? ==> r == s
    ensures r.(terminalMaximized := s.terminalMaximized,
               lastMinDividerLocation := s.lastMinDividerLocation,
               lastMaxDividerLocation := s.lastMaxDividerLocation) == s
    ensures s.terminal.Some? ==> (r.terminalMaximized <==> !Exceeds30Percent(location, maxDivider))
    ensures s.terminal.Some? && r.terminalMaximized ==>
      r.lastMaxDividerLocation == location && r.lastMinDividerLocation == s.lastMinDividerLocation
    ensures s.terminal.Some? && !r.terminalMaximized ==>
      r.lastMinDividerLocation == location && r.lastMaxDividerLocation == s.lastMaxDividerLocation
  {
    if s.terminal.None? then s
    else if Exceeds30Percent(location, maxDivider) then
      s.(lastMinDividerLocation := location, terminalMaximized := false)
    else
      s.(lastMaxDividerLocation := location, terminalMaximized := true)
  }

  /** JSplitPane.setDividerLocation: store the location and, when it differs from
      the previous one, notify the divider-location listener. */
  function SetDividerLocation(s: Pane, location: int, maxDivider: int): (r: Pane)
    ensures r.dividerLocation == location
    ensures s.dividerLocation == location ==> r == s
    ensures s.terminal.None? ==> r == s.(dividerLocation := location)
    ensures s.dividerLocation != location && s.terminal.Some? ==>
      && (r.terminalMaximized <==> !Exceeds30Percent(location, maxDivider))
      && (if r.terminalMaximized
          then r.lastMaxDividerLocation == location && r.lastMinDividerLocation == s.lastMinDividerLocation
          else r.lastMinDividerLocation == location && r.lastMaxDividerLocation == s.lastMaxDividerLocation)
    ensures r.(terminalMaximized := s.terminalMaximized,
               lastMinDividerLocation := s.lastMinDividerLocation,
               lastMaxDividerLocation := s.lastMaxDividerLocation,
               dividerLocation := s.dividerLocation) == s
  {
    var s1 := s.(dividerLocation := location);
    if s.dividerLocation == location then s1 else DividerLocationChanged(s1, location, maxDivider)
  }

  /** The location hideTerminal moves the divider to: the remembered minimized
      location, unless it is unset, below the pane, or within 30% of the top. */
  function HideLocation(lastMin: int, height: int, maxDivider: int): (loc: int)
    ensures 0 < lastMin <= height && 10 * lastMin >= 3 * height ==> loc == lastMin
    ensures lastMin <= 0 || lastMin > height || 10 * lastMin < 3 * height ==> loc == maxDivider
  {
    if lastMin <= 0 || lastMin > height || 10 * lastMin < 3 * height then maxDivider else lastMin
  }

  // ---------------------------------------------------------------------------
  // hideTerminal, getTerminal, showTerminal, toggleTerminal

  /** The session is gone or its shell has ended. */
  predicate NeedsNewSession(s: Pane) {
    s.terminal.None? || !s.terminal.value.connected
  }

  function HideTerminal(s: Pane, env: Env): (r: Pane)
    ensures !r.terminalMaximized
    ensures r.terminal.None? <==> NeedsNewSession(s)
    ensures !NeedsNewSession(s) ==> r.terminal == s.terminal
    ensures r.dividerLocation == HideLocation(s.lastMinDividerLocation, env.height, env.maxDivider)
    ensures r.cwd == s.cwd && r.live == s.live && r.sessionCount == s.sessionCount
    ensures r.lineSeparator == s.lineSeparator
    ensures r.lastMaxDividerLocation == s.lastMaxDividerLocation || r.lastMaxDividerLocation == r.dividerLocation
    ensures r.lastMinDividerLocation == s.lastMinDividerLocation || r.lastMinDividerLocation == r.dividerLocation
  {
    var s1 := if s.terminal.Some? && !s.terminal.value.connected then s.(terminal := None) else s;
    var loc := HideLocation(s.lastMinDividerLocation, env.height, env.maxDivider);
    SetDividerLocation(s1, loc, env.maxDivider).(terminalMaximized := false)
  }

  /** getTerminal(initialPath) when the factory succeeds: a fresh, connected session
      created in `initialPath`, which becomes the mirrored directory. */
  function GetTerminal(s: Pane, initialPath: string): (r: Pane)
    ensures r.terminal == Some(Session(s.sessionCount, true, initialPath, []))
    ensures r.cwd == Some(initialPath)
    ensures r.sessionCount == s.sessionCount + 1 && r.live == s.live + {s.sessionCount}
    ensures r.(terminal := s.terminal, cwd := s.cwd, sessionCount := s.sessionCount, live := s.live) == s
  {
    s.(terminal := Some(Session(s.sessionCount, true, initialPath, [])),
       cwd := Some(initialPath),
       sessionCount := s.sessionCount + 1,
       live := s.live + {s.sessionCount})
  }

  /** The end of a successful showTerminal: restore the maximized divider location. */
  function Maximize(s: Pane, maxDivider: int): (r: Pane)
    ensures r.terminalMaximized && r.dividerLocation == s.lastMaxDividerLocation
    ensures r.lastMaxDividerLocation == s.lastMaxDividerLocation
    ensures r.lastMinDividerLocation == s.lastMinDividerLocation
         || r.lastMinDividerLocation == s.lastMaxDividerLocation
    ensures r.terminal == s.terminal && r.cwd == s.cwd && r.live == s.live && r.sessionCount == s.sessionCount
    ensures r.lineSeparator == s.lineSeparator
  {
    SetDividerLocation(s, s.lastMaxDividerLocation, maxDivider).(terminalMaximized := true)
  }

  function ShowTerminal(s: Pane, env: Env): (r: Pane)
    ensures NeedsNewSession(s) && !env.createOk ==> r == HideTerminal(s, env)
    ensures NeedsNewSession(s) && env.createOk ==>
      && r.terminal == Some(Session(s.sessionCount, true, env.activeFolder, []))
      && r.cwd == Some(env.activeFolder)
      && r.sessionCount == s.sessionCount + 1 && r.live == s.live + {s.sessionCount}
    ensures !NeedsNewSession(s) ==>
      var synced := SyncCwd(s, env.activeFolder, env.writeOk);
      r.terminal == synced.terminal && r.cwd == synced.cwd
      && r.sessionCount == s.sessionCount && r.live == s.live
    ensures !NeedsNewSession(s) || env.createOk ==>
      && r.terminalMaximized && r.terminal.Some? && r.terminal.value.connected
      && r.dividerLocation == s.lastMaxDividerLocation
      && r.lastMaxDividerLocation == s.lastMaxDividerLocation
      && (r.lastMinDividerLocation == s.lastMinDividerLocation
          || r.lastMinDividerLocation == s.lastMaxDividerLocation)
    ensures r.lineSeparator == s.lineSeparator
  {
    var newCwd := env.activeFolder;
    if NeedsNewSession(s) then
      if env.createOk then Maximize(GetTerminal(s, newCwd), env.maxDivider)
      else HideTerminal(s, env)
    else
      Maximize(SyncCwd(s, newCwd, env.writeOk), env.maxDivider)
  }

  function ToggleTerminal(s: Pane, env: Env): (r: Pane)
    ensures !s.terminalMaximized || s.terminal.None? ==> r == ShowTerminal(s, env)
    ensures s.terminalMaximized && s.terminal.Some? ==> r == HideTerminal(s, env)
    ensures s.terminalMaximized && s.terminal.Some? ==> !r.terminalMaximized
    ensures !s.terminalMaximized ==> (r.terminalMaximized <==> !NeedsNewSession(s) || env.createOk)
  {
    if !s.terminalMaximized || s.terminal.None? then ShowTerminal(s, env) else HideTerminal(s, env)
  }

  // ---------------------------------------------------------------------------
  // Events delivered to the controller from outside

  /** The shell process of the current session ends (`exit` typed, process killed),
      or the session is closed: its tty connector reports disconnected from now on. */
  function Disconnect(s: Pane): (r: Pane)
    ensures r.terminal.Some? <==> s.terminal.Some?
    ensures s.terminal.Some? ==>
      r.terminal.value == s.terminal.value.(connected := false) && r.live == s.live - {s.terminal.value.id}
    ensures s.terminal.None? ==> r == s
    ensures r.(terminal := s.terminal, live := s.live) == s
  {
    match s.terminal
    case None => s
    case Some(t) => s.(terminal := Some(t.(connected := false)), live := s.live - {t.id})
  }

  /** The key listener returned by termCloseKeyHandler: the result's second
      component says whether the key event was consumed. */
  function KeyPressed(s: Pane, pressed: KeyStroke, accelerator: Option<KeyStroke>,
                      alternateAccelerator: Option<KeyStroke>, env: Env): (r: (Pane, bool))
    requires s.terminal.Some?
    ensures r.1 <==> accelerator == Some(pressed) || alternateAccelerator == Some(pressed)
    ensures r.1 || !s.terminal.value.connected ==> r.0 == HideTerminal(s, env)
    ensures !r.1 && s.terminal.value.connected ==> r.0 == s
  {
    if accelerator == Some(pressed) || alternateAccelerator == Some(pressed) then
      (HideTerminal(s, env), true)
    else if !s.terminal.value.connected then
      (HideTerminal(s, env), false)
    else
      (s, false)
  }

  /** Whether a change of `pref` concerns the shell the terminal runs; for
      CUSTOM_SHELL only while USE_CUSTOM_SHELL is on (the switch falls through). */
  predicate AffectsShell(pref: Preference, useCustomShell: bool) {
    pref.UseCustomShell? || (pref.CustomShell? && useCustomShell)
  }

  /** The shell ConfigurationListener: close the session and, when its widget is
      visible, show the terminal again so that it runs the newly selected shell. */
  function ConfigurationChanged(s: Pane, pref: Preference, useCustomShell: bool,
                                visible: bool, env: Env): (r: Pane)
    ensures !AffectsShell(pref, useCustomShell) || s.terminal.None? ==> r == s
    ensures AffectsShell(pref, useCustomShell) && s.terminal.Some? && !visible ==> r == Disconnect(s)
    ensures AffectsShell(pref, useCustomShell) && s.terminal.Some? && visible ==>
      r == ShowTerminal(Disconnect(s), env)
  {
    if !AffectsShell(pref, useCustomShell) || s.terminal.None? then s
    else
      var closed := Disconnect(s);
      if visible then ShowTerminal(closed, env) else closed
  }
}
