/**
 * muCommander's TerminalIntegration as a class: the fields the Java class
 * reassigns, and one method per operation. Each event handler is proved to
 * produce the state that the matching function of PaneModel specifies; the
 * private helpers SetTerminalMaximized and GetTerminal state their own frames.
 */
module TerminalPane {
  import opened Wrappers
  import PaneModel
  import PaneProperties

  class TerminalIntegration {
    var terminal: Option<PaneModel.Session>
    var cwd: Option<string>
    var terminalMaximized: bool
    var lastMinDividerLocation: int
    var lastMaxDividerLocation: int
    /** verticalSplitPane's current divider location. */
    var dividerLocation: int
    /** System.lineSeparator(), fixed when CHANGE_DIR_FORMAT is built. */
    const lineSeparator: string
    /** How many sessions TerminalWidget.createTerminal has produced; the next one's identity. */
    var sessionCount: nat
    /** Identities of the created sessions whose shell still runs. */
    ghost var live: set<nat>

    ghost function Snapshot(): PaneModel.Pane
      reads this
    {
      PaneModel.Pane(terminal, cwd, terminalMaximized, lastMinDividerLocation, lastMaxDividerLocation,
                     dividerLocation, lineSeparator, sessionCount, live)
    }

    /** The object invariant: the controller is in a state its event handlers keep. */
    ghost predicate Valid()
      reads this
    {
      PaneProperties.Inv(Snapshot())
    }

    constructor (lineSeparator: string, dividerLocation: int)
      ensures Valid()
      ensures Snapshot() == PaneModel.Init(lineSeparator, dividerLocation)
    {
      this.lineSeparator := lineSeparator;
      this.dividerLocation := dividerLocation;
      terminal := None;
      cwd := None;
      terminalMaximized := false;
      lastMinDividerLocation := 0;
      lastMaxDividerLocation := 0;
      sessionCount := 0;
      live := {};
      PaneProperties.InitInv(lineSeparator, dividerLocation);
    }

    method ToggleTerminal(env: PaneModel.Env)
      requires Valid()
      modifies this
      ensures Valid()
      ensures Snapshot() == PaneModel.ToggleTerminal(old(Snapshot()), env)
      ensures Snapshot() == if old(terminalMaximized) then PaneModel.HideTerminal(old(Snapshot()), env)
                            else PaneModel.ShowTerminal(old(Snapshot()), env)
    {
      PaneProperties.ToggleByFlag(Snapshot(), env);
      if !terminalMaximized || terminal.None? {
        ShowTerminal(env);
      } else {
        HideTerminal(env);
      }
    }

    method SetTerminalMaximized(maximized: bool)
      modifies this`terminalMaximized
      ensures Snapshot() == old(Snapshot()).(terminalMaximized := maximized)
    {
      terminalMaximized := maximized;
    }

    /** The divider-location property listener. */
    method DividerLocationChanged(location: int, maxDivider: int)
      modifies this
      ensures Snapshot() == PaneModel.DividerLocationChanged(old(Snapshot()), location, maxDivider)
    {
      if terminal.Some? {
        if PaneModel.Exceeds30Percent(location, maxDivider) {
          lastMinDividerLocation := location;
          SetTerminalMaximized(false);
        } else {
          lastMaxDividerLocation := location;
          SetTerminalMaximized(true);
        }
      }
    }

    /** verticalSplitPane.setDividerLocation, which notifies the listener on a change. */
    method SetDividerLocation(location: int, maxDivider: int)
      modifies this
      ensures old(Valid()) ==> Valid()
      ensures Snapshot() == PaneModel.SetDividerLocation(old(Snapshot()), location, maxDivider)
    {
      var previous := dividerLocation;
      dividerLocation := location;
      if previous != location {
        DividerLocationChanged(location, maxDivider);
      }
    }

    /** The key listener of termCloseKeyHandler; returns whether the event was consumed. */
    method KeyPressed(pressed: PaneModel.KeyStroke, accelerator: Option<PaneModel.KeyStroke>,
                      alternateAccelerator: Option<PaneModel.KeyStroke>, env: PaneModel.Env)
      returns (consumed: bool)
      requires Valid() && terminal.Some?
      modifies this
      ensures Valid()
      ensures (Snapshot(), consumed) ==
        PaneModel.KeyPressed(old(Snapshot()), pressed, accelerator, alternateAccelerator, env)
    {
      consumed := false;
      if accelerator == Some(pressed) || alternateAccelerator == Some(pressed) {
        consumed := true;
        HideTerminal(env);
      } else if !terminal.value.connected {
        HideTerminal(env);
      }
    }

    /** getTerminal(initialPath); `createOk` is false when the factory throws, and
        then nothing changes and no session is returned. */
    method GetTerminal(initialPath: string, createOk: bool) returns (t: Option<PaneModel.Session>)
      modifies this`cwd, this`sessionCount, this`live
      ensures !createOk ==> t.None? && Snapshot() == old(Snapshot())
      ensures createOk ==>
        t == PaneModel.GetTerminal(old(Snapshot()), initialPath).terminal
        && Snapshot() == PaneModel.GetTerminal(old(Snapshot()), initialPath).(terminal := old(terminal))
    {
      if !createOk {
        return None;
      }
      t := Some(PaneModel.Session(sessionCount, true, initialPath, []));
      live := live + {sessionCount};
      sessionCount := sessionCount + 1;
      cwd := Some(initialPath);
    }

    method ShowTerminal(env: PaneModel.Env)
      requires Valid()
      modifies this
      ensures Valid()
      ensures Snapshot() == PaneModel.ShowTerminal(old(Snapshot()), env)
    {
      PaneProperties.ShowInv(Snapshot(), env);
      var newCwd := env.activeFolder;
      if terminal.None? || !terminal.value.connected {
        var created := GetTerminal(newCwd, env.createOk);
        if created.None? {
          // the factory threw: the catch block hides the terminal
          HideTerminal(env);
          return;
        }
        terminal := created;
      } else {
        SyncCwd(newCwd, env.writeOk);
      }
      SetDividerLocation(lastMaxDividerLocation, env.maxDivider);
      SetTerminalMaximized(true);
    }

    method SyncCwd(newCwd: string, writeOk: bool)
      requires terminal.Some?
      modifies this`terminal, this`cwd
      ensures Snapshot() == PaneModel.SyncCwd(old(Snapshot()), newCwd, writeOk)
    {
      if cwd.None? || cwd.value != newCwd {
        var cmd := PaneModel.ChangeDirCommand(newCwd, lineSeparator);
        if writeOk {
          terminal := Some(terminal.value.(input := terminal.value.input + [cmd]));
          cwd := Some(newCwd);
        }
      }
    }

    /** The focus listener added to the session's panel by showTerminal. */
    method FocusGained(activeFolder: string, writeOk: bool)
      requires Valid() && terminal.Some?
      modifies this`terminal, this`cwd
      ensures Valid()
      ensures Snapshot() == PaneModel.SyncCwd(old(Snapshot()), activeFolder, writeOk)
    {
      PaneProperties.SyncCwdInv(Snapshot(), activeFolder, writeOk);
      SyncCwd(activeFolder, writeOk);
    }

    method HideTerminal(env: PaneModel.Env)
      requires Valid()
      modifies this
      ensures Valid()
      ensures Snapshot() == PaneModel.HideTerminal(old(Snapshot()), env)
    {
      PaneProperties.HideInv(Snapshot(), env);
      var location := PaneModel.HideLocation(lastMinDividerLocation, env.height, env.maxDivider);
      if terminal.Some? && !terminal.value.connected {
        terminal := None;
      }
      SetDividerLocation(location, env.maxDivider);
      SetTerminalMaximized(false);
    }

    /** The session's shell ends, or the session is closed. */
    method Disconnect()
      requires Valid()
      modifies this`terminal, this`live
      ensures Valid()
      ensures Snapshot() == PaneModel.Disconnect(old(Snapshot()))
    {
      if terminal.Some? {
        live := live - {terminal.value.id};
        terminal := Some(terminal.value.(connected := false));
      }
    }

    /** The shell ConfigurationListener; `useCustomShell` is the USE_CUSTOM_SHELL
        preference read when CUSTOM_SHELL changes, `visible` the widget's visibility. */
    method ConfigurationChanged(pref: PaneModel.Preference, useCustomShell: bool, visible: bool,
                                env: PaneModel.Env)
      requires Valid()
      modifies this
      ensures Valid()
      ensures Snapshot() == PaneModel.ConfigurationChanged(old(Snapshot()), pref, useCustomShell, visible, env)
    {
      if pref.CustomShell? && !useCustomShell {
        return;
      }
      if pref.CustomShell? || pref.UseCustomShell? {
        if terminal.Some? {
          Disconnect();
          if visible {
            ShowTerminal(env);
          }
        }
      }
    }
  }
}
