# muCommander terminal pane controller in Dafny

muCommander embeds a terminal emulator (a JediTerm widget) in the bottom half of
a vertical split pane of its main window. `TerminalIntegration` decides when the
terminal session is created, kept or dropped, where the split-pane divider goes
when the terminal is shown or hidden, how divider drags are classified as
"maximized" or "minimized", and when a `cd` command is written to the shell so
that it follows the active file panel.

The project has four modules in three files:

- `pane_model.dfy`: `Wrappers` (an `Option` type for Java's nullable references)
  and `PaneModel`. `PaneModel` holds the controller's state as a `Pane` value and
  one function per operation. The functions named after a method of the class
  specify that method; the others (`Maximize`, `HideLocation`, `NeedsNewSession`,
  `ChangeDirCommand`, `ParseChangeDir`, `LastDir`, `ShellDir`) are the steps and
  notions those functions are built from. Each carries the properties the source
  promises for one call.
- `pane_properties.dfy`: `PaneProperties`. It defines every event the controller
  reacts to, runs of events from the initial state, and the invariant that all
  reachable states keep, proved by induction over runs. It proves the
  consequences for reachable states, checks concrete runs, and proves when the
  maximized flag matches the divider's position.
- `terminal_integration.dfy`: `TerminalPane`. It holds the class
  `TerminalIntegration`, with the Java class's fields (`terminal`, `cwd`,
  `terminalMaximized`, `lastMinDividerLocation`, `lastMaxDividerLocation`) and
  methods that reassign them step by step. Each event handler's postcondition
  says its new state is what the matching `PaneModel` function gives for the old
  state. The two private helpers state their own frames instead:
  `SetTerminalMaximized` changes only the flag, and `GetTerminal` leaves the
  `terminal` field alone and changes nothing when the factory throws.
  Its object invariant `Valid()` is the invariant of `PaneProperties`; the
  constructor establishes it and the event handlers keep it.

The surroundings become parameters (`PaneModel.Env`):

- the active folder's path;
- the split pane's height and its maximum divider location;
- whether creating a session throws;
- whether writing to the session's tty throws `IOException`;
- for the configuration listener, the `USE_CUSTOM_SHELL` value and whether the
  widget is visible;
- for the key handler, the pressed key stroke and the two accelerators.

A session is kept abstract, as `Session(id, connected, initialDir, input)`:

- `input` is every command the controller writes to its tty;
- `connected` is what its tty connector reports.

The state also records two things besides the Java fields:

- the split pane's current divider location (`dividerLocation`);
- which of the sessions created so far still run (`sessionCount`, `live`).

With these, "at most one session is alive" can be stated.

Modelling choices:

- `JSplitPane.setDividerLocation` stores the new location and then fires a
  divider-location property change. Java's property-change support drops events
  whose old and new values are equal. So the writes in `showTerminal` and
  `hideTerminal` go through the same divider listener as a user drag, and only
  when the location actually changes (`PaneModel.SetDividerLocation`). The
  explicit `setTerminalMaximized` that follows decides the final flag.
- `TREAT_AS_MAXIMIZED` is the float `0.3f`. It is modelled as exactly 3/10.
  The hide fallback compares `10 * lastMin < 3 * height`; the listener compares
  `10 * location > 3 * maxDivider`.
- The hide fallback uses the pane's height. The listener uses the maximum divider
  location. Both are kept as the code has them.
- The listener's comparison is strict, so a location exactly at 30% counts as
  maximized.
- The listener's inner `terminal == null` branch (lines 333-334) sits inside a
  `terminal != null` test and can never run, so the model leaves it out.
- `terminal.close()` in the configuration listener is modelled as disconnecting
  the session. So a later `showTerminal` creates a new session running the newly
  selected shell.
- The `invokeLater(showTerminal)` that follows the close is modelled as running
  at once.

Consequences of the code as written:

- A location exactly at 30% of the maximum divider location counts as
  maximized, because line 335 compares strictly against
  `getMaximumDividerLocation()`, not against the height
  (`PaneProperties.DividerThresholdExample`).
- The divider writes at lines 186 and 220 go through the listener, so a
  programmatic show or hide can change the remembered locations
  (`PaneProperties.ShowCanMoveRememberedLocation`).
- While a session exists, and as long as the maximum divider location M and the
  height H stay fixed with 0 < M < H, the maximized flag is true exactly when the
  divider is at most 30% of M (`PaneProperties.RunFlagMatchesDivider`). This fails
  without a session (`PaneProperties.DragWithoutSessionExample`) and after M
  shrinks (`PaneProperties.ShowCanMoveRememberedLocation`).

## Model

| member | source | states |
|---|---|---|
| `PaneModel.Init` | mucommander-core/src/main/java/com/mucommander/ui/terminal/TerminalIntegration.java:72-75 | the controller starts with no session, no mirrored directory, not maximized, both remembered divider locations 0 (Java's defaults), the given divider location, and no session created |
| `PaneModel.ParseChangeDir` | mucommander-core/src/main/java/com/mucommander/ui/terminal/TerminalIntegration.java:70 | whatever the parser accepts is exactly the change-directory command of the path it returns |
| `PaneModel.ParseChangeDirRoundTrip` | mucommander-core/src/main/java/com/mucommander/ui/terminal/TerminalIntegration.java:70 | the command ` cd "<path>"` followed by the line separator parses back to the same path |
| `PaneModel.ChangeDirCommandInjective` | mucommander-core/src/main/java/com/mucommander/ui/terminal/TerminalIntegration.java:70 | two different directories never give the same command, so the written command determines the directory |
| `PaneModel.LastDir` | mucommander-core/src/main/java/com/mucommander/ui/terminal/TerminalIntegration.java:196-208 | the directory a shell was last sent to is its initial directory or the path of one of the commands written to it |
| `PaneModel.SyncCwd` | mucommander-core/src/main/java/com/mucommander/ui/terminal/TerminalIntegration.java:196-208 | nothing is written when the mirror equals the path; otherwise exactly one command ` cd "<path>"` plus the line separator is appended if the write succeeds; the mirror becomes the path only on success; the session and everything else are unchanged |
| `PaneModel.DividerLocationChanged` | mucommander-core/src/main/java/com/mucommander/ui/terminal/TerminalIntegration.java:328-343 | no effect without a session; otherwise the pane is maximized iff the location is at most 30% of the maximum divider location (strict comparison), the location is remembered as the maximized or the minimized location accordingly, and the other remembered location is left alone |
| `PaneModel.SetDividerLocation` | mucommander-core/src/main/java/com/mucommander/ui/terminal/TerminalIntegration.java:328-343 | a divider write stores the location; it changes nothing else when the location is unchanged or there is no session; a changed location with a session is classified by the listener: maximized iff at most 30% of the maximum divider location, remembered as the maximized or the minimized location accordingly, the other one untouched |
| `PaneModel.HideLocation` | mucommander-core/src/main/java/com/mucommander/ui/terminal/TerminalIntegration.java:220-224 | hiding uses the remembered minimized location when it is positive, at most the pane height and at least 30% of it, and the maximum divider location otherwise |
| `PaneModel.HideTerminal` | mucommander-core/src/main/java/com/mucommander/ui/terminal/TerminalIntegration.java:210-228 | afterwards the pane is not maximized; the session is dropped iff it is disconnected, and a connected one is kept as it is; the divider is at the fallback location; the mirror and the running sessions are unchanged |
| `PaneModel.GetTerminal` | mucommander-core/src/main/java/com/mucommander/ui/terminal/TerminalIntegration.java:152-156 | a new, connected session with a fresh identity is created in the given path, which becomes the mirrored directory |
| `PaneModel.Maximize` | mucommander-core/src/main/java/com/mucommander/ui/terminal/TerminalIntegration.java:186-189 | the divider moves to the remembered maximized location, which stays remembered, and the pane is maximized; the remembered minimized location is either kept or becomes the old maximized one; session, mirror and line separator are kept |
| `PaneModel.ShowTerminal` | mucommander-core/src/main/java/com/mucommander/ui/terminal/TerminalIntegration.java:158-194 | a new session in the active folder, with the mirror set to it, is created iff there is no session or it is disconnected; otherwise the session is kept and only synchronised; on success the pane is maximized at the old maximized location with a connected session, and the remembered minimized location is kept or becomes the old maximized one; if creation throws, the result is exactly that of hiding |
| `PaneModel.ToggleTerminal` | mucommander-core/src/main/java/com/mucommander/ui/terminal/TerminalIntegration.java:117-123 | toggling is showing when the pane is not maximized or has no session, and hiding otherwise; from maximized it ends minimized; from minimized it ends maximized iff the show succeeds |
| `PaneModel.Disconnect` | mucommander-core/src/main/java/com/mucommander/ui/terminal/TerminalIntegration.java:99-100 | closing the session, or its shell ending, marks it disconnected and no longer running, and changes nothing else |
| `PaneModel.KeyPressed` | mucommander-core/src/main/java/com/mucommander/ui/terminal/TerminalIntegration.java:133-150 | the key is consumed iff it equals the toggle accelerator or its alternate, and then the terminal is hidden; any other key hides it only when the session is disconnected and otherwise changes nothing |
| `PaneModel.ConfigurationChanged` | mucommander-core/src/main/java/com/mucommander/ui/terminal/TerminalIntegration.java:89-110 | a `CUSTOM_SHELL` change while the custom shell is off, or any other preference change, has no effect, and neither has a shell change without a session; otherwise the session is closed and shown again only when it is visible |
| `PaneProperties.RunInv` | mucommander-core/src/main/java/com/mucommander/ui/terminal/TerminalIntegration.java:117-228 | every run of events preserves the invariant: maximized only with a session, the only running session is the one held, and the mirror is where the held session's shell was last sent |
| `PaneProperties.StepInv` | mucommander-core/src/main/java/com/mucommander/ui/terminal/TerminalIntegration.java:89-228 | every single event (toggle, buttons, focus, drag, key, preference change, shell exit) preserves the invariant |
| `PaneProperties.SyncCwdInv` | mucommander-core/src/main/java/com/mucommander/ui/terminal/TerminalIntegration.java:196-208 | synchronising keeps the mirror equal to the directory the session's shell was last sent to |
| `PaneProperties.ShowInv` | mucommander-core/src/main/java/com/mucommander/ui/terminal/TerminalIntegration.java:158-194 | showing, including its failure path, preserves the invariant |
| `PaneProperties.ReachableInv` | mucommander-core/src/main/java/com/mucommander/ui/terminal/TerminalIntegration.java:85-112 | every state reachable from construction satisfies the invariant |
| `PaneProperties.ToggleByFlag` | mucommander-core/src/main/java/com/mucommander/ui/terminal/TerminalIntegration.java:117-123 | wherever the invariant holds, and so in every reachable state, toggling is hiding when maximized and showing otherwise |
| `PaneProperties.ShowTwiceKeepsSession` | mucommander-core/src/main/java/com/mucommander/ui/terminal/TerminalIntegration.java:163-184 | a second show right after a successful one creates no session and only synchronises the directory: its session and mirror are those of the synchronisation |
| `PaneProperties.AtMostOneRunningSession` | mucommander-core/src/main/java/com/mucommander/ui/terminal/TerminalIntegration.java:210-215 | in every reachable state at most one created session is running, and it is the connected session the controller holds |
| `PaneProperties.SyncCwdReachesFolder` | mucommander-core/src/main/java/com/mucommander/ui/terminal/TerminalIntegration.java:174-178 | after a successful synchronisation the shell was last sent to the active folder, and synchronising to it again writes nothing |
| `PaneProperties.FocusSyncExample` | mucommander-core/src/main/java/com/mucommander/ui/terminal/TerminalIntegration.java:174-178 | a session created in `/home/x` and focused with `/home/y` active gets exactly one ` cd "/home/y"` line; a second focus writes nothing |
| `PaneProperties.DividerThresholdExample` | mucommander-core/src/main/java/com/mucommander/ui/terminal/TerminalIntegration.java:335 | with maximum divider location 1000, drags to 299 and 300 maximize and 301 minimizes |
| `PaneProperties.HideFallbackExample` | mucommander-core/src/main/java/com/mucommander/ui/terminal/TerminalIntegration.java:220-224 | with height 1000, remembered locations 250, 0 and 1001 fall back to the maximum and 500 is kept |
| `PaneProperties.ShowCanMoveRememberedLocation` | mucommander-core/src/main/java/com/mucommander/ui/terminal/TerminalIntegration.java:186 | after a run that remembers 200 as the maximized location at maximum 990, a show at maximum 500 makes the listener remember 200 as the minimized location, and the pane ends maximized with the divider above 30% |
| `PaneProperties.DragWithoutSessionExample` | mucommander-core/src/main/java/com/mucommander/ui/terminal/TerminalIntegration.java:331 | a drag to 0 without a session leaves the pane not maximized: the flag follows the divider only with a session |
| `PaneProperties.HideFlagMatchesDivider` | mucommander-core/src/main/java/com/mucommander/ui/terminal/TerminalIntegration.java:220-227 | with 0 < M < H, hiding leaves the divider above 30% of M and the flag false, keeping the flag in step with the divider |
| `PaneProperties.StepFlagMatchesDivider` | mucommander-core/src/main/java/com/mucommander/ui/terminal/TerminalIntegration.java:186-227 | with fixed M and H, 0 < M < H, every event, including the divider writes of show and hide and a drag through the listener at lines 328-343, keeps the flag true exactly when the divider is at most 30% of M (while a session exists) and the remembered maximized location in that region |
| `PaneProperties.RunFlagMatchesDivider` | mucommander-core/src/main/java/com/mucommander/ui/terminal/TerminalIntegration.java:328-343 | every run with fixed M and H, 0 < M < H, keeps the flag in step with the divider's position |
| `TerminalPane.TerminalIntegration.constructor` | mucommander-core/src/main/java/com/mucommander/ui/terminal/TerminalIntegration.java:85-112 | the new controller is in the initial state and satisfies `Valid()` |
| `TerminalPane.TerminalIntegration.ToggleTerminal` | mucommander-core/src/main/java/com/mucommander/ui/terminal/TerminalIntegration.java:117-123 | the new state is `PaneModel.ToggleTerminal` of the old one, and, because `Valid()` holds, it is hiding when the pane was maximized and showing otherwise |
| `TerminalPane.TerminalIntegration.SetTerminalMaximized` | mucommander-core/src/main/java/com/mucommander/ui/terminal/TerminalIntegration.java:125-127 | only the maximized flag changes |
| `TerminalPane.TerminalIntegration.KeyPressed` | mucommander-core/src/main/java/com/mucommander/ui/terminal/TerminalIntegration.java:133-150 | the new state and the consumed flag are those of `PaneModel.KeyPressed` |
| `TerminalPane.TerminalIntegration.GetTerminal` | mucommander-core/src/main/java/com/mucommander/ui/terminal/TerminalIntegration.java:152-156 | on success it returns the new session and sets the mirror; when creation throws, nothing changes |
| `TerminalPane.TerminalIntegration.ShowTerminal` | mucommander-core/src/main/java/com/mucommander/ui/terminal/TerminalIntegration.java:158-194 | the new state is `PaneModel.ShowTerminal` of the old one |
| `TerminalPane.TerminalIntegration.SyncCwd` | mucommander-core/src/main/java/com/mucommander/ui/terminal/TerminalIntegration.java:196-208 | the new state is `PaneModel.SyncCwd` of the old one |
| `TerminalPane.TerminalIntegration.FocusGained` | mucommander-core/src/main/java/com/mucommander/ui/terminal/TerminalIntegration.java:174-178 | focusing the session synchronises the directory with the active folder |
| `TerminalPane.TerminalIntegration.HideTerminal` | mucommander-core/src/main/java/com/mucommander/ui/terminal/TerminalIntegration.java:210-228 | the new state is `PaneModel.HideTerminal` of the old one |
| `TerminalPane.TerminalIntegration.DividerLocationChanged` | mucommander-core/src/main/java/com/mucommander/ui/terminal/TerminalIntegration.java:328-343 | the new state is `PaneModel.DividerLocationChanged` of the old one |
| `TerminalPane.TerminalIntegration.SetDividerLocation` | mucommander-core/src/main/java/com/mucommander/ui/terminal/TerminalIntegration.java:186 | the new state is `PaneModel.SetDividerLocation` of the old one |
| `TerminalPane.TerminalIntegration.Disconnect` | mucommander-core/src/main/java/com/mucommander/ui/terminal/TerminalIntegration.java:99-100 | the new state is `PaneModel.Disconnect` of the old one |
| `TerminalPane.TerminalIntegration.ConfigurationChanged` | mucommander-core/src/main/java/com/mucommander/ui/terminal/TerminalIntegration.java:89-110 | the new state is `PaneModel.ConfigurationChanged` of the old one |

## Left out

- `UnmarkGroupAction`: it only opens a dialog and declares constant descriptor fields, so it has no behaviour to model.
- `alterSplitPaneButton`: it reaches into Swing-private fields by reflection, with a sleep-based retry. The one-touch buttons it wires up are modelled only through the actions they call (`ShowButton` and `HideButton` events).
- `alterSplitPaneDivider` and `showTooltip`: a timer-thread debounce and tooltip-manager globals, which are concurrency and UI. A click on the divider is modelled as the toggle action.
- JediTerm internals, shell process spawning, focus requests, cursor changes and `setBottomComponent`/`remove` are opaque effects. So are layout passes that may move the divider on their own.
- `SwingUtilities.invokeLater` scheduling: deferred calls are modelled as running at once.
- The minimum terminal height computed from font metrics (lines 170-171): floating-point arithmetic on UI metrics.
- `Exceeds30Percent`, `HideLocation`: the threshold is the exact rational 3/10, not the float `0.3f`. Float rounding of `height * 0.3f` and `maxDivider * 0.3f` near the boundary is not covered.
- `ShowTerminal`: the only exception modelled is the session factory throwing. Exceptions from adding listeners, setting the minimum size or attaching the widget are not modelled.
- `SyncCwd`: a failed write is modelled as writing nothing. A partial write before an `IOException` is not modelled. How the shell interprets the command is not modelled either (the path is not escaped, so quotes or `$` in it reach the shell as they are).
- `TerminalPane.TerminalIntegration.SetTerminalMaximized`, `GetTerminal`, `SyncCwd`, `DividerLocationChanged`: private helpers in the Java class, whose intermediate states need not satisfy `Valid()`; Dafny has no private members, so the model relies on them being called only from the event handlers, which keep `Valid()`.
- Keystrokes the user types into the terminal: JediTerm writes them to the same tty connector, and they are not modelled. So `ShellDir` and the mirror clause of `PaneProperties.Inv` describe where the controller last sent the shell, not where the shell is: a `cd` typed by the user moves the shell and leaves `cwd` as it was, and a `cd` the controller writes while the user has a half-typed line is appended to that line (the TODO at lines 198-199).
- Logging, and the registration of the configuration listener (line 111).
