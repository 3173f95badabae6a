# Flood dashboard UI logic, modelled in Dafny

This project models the small pieces of behaviour in a Next.js climate and
flood-monitoring dashboard. The rest of that front end is markup and animation.
What is modelled:

- **Replay controller** (`replay.dfy`). The replay page keeps a frame index and a play/pause flag.
  A one-second interval advances the frame and pauses at the last frame instead of wrapping.
  The page also looks up the current frame and colours its risk score in three bands.
- **Timeline widget** (`timeline.dfy`). It has two ±10 skip buttons that clamp, the 1x/2x/5x/10x speed buttons,
  the Space shortcut and the range scrubber.
  Each control becomes the callback action the widget hands to its parent.
- **Map wrapper** (`maplayers.dfy`). It turns fixture points into GeoJSON features and holds the status and
  severity colour tables. It adds each source and its layers only when the source is absent, in two stages
  around the prediction fetch.
  It maps the layer flags to per-layer visibility and swaps the rainfall data for a replay frame.
  The third-party map is reduced to a class holding two maps: sources by id and layers by id.
- **Dashboard layer flags** (`dashboard.dfy`). Four flags. A toggle flips exactly one of them.
- **Telemetry sparkline** (`telemetry.dfy`). A window of 20 readings that shifts left.
  The reading it appends is clamped into [10, 90].
- **Cursor trail** (`cursor.dfy`). A throttled particle append that keeps the last 15 old particles.
  Particle ids come from a counter.
- **Status machines**:
  - the government alert card: idle → sending → sent (`govtalert.dfy`);
  - the settings page: save cycle, tabs and switches (`settings.dfy`);
  - the scenario simulator dialog (`scenario.dfy`);
  - the region picker (`regions.dfy`).
- **Risk card lookups** (`risk.dfy`).
- Shared fixture shapes are in `fixtures.dfy`. An `Option` type and a sequence map are in `optional.dfy`.

Timer and interval callbacks are explicit event methods, such as `IntervalTick` and `TimerDone`; the model has no clock.
Most classes that change state have a function that gives their state as a value:
`State()`, `Model()`, or `Save()` and `CurrentPanel()`.
Each of their methods ensures the new value equals a pure step function of the old one, and the lemmas are
stated about those step functions. There are three exceptions:
- `TelemetryGraph` states its new window directly, as `Shift` of the old one.
- `RegionSwitcher` and `ScenarioBuilder` have no step functions; their methods state the new fields directly.

Notes on the code:

- `handleFrameChange` in the replay page stores the frame it is given and does not clamp it. Only the timeline's
  skip buttons and scrubber clamp.
- Playback advances one frame per 1000 ms interval tick, whatever the speed.
- The replay page passes neither `gameSpeed` nor `setGameSpeed` to the timeline. So on that page no speed button
  is highlighted, and a speed click calls an undefined function (`Replay.ReplayTimelineWiring`).
- With zero frames loaded, a tick simply pauses, and the timeline is not rendered.
- The keyboard hint in components/KeyboardShortcuts.tsx lists ←/→ for ±10 frames, but the timeline handles only Space.

## Model

| member | source | states |
|---|---|---|
| Replay.Tick | app/dashboard/replay/page.tsx:30-44 | A tick does nothing unless playback is on and the data is loaded. Otherwise it advances exactly one frame while below the last frame and keeps playing, or it pauses at the same frame when at or past the last one. It never starts playback. |
| Replay.PlayPause | app/dashboard/replay/page.tsx:50-52 | Play/pause negates the flag and keeps the frame |
| Replay.PlayPauseTwice | app/dashboard/replay/page.tsx:50-52 | Play/pause applied twice is the identity |
| Replay.FrameChange | app/dashboard/replay/page.tsx:46-48 | The requested frame is stored verbatim, unclamped, and the play flag is unchanged |
| Replay.TicksStayInRange | app/dashboard/replay/page.tsx:33-41 | From an index within the frames, no number of ticks moves it past the last frame |
| Replay.PausedTicksIdle | app/dashboard/replay/page.tsx:31 | While paused, any number of ticks changes nothing |
| Replay.TicksAdvance | app/dashboard/replay/page.tsx:34-39 | Playing from frame k, m ticks reach frame k+m, provided k+m is at most the last frame |
| Replay.PlayThrough | app/dashboard/replay/page.tsx:13-41 | Start at frame 0, paused, with N ≥ 1 frames, and press play. Then tick k shows frame k for each k ≤ N-1, and every tick from N on leaves the player paused on frame N-1. |
| Replay.FrameAt | app/dashboard/replay/page.tsx:54 | The current frame exists iff data is loaded and the index is within the frames, and then it is that frame |
| Replay.RiskBand | app/dashboard/replay/page.tsx:136-140 | A score above 7 is red, above 4 and up to 7 is yellow, and 4 or below is green (each an iff) |
| Replay.RiskBandMonotone | app/dashboard/replay/page.tsx:136-140 | A higher score never falls in a lower band |
| Replay.RiskTextAndBarAgree | app/dashboard/replay/page.tsx:136-155 | The score text class and the bar class are always in the same band |
| Replay.ReplayModePage.constructor | app/dashboard/replay/page.tsx:11-14 | Before loading, the spinner shows and the player is at frame 0, paused |
| Replay.ReplayModePage.DataLoaded | app/dashboard/replay/page.tsx:16-22 | A successful fetch stores the data and ends loading; playback is unchanged |
| Replay.ReplayModePage.LoadFailed | app/dashboard/replay/page.tsx:23-26 | A failed fetch only ends loading |
| Replay.ReplayModePage.IntervalTick | app/dashboard/replay/page.tsx:30-44 | The interval callback's new state is `Tick` of the old state and the loaded data |
| Replay.ReplayModePage.HandlePlayPause | app/dashboard/replay/page.tsx:50-52 | The new state is `PlayPause` of the old state |
| Replay.ReplayModePage.HandleFrameChange | app/dashboard/replay/page.tsx:46-48 | The new state is `FrameChange` of the old state |
| Replay.ReplayModePage.TimelineProps | app/dashboard/replay/page.tsx:178-191 | The timeline renders iff the data is loaded and the current frame exists. It then gets the frame, which lies within [0, count-1], the frame count and the play flag, with no speed and no speed setter. |
| Replay.ReplayTimelineWiring | app/dashboard/replay/page.tsx:179-191 | On this page no speed button is highlighted and a speed click reaches no setter. Every skip lands on an existing frame. |
| Timeline.Skip | components/TimelineControl.tsx:39-42 | The result is max(0, min(total-1, current+d)). It lies in [0, total-1] when total ≥ 1 and is exactly current+d when that is in range. |
| Timeline.SkipStopsAtEnds | components/TimelineControl.tsx:40 | Skipping back from frame 0 stays at 0, and skipping forward from the last frame stays there |
| Timeline.SkipMonotone | components/TimelineControl.tsx:40 | A larger delta never yields an earlier frame |
| Timeline.OnSkipButton | components/TimelineControl.tsx:76-77 | The skip buttons call onFrameChange with a clamped frame, using deltas of exactly -10 and +10 |
| Timeline.SkipButtonsMoveTen | components/TimelineControl.tsx:76-77 | Away from the ends, each skip button moves exactly ten frames |
| Timeline.AtMostOneSpeedHighlighted | components/TimelineControl.tsx:84-92 | The speed buttons are 1, 2, 5 and 10, and only the one equal to gameSpeed is highlighted |
| Timeline.OnSpeedButton | components/TimelineControl.tsx:84-87 | A speed click hands that button's value to setGameSpeed, or fails when no setter was passed |
| Timeline.OnKeyDown | components/TimelineControl.tsx:46-55 | Space calls onPlayPause exactly once; any other key calls nothing |
| Timeline.OnPlayButton | components/TimelineControl.tsx:68-69 | The play button does what Space does |
| Timeline.RangeValue | components/TimelineControl.tsx:138-141 | The scrubber's value lies in [0, total-1] and an in-range position is kept as is |
| Timeline.OnScrub | components/TimelineControl.tsx:138-143 | The scrubber forwards its value to onFrameChange, within [0, total-1] |
| Timeline.ScrubberAgreesWithSkip | components/TimelineControl.tsx:40 | The scrubber clamps exactly as handleSkip with delta 0 does |
| MapLayers.HeatFeatures | components/MapContainer.tsx:139-149 | The rainfall feature list keeps the count and order of the points, with coordinates [lng, lat] and intensity and value copied |
| MapLayers.RiverFeatures | components/MapContainer.tsx:208-219 | The river feature list keeps the count and order, with each gauge's coordinates, name, current level and status |
| MapLayers.FloodFeatures | components/MapContainer.tsx:278-288 | The flood feature list keeps the count and order, with the zone's ring as the polygon and severity and depth copied |
| MapLayers.StatusColor | components/MapContainer.tsx:236-243 | warning is #FACC15 and alert is #EF4444, each an iff; normal and every other status is #4ADE80 |
| MapLayers.SeverityColor | components/MapContainer.tsx:304-311 | medium is #FACC15 and low is #4ADE80, each an iff; high and every other severity is #EF4444 |
| MapLayers.InitKeepsExisting | components/MapContainer.tsx:137-319 | Initialisation never replaces an existing source's data and never removes a layer |
| MapLayers.InitWhenPresentIsIdle | components/MapContainer.tsx:137-319 | With all three sources present, initialisation changes nothing |
| MapLayers.InitTwice | components/MapContainer.tsx:108-123 | After a successful initialisation, running it again with any fetch outcome adds nothing |
| MapLayers.InitialVisibility | components/MapContainer.tsx:151-318 | On a fresh map the heatmap and both river layers are visible and flood-zones is hidden. The rainfall source holds the converted points. |
| MapLayers.RiverLayersShareColors | components/MapContainer.tsx:229-269 | The glow and core river layers colour every feature the same |
| MapLayers.WantedVisibility | components/MapContainer.tsx:369-373 | rainfall-heat follows rainfall, both river layers follow riverLevels and flood-zones follows floodZones. Only these four ids are touched. |
| MapLayers.CloudsAffectNoLayer | components/MapContainer.tsx:373 | The clouds flag drives no layer |
| MapLayers.ApplyVisibility | components/MapContainer.tsx:356-375 | The visibility update leaves sources and the set of layers unchanged |
| MapLayers.ApplyVisibilityAt | components/MapContainer.tsx:359-372 | Each existing managed layer gets the visibility its flag asks for and nothing else changes; every other layer is untouched |
| MapLayers.RiverLayersShowTogether | components/MapContainer.tsx:370-371 | Both river layers always end with the same visibility |
| MapLayers.MissingFlagHides | components/MapContainer.tsx:369-372 | A missing flag hides its layer |
| MapLayers.VisibilityDuringPredictionFetch | components/MapContainer.tsx:273-372 | If the visibility effect runs while the prediction is awaited, the flood layer added afterwards stays hidden even when floodZones is on, while the rainfall layer follows its flag |
| MapLayers.ApplyReplayFrame | components/MapContainer.tsx:327-353 | A frame replaces only the rainfall source's data. This happens only when a frame is given, the source exists and the frame has rainfallLayer. |
| MapLayers.ToggleLayer | components/MapContainer.tsx:359-367 | toggleLayer sets visibility only on a layer that exists |
| MapLayers.InitializeLayers | components/MapContainer.tsx:126-276 | Up to the prediction fetch: a failed weather or rivers fetch changes nothing. Otherwise the map becomes `InitFirstStage`, which adds the rainfall and rivers sources and their layers, each only when absent. The prediction is fetched iff the flood source is then absent. |
| MapLayers.PredictionArrived | components/MapContainer.tsx:275-319 | When the prediction fetch settles, the map becomes `PredictionStage`: the flood source and its hidden fill layer are added only when the fetch succeeded and the source is absent |
| MapLayers.UpdateVisibility | components/MapContainer.tsx:356-375 | With the map loaded and flags given, the map becomes `ApplyVisibility`; otherwise it is unchanged |
| MapLayers.UpdateReplayFrame | components/MapContainer.tsx:327-353 | With the map loaded, the map becomes `ApplyReplayFrame`; otherwise it is unchanged |
| Dashboard.ParseKey | app/dashboard/page.tsx:18-21 | A key names a layer iff it is one of the four record keys |
| Dashboard.Toggle | app/dashboard/page.tsx:18-23 | A toggle negates exactly the named flag and leaves the other three unchanged |
| Dashboard.ToggleTwice | app/dashboard/page.tsx:21 | Toggling the same layer twice restores the record |
| Dashboard.TogglesCommute | app/dashboard/page.tsx:18-23 | Toggles of any two layers commute |
| Dashboard.HandleLayerToggle | app/dashboard/page.tsx:18-23 | handleLayerToggle flips the flag whose key it gets and no other |
| Dashboard.Rows | app/dashboard/page.tsx:41-46 | The four panel rows carry ids equal to the record keys and enabled equal to the flags |
| Dashboard.ClickingRowFlipsIt | app/dashboard/page.tsx:40-47 | Clicking a row flips that row's flag and no other row's |
| Dashboard.InitialMapVisibility | app/dashboard/page.tsx:11-16 | The initial flags are rainfall and rivers on, flood zones and clouds off, so the map shows rainfall and rivers and hides the flood zones |
| Telemetry.InitialWindow | components/CommandMode/TelemetryGraph.tsx:7 | The window starts as 20 readings of 50 |
| Telemetry.Clamp | components/CommandMode/TelemetryGraph.tsx:15-18 | The next reading lies in [10, 90] and is unchanged if already there. Above 90 gives 90 and below 10 gives 10. |
| Telemetry.Shift | components/CommandMode/TelemetryGraph.tsx:11-21 | A step keeps the length. The new window at i is the old window at i+1, and the last reading is the old last plus the change, clamped. |
| Telemetry.InitialWindowValid | components/CommandMode/TelemetryGraph.tsx:7 | The initial window has 20 readings, each in [10, 90] |
| Telemetry.ShiftKeepsValid | components/CommandMode/TelemetryGraph.tsx:12-20 | A step keeps 20 readings in [10, 90]. With a change in [-10, 10), the new reading moves at most 10 from the old last one. |
| Telemetry.RunKeepsValid | components/CommandMode/TelemetryGraph.tsx:9-23 | Any number of interval steps keeps the window valid |
| Telemetry.TelemetryGraph.constructor | components/CommandMode/TelemetryGraph.tsx:7 | The component starts with the initial window |
| Telemetry.TelemetryGraph.IntervalTick | components/CommandMode/TelemetryGraph.tsx:10-23 | The interval callback replaces the window with `Shift` of the old one and keeps it valid |
| Cursor.LastKept | components/ui/CursorSpotlight.tsx:40 | `slice(-15)` keeps the last min(n, 15) particles, in order |
| Cursor.Move | components/ui/CursorSpotlight.tsx:27-43 | A particle spawns only when more than 20 ms have passed. Otherwise nothing changes. After a spawn, the new particle is last, with the counter's id and the pointer's x and y. It follows the last 15 old particles, at most 16 in all. The counter goes up by one and the timestamp becomes now. |
| Cursor.MoveKeepsWellOrdered | components/ui/CursorSpotlight.tsx:32-42 | A move keeps ids strictly increasing along the list and below the counter, with at most 16 particles |
| Cursor.MovesKeepWellOrdered | components/ui/CursorSpotlight.tsx:27-47 | Any run of moves keeps the trail well ordered |
| Cursor.CursorSpotlight.constructor | components/ui/CursorSpotlight.tsx:13-24 | The trail starts empty, with the counter and the timestamp at 0 |
| Cursor.CursorSpotlight.MoveCursor | components/ui/CursorSpotlight.tsx:27-43 | The spotlight follows the pointer, and the trail becomes `Move` of the old trail |
| GovtAlert.LabelsDistinct | components/GovtAlertCard.tsx:85-102 | Each status shows its own label |
| GovtAlert.Step | components/GovtAlertCard.tsx:18-78 | A click while idle moves to sending and schedules the timer. A click in any other status does nothing. onSend runs only when the timer fires, and only if it was given. |
| GovtAlert.RunKeepsConsistent | components/GovtAlertCard.tsx:16-24 | The timer is pending exactly while sending, and onSend has run only once sent |
| GovtAlert.OnSendAtMostOnce | components/GovtAlertCard.tsx:20-23 | onSend runs at most once, only if given, and only after the card is sent |
| GovtAlert.SentIsTerminal | components/GovtAlertCard.tsx:18-24 | No events change a sent card |
| GovtAlert.SendSequence | components/GovtAlertCard.tsx:18-24 | A click and then the timer go idle → sending → sent |
| GovtAlert.GovtAlertCard.constructor | components/GovtAlertCard.tsx:16 | The card starts idle |
| GovtAlert.GovtAlertCard.Click | components/GovtAlertCard.tsx:76-78 | A click on the button steps the card by `SendClick` |
| GovtAlert.GovtAlertCard.TimerDone | components/GovtAlertCard.tsx:20-23 | The timeout steps the card by `TimerFired` |
| Settings.SaveStep | app/dashboard/settings/page.tsx:13-19 | A save click shows saving in any status. The first timer shows saved and schedules the second, and the second shows idle. |
| Settings.SaveLabelsDistinct | app/dashboard/settings/page.tsx:46-61 | The button text differs for each of the three statuses |
| Settings.SaveRunSettles | app/dashboard/settings/page.tsx:13-19 | Saving shows only while a first timer is outstanding and saved only while a second one is |
| Settings.QuiescentMeansIdle | app/dashboard/settings/page.tsx:13-61 | Once every timer has fired, the status is idle and the button reads "Save Changes" again |
| Settings.SaveCycle | app/dashboard/settings/page.tsx:13-19 | One uninterrupted save goes idle → saving → saved → idle |
| Settings.EarlierTimerEndsLaterSaving | app/dashboard/settings/page.tsx:13-19 | Timers are never cancelled. So the idle timer of an earlier save can show idle while a later save's first timer is still outstanding. |
| Settings.ExactlyOnePanel | app/dashboard/settings/page.tsx:91-214 | Exactly one of the four panels renders for an active tab from the bar |
| Settings.ClicksParity | app/dashboard/settings/page.tsx:248-252 | An even number of clicks restores a switch and an odd number flips it |
| Settings.RepeatedSwitchClicks | app/dashboard/settings/page.tsx:248-252 | n clicks on one switch of the panel leave it at `Clicks` of its state; every other switch and the tab stay the same |
| Settings.PanelRunKeepsSwitches | app/dashboard/settings/page.tsx:86-214 | Under any tab and switch clicks, the panel shows exactly as many switches as its tab renders |
| Settings.InitialDisplaySwitches | app/dashboard/settings/page.tsx:10-138 | On mounting, the general panel shows high-fidelity rendering on and command-mode auto-launch off |
| Settings.NotificationPanelOpensPushOnly | app/dashboard/settings/page.tsx:149-164 | Opening the notification panel shows three channel switches with only push on |
| Settings.LeavingResetsSwitches | app/dashboard/settings/page.tsx:86-91 | The panel is keyed by the tab, so leaving it and coming back restores every switch to its default, whatever was clicked |
| Settings.ReselectKeepsSwitches | app/dashboard/settings/page.tsx:71-86 | Clicking the active tab keeps the panel and its switches |
| Settings.SettingsPage.constructor | app/dashboard/settings/page.tsx:10-11 | The page starts on the general tab with its switches at their defaults and the save status idle |
| Settings.SettingsPage.HandleSave | app/dashboard/settings/page.tsx:13-15 | handleSave steps the save state by `SaveClick`, from any status |
| Settings.SettingsPage.SavedTimerDone | app/dashboard/settings/page.tsx:15-17 | The 1500 ms timer steps the save state by `SavedTimerFired` |
| Settings.SettingsPage.IdleTimerDone | app/dashboard/settings/page.tsx:17 | The 2000 ms timer steps the save state by `IdleTimerFired` |
| Settings.SettingsPage.SelectTab | app/dashboard/settings/page.tsx:69-86 | A tab click moves the panel by `SelectTabStep`: another tab remounts the panel with that tab's default switches, and the active tab changes nothing. The save state is kept. |
| Settings.SettingsPage.ClickSwitch | app/dashboard/settings/page.tsx:252 | A click on a switch moves the panel by `SwitchStep`, which negates that switch only; the save state is kept |
| Scenario.Set | components/ScenarioBuilder.tsx:71-111 | A slider change sets its own field and leaves the other two unchanged |
| Scenario.SetKeepsOnSliders | components/ScenarioBuilder.tsx:67-111 | The fields stay on their slider grids: rainfall 50..200 by 10, discharge 0..24 by 1, blockage 0..100 by 5 |
| Scenario.DefaultsCalm | components/ScenarioBuilder.tsx:20-24 | The defaults 100/0/0 sit on the sliders, with no warning and no red label |
| Scenario.WarningOnSliders | components/ScenarioBuilder.tsx:103-121 | On the sliders the warning shows iff rainfall ≥ 160 or blockage ≥ 65, and blockage over 60 always comes with the red label (over 50) |
| Scenario.ScenarioBuilder.constructor | components/ScenarioBuilder.tsx:19-26 | The dialog starts with default params, not simulating, having called nothing |
| Scenario.ScenarioBuilder.SetOpen | components/ScenarioBuilder.tsx:38 | Closing or opening the dialog keeps its state |
| Scenario.ScenarioBuilder.Slide | components/ScenarioBuilder.tsx:67-111 | While open, a slider sets its field, also during a simulation |
| Scenario.ScenarioBuilder.ApplyClick | components/ScenarioBuilder.tsx:28-30 | Only while open and not simulating, Run Simulation starts simulating and captures the current params |
| Scenario.ScenarioBuilder.CancelClick | components/ScenarioBuilder.tsx:131-134 | Cancel calls onClose only while open and not simulating |
| Scenario.ScenarioBuilder.CloseIconClick | components/ScenarioBuilder.tsx:54 | The close icon calls onClose whenever the dialog is open |
| Scenario.ScenarioBuilder.TimerDone | components/ScenarioBuilder.tsx:31-35 | Completion clears simulating. It then calls onApply with the params captured at the click, then onClose. |
| Risk.ColorsDistinguishLevels | components/RiskCard.tsx:12-32 | getRiskColor and getRiskBgColor give each level a different value |
| Risk.TextsShowNumbers | components/RiskCard.tsx:78-88 | The score text shows 2.1, 5.2 or 8.5 and the probability shows 15%, 45% or 75% |
| Risk.RiskTablesMonotone | components/RiskCard.tsx:80-86 | Score and probability strictly increase from Low to Medium to High |
| Regions.RegionListWellFormed | components/RegionSwitcher.tsx:19-24 | Four regions with distinct ids, each with a valid [lng, lat] and a positive zoom |
| Regions.AtMostOneHighlighted | components/RegionSwitcher.tsx:59-73 | At most one row is highlighted: the one whose id is the current region's |
| Regions.RegionSwitcher.constructor | components/RegionSwitcher.tsx:27 | The dropdown starts closed |
| Regions.RegionSwitcher.HeaderClick | components/RegionSwitcher.tsx:32 | The header negates isOpen |
| Regions.RegionSwitcher.BackdropClick | components/RegionSwitcher.tsx:49 | The backdrop closes the dropdown without calling onRegionChange |
| Regions.RegionSwitcher.PickRegion | components/RegionSwitcher.tsx:59-65 | Picking a row reports exactly that region and closes the dropdown |

## Left out

- Replay.Tick: a tick is an event. The 1000 ms interval period, and the cleanup and recreation of the interval when the flag or the data change, are not modelled.
- Settings.SaveStep: timer completions are events that may come in any order. This allows more interleavings than real 1500 ms and 2000 ms delays do.
- Scenario.ScenarioBuilder.TimerDone: the 1500 ms delay is not modelled. `onApply` and `onClose` are recorded as calls, not run.
- GovtAlert.GovtAlertCard.TimerDone: the 2000 ms delay is not modelled. `onSend` is counted, not run.
- Cursor.CursorSpotlight.MoveCursor: `Date.now()` is a parameter. The spring animation and the random drift of the particles are not modelled.
- Telemetry.TelemetryGraph.IntervalTick: `Math.random` is replaced by a parameter in [-10, 10). JavaScript floating point is modelled as exact reals.
- Dashboard.HandleLayerToggle: a key other than the four would add an extra property to the record. Nothing reads that property, so the model keeps only the four flags.
- MapLayers.InitializeLayers: the fetches are parameters (`None` for a failed fetch). `addSource` and `addLayer` are trusted to add exactly what they are given. The precondition `OwnLayersWithSources` assumes that the map style has no layer with one of the four ids unless it also has that layer's source. Without it, `addLayer` would throw into the `catch`, and the model does not capture that.
- Map lifecycle in components/MapContainer.tsx: creation on resize, the resize intervals and timeouts, removal on unmount, the access token check and the paint interpolations. These are third-party and DOM-sizing behaviour.
- Network and fixture plumbing: the fetch calls and the three mock API routes, which return bundled JSON unchanged.
- Floating-point display: the progress percentage, marker positions, `toFixed` and `toLocaleString`, the telemetry SVG point strings and the discharge figure.
- The confidence meter in components/RiskCard.tsx: its label and its bar width both show the `confidence` prop unchanged. This is a display identity, so it is not modelled.
- 3D scenes, animation effects and purely presentational components, including the predict and climate pages.
