# Blackout dashboard core, modelled in Dafny

This project models the state logic of the Blackout grid-emergency
dashboard and proves properties of it. There is one module per source file,
plus `Common`, which holds `Option`, `Min`, `Max` and `IsDigit`.

- `CascadePlayback` (`cascade_playback.dfy`) models the cascade playback hook:
  - the step index, the play flag and the speed;
  - the interval tick, play, pause, reset and scrubbing;
  - the cumulative failed-node set, the current step's reroute arcs and the step statistics.
- `EventFeed` (`event_feed.dfy`) models the operator sidebar's live incident feed:
  - the message handler: severity mapping, icon lookup, the "T+HH:MM" label and the 30-row cap;
  - the initial-events sync and the stream lifecycle across scenario switches, errors and "done";
  - the guarded 3- and 5-second flag clears;
  - the map focus requests and the crew status counts.
- `SessionMirror` (`session_mirror.dfy`) models the simulation-session mirror. INSERT and UPDATE replace the held row, and `isActive` tracks "not completed".
- `LiveAlerts` (`live_alerts.dfy`) models the live-alerts list. Each insert is prepended.
- `GridOverview` (`grid_overview.dfy`) models the backend overview service. It covers:
  - per-weather-zone aggregation of the grid nodes;
  - region rows, with utilisation-based status, shortfall and affected customers;
  - the worst-status fold and the frequency model;
  - the scenario's weather source, including the live weather derivation;
  - the single-region lookup.
- `ProfileForm` (`profile_form.dfy`) models the household selection form. It covers:
  - the selected profile and the ZIP text, which exclude each other;
  - the digits-only ZIP filter and the reset on open;
  - connect and custom-ZIP submission.

How the model is shaped:

- State that the source changes in place is a `class` with `modifies` clauses. Pure rules are functions, and loops are methods with invariants.
- Timers and transports are explicit method calls:
  - the interval becomes `Player.Tick`;
  - a stream message becomes `Feed.OnMessage` with the identity of the stream it came on;
  - a pending timeout becomes `Feed.ExpireNewest` and `Feed.ExpireHighlight`;
  - a database change notification becomes `OnInsert` or `OnUpdate`.
- Clocks and fetched data are parameters:
  - `Date.now()` and `datetime.now()` are the parameter `now`;
  - the node list, the demand multipliers (as a function of scenario and forecast hour) and the weather fetch result are parameters of `GetOverview`.

## Model

| member | source | states |
|---|---|---|
| CascadePlayback.ClampStep | src/hooks/useCascadeAnimation.ts:115-121 | Scrub target is always in [-1, N-1]; an in-range n is kept; below -1 gives -1; above N-1 gives N-1 (so N = 0 gives -1) |
| CascadePlayback.TickUpdate | src/hooks/useCascadeAnimation.ts:52-60 | Playing continues iff prev+1 < N, and then the index is prev+1; otherwise the index is N-1 and playing stops |
| CascadePlayback.TickPeriodMs | src/hooks/useCascadeAnimation.ts:51 | The tick period is positive and period × speed = 2000 ms |
| CascadePlayback.StepCount | src/hooks/useCascadeAnimation.ts:29 | `cascadeData?.steps.length ?? 0`: 0 without data, otherwise the number of steps |
| CascadePlayback.DoubleSpeedHalvesPeriod | src/hooks/useCascadeAnimation.ts:51 | Doubling the speed halves the tick period |
| CascadePlayback.AdvanceFrom | src/hooks/useCascadeAnimation.ts:52-60 | From any valid index, k ticks advance exactly k steps while that stays ≤ N-1; otherwise they stop at N-1, paused. No step is skipped or overshot |
| CascadePlayback.PlaybackIsSequential | src/hooks/useCascadeAnimation.ts:31-60 | From the auto-play start (-1, playing), k ≤ N ticks show step k-1; more ticks leave N-1, paused |
| CascadePlayback.Reached | src/hooks/useCascadeAnimation.ts:72 | Loop bound `i <= currentStep && i < N`: reaches 0 steps for a negative index and currentStep+1 steps for an in-range one |
| CascadePlayback.FailedPrefixMembership | src/hooks/useCascadeAnimation.ts:69-78 | An id is in the failed set of the first n steps iff some step below n lists it among its new failures |
| CascadePlayback.FailedPrefixMonotone | src/hooks/useCascadeAnimation.ts:69-78 | The failed set over a shorter prefix is a subset of the one over a longer prefix |
| CascadePlayback.FailedThroughMonotone | src/hooks/useCascadeAnimation.ts:69-78 | failedNodeIds at step j is a subset of failedNodeIds at any k ≥ j, for any result or none |
| CascadePlayback.FailedThrough | src/hooks/useCascadeAnimation.ts:69-78 | Empty without data or before the first step |
| CascadePlayback.FailedThroughMembership | src/hooks/useCascadeAnimation.ts:69-78 | An id is in failedNodeIds iff there is data and some step i ≤ currentStep lists it among its new failures |
| CascadePlayback.StepWithFailuresGrowsSet | src/hooks/useCascadeAnimation.ts:72-76 | When steps report disjoint failures, a step with a failure strictly enlarges the cumulative set |
| CascadePlayback.ActiveReroutes | src/hooks/useCascadeAnimation.ts:81-86 | Empty without data or out of range; otherwise exactly the current step's reroutes (empty when null) |
| CascadePlayback.ActiveReroutesNotAccumulated | src/hooks/useCascadeAnimation.ts:81-86 | The arcs shown at step k depend only on step k, never on earlier steps |
| CascadePlayback.StatsAt | src/hooks/useCascadeAnimation.ts:89-98 | (0, 0) without data or out of range; otherwise the current step's total_failed and total_load_shed_mw |
| CascadePlayback.StatsNonDecreasingOnTick | src/hooks/useCascadeAnimation.ts:89-98 | With running totals that never decrease, one tick never lowers the displayed failed count or load shed |
| CascadePlayback.DisplayStep | src/components/CascadeControlBar.tsx:22 | The displayed step max(0, currentStep+1) is in [0, N]; it is 0 iff the index is -1, and it equals the number of reached steps |
| CascadePlayback.Player.constructor | src/hooks/useCascadeAnimation.ts:24-40 | Mount: index -1, speed 1, playing iff the result has steps |
| CascadePlayback.Player.OnData | src/hooks/useCascadeAnimation.ts:32-40 | New data rewinds to -1 and auto-plays iff it has steps; the failed set, arcs and stats are then empty/zero |
| CascadePlayback.Player.TotalSteps | src/hooks/useCascadeAnimation.ts:29 | The step count of the held data, which the hook returns as `totalSteps` (definition: StepCount(data)) |
| CascadePlayback.Player.TimerArmed | src/hooks/useCascadeAnimation.ts:49 | The interval runs iff playing with data that has at least one step |
| CascadePlayback.Player.Tick | src/hooks/useCascadeAnimation.ts:43-66 | No effect unless the timer is armed (playing, data, N > 0); otherwise the TickUpdate state. The index stays in [-1, N-1] and the failed set only grows |
| CascadePlayback.Player.Play | src/hooks/useCascadeAnimation.ts:100-106 | Sets playing; rewinds to -1 exactly when at or past the last step |
| CascadePlayback.Player.Pause | src/hooks/useCascadeAnimation.ts:108 | Clears playing and changes nothing else |
| CascadePlayback.Player.Reset | src/hooks/useCascadeAnimation.ts:110-113 | Paused at -1 with an empty failed set |
| CascadePlayback.Player.SetSpeed | src/hooks/useCascadeAnimation.ts:26 | Replaces the speed only |
| CascadePlayback.Player.GoToStep | src/hooks/useCascadeAnimation.ts:115-121 | Pauses and sets the index to the clamped target |
| CascadePlayback.Player.FailedNodeIds | src/hooks/useCascadeAnimation.ts:69-78 | The nested loops produce exactly the union of the reached steps' new-failure ids |
| EventFeed.DisplaySeverity | src/components/OperatorRightSidebar.tsx:196-207 | "emergency" shows as "critical"; absent or empty shows as "info"; anything else passes through; the result is never empty or "emergency" |
| EventFeed.SeverityIcon | src/components/OperatorRightSidebar.tsx:151-157 | Icon keyed on the raw severity, entry by entry: red circle for critical and emergency, warning sign for warning, lightning bolt for info, check mark for success, and a lightning bolt when the severity is absent or any other string |
| EventFeed.IconFollowsDisplayedSeverity | src/components/OperatorRightSidebar.tsx:196-207 | Looking the icon up by the displayed severity gives the same icon as looking it up by the raw one |
| EventFeed.NatToString | src/components/OperatorRightSidebar.tsx:204 | `String(n)` of a natural is a non-empty digit string; one digit below 10, two below 100 |
| EventFeed.ParseNatToString | src/components/OperatorRightSidebar.tsx:204 | Reading the decimal rendering back gives the number |
| EventFeed.IntToString | src/components/OperatorRightSidebar.tsx:204 | `String(i)`: for i ≥ 0 a digit string that parses back to i; for i < 0 a "-" followed by a digit string that parses back to -i |
| EventFeed.PadStart2 | src/components/OperatorRightSidebar.tsx:204 | padStart(2, "0"): length max(2, len); a long string is unchanged; a short one keeps its characters at the end with zeros before them |
| EventFeed.JsRemainder | src/components/OperatorRightSidebar.tsx:199 | JavaScript `%`, which truncates toward zero: for a non-negative dividend the Euclidean remainder in [0, b); for a negative one a value in (-b, 0] with a = -((-a) div b)·b + r |
| EventFeed.OffsetLabel | src/components/OperatorRightSidebar.tsx:197-204 | The label always starts with "T+" and has at least 7 characters; an absent or zero offset gives "T+00:00" |
| EventFeed.OffsetLabelNonNegative | src/components/OperatorRightSidebar.tsx:197-204 | For m ≥ 0 the label is "T+" + pad2(m div 60) + ":" + pad2(m mod 60); an absent offset gives "T+00:00" |
| EventFeed.OffsetLabelRoundTrip | src/components/OperatorRightSidebar.tsx:197-204 | Below 100 hours the label has the fixed layout "T+HH:MM", and 60·HH + MM recovers the offset |
| EventFeed.BuildEvent | src/components/OperatorRightSidebar.tsx:201-208 | The new row carries event_id if present, else "sse-" + now; the mapped severity and icon, the offset label, the title and description; no coordinates |
| EventFeed.PushRecent | src/components/OperatorRightSidebar.tsx:210 | The new row first, then the previous rows in order, cut at 30 |
| EventFeed.PushAllKeepsMostRecent | src/components/OperatorRightSidebar.tsx:210 | From an empty feed, n arrivals leave the min(n, 30) most recent, newest first |
| EventFeed.PushAllFrom | src/components/OperatorRightSidebar.tsx:210 | From a list of at most 30 rows: the arrivals newest-first, then the old rows, cut at 30 |
| EventFeed.CrewFocus | src/components/OperatorRightSidebar.tsx:232-237 | A crew always focuses at its own coordinates with zoom hint 1.2 |
| EventFeed.EventFocus | src/components/OperatorRightSidebar.tsx:239-246 | An event yields a request iff it has both coordinates, and then at those coordinates with zoom hint 1.4 |
| EventFeed.HasLocation | src/components/OperatorRightSidebar.tsx:112 | An event has a location iff both its latitude and longitude are present; the same test guards the focus request at line 241 (definition) |
| EventFeed.StreamEventsNotFocusable | src/components/OperatorRightSidebar.tsx:201-208 | Rows built from stream messages never produce a focus request |
| EventFeed.CountWithStatus | src/components/OperatorRightSidebar.tsx:177-179 | The filtered count is at most the crew total, with equality iff every crew has that status |
| EventFeed.CrewCountsPartition | src/components/OperatorRightSidebar.tsx:176-180 | deployed + en route + standby = total |
| EventFeed.Feed.constructor | src/components/OperatorRightSidebar.tsx:167-186 | Starts from the initial events with no flags; a stream is open iff the scenario is non-empty |
| EventFeed.OpensStream | src/components/OperatorRightSidebar.tsx:184 | A scenario opens a stream iff it is present and non-empty, the negation of the effect's `if (!scenario) return` (definition) |
| EventFeed.Feed.SyncInitialEvents | src/components/OperatorRightSidebar.tsx:172-174 | A non-empty batch replaces the list; an empty one changes nothing |
| EventFeed.Feed.SwitchScenario | src/components/OperatorRightSidebar.tsx:183-230 | A changed scenario closes the old stream and opens a fresh one when non-empty; list and flags kept |
| EventFeed.Feed.OnError | src/components/OperatorRightSidebar.tsx:225-227 | An error closes the stream it came from and nothing else |
| EventFeed.Feed.OnMessage | src/components/OperatorRightSidebar.tsx:188-223 | Messages on a closed or old stream and unparseable payloads change nothing; "done" closes the stream; otherwise the built event is pushed (cap 30), both flags name it, and the new first row is both new and highlighted |
| EventFeed.Feed.ExpireNewest | src/components/OperatorRightSidebar.tsx:214-216 | Clears the "new" flag only if it still names that event |
| EventFeed.Feed.ExpireHighlight | src/components/OperatorRightSidebar.tsx:217-219 | Clears the highlight only if it still names that event |
| EventFeed.Feed.IsNew | src/components/OperatorRightSidebar.tsx:385 | A row is marked new only when a "new" flag is set, and then only a row with that id |
| EventFeed.Feed.IsHighlighted | src/components/OperatorRightSidebar.tsx:386 | A row is highlighted only when a highlight is set, and then only a row with that id |
| SessionMirror.Tracker.constructor | src/hooks/useRealtimeSession.ts:26-27 | No session and not active |
| SessionMirror.IsLive | src/hooks/useRealtimeSession.ts:42-55 | A row is live iff its status is not "completed"; both handlers derive `isActive` this way (definition) |
| SessionMirror.Tracker.OnInsert | src/hooks/useRealtimeSession.ts:39-43 | The row replaces the held session; active iff its status is not "completed" |
| SessionMirror.Tracker.OnUpdate | src/hooks/useRealtimeSession.ts:52-56 | Same effect as an insert of the same row |
| SessionMirror.Tracker.ClearSession | src/hooks/useRealtimeSession.ts:65-68 | No session and not active, from any state |
| SessionMirror.LastWriteWins | src/hooks/useRealtimeSession.ts:39-56 | After two notifications, each an insert or an update in any combination, the held row is the second row and the live flag is that row's |
| LiveAlerts.PrependEachFrom | src/hooks/useRealtimeAlerts.ts:32-35 | Successive inserts leave the arrivals in reverse order in front of the old list |
| LiveAlerts.InsertsFromEmpty | src/hooks/useRealtimeAlerts.ts:19-35 | From empty, n inserts leave exactly the n rows, most recent first, none dropped |
| LiveAlerts.AlertsFeed.constructor | src/hooks/useRealtimeAlerts.ts:18-19 | Empty list for the given region |
| LiveAlerts.AlertsFeed.OnInsert | src/hooks/useRealtimeAlerts.ts:32-35 | The row is prepended; the length grows by one |
| LiveAlerts.AlertsFeed.ClearAlerts | src/hooks/useRealtimeAlerts.ts:44-46 | Empty list, region kept |
| LiveAlerts.AlertsFeed.SetGridRegion | src/hooks/useRealtimeAlerts.ts:21-42 | Re-subscribing keeps the held list |
| GridOverview.StatusFromUtilization | backend/app/services/overview_service.py:100-107 | Blackout iff ≥ 95, Critical iff in [85, 95), Stressed iff in [70, 85), Normal iff < 70 |
| GridOverview.Rank | backend/app/services/overview_service.py:110-115 | Ranks are in 0..3, and 0 only for Normal |
| GridOverview.RankIsInjective | backend/app/services/overview_service.py:110-115 | Different statuses have different ranks |
| GridOverview.StatusRankMonotone | backend/app/services/overview_service.py:100-115 | Higher utilisation never gives a lower-ranked status |
| GridOverview.Zones | backend/app/services/overview_service.py:23-32 | The eight weather zones in the listed order, each its own display name (constant) |
| GridOverview.ZonesDistinct | backend/app/services/overview_service.py:23-32 | The eight zone ids are pairwise distinct |
| GridOverview.ZoneOutages | backend/app/services/overview_service.py:151-152 | A zone's outage count is at most the number of nodes |
| GridOverview.ZoneLoad | backend/app/services/overview_service.py:141-149 | A zone's load is the sum of NodeLoad over the nodes whose weather zone it is (definition; AggregateZones is proved equal to it) |
| GridOverview.ZoneCapacity | backend/app/services/overview_service.py:141-150 | A zone's capacity is the sum of capacity_mw over the nodes whose weather zone it is (definition; AggregateZones is proved equal to it) |
| GridOverview.ZoneWithoutNodes | backend/app/services/overview_service.py:136-152 | A zone that no node belongs to keeps its initial zero load, zero capacity and zero outages |
| GridOverview.NodeLoad | backend/app/services/overview_service.py:147 | Base load times the node's multiplier, or the base load when it has none |
| GridOverview.AggregateZones | backend/app/services/overview_service.py:136-152 | Keys are exactly the zones; each zone's load, capacity and outage count are the totals over its nodes; nodes of unknown zones are skipped |
| GridOverview.ZoneTotalsStep | backend/app/services/overview_service.py:140-152 | One node updates only its own zone's accumulators, and only when that zone is known |
| GridOverview.SumZoneLoadsSnoc | backend/app/services/overview_service.py:185 | Over distinct zones, adding a node adds its load to the zone-load sum iff its zone is listed |
| GridOverview.TotalLoadIsLoadOfZonedNodes | backend/app/services/overview_service.py:185 | Summing the per-zone loads equals summing the loads of the nodes in listed zones |
| GridOverview.EmptyZoneLoads | backend/app/services/overview_service.py:136 | With no nodes every zone load sums to 0 |
| GridOverview.SumZoneCapsSnoc | backend/app/services/overview_service.py:186 | Over distinct zones, adding a node adds its capacity to the zone-capacity sum iff its zone is listed |
| GridOverview.TotalCapIsCapOfZonedNodes | backend/app/services/overview_service.py:186 | Summing the per-zone capacities equals summing the capacities of the nodes in listed zones |
| GridOverview.EmptyZoneCaps | backend/app/services/overview_service.py:136 | With no nodes every zone capacity sums to 0 |
| GridOverview.Utilization | backend/app/services/overview_service.py:161 | 0 without capacity; with capacity, u·cap = 100·load (so u = load/cap·100), ≥ 100 iff load ≥ capacity and ≥ 0 iff load ≥ 0 |
| GridOverview.Shortfall | backend/app/services/overview_service.py:167 | max(0, load − cap) |
| GridOverview.AffectedCustomers | backend/app/services/overview_service.py:168 | The integer part of 500 × shortfall; 0 when load ≤ capacity |
| GridOverview.RegionFor | backend/app/services/overview_service.py:158-183 | The row carries the zone id and name, load, capacity, outages, utilisation, the status of that utilisation, affected customers and the zone's weather |
| GridOverview.ZoneWeather | backend/app/services/overview_service.py:171 | The zone's entry when the map has one, otherwise the normal Coast entry |
| GridOverview.WorstStatus | backend/app/services/overview_service.py:156-165 | Normal for no regions; otherwise it ranks at least every region's status |
| GridOverview.SumOver | backend/app/services/overview_service.py:185-186 | A sum of non-negative entries is non-negative |
| GridOverview.WorstStatusIsMaximum | backend/app/services/overview_service.py:156-165 | The fold's result ranks at least every region's status, and it is Normal or some region's status |
| GridOverview.WorstStatusSnoc | backend/app/services/overview_service.py:164-165 | A later region replaces the running worst only when it ranks strictly higher |
| GridOverview.BuildRegions | backend/app/services/overview_service.py:155-183 | One row per zone in zone order, and the running worst equals the fold, bounding every row's rank |
| GridOverview.FrequencyDrop | backend/app/services/overview_service.py:191-196 | Each region's drop is non-negative |
| GridOverview.TotalDrop | backend/app/services/overview_service.py:189-196 | The summed decrements over the rows: never negative and at most 0.5 per row |
| GridOverview.TotalDropByCounts | backend/app/services/overview_service.py:188-196 | Total drop is 0.1 per stressed, 0.3 per critical and 0.5 per blacked-out region |
| GridOverview.GridFrequency | backend/app/services/overview_service.py:188-200 | Frequency is max(60 − total drop, 59), hence in [59, 60] |
| GridOverview.TablesCoverEveryZone | backend/app/services/overview_service.py:35-55 | Both weather tables cover exactly the eight zones; every Uri entry is extreme and no normal entry is |
| GridOverview.UriWeather | backend/app/services/overview_service.py:35-44 | The Uri table: temperature, wind, condition and extreme flag per zone (constant table, covered by TablesCoverEveryZone) |
| GridOverview.NormalWeather | backend/app/services/overview_service.py:46-55 | The normal table: temperature, wind, condition and extreme flag per zone (constant table, covered by TablesCoverEveryZone) |
| GridOverview.DeriveCondition | backend/app/services/overview_service.py:76-87 | Each condition holds iff its temperature/wind band holds (the if-chain written in closed form) |
| GridOverview.IsExtreme | backend/app/services/overview_service.py:89 | An extreme reading is labelled Freezing, Near freezing, Extreme heat or High winds; a non-extreme one Near freezing, Windy or Clear |
| GridOverview.ExtremeAgreesWithCondition | backend/app/services/overview_service.py:76-89 | Freezing, extreme heat and high winds are extreme; windy and clear are not; near freezing is extreme iff wind ≥ 30 |
| GridOverview.LiveEntry | backend/app/services/overview_service.py:66-96 | No reading gives the zone's normal entry; otherwise the first reading's temperature and wind (70 °F and 10 mph when missing), with the condition and the extreme flag derived from them |
| GridOverview.LiveWeatherMap | backend/app/services/overview_service.py:58-97 | A failed fetch gives the normal table; otherwise exactly the fetched zones, each with its LiveEntry |
| GridOverview.BuildLiveWeather | backend/app/services/overview_service.py:58-97 | The loop over the fetched zones builds exactly the live weather map LiveWeatherMap(fetched) |
| GridOverview.ForecastHour | backend/app/services/overview_service.py:120-125 | 36 for "uri", 0 for "live", 12 otherwise |
| GridOverview.WeatherSourceFor | backend/app/services/overview_service.py:128-133 | The tag is UriTable iff "uri", LiveReadings iff "live", NormalTable otherwise |
| GridOverview.ScenarioWeather | backend/app/services/overview_service.py:128-133 | The weather map the rows read: the Uri table for "uri", the live map for "live", the normal table for any other scenario |
| GridOverview.TableScenarioExtremes | backend/app/services/overview_service.py:35-133 | Outside "live" every zone has a table entry, and its weather is extreme iff the scenario is "uri" |
| GridOverview.Assemble | backend/app/services/overview_service.py:135-205 | Over distinct zones: each row is the row of that zone's totals; the national status is the fold and bounds every row; frequency = max(60 − total drop, 59); total load and total capacity are those of the zoned nodes; timestamp = now |
| GridOverview.GetOverview | backend/app/services/overview_service.py:118-205 | Eight rows in zone order, each exactly the row of that zone's load, capacity and outages under the multipliers for (scenario, ForecastHour(scenario)) and the scenario's weather; national status = worst; frequency = max(60 − total drop, 59); total load and total capacity = those of the nodes in known zones; timestamp = now |
| GridOverview.SumOverLoads | backend/app/services/overview_service.py:185 | Summing the accumulator values equals summing the zone loads |
| GridOverview.SumOverCaps | backend/app/services/overview_service.py:186 | Summing the capacity accumulators equals summing the zone capacities |
| GridOverview.NationalTotals | backend/app/services/overview_service.py:185-186 | Over distinct zones, the summed accumulators are the load and the capacity of the nodes in those zones |
| GridOverview.FindRegion | backend/app/services/overview_service.py:211-214 | Returns the first row with the id, or None iff no row has it |
| GridOverview.GetRegion | backend/app/services/overview_service.py:208-214 | Found iff the id is one of the eight zones, and then it is exactly that zone's overview row for the scenario |
| ProfileForm.DigitsOnly | src/components/ConsumerProfileModal.tsx:359 | The filtered text has only digits and is no longer than the input; it equals the input iff the input is all digits |
| ProfileForm.DigitsOnlyConcat | src/components/ConsumerProfileModal.tsx:359 | The filter distributes over concatenation, so it works character by character and keeps order |
| ProfileForm.DigitsOnlySingle | src/components/ConsumerProfileModal.tsx:359 | On one character it keeps the character exactly when it is a digit |
| ProfileForm.DigitsOnlyIdempotent | src/components/ConsumerProfileModal.tsx:359 | Filtering twice equals filtering once |
| ProfileForm.DigitsOnlyLength | src/components/ConsumerProfileModal.tsx:359 | The filtered length is the number of digits in the input |
| ProfileForm.CustomProfile | src/components/ConsumerProfileModal.tsx:247-260 | zip = the text, location = "ZIP " + the text, and the fixed defaults for every other field |
| ProfileForm.Form.constructor | src/components/ConsumerProfileModal.tsx:177-178 | Nothing selected, empty ZIP |
| ProfileForm.Form.SetOpen | src/components/ConsumerProfileModal.tsx:191-196 | A closed-to-open change clears both fields; any other change keeps them |
| ProfileForm.Form.HandleSelect | src/components/ConsumerProfileModal.tsx:232-235 | The profile is selected and the ZIP cleared |
| ProfileForm.Form.OnZipChange | src/components/ConsumerProfileModal.tsx:356-361 | The ZIP becomes the raw text's digits; any non-empty raw text drops the selection; the form stays valid (digits only, at most 5, never both choices) |
| ProfileForm.Form.HandleConnect | src/components/ConsumerProfileModal.tsx:237-243 | Emits onSelect(selected) then onClose iff something is selected; otherwise nothing |
| ProfileForm.Form.HandleCustomSubmit | src/components/ConsumerProfileModal.tsx:245-264 | Nothing below 5 characters; otherwise the custom profile then onClose. From a valid form the submitted ZIP is exactly five digits |
| ProfileForm.TypeThenConnect | src/components/ConsumerProfileModal.tsx:358-361 | Typing anything and then connecting emits nothing, and the form stays valid |

## Left out

- Python `round(x, 1)` and `round(x, 2)` are not modelled. Loads, capacities, utilisation, frequency and weather readings are exact reals, and the status is classified on the unrounded utilisation. The source classifies the utilisation after rounding it to one decimal, so a value such as 94.96 is Blackout there and Critical here.
- Floating-point accumulation is not modelled (the repeated 0.1, 0.3 and 0.5 decrements and the running sums). The model computes sums exactly.
- CascadePlayback.TickPeriodMs: requires a positive speed; `2000 / speed` for zero or negative speeds (Infinity or a negative delay) is not modelled.
- CascadePlayback.Player.SetSpeed: stores any real; the source accepts whatever the caller passes.
- Timer scheduling is left out. `setInterval`, `clearInterval` and `setTimeout` become explicit calls (`Tick`, `ExpireNewest`, `ExpireHighlight`), and their timing and ordering are not modelled.
- React's render batching and effect scheduling are left out; each handler is one atomic step.
- EventFeed.SeverityIcon: only the five listed keys and the fallback are modelled. Lookups of inherited object properties such as "constructor" on the JavaScript object are not.
- EventFeed.OnMessage: JSON parsing is abstracted. Every payload whose parsing or field access throws is one `Unparseable` message. Non-integer and non-numeric offsets are not modelled.
- EventFeed.OnMessage: the title and description are strings; missing ones (undefined in JavaScript) are not modelled.
- The "new" and highlight flags compare ids, so two rows with the same id are flagged together, as in the source.
- The EventSource, Supabase channel and network transports are not modelled. The server-side `grid_region` filter of the alerts channel is the caller's concern, and the alert `metadata` column is not modelled.
- The weather fetch `_fetch_zone_weather`, the grid graph and `compute_demand_multipliers` are code this model cannot see. Their results are inputs: a node list, a demand function from (scenario, forecast hour) to a multiplier map, and an optional per-zone record map, where None stands for a fetch that raised. The logging call is left out.
- Wall-clock time (`Date.now()`, `datetime.now`) is the parameter `now`.
- Default arguments and object identity are left out. `useRealtimeAlerts(gridRegion = "ERCOT")` and the `scenario="uri"` defaults of `get_overview` and `get_region` are not modelled: `AlertsFeed`'s constructor, `GetOverview` and `GetRegion` always take the value. A `FocusRequest` is a plain value, so the model does not capture that the source creates a fresh object per call, which lets a repeated request to the same spot trigger the globe again.
- The form's modal DOM code is left out: the focus trap, the Escape key listener, `console.log` and the animations.
- The demo profile constants are not modelled; `HandleSelect` accepts any profile.
- The ZIP input's `maxLength` is taken as an assumption about the raw text (`OnZipChange` requires at most 5 characters). It is a browser guarantee, not code.
- backend/app/routers/orchestrate.py, src/app/operator/page.tsx and src/components/OperatorGlobe.tsx are not part of this model. They hold a framework wrapper, static layout data and map rendering.
