# MirrorMirrow dashboard core, modelled in Dafny

MirrorMirrow is a clinical dashboard for autism-spectrum behavioural
assessment. This project models the logic behind four of its screens and
proves properties of it:

- **Session analysis** (`session_analysis.dfy`). A simulated eight-minute
  recording with a play/pause clock, 15-second skips and a one-second tick.
  A catalog of nine detected behavioural events is revealed 30 seconds ahead
  of the playhead. The revealed list can be filtered by severity. The latest
  revealed event is shown as an overlay while playing, and a footer counts
  the revealed events by severity. The `mm:ss` clock display is modelled too.
  The playing view is a `Player` class whose handlers update its fields. Each
  handler is proved equal to a pure transition on a `PlayState` value.
- **Patient directory** (`patient_directory.dfy`). The seven seeded patients
  and the case-insensitive search over name, id and diagnosis. Also the
  active count, the initials avatar, the risk-score colour classes, the
  trend labels and the dimming of discharged patients.
- **Behavioural metrics** (`behavioral_metrics.dfy`). The risk gauge's colour
  and label, the rise/fall indicator and "+n%" figure of the KPI cards, and
  the change column of the domain-score table.
- **The shell** (`dashboard.dfy`). The seven tabs and the sidebar entries that
  select them, the breadcrumb heading, the two session sub-tabs, and the
  dispatch that chooses what the main area shows. The shell's two state
  hooks are a `Shell` class whose click handlers are proved equal to pure
  transitions on a `NavState` value.

Supporting modules:

- `options.dfy` — an `Option` type.
- `sequences.dfy` — `Array.prototype.filter` as `Filter`, plus subsequence facts.
- `decimal.dfy` — integer-to-decimal rendering, `padStart` and reading numerals back.
- `risk_bands.dfy` — the three risk bands (below 30, below 60, 60 and above)
  that the directory and the gauge share.

## Model

| member | source | states |
|---|---|---|
| Sequences.Filter | components/dashboard/session-analysis.tsx:223 | An element is in the filtered list exactly when it is in the list and satisfies the predicate; the filtered list is never longer. |
| Sequences.FilterComplementLength | components/dashboard/patient-directory.tsx:54 | What a predicate keeps and what its negation keeps add up to the whole list. |
| Sequences.FilterMultiplicity | components/dashboard/session-analysis.tsx:223 | Filtering keeps every copy of an element that passes and no copy of one that fails. |
| Sequences.FilterIsSubsequence | components/dashboard/session-analysis.tsx:223 | Filtering keeps the order of the elements it keeps. |
| Sequences.FilterStronger | components/dashboard/session-analysis.tsx:224-226 | Filtering by a stronger predicate keeps a subsequence of what a weaker predicate keeps. |
| Sequences.FilterKeepsAll | components/dashboard/patient-directory.tsx:41-46 | A predicate that rejects nothing leaves the list unchanged. |
| Sequences.FilterPrefix | components/dashboard/patient-directory.tsx:54 | When exactly the first k elements pass, filtering keeps those k. |
| Sequences.FilterDownwardClosed | components/dashboard/session-analysis.tsx:223 | When an element passes only if every earlier element passes, filtering keeps a prefix. |
| Decimal.NatToString | components/dashboard/session-analysis.tsx:216-217 | A natural number renders as a non-empty string of digits, with a leading zero only for 0. |
| Decimal.IntToString | components/dashboard/behavioral-metrics.tsx:98 | An integer renders with a leading minus sign exactly when it is negative. |
| Decimal.PadStart | components/dashboard/session-analysis.tsx:216-217 | Padding fills the front up to the width and keeps the string as the suffix. |
| Decimal.ParseNatToString | components/dashboard/session-analysis.tsx:216-217 | The rendering of a natural number reads back as that number. |
| Decimal.PadStartKeepsValue | components/dashboard/session-analysis.tsx:216-217 | Zero-padding a rendered number keeps its value. |
| Decimal.IntToStringRoundTrip | components/dashboard/behavioral-metrics.tsx:98 | The rendering of every integer reads back as that integer. |
| Decimal.PlusSignedRoundTrip | components/dashboard/behavioral-metrics.tsx:98 | A "+" before a non-negative rendering still reads back as the number. |
| RiskBands.BandMonotone | components/dashboard/patient-directory.tsx:110 | A higher score never falls in a lower risk band than a lower score. |
| RiskBands.BandOf | components/dashboard/patient-directory.tsx:110 | The band of a score: low below 30, moderate from 30 to 59, high from 60 (its thresholds are stated by RiskColorThresholds and GaugeThresholds). |
| SessionAnalysis.CatalogSorted | components/dashboard/session-analysis.tsx:43-134 | The nine catalog events are listed in strictly increasing timestamp order, from 42 s to 393 s. |
| SessionAnalysis.Max | components/dashboard/session-analysis.tsx:505 | `Math.max` of the back skip: SkipBack and SkipsSaturate state the clock it gives. |
| SessionAnalysis.Min | components/dashboard/session-analysis.tsx:517 | `Math.min` of the forward skip: SkipForward and SkipsSaturate state the clock it gives. |
| SessionAnalysis.Revealed | components/dashboard/session-analysis.tsx:223 | The look-ahead callback: Window states that it admits exactly the events at most 30 s past the playhead. |
| SessionAnalysis.VisibleEvents | components/dashboard/session-analysis.tsx:223 | The catalog events revealed at time t: VisibleIsPrefix, VisibleMonotone, VisibleEmptyIff and VisibleAllFrom state that they are a growing prefix, empty before 12 s and complete from 363 s. |
| SessionAnalysis.Window | components/dashboard/session-analysis.tsx:223 | An event is revealed at time t exactly when it is in the list and its timestamp is at most t + 30. |
| SessionAnalysis.WindowCut | components/dashboard/session-analysis.tsx:223 | On a time-ordered list, the revealed events are exactly the first k events, where k is the first event past t + 30. |
| SessionAnalysis.WindowIsPrefix | components/dashboard/session-analysis.tsx:223 | On a time-ordered list, the revealed events are a prefix of the list. |
| SessionAnalysis.WindowMonotone | components/dashboard/session-analysis.tsx:223 | A later playhead reveals a longer prefix: nothing revealed is hidden again. |
| SessionAnalysis.WindowSorted | components/dashboard/session-analysis.tsx:223 | The revealed events stay in time order. |
| SessionAnalysis.VisibleIsPrefix | components/dashboard/session-analysis.tsx:223 | The visible events are a prefix of the catalog. |
| SessionAnalysis.VisibleMonotone | components/dashboard/session-analysis.tsx:223 | The visible list only grows as the playhead moves forward. |
| SessionAnalysis.VisibleEmptyIff | components/dashboard/session-analysis.tsx:223 | Nothing is visible exactly when t + 30 is below the first timestamp, 42. |
| SessionAnalysis.WindowAll | components/dashboard/session-analysis.tsx:223 | Once t + 30 reaches the last event of a time-ordered list, the whole list is revealed. |
| SessionAnalysis.VisibleAllFrom | components/dashboard/session-analysis.tsx:223 | Once t + 30 reaches 393, the whole catalog is visible. |
| SessionAnalysis.VisibleAtBounds | components/dashboard/session-analysis.tsx:223 | At 0 s nothing is visible; at the end of the recording all nine events are. |
| SessionAnalysis.CategoriesCoverFilters | components/dashboard/session-analysis.tsx:230 | The filter bar offers every filter ("all" and each severity), each exactly once. |
| SessionAnalysis.HasSeverity | components/dashboard/session-analysis.tsx:226 | The severity callback: FilteredEvents states that it keeps exactly the visible events of that severity. |
| SessionAnalysis.FilteredEvents | components/dashboard/session-analysis.tsx:224-226 | "all" lists the visible events unchanged; a severity lists exactly the visible events of that severity. |
| SessionAnalysis.FilteredIsSubsequence | components/dashboard/session-analysis.tsx:224-226 | The filtered list keeps the visible events' order and drops some of them. |
| SessionAnalysis.LatestEvent | components/dashboard/session-analysis.tsx:228 | The last visible event, if any: LatestEventNoneIff and LatestEventIsLatest state when it exists and that no visible event is later. |
| SessionAnalysis.LatestEventNoneIff | components/dashboard/session-analysis.tsx:228 | There is no latest event exactly when nothing is visible yet (t + 30 < 42). |
| SessionAnalysis.LatestEventIsLatest | components/dashboard/session-analysis.tsx:228 | The latest event is a visible event, and no visible event has a later timestamp. |
| SessionAnalysis.SeverityCount | components/dashboard/session-analysis.tsx:675-677 | The number of visible events of one severity: SeveritiesPartition and FooterCountsSum state that the counts partition the visible list. |
| SessionAnalysis.SeveritiesPartition | components/dashboard/session-analysis.tsx:675-677 | The four severity filters split any list: their lengths add up to the list's length. |
| SessionAnalysis.FooterCountsSum | components/dashboard/session-analysis.tsx:675-677 | The footer's positive, warning and critical counts add up to the visible count minus the info events. |
| SessionAnalysis.ColonJoin | components/dashboard/session-analysis.tsx:218 | Joining minutes and two-character seconds with ":" can be split back into its parts. |
| SessionAnalysis.ParseTimeOfJoin | components/dashboard/session-analysis.tsx:218 | Two digits and a colon read back as minutes times 60 plus seconds, for seconds below 60. |
| SessionAnalysis.ClockPartsRoundTrip | components/dashboard/session-analysis.tsx:215-219 | Minutes and seconds below 60, each zero-padded to two places and joined by a colon, read back as minutes times 60 plus seconds. |
| SessionAnalysis.FormatTime | components/dashboard/session-analysis.tsx:215-219 | The mm:ss clock display: FormatTimeRoundTrip states that it reads back as the seconds it shows, FormatTimeDigits that it is two digits, a colon and two digits below 100 minutes. |
| SessionAnalysis.FormatTimeRoundTrip | components/dashboard/session-analysis.tsx:215-219 | The clock display reads back as the seconds it shows: minutes times 60 plus seconds below 60. |
| SessionAnalysis.FormatTimeDigits | components/dashboard/session-analysis.tsx:215-219 | Below 100 minutes the display is five characters: two minute digits, a colon, two second digits. |
| SessionAnalysis.FormatTimeOfDuration | components/dashboard/session-analysis.tsx:498 | The end label of the scrubber reads "08:00". |
| SessionAnalysis.Tick | components/dashboard/session-analysis.tsx:199-205 | A tick keeps the clock within 0..480, never moves it back, and leaves the filter alone. |
| SessionAnalysis.SkipBack | components/dashboard/session-analysis.tsx:505 | A back skip keeps the clock within 0..480. |
| SessionAnalysis.SkipForward | components/dashboard/session-analysis.tsx:517 | A forward skip keeps the clock within 0..480. |
| SessionAnalysis.TogglePlay | components/dashboard/session-analysis.tsx:511 | Play/pause flips playback only: TogglePlayTwice states that pressing twice restores the state. |
| SessionAnalysis.SetFilter | components/dashboard/session-analysis.tsx:594 | A filter click replaces the active filter and nothing else (stated by Player.OnFilterClick). |
| SessionAnalysis.TicksAdvance | components/dashboard/session-analysis.tsx:196-213 | After n ticks the clock reads min(480, start + n), and playback is still on exactly while start + n ≤ 480. |
| SessionAnalysis.PlayFromStart | components/dashboard/session-analysis.tsx:186-187 | Pressing play on a fresh view and waiting n ticks shows min(n, 480); playback stops on tick 481. |
| SessionAnalysis.PlayAtEndStopsAtOnce | components/dashboard/session-analysis.tsx:200-203 | Pressing play at the end stops playback on the first tick and leaves the clock at 480. |
| SessionAnalysis.TogglePlayTwice | components/dashboard/session-analysis.tsx:511 | Pressing play/pause twice restores the state. |
| SessionAnalysis.SkipsSaturate | components/dashboard/session-analysis.tsx:505-517 | n back skips give max(0, t − 15n) and n forward skips give min(480, t + 15n); nothing else changes. |
| SessionAnalysis.ForwardMovesKeepEvents | components/dashboard/session-analysis.tsx:223 | Neither a tick nor a forward skip hides a revealed event. |
| SessionAnalysis.OverlayShown | components/dashboard/session-analysis.tsx:414 | The overlay guard, a latest event while playing: OverlayShownIff states when it holds. |
| SessionAnalysis.OverlayShownIff | components/dashboard/session-analysis.tsx:414 | The live overlay shows exactly while playing with t + 30 ≥ 42. |
| SessionAnalysis.Player.constructor | components/dashboard/session-analysis.tsx:186-191 | A fresh view is paused at 0 s with filter "all" and no timer armed. |
| SessionAnalysis.Player.OnTick | components/dashboard/session-analysis.tsx:196-213 | The timer callback performs Tick: it adds one second, or pins the clock at 480 and stops playback and the timer. |
| SessionAnalysis.Player.OnSkipBack | components/dashboard/session-analysis.tsx:505 | The clock becomes max(0, t − 15); play state and filter are unchanged. |
| SessionAnalysis.Player.OnPlayPause | components/dashboard/session-analysis.tsx:511 | Playback flips, the timer is armed exactly while playing, and the clock and filter are unchanged. |
| SessionAnalysis.Player.OnSkipForward | components/dashboard/session-analysis.tsx:517 | The clock becomes min(480, t + 15); play state and filter are unchanged. |
| SessionAnalysis.Player.OnFilterClick | components/dashboard/session-analysis.tsx:594 | Only the active filter changes. |
| PatientDirectory.LowerChar | components/dashboard/patient-directory.tsx:43 | Lower-casing maps A–Z to a–z and leaves every other character alone. |
| PatientDirectory.Includes | components/dashboard/patient-directory.tsx:43-45 | `includes`: IncludesIff states that it holds exactly when the query occurs at some position. |
| PatientDirectory.Lower | components/dashboard/patient-directory.tsx:43-45 | The lower-cased string has the same length and is lower-cased character by character. |
| PatientDirectory.IncludesIff | components/dashboard/patient-directory.tsx:43-45 | `includes` holds exactly when the query occurs at some position of the string. |
| PatientDirectory.IncludesTransitive | components/dashboard/patient-directory.tsx:43-45 | A substring of a substring is a substring. |
| PatientDirectory.LowerKeepsIncludes | components/dashboard/patient-directory.tsx:43-45 | Lower-casing both sides keeps an exact match a match. |
| PatientDirectory.Matches | components/dashboard/patient-directory.tsx:42-45 | The filter callback: SearchIn states that it tests the lower-cased query against the lower-cased name, id and diagnosis. |
| PatientDirectory.Search | components/dashboard/patient-directory.tsx:41-46 | The filtered directory: SearchIn, SearchEmptyKeepsAll, SearchIsSubsequence, SearchCaseInsensitive and SearchNarrowing state what it keeps. |
| PatientDirectory.SearchIn | components/dashboard/patient-directory.tsx:41-46 | A patient is kept exactly when the lower-cased query occurs in its lower-cased name, id or diagnosis. |
| PatientDirectory.SearchEmptyKeepsAll | components/dashboard/patient-directory.tsx:41-46 | The empty query lists every patient, in order. |
| PatientDirectory.SearchIsSubsequence | components/dashboard/patient-directory.tsx:41-46 | The results keep the directory's order. |
| PatientDirectory.SearchCaseInsensitive | components/dashboard/patient-directory.tsx:41-46 | Two queries that differ only in letter case give the same results. |
| PatientDirectory.SearchNarrowing | components/dashboard/patient-directory.tsx:41-46 | Extending the query can only drop patients: the longer query's results are a subsequence of the shorter's. |
| PatientDirectory.IsActive | components/dashboard/patient-directory.tsx:54 | A patient counts as active exactly when its status is active; DimmedAreInactive states that every patient is either counted active or dimmed. |
| PatientDirectory.ActiveCount | components/dashboard/patient-directory.tsx:54 | The active count never exceeds the number of patients. |
| PatientDirectory.SeedCounts | components/dashboard/patient-directory.tsx:23-31 | The header reads 7 patients, 6 of them active. |
| PatientDirectory.Split | components/dashboard/patient-directory.tsx:124 | Splitting at spaces gives at least one piece, and no piece contains a space. |
| PatientDirectory.JoinSplit | components/dashboard/patient-directory.tsx:124 | Rejoining the pieces with spaces gives back the name. |
| PatientDirectory.FirstChars | components/dashboard/patient-directory.tsx:124 | The first character of each piece: InitialsAreWordStarts states that these are the characters that start a word. |
| PatientDirectory.Initials | components/dashboard/patient-directory.tsx:124 | The avatar initials: InitialsSpec and InitialsOfTwoWords state that they are the first letters of the words. |
| PatientDirectory.WordStarts | components/dashboard/patient-directory.tsx:124 | The single-pass initials never contain a space. |
| PatientDirectory.InitialsAreWordStarts | components/dashboard/patient-directory.tsx:124 | The first characters of the split pieces are the characters that follow a space or start the name. |
| PatientDirectory.InitialsSpec | components/dashboard/patient-directory.tsx:124 | The avatar initials equal the single-pass definition. |
| PatientDirectory.SkipWord | components/dashboard/patient-directory.tsx:124 | The inside of a word contributes no initial. |
| PatientDirectory.WordStartsCons | components/dashboard/patient-directory.tsx:124 | A character contributes an initial exactly when it is not a space and follows a space or starts the name. |
| PatientDirectory.InitialsOfTwoWords | components/dashboard/patient-directory.tsx:124 | A two-word name such as "Marcus T." has as initials the first letters of its two words. |
| PatientDirectory.RiskColorFollowsBand | components/dashboard/patient-directory.tsx:110 | The score's text colour is the band's hue (emerald, amber, red) at shade 600. |
| PatientDirectory.RiskBgFollowsBand | components/dashboard/patient-directory.tsx:111 | The score bar's colour is the band's hue at shade 500. |
| PatientDirectory.RiskColorThresholds | components/dashboard/patient-directory.tsx:110 | Each text colour belongs to exactly one score range: below 30, 30 to 59, 60 and above. |
| PatientDirectory.RiskColorAgreesWithBg | components/dashboard/patient-directory.tsx:110-111 | Two scores share a text colour exactly when they share a bar colour, and exactly when they share a band. |
| PatientDirectory.RiskColor | components/dashboard/patient-directory.tsx:110 | The score text colour: RiskColorFollowsBand and RiskColorThresholds state its three ranges. |
| PatientDirectory.RiskBg | components/dashboard/patient-directory.tsx:111 | The score bar colour: RiskBgFollowsBand and RiskColorAgreesWithBg state that it follows the same bands. |
| PatientDirectory.TrendLabel | components/dashboard/patient-directory.tsx:33-37 | The trend badge text: TrendLabelsDistinct states that the three labels differ. |
| PatientDirectory.TrendLabelsDistinct | components/dashboard/patient-directory.tsx:33-37 | No two trends share a label. |
| PatientDirectory.Dimmed | components/dashboard/patient-directory.tsx:117 | Discharged rows are drawn at reduced opacity; DimmedAreInactive and SeedDimmed state which. |
| PatientDirectory.DimmedAreInactive | components/dashboard/patient-directory.tsx:117 | A row is dimmed exactly when it is not counted active, so the dimmed and the active rows add up to the directory. |
| PatientDirectory.SeedDimmed | components/dashboard/patient-directory.tsx:117 | Of the seeded patients only the seventh, Jaylen R., is dimmed. |
| BehavioralMetrics.GaugeThresholds | components/dashboard/behavioral-metrics.tsx:111-112 | Each gauge label and each colour belongs to exactly one score range. |
| BehavioralMetrics.ColorAgreesWithRisk | components/dashboard/behavioral-metrics.tsx:111-112 | Two scores share a gauge colour exactly when they share a label, and exactly when they share a band. |
| BehavioralMetrics.PageGauge | components/dashboard/behavioral-metrics.tsx:377 | The page's gauge (score 42) reads "Moderate Risk" in amber. |
| BehavioralMetrics.IsPositive | components/dashboard/behavioral-metrics.tsx:68 | The card has a change above zero: CardSignsExclusive states that it never holds together with IsNegative. |
| BehavioralMetrics.IsNegative | components/dashboard/behavioral-metrics.tsx:69 | The card has a change below zero: CardSignsExclusive states that it never holds together with IsPositive, and that neither holds exactly for no change or 0. |
| BehavioralMetrics.GetColor | components/dashboard/behavioral-metrics.tsx:111 | The gauge colour: GaugeThresholds and ColorAgreesWithRisk state its three score ranges. |
| BehavioralMetrics.GetRisk | components/dashboard/behavioral-metrics.tsx:112 | The gauge label: GaugeThresholds and ColorAgreesWithRisk state that it follows the same ranges as the colour. |
| BehavioralMetrics.CardIcon | components/dashboard/behavioral-metrics.tsx:70 | The KPI card icon: CardSignsExclusive states that it is neutral exactly without a non-zero change. |
| BehavioralMetrics.CardChangeColor | components/dashboard/behavioral-metrics.tsx:95 | The KPI figure colour: CardColorFollowsIcon states that it is green exactly with the up icon and red exactly with the down icon. |
| BehavioralMetrics.CardIconColor | components/dashboard/behavioral-metrics.tsx:87-90 | The KPI icon colour: IconColorFollowsFigure states that it matches the figure colour. |
| BehavioralMetrics.IconColorFollowsFigure | components/dashboard/behavioral-metrics.tsx:87-95 | The icon is emerald exactly when the figure is, red exactly when the figure is, and muted exactly with the neutral icon. |
| BehavioralMetrics.CardChangeText | components/dashboard/behavioral-metrics.tsx:84-98 | A card shows a change figure exactly when it has a change. |
| BehavioralMetrics.CardSignsExclusive | components/dashboard/behavioral-metrics.tsx:68-70 | A card is never both rising and falling; it shows the neutral icon exactly when it has no change or a change of 0. |
| BehavioralMetrics.CardColorFollowsIcon | components/dashboard/behavioral-metrics.tsx:70-95 | The figure is green exactly with the up icon and red exactly with the down icon. |
| BehavioralMetrics.CardChangeTextShape | components/dashboard/behavioral-metrics.tsx:98 | The figure ends in "%", starts with "+" exactly for a rise and "-" exactly for a fall, and reads back as the change. |
| BehavioralMetrics.PageCards | components/dashboard/behavioral-metrics.tsx:241-268 | Of the four KPI cards only the third falls, and its figure reads "-22%". |
| BehavioralMetrics.RowChangeShape | components/dashboard/behavioral-metrics.tsx:467-469 | The up arrow, green and "+" appear exactly for a rise; a change of 0 is drawn as a fall reading "0"; the figure reads back. |
| BehavioralMetrics.RowArrow | components/dashboard/behavioral-metrics.tsx:468 | The table arrow: RowChangeShape states that it points up exactly for a rise. |
| BehavioralMetrics.RowChangeColor | components/dashboard/behavioral-metrics.tsx:467 | The table figure colour: RowChangeShape states that it is green exactly for a rise. |
| BehavioralMetrics.RowChangeText | components/dashboard/behavioral-metrics.tsx:469 | The table figure: RowChangeShape states that it starts with "+" exactly for a rise and reads back as the change. |
| BehavioralMetrics.PageRows | components/dashboard/behavioral-metrics.tsx:440-444 | Only the "Restricted/Repetitive" row is drawn as a fall. |
| BehavioralMetrics.CardAndRowOnZero | components/dashboard/behavioral-metrics.tsx:70 | Cards and table rows agree on every non-zero change; on 0 the card is neutral and the row falls. |
| Dashboard.ParseTabId | app/page.tsx:13 | Every tab's id reads back as that tab. |
| Dashboard.TabIdOfParse | app/page.tsx:13 | Every string that reads as a tab is that tab's id. |
| Dashboard.TabId | app/page.tsx:13 | The id of each tab: ParseTabId states that ParseTab reads it back. |
| Dashboard.ParseTab | app/page.tsx:13 | The tab a string names: TabIdOfParse states that it only accepts tab ids. |
| Dashboard.Breadcrumb | app/page.tsx:24-30 | The top-bar heading: BreadcrumbInjective states that no two tabs share one. |
| Dashboard.BreadcrumbInjective | app/page.tsx:24-30 | No two tabs share a breadcrumb heading. |
| Dashboard.SidebarIdsAreTabs | components/dashboard/sidebar.tsx:30-61 | Every sidebar id is a tab, labelled with that tab's breadcrumb, so the cast in the tab-change handler is sound. |
| Dashboard.SidebarHasEveryTab | components/dashboard/sidebar.tsx:30-61 | Every tab has a sidebar entry carrying its id and its breadcrumb. |
| Dashboard.SubtabIds | app/page.tsx:15-18 | The session sub-tabs are exactly "video" and "metrics". |
| Dashboard.SubtabBarVisible | app/page.tsx:104 | The sub-tab bar is drawn on the session tab only; Shell.OnSubtabClick requires it. |
| Dashboard.IsPlaceholderTab | app/page.tsx:149 | The placeholder guard: PlaceholderHeading states that exactly these three tabs get the placeholder. |
| Dashboard.ExactlyOneView | app/page.tsx:134-159 | With a known sub-tab, exactly one block of the main area renders, and it is the tab's own view. |
| Dashboard.OtherTabsIgnoreSubtab | app/page.tsx:140-159 | Outside the session tab exactly one block renders, whatever the sub-tab is. |
| Dashboard.UnknownSubtabShowsNothing | app/page.tsx:134-139 | On the session tab an unknown sub-tab renders nothing. |
| Dashboard.PlaceholderHeading | app/page.tsx:149-158 | The placeholder renders exactly for analytics, settings and support, headed with the breadcrumb. |
| Dashboard.MainContent | app/page.tsx:134-159 | The blocks the main area draws: ExactlyOneView, OtherTabsIgnoreSubtab, UnknownSubtabShowsNothing and PlaceholderHeading state which. |
| Dashboard.ChangeTab | app/page.tsx:34 | A sidebar click keeps the state valid. |
| Dashboard.OpenSettings | app/page.tsx:90 | The settings button keeps the state valid. |
| Dashboard.ChooseSubtab | app/page.tsx:109 | A sub-tab click always selects a known sub-tab. |
| Dashboard.InitialNavShowsRecording | app/page.tsx:21-22 | The dashboard opens on the session tab, showing the session recording. |
| Dashboard.ReturnRestoresSubtab | app/page.tsx:34 | A sidebar click does not touch the sub-tab, so leaving the session tab and coming back restores the chosen one. |
| Dashboard.SettingsKeepsSubtab | app/page.tsx:90 | The settings button does not touch the sub-tab, so returning to the session tab from settings restores the chosen one. |
| Dashboard.Shell.constructor | app/page.tsx:21-22 | The shell starts on the session tab with the "video" sub-tab. |
| Dashboard.Shell.OnTabChange | app/page.tsx:34 | Only the active tab changes, to the clicked tab. |
| Dashboard.Shell.OnSettingsClick | app/page.tsx:90 | The active tab becomes settings; the sub-tab is kept. |
| Dashboard.Shell.OnSubtabClick | app/page.tsx:104-109 | Only the sub-tab changes, to the clicked button's id; the button exists only on the session tab. |

## Left out

- Timers: `setInterval`/`clearInterval` and the effect that arms them are not modelled. The ghost field `Player.timerArmed` stands for "an interval is armed", and `Player.OnTick` may run only while it is set.
- Floating point: the progress bar, the timeline marker positions, the gauge needle angle and the random animation delays are display details, and are not modelled.
- Rendering: JSX, CSS classes other than the ones tied to a score or a change (the score colours, the gauge colour, and the KPI card icon, figure and table-row colours are modelled), the volume slider, the overlay and skeleton toggles, and the sidebar's own rendering are not modelled.
- The research-grants and clinical-docs screens are not part of this model; only their place in the dispatch is.
- `formatTime` is modelled on natural numbers only. The clock never goes below 0.
- `Decimal.NatToString` and `Decimal.IntToString` render integers as JavaScript renders its safe integers, those of magnitude at most 2^53 − 1 (`Number.MAX_SAFE_INTEGER`). Beyond that a JavaScript number is a rounded double, and its rendering is not modelled. Every number the dashboard renders is at most 480 or a small literal.
- Each catalog event's `mm:ss` string is kept as data. Its agreement with `FormatTime` of the event's seconds is not proved, because unfolding the nine literals is too expensive for the verifier.
- `toLowerCase` is modelled for ASCII letters only; other Unicode case mappings are not.
- The active filter is a typed value (`All` or a severity) rather than a free string. The filter bar produces only these five values.
- The KPI card and table changes are integers. Non-integer changes are not modelled.
- The patients' date of birth, therapist, session count and appointment days are display-only, and are left out of the `Patient` record.
- The gauge badge's background suffix and the trend badges' colours are cosmetic, and are not modelled.
- The text shown when the filtered event list is empty is not modelled.
- The newest-first order in which the event list is drawn is not modelled; the model lists events in catalog order.
- The breadcrumb's patient suffix and the sub-tab bar are modelled only as the `SubtabBarVisible` guard; their fixed texts are not modelled.
