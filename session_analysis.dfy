/** The session-recording view: a simulated playback clock over an eight-minute
    recording, the catalog of events the (simulated) detector reports, the
    look-ahead window that reveals them, the severity filter over that window,
    and the `mm:ss` clock display. */
module SessionAnalysis {

  import opened Options
  import opened Sequences
  import opened Decimal

  datatype Severity = Info | Warning | Positive | Critical

  datatype DetectedEvent = DetectedEvent(
    id: string,
    timestamp: string,
    timestampSec: int,
    title: string,  // `label` in the catalog (a reserved word here)
    category: string,
    severity: Severity,
    confidence: int,
    description: string)

  /** Length of the recording, in seconds. */
  const SessionDuration: int := 480

  /** How far ahead of the playhead detections are revealed, in seconds. */
  const LookAhead: int := 30

  /** Distance covered by one press of a skip button, in seconds. */
  const SkipStep: int := 15

  /** The detections of the recorded session, in the order the catalog lists them. */
  const Events: seq<DetectedEvent> := [E1, E2, E3, E4, E5, E6, E7, E8, E9]

  const E1: DetectedEvent :=
    DetectedEvent("e1", "00:42", 42, "Eye Contact Initiated", "Social", Positive, 94,
      "Subject established sustained gaze with therapist for 2.3s")

  const E2: DetectedEvent :=
    DetectedEvent("e2", "01:15", 75, "Verbal Vocalization", "Language", Positive, 88,
      "Single-word approximation detected: 'baw' (ball)")

  const E3: DetectedEvent :=
    DetectedEvent("e3", "02:03", 123, "Hand Flapping", "Repetitive", Warning, 97,
      "Bilateral hand flapping, 3.1Hz, duration 4.2s — moderate intensity")

  const E4: DetectedEvent :=
    DetectedEvent("e4", "02:47", 167, "Joint Attention", "Social", Positive, 91,
      "Shared reference to toy car; gaze-follow response observed")

  const E5: DetectedEvent :=
    DetectedEvent("e5", "03:31", 211, "Self-Stimulatory Behavior", "Repetitive", Warning, 85,
      "Rocking motion detected, 0.8Hz, 6s duration")

  const E6: DetectedEvent :=
    DetectedEvent("e6", "04:10", 250, "Emotional Dysregulation", "Affect", Critical, 89,
      "Elevated arousal state — raised vocal pitch, increased motor activity")

  const E7: DetectedEvent :=
    DetectedEvent("e7", "05:02", 302, "Social Initiation", "Social", Positive, 92,
      "Child reached for therapist hand; social bids observed")

  const E8: DetectedEvent :=
    DetectedEvent("e8", "05:55", 355, "Motor Regulation", "Motor", Info, 79,
      "Gross motor activity within expected range for age")

  const E9: DetectedEvent :=
    DetectedEvent("e9", "06:33", 393, "Imitation Response", "Language", Positive, 93,
      "Successful action imitation: clapping sequence replicated")

  function Max(a: int, b: int): int
  {
    if a < b then b else a
  }

  function Min(a: int, b: int): int
  {
    if a < b then a else b
  }

  // ---------------------------------------------------------------------------
  // The event catalog

  predicate SortedByTime(es: seq<DetectedEvent>)
  {
    forall i, j :: 0 <= i < j < |es| ==> es[i].timestampSec <= es[j].timestampSec
  }

  /** The catalog is listed in strictly ascending timestamp order. */
  lemma CatalogSorted()
    ensures |Events| == 9
    ensures Events[0].timestampSec == 42 && Events[8].timestampSec == 393
    ensures SortedByTime(Events)
    ensures forall i, j :: 0 <= i < j < |Events| ==> Events[i].timestampSec < Events[j].timestampSec
  {
  }

  // ---------------------------------------------------------------------------
  // The look-ahead window and the severity filter

  /** The detections already revealed when the playhead is at `t`. */
  function Revealed(t: int): DetectedEvent -> bool
  {
    (e: DetectedEvent) => e.timestampSec <= t + LookAhead
  }

  /** The detections of a time-ordered list `es` that are revealed at `t`. */
  function Window(es: seq<DetectedEvent>, t: int): (r: seq<DetectedEvent>)
    ensures forall e :: e in r ==> e in es && e.timestampSec <= t + LookAhead
    ensures forall e :: e in es && e.timestampSec <= t + LookAhead ==> e in r
  {
    Filter(es, Revealed(t))
  }

  /** The detections the view lists when the playhead is at `t`. */
  function VisibleEvents(t: int): seq<DetectedEvent>
  {
    Window(Events, t)
  }

  /** When the first `k` detections of a time-ordered list fall inside the
      window and the next one does not, the window is exactly those `k`. */
  lemma WindowCut(es: seq<DetectedEvent>, t: int, k: nat)
    requires SortedByTime(es) && k <= |es|
    requires 0 < k ==> es[k - 1].timestampSec <= t + LookAhead
    requires k < |es| ==> t + LookAhead < es[k].timestampSec
    ensures Window(es, t) == es[..k]
  {
    forall i | 0 <= i < k
      ensures Revealed(t)(es[i])
    {
      assert es[i].timestampSec <= es[k - 1].timestampSec;
    }
    forall i | k <= i < |es|
      ensures !Revealed(t)(es[i])
    {
      assert es[k].timestampSec <= es[i].timestampSec;
    }
    FilterPrefix(es, Revealed(t), k);
  }

  /** Over a time-ordered list the window is always a prefix of it. */
  lemma WindowIsPrefix(es: seq<DetectedEvent>, t: int)
    requires SortedByTime(es)
    ensures Window(es, t) <= es
  {
    forall i, j | 0 <= i < j < |es| && Revealed(t)(es[j])
      ensures Revealed(t)(es[i])
    {
      assert es[i].timestampSec <= es[j].timestampSec;
    }
    FilterDownwardClosed(es, Revealed(t));
  }

  lemma WindowMonotone(es: seq<DetectedEvent>, t1: int, t2: int)
    requires SortedByTime(es) && t1 <= t2
    ensures Window(es, t1) <= Window(es, t2)
  {
    WindowIsPrefix(es, t1);
    WindowIsPrefix(es, t2);
    FilterStronger(es, Revealed(t1), Revealed(t2));
    SubsequenceLength(Window(es, t1), Window(es, t2));
  }

  /** A window over a time-ordered list is itself time-ordered. */
  lemma WindowSorted(es: seq<DetectedEvent>, t: int)
    requires SortedByTime(es)
    ensures SortedByTime(Window(es, t))
  {
    WindowIsPrefix(es, t);
    var v := Window(es, t);
    forall i, j | 0 <= i < j < |v|
      ensures v[i].timestampSec <= v[j].timestampSec
    {
      assert v[i] == es[i] && v[j] == es[j];
    }
  }

  /** Because the catalog is sorted, the listed events are always a prefix of it. */
  lemma VisibleIsPrefix(t: int)
    ensures VisibleEvents(t) <= Events
  {
    CatalogSorted();
    WindowIsPrefix(Events, t);
  }

  /** Moving the playhead forward never hides an event that was shown. */
  lemma VisibleMonotone(t1: int, t2: int)
    requires t1 <= t2
    ensures VisibleEvents(t1) <= VisibleEvents(t2)
    ensures |VisibleEvents(t1)| <= |VisibleEvents(t2)|
  {
    CatalogSorted();
    WindowMonotone(Events, t1, t2);
  }

  /** Nothing is shown until the window reaches the first detection at 42 s. */
  lemma VisibleEmptyIff(t: int)
    ensures VisibleEvents(t) == [] <==> t + LookAhead < 42
  {
    CatalogSorted();
    if t + LookAhead < 42 {
      WindowCut(Events, t, 0);
    } else {
      assert Events[0] in VisibleEvents(t);
    }
  }

  /** Once the window reaches the last of a time-ordered list, it holds all of it. */
  lemma WindowAll(es: seq<DetectedEvent>, t: int)
    requires SortedByTime(es) && es != []
    requires es[|es| - 1].timestampSec <= t + LookAhead
    ensures Window(es, t) == es
  {
    WindowCut(es, t, |es|);
    assert es[..|es|] == es;
  }

  /** From 363 s on (in particular at the end of the session) every detection is shown. */
  lemma VisibleAllFrom(t: int)
    requires t + LookAhead >= 393
    ensures VisibleEvents(t) == Events
  {
    CatalogSorted();
    WindowAll(Events, t);
  }

  lemma VisibleAtBounds()
    ensures VisibleEvents(0) == []
    ensures VisibleEvents(SessionDuration) == Events
  {
    VisibleEmptyIff(0);
    VisibleAllFrom(SessionDuration);
  }

  datatype SeverityFilter = All | Only(severity: Severity)

  /** The filter buttons, in the order the view shows them. */
  const Categories: seq<SeverityFilter> :=
    [All, Only(Positive), Only(Warning), Only(Critical), Only(Info)]

  /** Every filter value has a button, and no button is repeated. */
  lemma CategoriesCoverFilters()
    ensures forall f :: f in Categories
    ensures forall i, j :: 0 <= i < j < |Categories| ==> Categories[i] != Categories[j]
  {
    forall f: SeverityFilter
      ensures f in Categories
    {
      if f.Only? {
        match f.severity
        case Info => assert f == Categories[4];
        case Warning => assert f == Categories[2];
        case Positive => assert f == Categories[1];
        case Critical => assert f == Categories[3];
      } else {
        assert f == Categories[0];
      }
    }
  }

  function HasSeverity(s: Severity): DetectedEvent -> bool
  {
    (e: DetectedEvent) => e.severity == s
  }

  function FilteredEvents(t: int, f: SeverityFilter): (r: seq<DetectedEvent>)
    ensures f == All ==> r == VisibleEvents(t)
    ensures f.Only? ==> forall e :: e in r ==> e in VisibleEvents(t) && e.severity == f.severity
    ensures f.Only? ==> forall e :: e in VisibleEvents(t) && e.severity == f.severity ==> e in r
  {
    if f == All then VisibleEvents(t) else Filter(VisibleEvents(t), HasSeverity(f.severity))
  }

  /** The filtered list keeps the window's order: it is a subsequence of it. */
  lemma FilteredIsSubsequence(t: int, f: SeverityFilter)
    ensures IsSubsequence(FilteredEvents(t, f), VisibleEvents(t))
  {
    if f == All {
      SubsequenceReflexive(VisibleEvents(t));
    } else {
      FilterIsSubsequence(VisibleEvents(t), HasSeverity(f.severity));
    }
  }

  /** The most recently revealed detection, absent while nothing is revealed. */
  function LatestEvent(t: int): Option<DetectedEvent>
  {
    var v := VisibleEvents(t);
    if |v| == 0 then None else Some(v[|v| - 1])
  }

  /** In a time-ordered list the last element has the greatest timestamp. */
  lemma SortedLastIsGreatest(v: seq<DetectedEvent>)
    requires SortedByTime(v) && v != []
    ensures forall e :: e in v ==> e.timestampSec <= v[|v| - 1].timestampSec
  {
    forall e | e in v
      ensures e.timestampSec <= v[|v| - 1].timestampSec
    {
      var i :| 0 <= i < |v| && v[i] == e;
    }
  }

  /** There is no latest event exactly while the window has not reached the first detection. */
  lemma LatestEventNoneIff(t: int)
    ensures LatestEvent(t).None? <==> t + LookAhead < 42
  {
    VisibleEmptyIff(t);
  }

  /** The latest event is one of the listed events, and no listed event is later. */
  lemma LatestEventIsLatest(t: int)
    ensures LatestEvent(t).Some? ==> LatestEvent(t).value in VisibleEvents(t)
    ensures LatestEvent(t).Some? ==>
      forall e :: e in VisibleEvents(t) ==> e.timestampSec <= LatestEvent(t).value.timestampSec
  {
    var v := VisibleEvents(t);
    if v != [] {
      CatalogSorted();
      WindowSorted(Events, t);
      SortedLastIsGreatest(v);
    }
  }

  /** Number of revealed detections of one severity (the footer tallies). */
  function SeverityCount(t: int, s: Severity): nat
  {
    |Filter(VisibleEvents(t), HasSeverity(s))|
  }

  lemma {:induction false} SeveritiesPartition(es: seq<DetectedEvent>)
    ensures |Filter(es, HasSeverity(Positive))| + |Filter(es, HasSeverity(Warning))|
          + |Filter(es, HasSeverity(Critical))| + |Filter(es, HasSeverity(Info))| == |es|
  {
    if es != [] {
      SeveritiesPartition(es[1..]);
    }
  }

  /** The positive, warning and critical tallies account for every revealed
      detection except the informational ones. */
  lemma FooterCountsSum(t: int)
    ensures SeverityCount(t, Positive) + SeverityCount(t, Warning) + SeverityCount(t, Critical)
         == |VisibleEvents(t)| - SeverityCount(t, Info)
  {
    SeveritiesPartition(VisibleEvents(t));
  }

  // ---------------------------------------------------------------------------
  // The `mm:ss` clock display

  /** Whole minutes and remaining seconds, each zero-padded to two digits. */
  function FormatTime(secs: nat): string
  {
    PadStart(NatToString(secs / 60), 2, '0') + ":" + PadStart(NatToString(secs % 60), 2, '0')
  }

  /** Reads `mm:ss` (at least two minute digits, exactly two second digits below 60). */
  function ParseTime(s: string): Option<nat>
  {
    if |s| < 5 || s[|s| - 3] != ':' then None
    else
      var mm, ss := s[..|s| - 3], s[|s| - 2..];
      if !AllDigits(mm) || !AllDigits(ss) || ParseDigits(ss) >= 60 then None
      else Some(60 * ParseDigits(mm) + ParseDigits(ss))
  }

  /** How `mm + ":" + ss` with a two-character `ss` splits back into its parts. */
  lemma ColonJoin(mm: string, ss: string)
    requires |ss| == 2
    ensures var s := mm + ":" + ss;
      |s| == |mm| + 3 && s[..|mm|] == mm && s[|mm|] == ':' && s[|mm| + 1..] == ss
    ensures |mm| == 2 ==> mm + ":" + ss == [mm[0], mm[1], ':', ss[0], ss[1]]
  {
  }

  /** Minute digits, a colon and two second digits worth less than 60 read back
      as minutes * 60 + seconds. */
  lemma ParseTimeOfJoin(mm: string, ss: string, m: nat, s: nat)
    requires |mm| >= 2 && AllDigits(mm) && ParseDigits(mm) == m
    requires |ss| == 2 && AllDigits(ss) && ParseDigits(ss) == s && s < 60
    ensures ParseTime(mm + ":" + ss) == Some(60 * m + s)
  {
    ColonJoin(mm, ss);
  }

  /** Minutes and seconds below 60, padded and joined, read back as minutes * 60 + seconds. */
  lemma ClockPartsRoundTrip(m: nat, s: nat)
    requires s < 60
    ensures ParseTime(PadStart(NatToString(m), 2, '0') + ":" + PadStart(NatToString(s), 2, '0'))
         == Some(60 * m + s)
  {
    var mm, ss := PadStart(NatToString(m), 2, '0'), PadStart(NatToString(s), 2, '0');
    assert |mm| >= 2 && AllDigits(mm) && ParseDigits(mm) == m by {
      PadStartKeepsValue(m, 2);
    }
    assert |ss| == 2 && AllDigits(ss) && ParseDigits(ss) == s by {
      PadStartKeepsValue(s, 2);
    }
    ParseTimeOfJoin(mm, ss, m, s);
  }

  /** The display reads back as the number of seconds it shows: minutes * 60 + seconds. */
  lemma FormatTimeRoundTrip(secs: nat)
    ensures ParseTime(FormatTime(secs)) == Some(secs)
  {
    var m, s := secs / 60, secs % 60;
    assert 60 * m + s == secs;
    ClockPartsRoundTrip(m, s);
  }

  /** Below 100 minutes the display is exactly five characters: the two digits
      of the minutes, a colon, and the two digits of the seconds. */
  lemma FormatTimeDigits(secs: nat)
    requires secs < 6000
    ensures FormatTime(secs) == [DigitChar(secs / 60 / 10), DigitChar(secs / 60 % 10), ':',
                                 DigitChar(secs % 60 / 10), DigitChar(secs % 60 % 10)]
  {
    var m, s := secs / 60, secs % 60;
    assert m < 100;
    TwoDigits(m);
    TwoDigits(s);
    ColonJoin(PadStart(NatToString(m), 2, '0'), PadStart(NatToString(s), 2, '0'));
  }

  lemma FormatTimeOfDuration()
    ensures FormatTime(SessionDuration) == "08:00"
  {
    FormatTimeDigits(SessionDuration);
    assert SessionDuration / 60 == 8 && SessionDuration % 60 == 0;
    assert DigitChar(0) == '0' && DigitChar(8) == '8';
  }

  // ---------------------------------------------------------------------------
  // Playback state and its transitions

  datatype PlayState = PlayState(currentTime: int, isPlaying: bool, activeFilter: SeverityFilter)

  /** The state when the view is mounted. */
  const Initial: PlayState := PlayState(0, false, All)

  predicate InRange(s: PlayState)
  {
    0 <= s.currentTime <= SessionDuration
  }

  /** One firing of the one-second timer: the clock is compared with the end
      before it is advanced, so reaching the end and stopping take two ticks. */
  function Tick(s: PlayState): (r: PlayState)
    ensures InRange(s) ==> InRange(r) && r.currentTime >= s.currentTime
    ensures r.activeFilter == s.activeFilter
  {
    if s.currentTime >= SessionDuration then s.(currentTime := SessionDuration, isPlaying := false)
    else s.(currentTime := s.currentTime + 1)
  }

  function SkipBack(s: PlayState): (r: PlayState)
    ensures InRange(s) ==> InRange(r)
  {
    s.(currentTime := Max(0, s.currentTime - SkipStep))
  }

  function SkipForward(s: PlayState): (r: PlayState)
    ensures InRange(s) ==> InRange(r)
  {
    s.(currentTime := Min(SessionDuration, s.currentTime + SkipStep))
  }

  function TogglePlay(s: PlayState): PlayState
  {
    s.(isPlaying := !s.isPlaying)
  }

  function SetFilter(s: PlayState, f: SeverityFilter): PlayState
  {
    s.(activeFilter := f)
  }

  ghost function Ticks(s: PlayState, n: nat): PlayState
    decreases n
  {
    if n == 0 then s else Ticks(Tick(s), n - 1)
  }

  /** After `n` ticks the clock has advanced by `n`, saturating at the end, and
      playback continues exactly while the end had not been passed. */
  lemma {:induction false} TicksAdvance(s: PlayState, n: nat)
    requires InRange(s)
    ensures Ticks(s, n).currentTime == Min(SessionDuration, s.currentTime + n)
    ensures Ticks(s, n).isPlaying == (s.isPlaying && s.currentTime + n <= SessionDuration)
    ensures Ticks(s, n).activeFilter == s.activeFilter
    decreases n
  {
    if n > 0 {
      TicksAdvance(Tick(s), n - 1);
    }
  }

  /** Pressing play at mount and letting `n` ticks elapse: the clock reads
      min(n, 480), and playback stops on the 481st tick. */
  lemma PlayFromStart(n: nat)
    ensures Ticks(TogglePlay(Initial), n) == PlayState(Min(n, SessionDuration), n <= SessionDuration, All)
  {
    TicksAdvance(TogglePlay(Initial), n);
  }

  /** Pressing play at the end stops playback on the very first tick. */
  lemma PlayAtEndStopsAtOnce(s: PlayState)
    requires s.currentTime == SessionDuration && !s.isPlaying
    ensures Tick(TogglePlay(s)) == s
  {
  }

  lemma TogglePlayTwice(s: PlayState)
    ensures TogglePlay(TogglePlay(s)) == s
  {
  }

  ghost function SkipBacks(s: PlayState, n: nat): PlayState
    decreases n
  {
    if n == 0 then s else SkipBacks(SkipBack(s), n - 1)
  }

  ghost function SkipForwards(s: PlayState, n: nat): PlayState
    decreases n
  {
    if n == 0 then s else SkipForwards(SkipForward(s), n - 1)
  }

  /** Repeated skips move by 15 s each and stop at the ends (32 presses reach either end). */
  lemma {:induction false} SkipsSaturate(s: PlayState, n: nat)
    requires InRange(s)
    ensures SkipBacks(s, n) == s.(currentTime := Max(0, s.currentTime - SkipStep * n))
    ensures SkipForwards(s, n) == s.(currentTime := Min(SessionDuration, s.currentTime + SkipStep * n))
    decreases n
  {
    if n > 0 {
      SkipsSaturate(SkipBack(s), n - 1);
      SkipsSaturate(SkipForward(s), n - 1);
    }
  }

  /** Neither a tick nor a forward skip hides a revealed detection. */
  lemma ForwardMovesKeepEvents(s: PlayState)
    requires InRange(s)
    ensures VisibleEvents(s.currentTime) <= VisibleEvents(Tick(s).currentTime)
    ensures VisibleEvents(s.currentTime) <= VisibleEvents(SkipForward(s).currentTime)
  {
    VisibleMonotone(s.currentTime, Tick(s).currentTime);
    VisibleMonotone(s.currentTime, SkipForward(s).currentTime);
  }

  /** The live-detection overlay on the video: shown while playing once an event is revealed. */
  predicate OverlayShown(s: PlayState)
  {
    LatestEvent(s.currentTime).Some? && s.isPlaying
  }

  lemma OverlayShownIff(s: PlayState)
    ensures OverlayShown(s) <==> s.isPlaying && s.currentTime + LookAhead >= 42
  {
    LatestEventIsLatest(s.currentTime);
  }

  // ---------------------------------------------------------------------------
  // The stateful view

  class Player {
    var currentTime: int
    var isPlaying: bool
    var activeFilter: SeverityFilter
    /** Whether the host's one-second interval is armed; the effect keeps exactly
        one armed while playing and none otherwise. */
    ghost var timerArmed: bool

    function State(): PlayState
      reads this
    {
      PlayState(currentTime, isPlaying, activeFilter)
    }

    ghost predicate Valid()
      reads this
    {
      InRange(State()) && timerArmed == isPlaying
    }

    constructor ()
      ensures Valid() && State() == Initial
    {
      currentTime, isPlaying, activeFilter := 0, false, All;
      timerArmed := false;
    }

    /** The interval callback; it runs only while the timer is armed. */
    method OnTick()
      requires Valid() && timerArmed
      modifies this
      ensures Valid() && State() == Tick(old(State()))
      ensures old(currentTime) < SessionDuration ==>
        currentTime == old(currentTime) + 1 && isPlaying == old(isPlaying)
      ensures old(currentTime) >= SessionDuration ==>
        currentTime == SessionDuration && !isPlaying && !timerArmed
    {
      if currentTime >= SessionDuration {
        isPlaying := false;
        currentTime := SessionDuration;
      } else {
        currentTime := currentTime + 1;
      }
      timerArmed := isPlaying;
    }

    method OnSkipBack()
      requires Valid()
      modifies this
      ensures Valid() && State() == SkipBack(old(State()))
      ensures currentTime == Max(0, old(currentTime) - SkipStep)
      ensures isPlaying == old(isPlaying) && activeFilter == old(activeFilter)
    {
      currentTime := Max(0, currentTime - SkipStep);
    }

    method OnPlayPause()
      requires Valid()
      modifies this
      ensures Valid() && State() == TogglePlay(old(State()))
      ensures isPlaying == !old(isPlaying) && timerArmed == isPlaying
      ensures currentTime == old(currentTime) && activeFilter == old(activeFilter)
    {
      isPlaying := !isPlaying;
      timerArmed := isPlaying;
    }

    method OnSkipForward()
      requires Valid()
      modifies this
      ensures Valid() && State() == SkipForward(old(State()))
      ensures currentTime == Min(SessionDuration, old(currentTime) + SkipStep)
      ensures isPlaying == old(isPlaying) && activeFilter == old(activeFilter)
    {
      currentTime := Min(SessionDuration, currentTime + SkipStep);
    }

    method OnFilterClick(f: SeverityFilter)
      requires Valid()
      modifies this
      ensures Valid() && State() == SetFilter(old(State()), f)
      ensures activeFilter == f
      ensures currentTime == old(currentTime) && isPlaying == old(isPlaying)
    {
      activeFilter := f;
    }
  }
}
