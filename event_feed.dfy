/**
 * The operator sidebar's live incident feed, its focus requests and its crew
 * counts.
 *
 * The server-sent event stream is abstracted to explicit calls: each stream
 * the component opens has an identity (`stream`), `OnMessage` carries the
 * identity of the stream the message arrived on, and a stream that is closed
 * or superseded delivers nothing. The two delayed flag clears are explicit
 * calls `ExpireNewest(id)` / `ExpireHighlight(id)`, which may come at any
 * later time.
 */
module EventFeed {
  import opened Common

  // ---------------------------------------------------------------------
  // Data
  // ---------------------------------------------------------------------

  /** One row of the feed. Events built from the stream carry no coordinates. */
  datatype IncidentEvent = IncidentEvent(
    id: string,
    icon: string,
    timestamp: string,
    title: string,
    description: string,
    severity: string,
    lat: Option<real>,
    lng: Option<real>)

  /**
   * A message of the stream once parsed. `Unparseable` stands for every
   * payload whose parsing or field access throws, which the handler ignores.
   */
  datatype FeedMessage =
    | Unparseable
    | Payload(
        done: bool,
        eventId: Option<string>,
        severity: Option<string>,
        title: string,
        description: string,
        offsetMinutes: Option<int>)

  datatype CrewStatus = Deployed | EnRoute | Standby

  datatype Crew = Crew(id: string, status: CrewStatus, location: string, lat: real, lng: real, personnel: int, eta: Option<string>)

  /** A camera request handed to the globe. */
  datatype FocusRequest = FocusRequest(lat: real, lng: real, altitude: real)

  /** Most rows the feed keeps. */
  const MaxEvents: nat := 30

  // ---------------------------------------------------------------------
  // Building an event from a message
  // ---------------------------------------------------------------------

  /**
   * The displayed severity: "emergency" becomes "critical", an absent or
   * empty severity becomes "info", anything else passes through.
   */
  function DisplaySeverity(raw: Option<string>): (sev: string)
    ensures raw == Some("emergency") ==> sev == "critical"
    ensures raw.None? || raw == Some("") ==> sev == "info"
    ensures raw.Some? && raw.value != "emergency" && raw.value != "" ==> sev == raw.value
    ensures sev != "" && sev != "emergency"
  {
    var mapped := if raw == Some("emergency") then Some("critical") else raw;
    if mapped.None? || mapped.value == "" then "info" else mapped.value
  }

  /** The severities the icon table has an entry for. */
  const IconKeys: set<string> := {"critical", "emergency", "warning", "info", "success"}

  /** The icon lookup, keyed on the raw severity, with the lightning bolt as fallback. */
  function SeverityIcon(raw: Option<string>): (icon: string)
    ensures raw == Some("critical") || raw == Some("emergency") ==> icon == "\U{1F534}"
    ensures raw == Some("warning") ==> icon == "\U{26A0}\U{FE0F}"
    ensures raw == Some("info") ==> icon == "\U{26A1}"
    ensures raw == Some("success") ==> icon == "\U{2705}"
    ensures raw.None? || raw.value !in IconKeys ==> icon == "\U{26A1}"
  {
    if raw.None? then "\U{26A1}"
    else match raw.value
      case "critical" => "\U{1F534}"
      case "emergency" => "\U{1F534}"
      case "warning" => "\U{26A0}\U{FE0F}"
      case "info" => "\U{26A1}"
      case "success" => "\U{2705}"
      case _ => "\U{26A1}"
  }

  /**
   * The icon depends on the displayed severity alone: looking up the mapped
   * severity gives the same icon as looking up the raw one.
   */
  lemma IconFollowsDisplayedSeverity(raw: Option<string>)
    ensures SeverityIcon(Some(DisplaySeverity(raw))) == SeverityIcon(raw)
  {
  }

  function DigitChar(d: nat): (c: char)
    requires d < 10
    ensures IsDigit(c)
  {
    ('0' as int + d) as char
  }

  function DigitValue(c: char): int { c as int - '0' as int }

  /** Decimal rendering of a natural number, as `String(n)` gives it. */
  function NatToString(n: nat): (s: string)
    ensures |s| >= 1
    ensures forall i :: 0 <= i < |s| ==> IsDigit(s[i])
    ensures n < 10 ==> |s| == 1
    ensures 10 <= n < 100 ==> |s| == 2
  {
    if n < 10 then [DigitChar(n)] else NatToString(n / 10) + [DigitChar(n % 10)]
  }

  /** Reading a decimal string back. */
  function ParseDigits(s: string): int {
    if s == [] then 0 else ParseDigits(s[..|s| - 1]) * 10 + DigitValue(s[|s| - 1])
  }

  lemma {:induction false} ParseNatToString(n: nat)
    ensures ParseDigits(NatToString(n)) == n
  {
    if n >= 10 {
      var s := NatToString(n);
      assert s[..|s| - 1] == NatToString(n / 10);
      ParseNatToString(n / 10);
    }
  }

  /** Decimal rendering of an integer (`String(i)`), with a leading minus sign when negative. */
  function IntToString(i: int): (s: string)
    ensures i >= 0 ==> (forall k :: 0 <= k < |s| ==> IsDigit(s[k])) && ParseDigits(s) == i
    ensures i < 0 ==> |s| >= 2 && s[0] == '-' && (forall k :: 1 <= k < |s| ==> IsDigit(s[k])) && ParseDigits(s[1..]) == -i
  {
    if i < 0 then
      var digits := NatToString(-i);
      ParseNatToString(-i);
      assert ("-" + digits)[1..] == digits;
      "-" + digits
    else
      ParseNatToString(i);
      NatToString(i)
  }

  /** Left-pads `s` with zeros to at least two characters. */
  function PadStart2(s: string): (r: string)
    ensures |r| == if |s| >= 2 then |s| else 2
    ensures |s| >= 2 ==> r == s
    ensures |s| < 2 ==> r[2 - |s|..] == s && forall i :: 0 <= i < 2 - |s| ==> r[i] == '0'
  {
    if |s| >= 2 then s else if |s| == 1 then "0" + s else "00"
  }

  /**
   * JavaScript's `%`: the remainder of division truncated toward zero, so it
   * takes the sign of the dividend.
   */
  function JsRemainder(a: int, b: int): (r: int)
    requires b > 0
    ensures a >= 0 ==> 0 <= r < b && a == (a / b) * b + r
    ensures a < 0 ==> -b < r <= 0 && a == -((-a) / b) * b + r
  {
    if a >= 0 then a % b else -((-a) % b)
  }

  /**
   * The elapsed-time label "T+HH:MM" for a minutes offset (absent counts as
   * 0): hours are `Math.floor(total / 60)`, which is Dafny's `/` for a
   * positive divisor, minutes are the JavaScript remainder.
   */
  function OffsetLabel(offset: Option<int>): (text: string)
    ensures |text| >= 7 && text[..2] == "T+"
    ensures offset.None? || offset == Some(0) ==> text == "T+00:00"
  {
    var total := offset.GetOr(0);
    "T+" + PadStart2(IntToString(total / 60)) + ":" + PadStart2(IntToString(JsRemainder(total, 60)))
  }

  /** For a non-negative offset the label is "T+" + pad2(m div 60) + ":" + pad2(m mod 60). */
  lemma OffsetLabelNonNegative(m: nat)
    ensures OffsetLabel(Some(m)) == "T+" + PadStart2(NatToString(m / 60)) + ":" + PadStart2(NatToString(m % 60))
    ensures OffsetLabel(None) == OffsetLabel(Some(0)) == "T+00:00"
  {
    var h := m / 60;
    assert JsRemainder(m, 60) == m % 60;
    assert IntToString(h) == NatToString(h);
    assert IntToString(m % 60) == NatToString(m % 60);
    assert NatToString(0) == "0";
  }

  /**
   * Below 100 hours the label has the fixed layout "T+HH:MM", and reading
   * its digits back recovers the offset.
   */
  lemma {:induction false} OffsetLabelRoundTrip(m: nat)
    requires m < 6000
    ensures |OffsetLabel(Some(m))| == 7
    ensures OffsetLabel(Some(m))[..2] == "T+" && OffsetLabel(Some(m))[4] == ':'
    ensures ParseDigits(OffsetLabel(Some(m))[2..4]) * 60 + ParseDigits(OffsetLabel(Some(m))[5..7]) == m
  {
    OffsetLabelNonNegative(m);
    var h, mm := m / 60, m % 60;
    assert h < 100 && mm < 60 && h * 60 + mm == m;
    var hs, ms := PadStart2(NatToString(h)), PadStart2(NatToString(mm));
    LabelLayout(hs, ms);
    PaddedParse(h);
    PaddedParse(mm);
  }

  /** Where the parts of "T+" + hh + ":" + mm sit, for two-character parts. */
  lemma LabelLayout(hs: string, ms: string)
    requires |hs| == 2 && |ms| == 2
    ensures var text := "T+" + hs + ":" + ms;
      |text| == 7 && text[..2] == "T+" && text[4] == ':' && text[2..4] == hs && text[5..7] == ms
  {
    var text := "T+" + hs + ":" + ms;
    assert text[2..4] == hs;
    assert text[5..7] == ms;
  }

  lemma PaddedParse(n: nat)
    requires n < 100
    ensures ParseDigits(PadStart2(NatToString(n))) == n
  {
    ParseNatToString(n);
    var s := NatToString(n);
    if n < 10 {
      var p := PadStart2(s);
      assert p == "0" + s;
      assert p[..1] == "0";
      assert ParseDigits(p[..1]) == ParseDigits("") * 10 + DigitValue('0');
    }
  }

  /** The row the handler builds; `now` stands for the `Date.now()` of the fallback id. */
  function BuildEvent(p: FeedMessage, now: nat): (e: IncidentEvent)
    requires p.Payload?
    ensures e.severity == DisplaySeverity(p.severity) && e.icon == SeverityIcon(p.severity)
    ensures e.timestamp == OffsetLabel(p.offsetMinutes)
    ensures e.title == p.title && e.description == p.description
    ensures p.eventId.Some? ==> e.id == p.eventId.value
    ensures p.eventId.None? ==> e.id == "sse-" + NatToString(now)
    ensures e.lat.None? && e.lng.None?
  {
    IncidentEvent(
      p.eventId.GetOr("sse-" + NatToString(now)),
      SeverityIcon(p.severity),
      OffsetLabel(p.offsetMinutes),
      p.title,
      p.description,
      DisplaySeverity(p.severity),
      None,
      None)
  }

  // ---------------------------------------------------------------------
  // The bounded, most-recent-first list
  // ---------------------------------------------------------------------

  /** Puts `e` in front of `prev` and keeps at most the first 30 rows. */
  function PushRecent(e: IncidentEvent, prev: seq<IncidentEvent>): (r: seq<IncidentEvent>)
    ensures |r| == Min(|prev| + 1, MaxEvents)
    ensures r[0] == e
    ensures forall i :: 1 <= i < |r| ==> r[i] == prev[i - 1]
  {
    ([e] + prev)[..Min(|prev| + 1, MaxEvents)]
  }

  /** The list after pushing each of `es` in arrival order. */
  function PushAll(prev: seq<IncidentEvent>, es: seq<IncidentEvent>): seq<IncidentEvent>
    decreases |es|
  {
    if es == [] then prev else PushAll(PushRecent(es[0], prev), es[1..])
  }

  /**
   * From an empty list, after any number of arrivals the feed holds the 30
   * most recent (or all, if fewer), newest first: the oldest are evicted.
   */
  lemma {:induction false} PushAllKeepsMostRecent(es: seq<IncidentEvent>)
    ensures |PushAll([], es)| == Min(|es|, MaxEvents)
    ensures forall i :: 0 <= i < |PushAll([], es)| ==> PushAll([], es)[i] == es[|es| - 1 - i]
  {
    PushAllFrom([], es);
  }

  lemma {:induction false} PushAllFrom(prev: seq<IncidentEvent>, es: seq<IncidentEvent>)
    requires |prev| <= MaxEvents
    ensures |PushAll(prev, es)| == Min(|prev| + |es|, MaxEvents)
    ensures forall i :: 0 <= i < |PushAll(prev, es)| && i < |es| ==> PushAll(prev, es)[i] == es[|es| - 1 - i]
    ensures forall i :: |es| <= i < |PushAll(prev, es)| ==> PushAll(prev, es)[i] == prev[i - |es|]
    decreases |es|
  {
    if es != [] {
      var next := PushRecent(es[0], prev);
      PushAllFrom(next, es[1..]);
      var r := PushAll(prev, es);
      assert r == PushAll(next, es[1..]);
      forall i | |es| <= i < |r|
        ensures r[i] == prev[i - |es|]
      {
        assert r[i] == next[i - (|es| - 1)];
      }
      forall i | 0 <= i < |r| && i < |es|
        ensures r[i] == es[|es| - 1 - i]
      {
        if i == |es| - 1 {
          assert r[i] == next[0];
        } else {
          assert r[i] == es[1..][|es| - 2 - i];
        }
      }
    }
  }

  // ---------------------------------------------------------------------
  // Focus requests and crew counts
  // ---------------------------------------------------------------------

  /** A crew is always focusable, at the near zoom hint 1.2. */
  function CrewFocus(c: Crew): (f: FocusRequest)
    ensures f.lat == c.lat && f.lng == c.lng && f.altitude == 1.2
  {
    FocusRequest(c.lat, c.lng, 1.2)
  }

  predicate HasLocation(e: IncidentEvent) {
    e.lat.Some? && e.lng.Some?
  }

  /** An event yields a request (zoom hint 1.4) exactly when it carries both coordinates. */
  function EventFocus(e: IncidentEvent): (f: Option<FocusRequest>)
    ensures f.Some? <==> e.lat.Some? && e.lng.Some?
    ensures f.Some? ==> f.value == FocusRequest(e.lat.value, e.lng.value, 1.4)
  {
    if HasLocation(e) then Some(FocusRequest(e.lat.value, e.lng.value, 1.4)) else None
  }

  /** Events that arrive on the stream are never focusable. */
  lemma StreamEventsNotFocusable(p: FeedMessage, now: nat)
    requires p.Payload?
    ensures EventFocus(BuildEvent(p, now)).None?
  {
  }

  /** The number of crews with status `st`. */
  function CountWithStatus(crews: seq<Crew>, st: CrewStatus): (n: nat)
    ensures n <= |crews|
    ensures n == |crews| <==> forall i :: 0 <= i < |crews| ==> crews[i].status == st
  {
    if crews == [] then 0
    else CountWithStatus(crews[1..], st) + (if crews[0].status == st then 1 else 0)
  }

  /** Every crew is in exactly one of the three counters. */
  lemma {:induction false} CrewCountsPartition(crews: seq<Crew>)
    ensures CountWithStatus(crews, Deployed) + CountWithStatus(crews, EnRoute) + CountWithStatus(crews, Standby) == |crews|
  {
    if crews != [] {
      CrewCountsPartition(crews[1..]);
    }
  }

  // ---------------------------------------------------------------------
  // The component state
  // ---------------------------------------------------------------------

  /** A scenario value that opens a stream (a non-empty string). */
  predicate OpensStream(scenario: Option<string>) {
    scenario.Some? && scenario.value != ""
  }

  class Feed {
    var events: seq<IncidentEvent>
    var newestId: Option<string>
    var highlightedId: Option<string>
    var scenario: Option<string>
    var stream: nat
    var streamOpen: bool

    /** The list starts from the initial events; no flags; a stream if a scenario is given. */
    constructor (initialEvents: seq<IncidentEvent>, scenarioProp: Option<string>)
      ensures events == initialEvents && newestId.None? && highlightedId.None?
      ensures scenario == scenarioProp && streamOpen == OpensStream(scenarioProp)
    {
      events := initialEvents;
      newestId, highlightedId := None, None;
      scenario := scenarioProp;
      stream := 0;
      streamOpen := OpensStream(scenarioProp);
    }

    /** A new initial batch replaces the list only when it is non-empty. */
    method SyncInitialEvents(initialEvents: seq<IncidentEvent>)
      modifies this
      ensures |initialEvents| > 0 ==> events == initialEvents
      ensures |initialEvents| == 0 ==> events == old(events)
      ensures newestId == old(newestId) && highlightedId == old(highlightedId)
      ensures scenario == old(scenario) && stream == old(stream) && streamOpen == old(streamOpen)
    {
      if |initialEvents| > 0 {
        events := initialEvents;
      }
    }

    /**
     * A changed scenario closes the current stream and opens a fresh one
     * (none for an absent or empty scenario); the list and flags are kept.
     */
    method SwitchScenario(s: Option<string>)
      modifies this
      ensures events == old(events) && newestId == old(newestId) && highlightedId == old(highlightedId)
      ensures s == old(scenario) ==> stream == old(stream) && streamOpen == old(streamOpen)
      ensures s != old(scenario) ==> stream == old(stream) + 1 && streamOpen == OpensStream(s)
      ensures scenario == s
    {
      if s != scenario {
        scenario := s;
        stream := stream + 1;
        streamOpen := OpensStream(s);
      }
    }

    /** A stream error closes that stream. */
    method OnError(from: nat)
      modifies this
      ensures events == old(events) && newestId == old(newestId) && highlightedId == old(highlightedId)
      ensures scenario == old(scenario) && stream == old(stream)
      ensures streamOpen == (old(streamOpen) && from != stream)
    {
      if from == stream {
        streamOpen := false;
      }
    }

    /** The message handler, for a message that arrived on stream `from`. */
    method OnMessage(from: nat, msg: FeedMessage, now: nat)
      modifies this
      ensures scenario == old(scenario) && stream == old(stream)
      ensures !old(streamOpen) || from != stream || msg.Unparseable? ==>
                events == old(events) && newestId == old(newestId) &&
                highlightedId == old(highlightedId) && streamOpen == old(streamOpen)
      ensures old(streamOpen) && from == stream && msg.Payload? && msg.done ==>
                events == old(events) && newestId == old(newestId) &&
                highlightedId == old(highlightedId) && !streamOpen
      ensures old(streamOpen) && from == stream && msg.Payload? && !msg.done ==>
                var e := BuildEvent(msg, now);
                events == PushRecent(e, old(events)) && streamOpen &&
                newestId == Some(e.id) && highlightedId == Some(e.id) &&
                IsNew(events[0]) && IsHighlighted(events[0])
    {
      if !streamOpen || from != stream {
        return;
      }
      match msg
      case Unparseable =>
      case Payload(done, _, _, _, _, _) =>
        if done {
          streamOpen := false;
          return;
        }
        var e := BuildEvent(msg, now);
        events := PushRecent(e, events);
        newestId := Some(e.id);
        highlightedId := Some(e.id);
    }

    /** The 3-second clear: only removes the flag if it still names event `id`. */
    method ExpireNewest(id: string)
      modifies this
      ensures old(newestId) == Some(id) ==> newestId.None?
      ensures old(newestId) != Some(id) ==> newestId == old(newestId)
      ensures events == old(events) && highlightedId == old(highlightedId)
      ensures scenario == old(scenario) && stream == old(stream) && streamOpen == old(streamOpen)
    {
      if newestId == Some(id) {
        newestId := None;
      }
    }

    /** The 5-second clear: only removes the flag if it still names event `id`. */
    method ExpireHighlight(id: string)
      modifies this
      ensures old(highlightedId) == Some(id) ==> highlightedId.None?
      ensures old(highlightedId) != Some(id) ==> highlightedId == old(highlightedId)
      ensures events == old(events) && newestId == old(newestId)
      ensures scenario == old(scenario) && stream == old(stream) && streamOpen == old(streamOpen)
    {
      if highlightedId == Some(id) {
        highlightedId := None;
      }
    }

    /** A row is marked new when its id is the newest id; with no newest id no row is. */
    function IsNew(e: IncidentEvent): (b: bool)
      reads this
      ensures newestId.None? ==> !b
      ensures b ==> newestId.value == e.id
    {
      newestId == Some(e.id)
    }

    /** A row is highlighted when its id is the highlighted id; with none no row is. */
    function IsHighlighted(e: IncidentEvent): (b: bool)
      reads this
      ensures highlightedId.None? ==> !b
      ensures b ==> highlightedId.value == e.id
    {
      highlightedId == Some(e.id)
    }
  }
}
