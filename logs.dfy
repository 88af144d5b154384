/**
  The activity feed of app/logs/page.tsx: a fixed list of five events, a
  case-insensitive search over title and location, the level colours, the
  type icons and the motion-only badges. The page is a pure function of the
  search text and the selected filter button.
*/
module Logs {
  import opened JsString
  import opened Optional

  datatype LogEntry = LogEntry(
    id: int, kind: string, title: string, location: string, time: string,
    level: string, thumbnail: string, duration: string)

  const ActivityLogs: seq<LogEntry> := [
    LogEntry(1, "motion", "Motion Detected", "Front Driveway", "2 minutes ago", "high", "/camera1.png", "00:15"),
    LogEntry(2, "motion", "Person Detected", "Living Room", "15 minutes ago", "high", "/camera2.jpg", "01:23"),
    LogEntry(3, "motion", "Movement Detected", "Office Space", "1 hour ago", "medium", "/camera3.jpg", "00:45"),
    LogEntry(4, "system", "System Armed", "Home Mode", "2 hours ago", "info", "/camera1.png", "N/A"),
    LogEntry(5, "camera", "Camera Online", "All Cameras", "3 hours ago", "info", "/camera2.jpg", "N/A")
  ]

  /** The filter buttons; the selection only changes which button is highlighted. */
  const FilterButtons: seq<string> := ["all", "motion", "camera", "system"]

  // ---------------------------------------------------------------- search

  /** The filter predicate: the lower-cased title or location contains the lower-cased query. */
  predicate Matches(log: LogEntry, query: string) {
    Includes(ToLower(log.title), ToLower(query)) || Includes(ToLower(log.location), ToLower(query))
  }

  /** `Array.prototype.filter` with `Matches`. */
  function Filter(logs: seq<LogEntry>, query: string): (r: seq<LogEntry>)
    ensures |r| <= |logs|
    ensures forall e :: e in r <==> e in logs && Matches(e, query)
    ensures forall e :: multiset(r)[e] == if Matches(e, query) then multiset(logs)[e] else 0
  {
    if logs == [] then []
    else
      var rest := Filter(logs[1..], query);
      assert logs == [logs[0]] + logs[1..];
      assert multiset(logs) == multiset{logs[0]} + multiset(logs[1..]);
      assert forall e :: e in logs <==> e == logs[0] || e in logs[1..];
      if Matches(logs[0], query) then
        assert multiset([logs[0]] + rest) == multiset{logs[0]} + multiset(rest);
        [logs[0]] + rest
      else rest
  }

  /** `filteredLogs` */
  function FilteredLogs(searchQuery: string): seq<LogEntry> {
    Filter(ActivityLogs, searchQuery)
  }

  /** `a` is `b` with some elements left out, the rest in their order. */
  predicate IsSubsequence<T(==)>(a: seq<T>, b: seq<T>)
    decreases |b|
  {
    if a == [] then true
    else if b == [] then false
    else (a[0] == b[0] && IsSubsequence(a[1..], b[1..])) || IsSubsequence(a, b[1..])
  }

  /** The filter keeps the order of the list it filters. */
  lemma {:induction false} FilterSubsequence(logs: seq<LogEntry>, query: string)
    ensures IsSubsequence(Filter(logs, query), logs)
  {
    if logs != [] {
      FilterSubsequence(logs[1..], query);
      var rest := Filter(logs[1..], query);
      if Matches(logs[0], query) {
        assert Filter(logs, query) == [logs[0]] + rest;
        assert ([logs[0]] + rest)[1..] == rest;
      } else {
        assert Filter(logs, query) == rest;
        IsSubsequenceSkip(rest, logs);
      }
    }
  }

  /** Dropping the head of the longer sequence keeps a subsequence one. */
  lemma IsSubsequenceSkip<T>(a: seq<T>, b: seq<T>)
    requires b != [] && IsSubsequence(a, b[1..])
    ensures IsSubsequence(a, b)
  {
  }

  /** When every entry matches, the filter returns the list unchanged. */
  lemma {:induction false} FilterKeepsAll(logs: seq<LogEntry>, query: string)
    requires forall e :: e in logs ==> Matches(e, query)
    ensures Filter(logs, query) == logs
  {
    if logs != [] {
      assert logs[0] in logs;
      assert forall e :: e in logs[1..] ==> e in logs;
      FilterKeepsAll(logs[1..], query);
      assert [logs[0]] + logs[1..] == logs;
    }
  }

  /** An empty search box shows all five entries in their order. */
  lemma EmptyQueryKeepsAll()
    ensures FilteredLogs("") == ActivityLogs
  {
    assert ToLower("") == "";
    forall e | e in ActivityLogs
      ensures Matches(e, "")
    {
      IncludesEmpty(ToLower(e.title));
    }
    FilterKeepsAll(ActivityLogs, "");
  }

  /** Filters whose predicates agree on every entry give the same result. */
  lemma {:induction false} FilterSameMatches(logs: seq<LogEntry>, q1: string, q2: string)
    requires forall e :: e in logs ==> (Matches(e, q1) <==> Matches(e, q2))
    ensures Filter(logs, q1) == Filter(logs, q2)
  {
    if logs != [] {
      assert logs[0] in logs;
      assert forall e :: e in logs[1..] ==> e in logs;
      FilterSameMatches(logs[1..], q1, q2);
    }
  }

  /** The search ignores the case of the query. */
  lemma QueryCaseInsensitive(searchQuery: string)
    ensures FilteredLogs(ToLower(searchQuery)) == FilteredLogs(searchQuery)
  {
    ToLowerIdempotent(searchQuery);
    FilterSameMatches(ActivityLogs, ToLower(searchQuery), searchQuery);
  }

  // ---------------------------------------------------------------- rendering

  const DefaultLevelColor: string := "from-gray-500 to-gray-600"

  /** `getLevelColor` */
  function LevelColor(level: string): string {
    if level == "high" then "from-red-500 to-pink-500"
    else if level == "medium" then "from-yellow-500 to-orange-500"
    else if level == "low" then "from-blue-500 to-cyan-500"
    else if level == "info" then "from-green-500 to-emerald-500"
    else DefaultLevelColor
  }

  /** The four named levels get four different colours, none of them gray; every other level is gray. */
  lemma LevelColorsDistinct(a: string, b: string)
    requires a in {"high", "medium", "low", "info"} && b in {"high", "medium", "low", "info"}
    ensures LevelColor(a) == LevelColor(b) <==> a == b
    ensures LevelColor(a) != DefaultLevelColor
  {
  }

  lemma LevelColorDefault(level: string)
    ensures LevelColor(level) == DefaultLevelColor <==> level !in {"high", "medium", "low", "info"}
  {
  }

  datatype LogIcon = AlertTriangleIcon | CameraIcon | EyeIcon | ClockIcon

  /** `getIcon` */
  function IconFor(kind: string): LogIcon {
    if kind == "motion" then AlertTriangleIcon
    else if kind == "camera" then CameraIcon
    else if kind == "system" then EyeIcon
    else ClockIcon
  }

  lemma IconDefault(kind: string)
    ensures IconFor(kind) == ClockIcon <==> kind !in {"motion", "camera", "system"}
  {
  }

  /** What one card of the feed shows. */
  datatype Card = Card(icon: LogIcon, levelColor: string, durationBadge: Option<string>, playButton: bool)

  function RenderCard(log: LogEntry): (c: Card)
    ensures c.durationBadge.Some? <==> log.kind == "motion"
    ensures c.durationBadge.Some? ==> c.durationBadge.value == log.duration
    ensures c.playButton <==> log.kind == "motion"
    ensures c.icon == IconFor(log.kind) && c.levelColor == LevelColor(log.level)
  {
    var motion := log.kind == "motion";
    Card(IconFor(log.kind), LevelColor(log.level), if motion then Some(log.duration) else None, motion)
  }

  /** The whole page for a search text and a selected filter button; `filterTabs[i]` says whether button `i` is highlighted. */
  datatype Page = Page(eventCount: nat, cards: seq<Card>, filterTabs: seq<bool>)

  /** The filter buttons' highlights: a button is highlighted iff it is the selected filter. */
  function FilterTabs(selectedFilter: string): (tabs: seq<bool>)
    ensures |tabs| == |FilterButtons|
    ensures forall i :: 0 <= i < |FilterButtons| ==> (tabs[i] <==> FilterButtons[i] == selectedFilter)
  {
    seq(|FilterButtons|, i requires 0 <= i < |FilterButtons| => FilterButtons[i] == selectedFilter)
  }

  function RenderPage(searchQuery: string, selectedFilter: string): (p: Page)
    ensures p.eventCount == |FilteredLogs(searchQuery)| == |p.cards|
    ensures forall i :: 0 <= i < |p.cards| ==> p.cards[i] == RenderCard(FilteredLogs(searchQuery)[i])
    ensures p.filterTabs == FilterTabs(selectedFilter)
  {
    var logs := FilteredLogs(searchQuery);
    Page(|logs|, seq(|logs|, i requires 0 <= i < |logs| => RenderCard(logs[i])), FilterTabs(selectedFilter))
  }

  /** Clicking a filter button highlights that button and no other; the page opens on "all". */
  lemma FilterTabHighlight(k: int)
    requires 0 <= k < |FilterButtons|
    ensures forall i :: 0 <= i < |FilterButtons| ==> (FilterTabs(FilterButtons[k])[i] <==> i == k)
    ensures FilterTabs("all") == [true, false, false, false]
  {
    assert FilterTabs("all") == [true, false, false, false];
  }

  /** The selected filter button changes nothing but its own highlight: same count, same cards. */
  lemma SelectedFilterIgnored(searchQuery: string, f1: string, f2: string)
    ensures RenderPage(searchQuery, f1).eventCount == RenderPage(searchQuery, f2).eventCount
    ensures RenderPage(searchQuery, f1).cards == RenderPage(searchQuery, f2).cards
  {
  }
}
