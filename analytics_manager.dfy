/** In-memory call analytics (clean-src/admin/AnalyticsManager.ts): a
    bounded list of recent calls (newest first), per-day statistics kept in
    a `Map` (modelled as a sequence in key-insertion order, one entry per
    day), and a duplicate-free list of knowledge gaps; plus the figures and
    health status computed from them. Days are day numbers since the epoch
    (`startTime / 86400000`); the clock is the parameter `now`. */
module AnalyticsManager {
  import opened Common
  import opened Types

  const MaxRecentCalls: nat := 100
  const DayMs: nat := 86400000

  /** The UTC calendar day of a time in milliseconds. */
  function DayOf(timeMs: int): int {
    timeMs / DayMs
  }

  /** `Math.round(p / q)` for a positive `q`: halves round up. */
  function RoundDiv(p: int, q: int): int
    requires q > 0
  {
    (2 * p + q) / (2 * q)
  }

  /** The rounded quotient is the integer nearest to `p / q`, a half
      rounding up. */
  lemma RoundDivNearest(p: int, q: int)
    requires q > 0
    ensures 2 * q * RoundDiv(p, q) <= 2 * p + q < 2 * q * (RoundDiv(p, q) + 1)
  {
    var r := RoundDiv(p, q);
    assert 2 * p + q == 2 * q * r + (2 * p + q) % (2 * q);
  }

  /** A rounded quotient lies between any integer bounds of the exact one. */
  lemma RoundDivBetween(p: int, q: int, lo: int, hi: int)
    requires q > 0 && lo * q <= p <= hi * q
    ensures lo <= RoundDiv(p, q) <= hi
  {
    var r := RoundDiv(p, q);
    RoundDivNearest(p, q);
    MulLess(2 * q, lo, r + 1);
    MulLess(2 * q, r, hi + 1);
  }

  /** Cancelling a positive factor keeps a strict order. */
  lemma MulLess(q: int, a: int, b: int)
    requires q > 0
    ensures q * a < q * b ==> a < b
  {
    if b <= a {
      MulMonotone(q, b, a);
    }
  }

  lemma MulMonotone(q: int, a: int, b: int)
    requires q > 0 && a <= b
    ensures q * a <= q * b
  {
    assert q * b == q * a + q * (b - a);
  }

  /** Topic table of the extraction, in its declaration order. */
  datatype Topic = Topic(name: string, keywords: seq<string>)

  const TopicTable: seq<Topic> := [
    Topic("leads", ["lead", "leads", "prospect", "prospects"]),
    Topic("budget", ["budget", "cost", "price", "pricing", "money"]),
    Topic("timeline", ["timeline", "when", "time", "schedule", "urgency"]),
    Topic("decision_maker", ["decision", "decide", "approve", "authority"]),
    Topic("automation", ["automation", "automate", "tool", "software", "system"]),
    Topic("follow_up", ["follow", "contact", "reach", "response"]),
    Topic("demo", ["demo", "demonstration", "show", "meeting"]),
    Topic("qualification", ["qualify", "qualified", "fit", "match"])
  ]

  predicate TopicHit(t: Topic, text: string) {
    exists k :: 0 <= k < |t.keywords| && Contains(text, t.keywords[k])
  }

  /** The names of the topics whose keywords occur in `text`, in table order. */
  function TopicsIn(table: seq<Topic>, text: string): (r: seq<string>)
    ensures forall x :: x in r ==> exists i :: 0 <= i < |table| && table[i].name == x && TopicHit(table[i], text)
    ensures forall i :: 0 <= i < |table| && TopicHit(table[i], text) ==> table[i].name in r
    ensures |r| <= |table|
  {
    if table == [] then []
    else
      var rest := TopicsIn(table[1..], text);
      assert forall i :: 1 <= i < |table| ==> table[i] == table[1..][i - 1];
      if TopicHit(table[0], text) then [table[0].name] + rest else rest
  }

  /** The names of a topic table, in order. */
  function Names(table: seq<Topic>): (r: seq<string>)
    ensures |r| == |table| && forall i :: 0 <= i < |table| ==> r[i] == table[i].name
  {
    seq(|table|, i requires 0 <= i < |table| => table[i].name)
  }

  /** `a` is `b` with some elements left out. */
  predicate Subsequence<T(==)>(a: seq<T>, b: seq<T>)
    decreases |b|
  {
    if a == [] then true
    else if b == [] then false
    else if a[0] == b[0] then Subsequence(a[1..], b[1..])
    else Subsequence(a, b[1..])
  }

  /** With distinct topic names, the topics found keep the table's order. */
  lemma {:induction false} TopicsInOrder(table: seq<Topic>, text: string)
    requires forall i, j :: 0 <= i < j < |table| ==> table[i].name != table[j].name
    ensures Subsequence(TopicsIn(table, text), Names(table))
  {
    if table != [] {
      TopicsInOrder(table[1..], text);
      var rest := TopicsIn(table[1..], text);
      assert Names(table)[1..] == Names(table[1..]);
      if !TopicHit(table[0], text) && rest != [] {
        assert rest[0] in rest;
        var i :| 0 <= i < |table[1..]| && table[1..][i].name == rest[0] && TopicHit(table[1..][i], text);
        assert table[1..][i] == table[i + 1];
      }
    }
  }

  predicate Distinct<T(==)>(s: seq<T>) {
    forall i, j :: 0 <= i < j < |s| ==> s[i] != s[j]
  }

  /** With distinct topic names, no topic is listed twice. */
  lemma {:induction false} TopicsInDistinct(table: seq<Topic>, text: string)
    requires forall i, j :: 0 <= i < j < |table| ==> table[i].name != table[j].name
    ensures Distinct(TopicsIn(table, text))
  {
    if table != [] {
      TopicsInDistinct(table[1..], text);
      var rest := TopicsIn(table[1..], text);
      forall x | x in rest ensures x != table[0].name {
        var i :| 0 <= i < |table[1..]| && table[1..][i].name == x && TopicHit(table[1..][i], text);
        assert table[1..][i] == table[i + 1];
      }
      var r := TopicsIn(table, text);
      if TopicHit(table[0], text) {
        assert r == [table[0].name] + rest;
        forall i, j | 0 <= i < j < |r| ensures r[i] != r[j] {
          assert r[j] == rest[j - 1] && rest[j - 1] in rest;
          if i > 0 {
            assert r[i] == rest[i - 1];
          }
        }
      }
    }
  }

  /** `extractTopics`: each topic at most once, in table order, when one of
      its keywords occurs in the lower-cased transcript. */
  function ExtractTopics(transcript: seq<ConversationTurn>): (r: seq<string>)
    ensures Distinct(r)
    ensures forall i :: 0 <= i < |TopicTable| ==> (TopicTable[i].name in r <==> TopicHit(TopicTable[i], TranscriptText(transcript)))
    ensures Subsequence(r, Names(TopicTable))
  {
    TopicsOfTable(TranscriptText(transcript));
    TopicTableNamesDistinct();
    TopicsInOrder(TopicTable, TranscriptText(transcript));
    TopicsIn(TopicTable, TranscriptText(transcript))
  }

  /** The topic names of the table are pairwise different. */
  lemma TopicTableNamesDistinct()
    ensures forall i, j :: 0 <= i < j < |TopicTable| ==> TopicTable[i].name != TopicTable[j].name
  {
    var names := ["leads", "budget", "timeline", "decision_maker", "automation", "follow_up", "demo", "qualification"];
    assert forall i :: 0 <= i < |TopicTable| ==> TopicTable[i].name == names[i];
    assert forall i, j :: 0 <= i < j < |names| ==> names[i][0] != names[j][0] || names[i][2] != names[j][2];
  }

  /** Over the topic table, each name is listed once, exactly when the
      topic occurs in the text. */
  lemma TopicsOfTable(text: string)
    ensures var r := TopicsIn(TopicTable, text);
      Distinct(r)
      && forall i :: 0 <= i < |TopicTable| ==> (TopicTable[i].name in r <==> TopicHit(TopicTable[i], text))
  {
    TopicTableNamesDistinct();
    TopicsInDistinct(TopicTable, text);
    var r := TopicsIn(TopicTable, text);
    forall i | 0 <= i < |TopicTable| && TopicTable[i].name in r ensures TopicHit(TopicTable[i], text) {
      var j :| 0 <= j < |TopicTable| && TopicTable[j].name == TopicTable[i].name && TopicHit(TopicTable[j], text);
      assert i == j;
    }
  }

  /** The count of a topic in a topic table; 0 when absent (`|| 0`). */
  function CountOf(table: seq<TopicCount>, topic: string): int {
    if table == [] then 0
    else if table[0].topic == topic then table[0].count
    else CountOf(table[1..], topic)
  }

  predicate HasTopic(table: seq<TopicCount>, topic: string) {
    exists i :: 0 <= i < |table| && table[i].topic == topic
  }

  /** `table[topic] = (table[topic] || 0) + by`: an existing key keeps its
      place, a new key goes last. */
  function AddToTopic(table: seq<TopicCount>, topic: string, amount: int): (r: seq<TopicCount>)
    ensures CountOf(r, topic) == CountOf(table, topic) + amount
    ensures forall t :: t != topic ==> CountOf(r, t) == CountOf(table, t)
    ensures forall t :: HasTopic(r, t) <==> HasTopic(table, t) || t == topic
    ensures HasTopic(table, topic) ==> |r| == |table|
    ensures !HasTopic(table, topic) ==> r == table + [TopicCount(topic, amount)]
  {
    if table == [] then [TopicCount(topic, amount)]
    else
      assert table == [table[0]] + table[1..];
      HasTopicCons(table[0], table[1..]);
      if table[0].topic == topic then
        var r := [TopicCount(topic, table[0].count + amount)] + table[1..];
        HasTopicCons(r[0], table[1..]);
        r
      else
        var rest := AddToTopic(table[1..], topic, amount);
        HasTopicCons(table[0], rest);
        [table[0]] + rest
  }

  /** A table with a first entry has a topic when that entry or the rest has it. */
  lemma HasTopicCons(head: TopicCount, rest: seq<TopicCount>)
    ensures forall t :: HasTopic([head] + rest, t) <==> head.topic == t || HasTopic(rest, t)
  {
    var r := [head] + rest;
    forall t ensures HasTopic(r, t) <==> head.topic == t || HasTopic(rest, t) {
      if HasTopic(r, t) && head.topic != t {
        var i :| 0 <= i < |r| && r[i].topic == t;
        assert rest[i - 1].topic == t;
      }
      if HasTopic(rest, t) {
        var i :| 0 <= i < |rest| && rest[i].topic == t;
        assert r[i + 1].topic == t;
      }
      if head.topic == t {
        assert r[0].topic == t;
      }
    }
  }

  /** Adds one to the count of each topic. */
  function CountTopics(table: seq<TopicCount>, topics: seq<string>): seq<TopicCount>
    decreases |topics|
  {
    if topics == [] then table else CountTopics(AddToTopic(table, topics[0], 1), topics[1..])
  }

  /** The keys of a topic table are distinct, as the keys of an object are. */
  predicate DistinctTopics(table: seq<TopicCount>) {
    forall i, j :: 0 <= i < j < |table| ==> table[i].topic != table[j].topic
  }

  /** Adding to a topic keeps the keys distinct. */
  lemma {:induction false} AddToTopicDistinct(table: seq<TopicCount>, topic: string, amount: int)
    requires DistinctTopics(table)
    ensures DistinctTopics(AddToTopic(table, topic, amount))
  {
    if table != [] && table[0].topic != topic {
      var rest := AddToTopic(table[1..], topic, amount);
      AddToTopicDistinct(table[1..], topic, amount);
      var r := [table[0]] + rest;
      assert !HasTopic(table[1..], table[0].topic);
      assert !HasTopic(rest, table[0].topic);
      forall i, j | 0 <= i < j < |r| ensures r[i].topic != r[j].topic {
        if i == 0 {
          assert rest[j - 1].topic == r[j].topic;
        } else {
          assert r[i] == rest[i - 1] && r[j] == rest[j - 1];
        }
      }
    }
  }

  /** The number of times `x` occurs in a list without repeats. */
  lemma {:induction false} DistinctMultiplicity<T>(s: seq<T>, x: T)
    requires Distinct(s)
    ensures multiset(s)[x] == if x in s then 1 else 0
  {
    if s != [] {
      assert s == [s[0]] + s[1..];
      assert Distinct(s[1..]) by {
        forall i, j | 0 <= i < j < |s[1..]| ensures s[1..][i] != s[1..][j] {
          assert s[1..][i] == s[i + 1] && s[1..][j] == s[j + 1];
        }
      }
      DistinctMultiplicity(s[1..], x);
      if x == s[0] {
        forall k | 0 <= k < |s[1..]| ensures s[1..][k] != x {
          assert s[1..][k] == s[k + 1];
        }
      }
    }
  }

  /** Counting a list of topics adds to each topic the number of times it is
      listed, and to no other; for a list without repeats, one per listed
      topic. */
  lemma {:induction false} CountTopicsCounts(table: seq<TopicCount>, topics: seq<string>, t: string)
    ensures CountOf(CountTopics(table, topics), t) == CountOf(table, t) + multiset(topics)[t]
    ensures Distinct(topics) ==>
      CountOf(CountTopics(table, topics), t) == CountOf(table, t) + (if t in topics then 1 else 0)
    decreases |topics|
  {
    if topics != [] {
      assert topics == [topics[0]] + topics[1..];
      CountTopicsCounts(AddToTopic(table, topics[0], 1), topics[1..], t);
    }
    if Distinct(topics) {
      DistinctMultiplicity(topics, t);
    }
  }

  /** The statistics of a day before its first call. */
  function EmptyDay(day: int): DailyStats {
    DailyStats(day, 0, 0, 0, [], 0)
  }

  /** A day's statistics after one more call. */
  function WithCall(current: DailyStats, a: CallAnalytics): (r: DailyStats)
    ensures r.date == current.date
    ensures r.totalCalls == current.totalCalls + 1
    ensures r.qualifiedCalls == current.qualifiedCalls + (if a.outcome == Some(Qualified) then 1 else 0)
    ensures r.errorCount == current.errorCount + (if a.errors.Some? then |a.errors.value| else 0)
    ensures (a.duration.None? || a.duration.value == 0) ==> r.averageDuration == current.averageDuration
    ensures a.duration.Some? && a.duration.value != 0 && current.totalCalls >= 0 ==>
      r.averageDuration == RoundDiv(current.averageDuration * current.totalCalls + a.duration.value, current.totalCalls + 1)
    ensures a.transcript == [] ==> r.commonTopics == current.commonTopics
    ensures a.transcript != [] ==> r.commonTopics == CountTopics(current.commonTopics, ExtractTopics(a.transcript))
  {
    var total := current.totalCalls + 1;
    var qualified := current.qualifiedCalls + (if a.outcome == Some(Qualified) then 1 else 0);
    var average :=
      if a.duration.Some? && a.duration.value != 0 && total > 0
      then RoundDiv(current.averageDuration * current.totalCalls + a.duration.value, total)
      else current.averageDuration;
    var topics := if a.transcript != [] then CountTopics(current.commonTopics, ExtractTopics(a.transcript)) else current.commonTopics;
    var errors := current.errorCount + (if a.errors.Some? then |a.errors.value| else 0);
    DailyStats(current.date, total, qualified, average, topics, errors)
  }

  /** The running average after one more call stays between the old
      average and the new duration. */
  lemma RunningAverageBetween(current: DailyStats, a: CallAnalytics)
    requires current.totalCalls >= 0
    requires a.duration.Some? && a.duration.value != 0
    ensures var avg := WithCall(current, a).averageDuration;
      var d := a.duration.value;
      var m := current.averageDuration;
      (if m < d then m else d) <= avg <= (if m < d then d else m)
  {
    var n := current.totalCalls;
    var m := current.averageDuration;
    var d := a.duration.value;
    assert WithCall(current, a).averageDuration == RoundDiv(m * n + d, n + 1);
    WeightedBetween(m, n, d);
  }

  /** Adding one value `d` to `n` values averaging `m` gives a rounded
      average between `m` and `d`. */
  lemma WeightedBetween(m: int, n: nat, d: int)
    ensures var lo := if m < d then m else d;
      var hi := if m < d then d else m;
      lo <= RoundDiv(m * n + d, n + 1) <= hi
  {
    var lo := if m < d then m else d;
    var hi := if m < d then d else m;
    var p := m * n + d;
    assert lo * (n + 1) == lo * n + lo && hi * (n + 1) == hi * n + hi;
    if n > 0 {
      MulMonotone(n, lo, m);
      MulMonotone(n, m, hi);
    }
    RoundDivBetween(p, n + 1, lo, hi);
  }

  /** Index of the entry for `day`, if any. */
  function FindDay(stats: seq<DailyStats>, day: int): (r: Option<nat>)
    ensures r.Some? ==> r.value < |stats| && stats[r.value].date == day
    ensures r.None? ==> forall i :: 0 <= i < |stats| ==> stats[i].date != day
  {
    if stats == [] then None
    else if stats[0].date == day then Some(0)
    else match FindDay(stats[1..], day)
      case None => None
      case Some(k) => Some(k + 1)
  }

  /** `dailyStats.set(day, entry)`: replaces the day's entry in place, or
      appends it. */
  function SetDay(stats: seq<DailyStats>, entry: DailyStats): (r: seq<DailyStats>)
    ensures FindDay(stats, entry.date).Some? ==> r == stats[FindDay(stats, entry.date).value := entry]
    ensures FindDay(stats, entry.date).None? ==> r == stats + [entry]
  {
    match FindDay(stats, entry.date)
    case Some(i) => stats[i := entry]
    case None => stats + [entry]
  }

  /** One entry per day, and no day counts more qualified calls than calls. */
  predicate StatsValid(stats: seq<DailyStats>) {
    (forall i, j :: 0 <= i < j < |stats| ==> stats[i].date != stats[j].date)
    && (forall i :: 0 <= i < |stats| ==> 0 <= stats[i].qualifiedCalls <= stats[i].totalCalls)
  }

  /** `updateDailyStats`: the entry for the call's day after the call. */
  function RecordInStats(stats: seq<DailyStats>, a: CallAnalytics): (r: seq<DailyStats>)
    requires StatsValid(stats)
    ensures StatsValid(r)
    ensures |r| == |stats| || r == stats + [WithCall(EmptyDay(DayOf(a.startTime)), a)]
    ensures |r| >= |stats|
    ensures forall i :: 0 <= i < |stats| ==>
      r[i] == if stats[i].date == DayOf(a.startTime) then WithCall(stats[i], a) else stats[i]
    ensures (forall i :: 0 <= i < |stats| ==> stats[i].date != DayOf(a.startTime)) ==>
      r == stats + [WithCall(EmptyDay(DayOf(a.startTime)), a)]
  {
    var day := DayOf(a.startTime);
    var current := match FindDay(stats, day) case Some(i) => stats[i] case None => EmptyDay(day);
    SetDay(stats, WithCall(current, a))
  }

  /** The gap list after `forEach(gap => includes(gap) || push(gap))`. */
  function AddGaps(list: seq<string>, gaps: seq<string>): (r: seq<string>)
    ensures list <= r
    ensures forall g :: g in r <==> g in list || g in gaps
    ensures Distinct(list) ==> Distinct(r)
    decreases |gaps|
  {
    if gaps == [] then list
    else
      var next := if gaps[0] in list then list else list + [gaps[0]];
      assert forall g :: g in gaps <==> g == gaps[0] || g in gaps[1..];
      AddGaps(next, gaps[1..])
  }

  /** Stable sort, largest key first: an element goes before the first
      element whose key does not exceed its own. */
  function InsertDesc<T>(x: T, s: seq<T>, key: T -> int): (r: seq<T>)
    ensures multiset(r) == multiset(s) + multiset{x}
    ensures |r| == |s| + 1
    ensures forall k :: 0 <= k < |r| ==> r[k] == x || r[k] in s
  {
    if s == [] || key(s[0]) <= key(x) then [x] + s
    else
      var rest := InsertDesc(x, s[1..], key);
      assert s == [s[0]] + s[1..];
      assert forall k :: 1 <= k < |rest| + 1 ==> ([s[0]] + rest)[k] == rest[k - 1];
      [s[0]] + rest
  }

  predicate SortedDesc<T>(s: seq<T>, key: T -> int) {
    forall i, j :: 0 <= i < j < |s| ==> key(s[i]) >= key(s[j])
  }

  /** Inserting into a sorted sequence keeps it sorted. */
  lemma {:induction false} InsertDescSorted<T>(x: T, s: seq<T>, key: T -> int)
    requires SortedDesc(s, key)
    ensures SortedDesc(InsertDesc(x, s, key), key)
  {
    if s != [] && key(s[0]) > key(x) {
      SortedDescTail(s, key);
      InsertDescSorted(x, s[1..], key);
      var rest := InsertDesc(x, s[1..], key);
      forall y | y in rest ensures key(y) <= key(s[0]) {
        var k :| 0 <= k < |rest| && rest[k] == y;
      }
      SortedDescCons(s[0], rest, key);
    }
  }

  function SortDesc<T>(s: seq<T>, key: T -> int): (r: seq<T>)
    ensures SortedDesc(r, key)
    ensures multiset(r) == multiset(s)
    ensures |r| == |s|
  {
    if s == [] then []
    else
      assert s == [s[0]] + s[1..];
      var sorted := SortDesc(s[1..], key);
      InsertDescSorted(s[0], sorted, key);
      InsertDesc(s[0], sorted, key)
  }

  /** Sequences that are permutations of each other have the same members. */
  lemma SameMembers<T>(a: seq<T>, b: seq<T>)
    requires multiset(a) == multiset(b)
    ensures forall x :: x in a <==> x in b
  {
    forall x ensures x in a <==> x in b {
      assert x in a <==> x in multiset(a);
      assert x in b <==> x in multiset(b);
    }
  }

  function DateKey(d: DailyStats): int { d.date }
  function CountKey(t: TopicCount): int { t.count }

  /** `getAllDailyStats()` filtered to the days starting no earlier than
      `days` days before `now`. */
  function RecentStats(stats: seq<DailyStats>, days: int, now: int): (r: seq<DailyStats>)
    ensures forall x :: x in r ==> x in stats && InWindow(x, now - days * DayMs)
    ensures forall x :: x in stats && InWindow(x, now - days * DayMs) ==> x in r
    ensures SortedDesc(r, DateKey)
  {
    var cutoff := now - days * DayMs;
    WindowOfSorted(stats, cutoff);
    FilterFrom(SortDesc(stats, DateKey), cutoff)
  }

  /** Sorting then filtering keeps exactly the days in the window, newest
      first. */
  lemma WindowOfSorted(stats: seq<DailyStats>, cutoffMs: int)
    ensures var r := FilterFrom(SortDesc(stats, DateKey), cutoffMs);
      (forall x :: x in r ==> x in stats && InWindow(x, cutoffMs))
      && (forall x :: x in stats && InWindow(x, cutoffMs) ==> x in r)
      && SortedDesc(r, DateKey)
  {
    var sorted := SortDesc(stats, DateKey);
    SameMembers(sorted, stats);
    FilterFromSorted(sorted, cutoffMs);
  }

  /** The day starts no earlier than the cutoff. */
  predicate InWindow(d: DailyStats, cutoffMs: int) {
    d.date * DayMs >= cutoffMs
  }

  /** `filter(stats => new Date(stats.date) >= cutoff)`. */
  function FilterFrom(stats: seq<DailyStats>, cutoffMs: int): (r: seq<DailyStats>)
    ensures forall x :: x in r ==> x in stats && InWindow(x, cutoffMs)
    ensures forall x :: x in stats && InWindow(x, cutoffMs) ==> x in r
  {
    if stats == [] then []
    else
      var rest := FilterFrom(stats[1..], cutoffMs);
      assert forall x :: x in stats <==> x == stats[0] || x in stats[1..];
      if InWindow(stats[0], cutoffMs) then [stats[0]] + rest else rest
  }

  /** The tail of a sorted sequence is sorted, and its head has the
      largest key. */
  lemma SortedDescTail<T>(s: seq<T>, key: T -> int)
    requires s != [] && SortedDesc(s, key)
    ensures SortedDesc(s[1..], key)
    ensures forall y :: y in s[1..] ==> key(y) <= key(s[0])
  {
    var tail := s[1..];
    forall i, j | 0 <= i < j < |tail| ensures key(tail[i]) >= key(tail[j]) {
      assert tail[i] == s[i + 1] && tail[j] == s[j + 1];
    }
    forall y | y in tail ensures key(y) <= key(s[0]) {
      var k :| 0 <= k < |tail| && tail[k] == y;
      assert tail[k] == s[k + 1];
    }
  }

  /** Putting a key no smaller than all others in front keeps a sequence sorted. */
  lemma SortedDescCons<T>(x: T, s: seq<T>, key: T -> int)
    requires SortedDesc(s, key)
    requires forall y :: y in s ==> key(y) <= key(x)
    ensures SortedDesc([x] + s, key)
  {
    var r := [x] + s;
    forall i, j | 0 <= i < j < |r| ensures key(r[i]) >= key(r[j]) {
      assert r[j] == s[j - 1] && s[j - 1] in s;
      if i > 0 {
        assert r[i] == s[i - 1];
      }
    }
  }

  /** Filtering keeps the newest-first order. */
  lemma {:induction false} FilterFromSorted(stats: seq<DailyStats>, cutoffMs: int)
    requires SortedDesc(stats, DateKey)
    ensures SortedDesc(FilterFrom(stats, cutoffMs), DateKey)
  {
    if stats != [] {
      SortedDescTail(stats, DateKey);
      FilterFromSorted(stats[1..], cutoffMs);
      if InWindow(stats[0], cutoffMs) {
        SortedDescCons(stats[0], FilterFrom(stats[1..], cutoffMs), DateKey);
      }
    }
  }

  function SumTotal(stats: seq<DailyStats>): int {
    if stats == [] then 0 else stats[0].totalCalls + SumTotal(stats[1..])
  }

  function SumQualified(stats: seq<DailyStats>): int {
    if stats == [] then 0 else stats[0].qualifiedCalls + SumQualified(stats[1..])
  }

  function SumDuration(stats: seq<DailyStats>): int {
    if stats == [] then 0 else stats[0].averageDuration * stats[0].totalCalls + SumDuration(stats[1..])
  }

  lemma {:induction false} SumsBounded(stats: seq<DailyStats>)
    requires forall x :: x in stats ==> 0 <= x.qualifiedCalls <= x.totalCalls
    ensures 0 <= SumQualified(stats) <= SumTotal(stats)
  {
    if stats != [] {
      assert forall x :: x in stats[1..] ==> x in stats;
      SumsBounded(stats[1..]);
      assert stats[0] in stats;
    }
  }

  /** `getQualificationRate`: the rounded percentage of qualified calls over
      the recent days; 0 without calls. */
  function QualificationRate(stats: seq<DailyStats>, days: int, now: int): (r: int)
    requires forall x :: x in stats ==> 0 <= x.qualifiedCalls <= x.totalCalls
    ensures 0 <= r <= 100
    ensures SumTotal(RecentStats(stats, days, now)) <= 0 ==> r == 0
    ensures SumTotal(RecentStats(stats, days, now)) > 0 ==>
      r == RoundDiv(SumQualified(RecentStats(stats, days, now)) * 100, SumTotal(RecentStats(stats, days, now)))
  {
    var recent := RecentStats(stats, days, now);
    SumsBounded(recent);
    var total := SumTotal(recent);
    var qualified := SumQualified(recent);
    if |recent| == 0 then 0
    else if total > 0 then
      RoundDivBetween(qualified * 100, total, 0, 100);
      RoundDiv(qualified * 100, total)
    else 0
  }

  /** `getAverageDuration`: the call-weighted mean of the daily averages
      over the recent days; 0 without calls. */
  function AverageDuration(stats: seq<DailyStats>, days: int, now: int): (r: int)
    ensures SumTotal(RecentStats(stats, days, now)) <= 0 ==> r == 0
    ensures SumTotal(RecentStats(stats, days, now)) > 0 ==>
      r == RoundDiv(SumDuration(RecentStats(stats, days, now)), SumTotal(RecentStats(stats, days, now)))
  {
    var recent := RecentStats(stats, days, now);
    var total := SumTotal(recent);
    if |recent| == 0 then 0
    else if total > 0 then RoundDiv(SumDuration(recent), total)
    else 0
  }

  /** Topic counts summed over the given days, keys in first-seen order. */
  function AccumulateTopics(acc: seq<TopicCount>, stats: seq<DailyStats>): seq<TopicCount>
    decreases |stats|
  {
    if stats == [] then acc else AccumulateTopics(AddAll(acc, stats[0].commonTopics), stats[1..])
  }

  function AddAll(acc: seq<TopicCount>, entries: seq<TopicCount>): seq<TopicCount>
    decreases |entries|
  {
    if entries == [] then acc else AddAll(AddToTopic(acc, entries[0].topic, entries[0].count), entries[1..])
  }

  /** The sum of the counts a list of entries gives a topic. */
  function EntriesSum(entries: seq<TopicCount>, t: string): int {
    if entries == [] then 0
    else (if entries[0].topic == t then entries[0].count else 0) + EntriesSum(entries[1..], t)
  }

  /** The count of a topic summed over the topic tables of some days. */
  function WindowSum(days: seq<DailyStats>, t: string): int {
    if days == [] then 0 else EntriesSum(days[0].commonTopics, t) + WindowSum(days[1..], t)
  }

  /** In a table with distinct keys, a topic's entries sum to its count. */
  lemma {:induction false} DistinctEntriesSum(entries: seq<TopicCount>, t: string)
    requires DistinctTopics(entries)
    ensures EntriesSum(entries, t) == CountOf(entries, t)
  {
    if entries != [] {
      var rest := entries[1..];
      assert DistinctTopics(rest) by {
        forall i, j | 0 <= i < j < |rest| ensures rest[i].topic != rest[j].topic {
          assert rest[i] == entries[i + 1] && rest[j] == entries[j + 1];
        }
      }
      DistinctEntriesSum(rest, t);
      if entries[0].topic == t {
        AbsentCountsZero(rest, t);
        forall k | 0 <= k < |rest| ensures rest[k].topic != t {
          assert rest[k] == entries[k + 1];
        }
      }
    }
  }

  /** A topic no entry names has count and sum 0. */
  lemma {:induction false} AbsentCountsZero(entries: seq<TopicCount>, t: string)
    ensures (forall k :: 0 <= k < |entries| ==> entries[k].topic != t) ==>
      EntriesSum(entries, t) == 0 && CountOf(entries, t) == 0
  {
    if entries != [] && forall k :: 0 <= k < |entries| ==> entries[k].topic != t {
      var rest := entries[1..];
      assert forall k :: 0 <= k < |rest| ==> rest[k].topic != t by {
        forall k | 0 <= k < |rest| ensures rest[k].topic != t {
          assert rest[k] == entries[k + 1];
        }
      }
      AbsentCountsZero(rest, t);
    }
  }

  /** Adding a list of entries adds their sum to each topic. */
  lemma {:induction false} AddAllCounts(acc: seq<TopicCount>, entries: seq<TopicCount>, t: string)
    ensures CountOf(AddAll(acc, entries), t) == CountOf(acc, t) + EntriesSum(entries, t)
    decreases |entries|
  {
    if entries != [] {
      AddAllCounts(AddToTopic(acc, entries[0].topic, entries[0].count), entries[1..], t);
    }
  }

  /** Adding a list of entries keeps the keys distinct. */
  lemma {:induction false} AddAllDistinct(acc: seq<TopicCount>, entries: seq<TopicCount>)
    requires DistinctTopics(acc)
    ensures DistinctTopics(AddAll(acc, entries))
    decreases |entries|
  {
    if entries != [] {
      AddToTopicDistinct(acc, entries[0].topic, entries[0].count);
      AddAllDistinct(AddToTopic(acc, entries[0].topic, entries[0].count), entries[1..]);
    }
  }

  /** Accumulating the days adds each topic's count summed over the days,
      and keeps the keys distinct. */
  lemma {:induction false} AccumulateTopicsCounts(acc: seq<TopicCount>, days: seq<DailyStats>, t: string)
    ensures CountOf(AccumulateTopics(acc, days), t) == CountOf(acc, t) + WindowSum(days, t)
    ensures DistinctTopics(acc) ==> DistinctTopics(AccumulateTopics(acc, days))
    decreases |days|
  {
    if days != [] {
      var next := AddAll(acc, days[0].commonTopics);
      AddAllCounts(acc, days[0].commonTopics, t);
      if DistinctTopics(acc) {
        AddAllDistinct(acc, days[0].commonTopics);
      }
      AccumulateTopicsCounts(next, days[1..], t);
    }
  }

  /** In a table with distinct keys, each entry holds its topic's count. */
  lemma {:induction false} CountOfEntry(table: seq<TopicCount>, i: int)
    requires DistinctTopics(table) && 0 <= i < |table|
    ensures CountOf(table, table[i].topic) == table[i].count
    decreases i
  {
    if i > 0 {
      var rest := table[1..];
      assert DistinctTopics(rest) by {
        forall a, b | 0 <= a < b < |rest| ensures rest[a].topic != rest[b].topic {
          assert rest[a] == table[a + 1] && rest[b] == table[b + 1];
        }
      }
      assert rest[i - 1] == table[i];
      CountOfEntry(rest, i - 1);
    }
  }

  /** `getTopTopics`: the topics of the window with their counts summed over
      the window's days, largest first (ties keep their first-seen order),
      cut to `limit` entries. */
  function TopTopics(stats: seq<DailyStats>, days: int, limit: int, now: int): (r: seq<TopicCount>)
    ensures SortedDesc(r, CountKey)
    ensures r <= SortDesc(AccumulateTopics([], RecentStats(stats, days, now)), CountKey)
    ensures 0 <= limit ==> |r| == if limit < |AccumulateTopics([], RecentStats(stats, days, now))| then limit
                                  else |AccumulateTopics([], RecentStats(stats, days, now))|
    ensures forall i :: 0 <= i < |r| ==> r[i].count == WindowSum(RecentStats(stats, days, now), r[i].topic)
  {
    var window := RecentStats(stats, days, now);
    var sorted := SortDesc(AccumulateTopics([], window), CountKey);
    var r := SlicePrefix(sorted, limit);
    forall i | 0 <= i < |r| ensures r[i].count == WindowSum(window, r[i].topic) {
      assert r[i] == sorted[i] && sorted[i] in multiset(sorted);
      TotalsEntry(window, r[i]);
    }
    r
  }

  /** Each entry of the totals over some days holds its topic's count summed
      over those days. */
  lemma TotalsEntry(days: seq<DailyStats>, e: TopicCount)
    requires e in AccumulateTopics([], days)
    ensures e.count == WindowSum(days, e.topic)
  {
    var totals := AccumulateTopics([], days);
    var j :| 0 <= j < |totals| && totals[j] == e;
    AccumulateTopicsCounts([], days, e.topic);
    CountOfEntry(totals, j);
  }

  datatype HealthStatus = Healthy | Warning | Failing

  datatype SystemHealth = SystemHealth(status: HealthStatus, lastCheck: int, issues: seq<string>)

  function CallsWithErrors(calls: seq<CallAnalytics>): (n: nat)
    ensures n <= |calls|
  {
    if calls == [] then 0
    else (if calls[0].errors.Some? && |calls[0].errors.value| > 0 then 1 else 0) + CallsWithErrors(calls[1..])
  }

  /** More than 20% of the calls had errors. */
  predicate HighErrorRate(calls: seq<CallAnalytics>) {
    |calls| > 0 && 5 * CallsWithErrors(calls) > |calls|
  }

  /** The status for a number of issues: none is healthy, one or two a
      warning, more an error. */
  function StatusFor(issueCount: nat): (s: HealthStatus)
    ensures s == Healthy <==> issueCount == 0
    ensures s == Warning <==> 1 <= issueCount <= 2
    ensures s == Failing <==> issueCount > 2
  {
    if issueCount > 2 then Failing else if issueCount > 0 then Warning else Healthy
  }

  function IssueIf(cond: bool, issue: string): seq<string> {
    if cond then [issue] else []
  }

  /** The issues of the four health checks, in the order they are made. */
  function HealthIssues(errors: bool, lowRate: bool, short: bool, manyGaps: bool): seq<string> {
    IssueIf(errors, "High error rate detected")
    + IssueIf(lowRate, "Low qualification rate")
    + IssueIf(short, "Conversations are very short")
    + IssueIf(manyGaps, "Many knowledge gaps identified")
  }

  /** Each issue is listed exactly when its check failed. */
  lemma HealthIssuesListed(errors: bool, lowRate: bool, short: bool, manyGaps: bool)
    ensures var issues := HealthIssues(errors, lowRate, short, manyGaps);
      |issues| <= 4
      && ("High error rate detected" in issues <==> errors)
      && ("Low qualification rate" in issues <==> lowRate)
      && ("Conversations are very short" in issues <==> short)
      && ("Many knowledge gaps identified" in issues <==> manyGaps)
  {
  }

  class Analytics {
    var recentCalls: seq<CallAnalytics>
    var dailyStats: seq<DailyStats>
    var knowledgeGaps: seq<string>

    ghost predicate Valid()
      reads this
    {
      |recentCalls| <= MaxRecentCalls && StatsValid(dailyStats) && Distinct(knowledgeGaps)
    }

    constructor()
      ensures Valid()
      ensures recentCalls == [] && dailyStats == [] && knowledgeGaps == []
    {
      recentCalls, dailyStats, knowledgeGaps := [], [], [];
    }

    /** `recordCall`: the call goes first in the recent list, which keeps
        at most 100 entries; the day's statistics count it; its knowledge
        gaps join the gap list once each. */
    method RecordCall(a: CallAnalytics)
      requires Valid()
      modifies this
      ensures Valid()
      ensures recentCalls == SlicePrefix([a] + old(recentCalls), MaxRecentCalls)
      ensures |recentCalls| >= 1 && recentCalls[0] == a
      ensures dailyStats == RecordInStats(old(dailyStats), a)
      ensures a.knowledgeGaps.Some? ==> knowledgeGaps == AddGaps(old(knowledgeGaps), a.knowledgeGaps.value)
      ensures a.knowledgeGaps.None? ==> knowledgeGaps == old(knowledgeGaps)
    {
      recentCalls := [a] + recentCalls;
      if |recentCalls| > MaxRecentCalls {
        recentCalls := recentCalls[..MaxRecentCalls];
      }
      UpdateDailyStats(a);
      if a.knowledgeGaps.Some? && |a.knowledgeGaps.value| > 0 {
        MergeGaps(a.knowledgeGaps.value);
      }
    }

    /** The `forEach` of `recordCall`: each gap not yet listed is appended. */
    method MergeGaps(gaps: seq<string>)
      modifies this
      ensures knowledgeGaps == AddGaps(old(knowledgeGaps), gaps)
      ensures recentCalls == old(recentCalls) && dailyStats == old(dailyStats)
    {
      var i := 0;
      while i < |gaps|
        invariant 0 <= i <= |gaps|
        invariant AddGaps(knowledgeGaps, gaps[i..]) == AddGaps(old(knowledgeGaps), gaps)
        invariant recentCalls == old(recentCalls) && dailyStats == old(dailyStats)
      {
        assert gaps[i..][0] == gaps[i] && gaps[i..][1..] == gaps[i + 1..];
        if gaps[i] !in knowledgeGaps {
          knowledgeGaps := knowledgeGaps + [gaps[i]];
        }
        i := i + 1;
      }
      assert gaps[i..] == [];
    }

    /** `updateDailyStats`. */
    method UpdateDailyStats(a: CallAnalytics)
      requires StatsValid(dailyStats)
      modifies this
      ensures dailyStats == RecordInStats(old(dailyStats), a)
      ensures recentCalls == old(recentCalls) && knowledgeGaps == old(knowledgeGaps)
    {
      dailyStats := RecordInStats(dailyStats, a);
    }

    /** `getDailyStats(date)`: the entry of that day, if there is one. */
    function GetDailyStats(day: int): (r: Option<DailyStats>)
      reads this
      ensures r.Some? ==> r.value in dailyStats && r.value.date == day
      ensures r.None? <==> forall i :: 0 <= i < |dailyStats| ==> dailyStats[i].date != day
    {
      match FindDay(dailyStats, day)
      case Some(i) => Some(dailyStats[i])
      case None => None
    }

    /** `getRecentCalls(limit)`: the first `limit` calls. */
    function GetRecentCalls(limit: int): (r: seq<CallAnalytics>)
      reads this
      ensures r <= recentCalls
      ensures 0 <= limit ==> |r| == if limit < |recentCalls| then limit else |recentCalls|
    {
      SlicePrefix(recentCalls, limit)
    }

    /** `addKnowledgeGap`: appends a gap not yet listed. */
    method AddKnowledgeGap(gap: string)
      requires Valid()
      modifies this
      ensures Valid()
      ensures gap in old(knowledgeGaps) ==> knowledgeGaps == old(knowledgeGaps)
      ensures gap !in old(knowledgeGaps) ==> knowledgeGaps == old(knowledgeGaps) + [gap]
      ensures recentCalls == old(recentCalls) && dailyStats == old(dailyStats)
    {
      if gap !in knowledgeGaps {
        knowledgeGaps := knowledgeGaps + [gap];
      }
    }

    /** `removeKnowledgeGap`: removes the gap where it is listed. */
    method RemoveKnowledgeGap(gap: string)
      requires Valid()
      modifies this
      ensures Valid()
      ensures gap !in knowledgeGaps
      ensures gap !in old(knowledgeGaps) ==> knowledgeGaps == old(knowledgeGaps)
      ensures gap in old(knowledgeGaps) ==>
        (exists i :: 0 <= i < |old(knowledgeGaps)| && old(knowledgeGaps)[i] == gap
                     && knowledgeGaps == old(knowledgeGaps)[..i] + old(knowledgeGaps)[i + 1..])
      ensures forall g :: g != gap ==> (g in knowledgeGaps <==> g in old(knowledgeGaps))
      ensures recentCalls == old(recentCalls) && dailyStats == old(dailyStats)
    {
      var index := IndexOfGap(knowledgeGaps, gap);
      if index.Some? {
        RemoveAtDistinct(knowledgeGaps, index.value);
        knowledgeGaps := knowledgeGaps[..index.value] + knowledgeGaps[index.value + 1..];
      }
    }

    /** `getSystemHealth`: one issue per failed check, and the status for
        their number. */
    function GetSystemHealth(now: int): (h: SystemHealth)
      requires Valid()
      reads this
      ensures h.lastCheck == now
      ensures h.status == StatusFor(|h.issues|)
      ensures |h.issues| <= 4
      ensures "High error rate detected" in h.issues <==> HighErrorRate(GetRecentCalls(50))
      ensures "Low qualification rate" in h.issues <==> QualificationRate(dailyStats, 7, now) < 10
      ensures "Conversations are very short" in h.issues <==> AverageDuration(dailyStats, 7, now) < 30000
      ensures "Many knowledge gaps identified" in h.issues <==> |knowledgeGaps| > 10
    {
      var errors := HighErrorRate(GetRecentCalls(50));
      var lowRate := QualificationRate(dailyStats, 7, now) < 10;
      var short := AverageDuration(dailyStats, 7, now) < 30000;
      var manyGaps := |knowledgeGaps| > 10;
      var issues := HealthIssues(errors, lowRate, short, manyGaps);
      HealthIssuesListed(errors, lowRate, short, manyGaps);
      SystemHealth(StatusFor(|issues|), now, issues)
    }
  }

  /** Removing the entry at `i` from a list without duplicates removes
      that value altogether, keeps every other value and keeps the list
      free of duplicates. */
  lemma RemoveAtDistinct(list: seq<string>, i: nat)
    requires i < |list| && Distinct(list)
    ensures var rest := list[..i] + list[i + 1..];
      Distinct(rest) && list[i] !in rest
      && forall g :: g != list[i] ==> (g in rest <==> g in list)
  {
    var rest := list[..i] + list[i + 1..];
    assert forall k :: 0 <= k < |rest| ==> rest[k] == (if k < i then list[k] else list[k + 1]);
    forall g | g != list[i] ensures g in rest <==> g in list {
      if g in list {
        var k :| 0 <= k < |list| && list[k] == g;
        if k < i { assert rest[k] == g; } else { assert rest[k - 1] == g; }
      }
    }
  }

  /** `indexOf` on the gap list. */
  function IndexOfGap(list: seq<string>, gap: string): (r: Option<nat>)
    ensures r.Some? ==> r.value < |list| && list[r.value] == gap
    ensures r.None? <==> gap !in list
  {
    if list == [] then None
    else if list[0] == gap then Some(0)
    else match IndexOfGap(list[1..], gap)
      case None => None
      case Some(k) => Some(k + 1)
  }
}
