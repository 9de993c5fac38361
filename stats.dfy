/**
 * The statistics document of the tracker: per-day sessions and all-time
 * totals, each counting uses per recorded tool name and per category.
 * The document is the in-memory value `load_stats` returns; reading and
 * writing the JSON file is not part of this model.
 */
module Stats {
  import opened Wrappers
  import opened Text
  import opened OrderedDict

  /** The five categories, in the order the tracker lists them. */
  const CategoryNames: seq<string> := ["native", "mcp", "agent", "skill", "command"]

  /** categorize_tool: the category of a recorded tool name, raw (`mcp__server__tool`, `Task`) or detailed (`mcp:server:tool`). */
  function CategorizeTool(toolName: string): string {
    if StartsWith(toolName, "mcp:") || StartsWith(toolName, "mcp__") then "mcp"
    else if StartsWith(toolName, "agent:") || toolName == "Task" then "agent"
    else if StartsWith(toolName, "skill:") || toolName == "Skill" then "skill"
    else if StartsWith(toolName, "cmd:") || toolName == "SlashCommand" then "command"
    else if StartsWith(toolName, "native:") then "native"
    else "native"
  }

  /**
   * Each category is picked by exactly its own prefixes and sentinel names, so
   * the branches never compete and everything else is native.
   */
  lemma CategorizeToolCases(t: string)
    ensures CategorizeTool(t) in CategoryNames
    ensures CategorizeTool(t) == "mcp" <==> StartsWith(t, "mcp:") || StartsWith(t, "mcp__")
    ensures CategorizeTool(t) == "agent" <==> StartsWith(t, "agent:") || t == "Task"
    ensures CategorizeTool(t) == "skill" <==> StartsWith(t, "skill:") || t == "Skill"
    ensures CategorizeTool(t) == "command" <==> StartsWith(t, "cmd:") || t == "SlashCommand"
    ensures CategorizeTool(t) == "native" <==>
      !StartsWith(t, "mcp:") && !StartsWith(t, "mcp__") && !StartsWith(t, "agent:") && t != "Task" &&
      !StartsWith(t, "skill:") && t != "Skill" && !StartsWith(t, "cmd:") && t != "SlashCommand"
  {
    if StartsWith(t, "agent:") { assert t[0] == 'a'; }
    if StartsWith(t, "skill:") { assert t[0] == 's' && t[1] == 'k'; }
    if StartsWith(t, "cmd:") { assert t[0] == 'c'; }
  }

  /** The result of parse_detailed_tool_name. */
  datatype DetailedName = DetailedName(category: string, subcategory: string, detail: Option<string>)

  /** The colon-joined form a detailed name was split from. */
  function Rejoin(d: DetailedName): string {
    d.category + ":" + d.subcategory + (if d.detail.Some? then ":" + d.detail.value else "")
  }

  /**
   * parse_detailed_tool_name: `tool_name.split(":", 2)`. A name without a colon
   * is its own category and subcategory; otherwise the first two colons are the
   * cuts and the rest, colons and all, is the detail.
   */
  function ParseDetailedToolName(toolName: string): DetailedName {
    // split always yields at least one part, so the `else "native"` fallback of the source never applies
    match SplitOnce(toolName, ':')
    case (category, None) => DetailedName(category, toolName, None)
    case (category, Some(rest)) =>
      match SplitOnce(rest, ':')
      case (subcategory, None) => DetailedName(category, subcategory, None)
      case (subcategory, Some(detail)) => DetailedName(category, subcategory, Some(detail))
  }


  /** A name without a colon is its own category and subcategory. */
  lemma ParseDetailedToolNameNoColon(toolName: string)
    requires ':' !in toolName
    ensures ParseDetailedToolName(toolName) == DetailedName(toolName, toolName, None)
  {
    SplitOnceSpec(toolName, ':');
  }

  /** A name with a colon comes back from its parts, and the first two parts hold no colon. */
  lemma ParseDetailedToolNameColon(toolName: string)
    requires ':' in toolName
    ensures var r := ParseDetailedToolName(toolName);
      ':' !in r.category && ':' !in r.subcategory && Rejoin(r) == toolName
  {
    var first := SplitOnce(toolName, ':');
    SplitOnceSpec(toolName, ':');
    var rest := first.1.value;
    var second := SplitOnce(rest, ':');
    SplitOnceSpec(rest, ':');
    var r := DetailedName(first.0, second.0, second.1);
    assert ParseDetailedToolName(toolName) == r;
    RejoinParts(first.0, second.0, second.1);
  }

  lemma RejoinParts(category: string, subcategory: string, detail: Option<string>)
    ensures Rejoin(DetailedName(category, subcategory, detail)) ==
      category + [':'] + (if detail.Some? then subcategory + [':'] + detail.value else subcategory)
  {
    if detail.Some? {
      assert category + ":" + subcategory + ":" + detail.value == category + [':'] + (subcategory + [':'] + detail.value);
    }
  }

  // ---------------------------------------------------------------------------
  // Counters

  /** A `tools` or `categories` dict: name to count, in insertion order. */
  type Counts = Dict<int>

  /** `sum(d.values())` */
  function Sum(d: Counts): int {
    if |d| == 0 then 0 else d[0].1 + Sum(d[1..])
  }

  /** Storing `v` under `k` changes the sum by the difference to the value it replaces. */
  lemma {:induction false} SumPut(d: Counts, k: string, v: int)
    ensures Sum(Put(d, k, v)) == Sum(d) - GetOr(d, k, 0) + v
  {
    if |d| > 0 {
      if d[0].0 == k {
        assert Put(d, k, v)[1..] == d[1..];
      } else {
        SumPut(d[1..], k, v);
        assert Put(d, k, v)[1..] == Put(d[1..], k, v);
      }
    }
  }

  /** `d[k] = d.get(k, 0) + 1`: one more for `k`, one more in all, and a new key goes last. */
  function Increment(d: Counts, k: string): (r: Counts)
    ensures GetOr(r, k, 0) == GetOr(d, k, 0) + 1
    ensures Sum(r) == Sum(d) + 1
  {
    SumPut(d, k, GetOr(d, k, 0) + 1);
    Put(d, k, GetOr(d, k, 0) + 1)
  }

  /** The counters of a session or of the totals. */
  datatype Tally = Tally(tools: Counts, categories: Counts)

  /** Five zeroed category counters, as a fresh document and a fresh session have them. */
  const ZeroCategories: Counts := [("native", 0), ("mcp", 0), ("agent", 0), ("skill", 0), ("command", 0)]

  const EmptyTally: Tally := Tally([], ZeroCategories)

  ghost predicate WellFormed(t: Tally) {
    UniqueKeys(t.tools) && UniqueKeys(t.categories)
  }

  /** The document's invariant: every use is counted once by tool and once by category. */
  predicate Balanced(t: Tally) {
    Sum(t.categories) == Sum(t.tools)
  }

  /** A fresh tally has the five categories, in order, each at zero. */
  lemma EmptyTallyZero()
    ensures Keys(EmptyTally.categories) == CategoryNames
    ensures forall c :: c in CategoryNames ==> Get(EmptyTally.categories, c) == Some(0)
  {
    var z := ZeroCategories;
    assert z[1..][1..][1..][1..][1..] == [];
  }

  /** A fresh tally keeps both invariants. */
  lemma EmptyTallyInvariants()
    ensures Balanced(EmptyTally) && WellFormed(EmptyTally)
  {
    EmptyTallyZero();
    assert Sum(ZeroCategories[1..][1..][1..][1..][1..]) == 0;
  }

  /** One use of `toolName` counted in a tally. */
  function CountUse(t: Tally, toolName: string): Tally {
    Tally(Increment(t.tools, toolName), Increment(t.categories, CategorizeTool(toolName)))
  }

  /**
   * Counting a use raises the name's counter and its category's by one, so
   * both sums go up by one and a balanced tally stays balanced.
   */
  lemma CountUseCounts(t: Tally, toolName: string)
    ensures GetOr(CountUse(t, toolName).tools, toolName, 0) == GetOr(t.tools, toolName, 0) + 1
    ensures GetOr(CountUse(t, toolName).categories, CategorizeTool(toolName), 0)
         == GetOr(t.categories, CategorizeTool(toolName), 0) + 1
    ensures Sum(CountUse(t, toolName).tools) == Sum(t.tools) + 1
    ensures Sum(CountUse(t, toolName).categories) == Sum(t.categories) + 1
    ensures Balanced(t) <==> Balanced(CountUse(t, toolName))
  {
  }

  /** Counting a use moves no other tool's counter. */
  lemma CountUseOtherTool(t: Tally, toolName: string, k: string)
    requires k != toolName
    ensures Get(CountUse(t, toolName).tools, k) == Get(t.tools, k)
  {
    PutOther(t.tools, toolName, GetOr(t.tools, toolName, 0) + 1, k);
  }

  /** Counting a use moves no other category's counter. */
  lemma CountUseOtherCategory(t: Tally, toolName: string, c: string)
    requires c != CategorizeTool(toolName)
    ensures Get(CountUse(t, toolName).categories, c) == Get(t.categories, c)
  {
    var category := CategorizeTool(toolName);
    PutOther(t.categories, category, GetOr(t.categories, category, 0) + 1, c);
  }

  /** Counting a use keeps the keys unrepeated and never adds a category key to the five. */
  lemma CountUseWellFormed(t: Tally, toolName: string)
    requires WellFormed(t)
    ensures WellFormed(CountUse(t, toolName))
  {
    var category := CategorizeTool(toolName);
    PutUnique(t.tools, toolName, GetOr(t.tools, toolName, 0) + 1);
    PutUnique(t.categories, category, GetOr(t.categories, category, 0) + 1);
  }

  /** Every name falls in one of the five categories, so the category counters keep their five keys in order. */
  lemma CountUseCategoryKeys(t: Tally, toolName: string)
    requires Keys(t.categories) == CategoryNames
    ensures Keys(CountUse(t, toolName).categories) == CategoryNames
  {
    var category := CategorizeTool(toolName);
    CategorizeToolCases(toolName);
    HasKeyIff(t.categories, category);
    PutKeys(t.categories, category, GetOr(t.categories, category, 0) + 1);
  }

  /**
   * The two increments record_tool_usage applies to a tally, the name's counter
   * and its category's, as statements; proved equal to CountUse, which the
   * counting lemmas are about.
   */
  method CountIn(t: Tally, toolName: string) returns (r: Tally)
    ensures r == CountUse(t, toolName)
  {
    var category := CategorizeTool(toolName);
    var tools := Increment(t.tools, toolName);
    var categories := Increment(t.categories, category);
    r := Tally(tools, categories);
  }

  /** A day's bucket; `start` is set when it is created and `end` on every use. */
  datatype Session = Session(start: string, end: Option<string>, tally: Tally)

  /**
   * The sessions after one use of `toolName` on day `sessionId`: the day's
   * bucket is created if missing, starting at `startTime`, then counted in and
   * stamped with `endTime`. The two times are separate reads of the clock.
   */
  function RecordInSessions(sessions: map<string, Session>, toolName: string, sessionId: string, startTime: string, endTime: string): map<string, Session> {
    var before := if sessionId in sessions then sessions[sessionId] else Session(startTime, None, EmptyTally);
    sessions[sessionId := Session(before.start, Some(endTime), CountUse(before.tally, toolName))]
  }

  /**
   * Recording touches only the day's bucket: a new bucket starts at `startTime`
   * from a fresh tally, an existing one keeps its start, `end` becomes `endTime`, and
   * every other day is left as it was.
   */
  lemma RecordInSessionsFrame(sessions: map<string, Session>, toolName: string, sessionId: string, startTime: string, endTime: string)
    ensures var r := RecordInSessions(sessions, toolName, sessionId, startTime, endTime);
      && r.Keys == sessions.Keys + {sessionId}
      && (forall id :: id in sessions && id != sessionId ==> r[id] == sessions[id])
      && r[sessionId].end == Some(endTime)
      && (sessionId !in sessions ==> r[sessionId].start == startTime && r[sessionId].tally == CountUse(EmptyTally, toolName))
      && (sessionId in sessions ==>
            r[sessionId].start == sessions[sessionId].start && r[sessionId].tally == CountUse(sessions[sessionId].tally, toolName))
  {
  }

  ghost predicate AllWellFormed(sessions: map<string, Session>) {
    forall id :: id in sessions ==> WellFormed(sessions[id].tally)
  }

  predicate AllBalanced(sessions: map<string, Session>) {
    forall id :: id in sessions ==> Balanced(sessions[id].tally)
  }

  /** Recording keeps every bucket's keys unrepeated and every bucket balanced. */
  lemma RecordInSessionsInvariants(sessions: map<string, Session>, toolName: string, sessionId: string, startTime: string, endTime: string)
    ensures AllWellFormed(sessions) ==> AllWellFormed(RecordInSessions(sessions, toolName, sessionId, startTime, endTime))
    ensures AllBalanced(sessions) ==> AllBalanced(RecordInSessions(sessions, toolName, sessionId, startTime, endTime))
  {
    var before := if sessionId in sessions then sessions[sessionId] else Session(startTime, None, EmptyTally);
    var after := Session(before.start, Some(endTime), CountUse(before.tally, toolName));
    if AllWellFormed(sessions) {
      assert WellFormed(before.tally) by {
        EmptyTallyInvariants();
      }
      CountUseWellFormed(before.tally, toolName);
      StoreWellFormed(sessions, sessionId, after);
    }
    if AllBalanced(sessions) {
      assert Balanced(before.tally) by {
        EmptyTallyInvariants();
      }
      CountUseCounts(before.tally, toolName);
      StoreBalanced(sessions, sessionId, after);
    }
  }

  /** Counting a use keeps a tally's keys unrepeated and keeps it balanced. */
  lemma CountUseInvariants(t: Tally, toolName: string)
    ensures WellFormed(t) ==> WellFormed(CountUse(t, toolName))
    ensures Balanced(t) ==> Balanced(CountUse(t, toolName))
  {
    if WellFormed(t) {
      CountUseWellFormed(t, toolName);
    }
    CountUseCounts(t, toolName);
  }

  lemma StoreWellFormed(sessions: map<string, Session>, id: string, s: Session)
    requires AllWellFormed(sessions) && WellFormed(s.tally)
    ensures AllWellFormed(sessions[id := s])
  {
  }

  lemma StoreBalanced(sessions: map<string, Session>, id: string, s: Session)
    requires AllBalanced(sessions) && Balanced(s.tally)
    ensures AllBalanced(sessions[id := s])
  {
  }

  /** The document: sessions keyed by date, and the all-time totals. */
  class StatsDocument {
    var sessions: map<string, Session>
    var totals: Tally

    /** The document `load_stats` falls back to when the file is missing or cannot be read. */
    constructor ()
      ensures sessions == map[] && totals == EmptyTally
      ensures Valid() && Consistent()
    {
      sessions := map[];
      totals := EmptyTally;
      EmptyTallyInvariants();
    }

    ghost predicate Valid()
      reads this
    {
      WellFormed(totals) && AllWellFormed(sessions)
    }

    ghost predicate Consistent()
      reads this
    {
      Balanced(totals) && AllBalanced(sessions)
    }

    /**
     * record_tool_usage, between its load and its save: `sessionId` is the
     * current date, `startTime` the time a new session is stamped with and
     * `endTime` the time of the use; all three are reads of the clock.
     */
    method RecordToolUsage(toolName: string, sessionId: string, startTime: string, endTime: string)
      modifies this
      ensures sessions == RecordInSessions(old(sessions), toolName, sessionId, startTime, endTime)
      ensures totals == CountUse(old(totals), toolName)
      ensures old(Valid()) ==> Valid()
      ensures old(Consistent()) ==> Consistent()
    {
      RecordInSessionsInvariants(sessions, toolName, sessionId, startTime, endTime);
      CountUseInvariants(totals, toolName);
      // the day's bucket, created if missing; it is stored back once counted
      var session := if sessionId in sessions then sessions[sessionId] else Session(startTime, None, EmptyTally);
      var tally := CountIn(session.tally, toolName);
      sessions := sessions[sessionId := Session(session.start, Some(endTime), tally)];
      totals := CountIn(totals, toolName);
    }

    /** get_session_stats: the counters of a day, or empty ones for a day without a session. */
    function SessionStats(sessionId: string): (t: Tally)
      reads this
      ensures sessionId in sessions ==> t == sessions[sessionId].tally
      ensures sessionId !in sessions ==>
        t.tools == [] && Keys(t.categories) == CategoryNames &&
        forall c :: c in CategoryNames ==> Get(t.categories, c) == Some(0)
    {
      EmptyTallyZero();
      if sessionId in sessions then sessions[sessionId].tally else EmptyTally
    }

    /** get_top_tools: the `n` most used names of the day's session, or of all time. */
    function TopTools(n: int, sessionOnly: bool, sessionId: string): (r: Counts)
      reads this
      ensures var tools := if sessionOnly then SessionStats(sessionId).tools else totals.tools;
        |r| == SliceLength(|tools|, n) && multiset(r) <= multiset(tools) && NonIncreasing(r)
      ensures sessionOnly && sessionId !in sessions ==> r == []
    {
      TopNSpec(if sessionOnly then SessionStats(sessionId).tools else totals.tools, n);
      TopN(if sessionOnly then SessionStats(sessionId).tools else totals.tools, n)
    }

    /**
     * clear_session_stats without the load: the day's bucket goes, and the
     * answer is whether there was one and `saved`, the outcome of the write.
     */
    method ClearSessionStats(sessionId: string, saved: bool) returns (cleared: bool)
      modifies this
      ensures sessions == old(sessions) - {sessionId}
      ensures totals == old(totals)
      ensures cleared == (sessionId in old(sessions) && saved)
      ensures old(Valid()) ==> Valid()
      ensures old(Consistent()) ==> Consistent()
    {
      if sessionId in sessions {
        sessions := sessions - {sessionId};
        return saved;
      }
      return false;
    }
  }

  // ---------------------------------------------------------------------------
  // Top N: `sorted(tools.items(), key=count, reverse=True)[:n]`

  predicate NonIncreasing(s: Counts) {
    forall i, j :: 0 <= i < j < |s| ==> s[i].1 >= s[j].1
  }

  /** The entries with count `c`, in their order. */
  function WithCount(s: Counts, c: int): Counts {
    if |s| == 0 then []
    else (if s[0].1 == c then [s[0]] else []) + WithCount(s[1..], c)
  }

  lemma WithCountCons(x: (string, int), s: Counts, c: int)
    ensures WithCount([x] + s, c) == (if x.1 == c then [x] else []) + WithCount(s, c)
  {
    assert ([x] + s)[0] == x && ([x] + s)[1..] == s;
  }

  /** Places `x` in front of the first entry whose count is not larger, so `x` stays ahead of its equals. */
  function InsertByCount(x: (string, int), s: Counts): (r: Counts)
    ensures |r| == |s| + 1
  {
    if |s| == 0 || s[0].1 <= x.1 then [x] + s
    else [s[0]] + InsertByCount(x, s[1..])
  }

  lemma {:induction false} InsertByCountPerm(x: (string, int), s: Counts)
    ensures multiset(InsertByCount(x, s)) == multiset(s) + multiset{x}
  {
    if |s| > 0 && s[0].1 > x.1 {
      InsertByCountPerm(x, s[1..]);
      assert s == [s[0]] + s[1..];
    }
  }

  lemma {:induction false} InsertByCountSorted(x: (string, int), s: Counts)
    requires NonIncreasing(s)
    ensures NonIncreasing(InsertByCount(x, s))
  {
    if |s| > 0 && s[0].1 > x.1 {
      var t := InsertByCount(x, s[1..]);
      InsertByCountSorted(x, s[1..]);
      InsertByCountPerm(x, s[1..]);
      forall e | e in t ensures e.1 <= s[0].1 {
        assert e in multiset(t);
        if e != x {
          assert e in multiset(s[1..]);
        }
      }
      assert forall j :: 0 < j < |t| + 1 ==> ([s[0]] + t)[j] == t[j - 1];
    }
  }

  lemma {:induction false} InsertByCountStable(x: (string, int), s: Counts, c: int)
    ensures WithCount(InsertByCount(x, s), c) == (if x.1 == c then [x] else []) + WithCount(s, c)
  {
    if |s| == 0 || s[0].1 <= x.1 {
      WithCountCons(x, s, c);
    } else {
      var rest := WithCount(s[1..], c);
      InsertByCountStable(x, s[1..], c);
      WithCountCons(s[0], InsertByCount(x, s[1..]), c);
      if x.1 == c {
        // s[0] counts more than x, so it is not among the entries with count c
        assert WithCount(InsertByCount(x, s), c) == [x] + rest;
        assert WithCount(s, c) == rest;
      } else {
        assert WithCount(InsertByCount(x, s), c) == (if s[0].1 == c then [s[0]] else []) + rest;
      }
    }
  }

  /** Python's sort with `reverse=True`, which is stable: insertion of each entry into the sorted rest. */
  function SortByCount(s: Counts): (r: Counts)
    ensures |r| == |s|
  {
    if |s| == 0 then [] else InsertByCount(s[0], SortByCount(s[1..]))
  }

  /**
   * The sort orders by count, largest first, is a permutation of its input,
   * and keeps entries with equal counts in their input order.
   */
  lemma {:induction false} SortByCountSpec(s: Counts)
    ensures NonIncreasing(SortByCount(s))
    ensures multiset(SortByCount(s)) == multiset(s)
    ensures forall c :: WithCount(SortByCount(s), c) == WithCount(s, c)
  {
    if |s| > 0 {
      var rest := SortByCount(s[1..]);
      SortByCountSpec(s[1..]);
      InsertByCountSorted(s[0], rest);
      InsertByCountPerm(s[0], rest);
      assert s == [s[0]] + s[1..];
      forall c ensures WithCount(SortByCount(s), c) == WithCount(s, c) {
        InsertByCountStable(s[0], rest, c);
        WithCountCons(s[0], s[1..], c);
      }
    }
  }

  /**
   * How many entries `[:n]` keeps of `len`: a negative `n` counts from the end.
   * The contract is Python's slice-clamping rule itself; `TopNSpec` and
   * `TopNIsTop` carry the claims about the ranking.
   */
  function SliceLength(len: nat, n: int): (k: nat)
    ensures k <= len
    ensures 0 <= n ==> k == if n <= len then n else len
    ensures n < 0 ==> k == if len + n > 0 then len + n else 0
  {
    if n >= 0 then (if n <= len then n else len)
    else if len + n > 0 then len + n
    else 0
  }

  lemma {:induction false} WithCountPrefix(s: Counts, k: nat, c: int)
    requires k <= |s|
    ensures WithCount(s[..k], c) <= WithCount(s, c)
  {
    if k > 0 {
      assert s[..k][1..] == s[1..][..k - 1];
      WithCountPrefix(s[1..], k - 1, c);
    }
  }

  /** get_top_tools' ranking: sort by count, largest first, and keep `[:n]`. */
  function TopN(tools: Counts, n: int): (r: Counts)
    ensures |r| == SliceLength(|tools|, n)
  {
    SortByCount(tools)[..SliceLength(|tools|, n)]
  }

  /** A prefix of a sequence ordered by count is ordered, drawn from it, and keeps its equal-count runs' heads. */
  lemma PrefixOfSorted(s: Counts, k: nat)
    requires k <= |s| && NonIncreasing(s)
    ensures NonIncreasing(s[..k])
    ensures multiset(s[..k]) <= multiset(s)
    ensures forall c :: WithCount(s[..k], c) <= WithCount(s, c)
  {
    assert s == s[..k] + s[k..];
    assert multiset(s) == multiset(s[..k]) + multiset(s[k..]);
    forall c ensures WithCount(s[..k], c) <= WithCount(s, c) {
      WithCountPrefix(s, k, c);
    }
  }

  /**
   * The top `n` entries are ordered by count, drawn from the input, and
   * among equal counts are the earliest inserted, in order.
   */
  lemma TopNSpec(tools: Counts, n: int)
    ensures NonIncreasing(TopN(tools, n))
    ensures multiset(TopN(tools, n)) <= multiset(tools)
    ensures forall c :: WithCount(TopN(tools, n), c) <= WithCount(tools, c)
  {
    var sorted := SortByCount(tools);
    SortByCountSpec(tools);
    PrefixOfSorted(sorted, SliceLength(|tools|, n));
  }

  /** Nothing left out of the top `n` outranks anything in it. */
  lemma TopNIsTop(tools: Counts, n: int, e: (string, int), x: (string, int))
    requires e in tools && e !in TopN(tools, n) && x in TopN(tools, n)
    ensures e.1 <= x.1
  {
    var sorted := SortByCount(tools);
    SortByCountSpec(tools);
    var k := SliceLength(|tools|, n);
    assert TopN(tools, n) == sorted[..k];
    assert e in multiset(sorted);
    assert sorted == sorted[..k] + sorted[k..];
    assert e in sorted[k..];
    var j :| k <= j < |sorted| && sorted[j] == e;
    var i :| 0 <= i < k && sorted[i] == x;
  }

  /** A tie: `{A:5, B:5, C:2, D:1}` gives `[A, B, C]`. */
  lemma TopNExample()
    ensures TopN([("A", 5), ("B", 5), ("C", 2), ("D", 1)], 3) == [("A", 5), ("B", 5), ("C", 2)]
  {
    var s: Counts := [("A", 5), ("B", 5), ("C", 2), ("D", 1)];
    assert s[1..][1..][1..] == [("D", 1)];
    assert s[1..][1..] == [("C", 2), ("D", 1)];
    assert SortByCount([("D", 1)]) == [("D", 1)];
    assert SortByCount([("C", 2), ("D", 1)]) == [("C", 2), ("D", 1)];
    assert SortByCount(s[1..]) == [("B", 5), ("C", 2), ("D", 1)];
    assert SortByCount(s) == [("A", 5), ("B", 5), ("C", 2), ("D", 1)];
  }

  // ---------------------------------------------------------------------------
  // Subcategory breakdown


  /** The five buckets of get_subcategory_breakdown, in their order, each a dict from subcategory to count. */
  type Breakdown = Dict<Counts>

  const EmptyBreakdown: Breakdown := [("native", []), ("mcp", []), ("agent", []), ("skill", []), ("command", [])]

  lemma EmptyBreakdownKeys()
    ensures Keys(EmptyBreakdown) == CategoryNames
  {
    var e := EmptyBreakdown;
    assert e[1..][1..][1..][1..][1..] == [];
  }

  /** The sum of all the counts of all the buckets. */
  function Total(b: Breakdown): int {
    if |b| == 0 then 0 else Sum(b[0].1) + Total(b[1..])
  }

  /** Replacing a bucket changes the total by the difference of the bucket sums. */
  lemma {:induction false} TotalPut(b: Breakdown, category: string, bucket: Counts)
    ensures Total(Put(b, category, bucket)) == Total(b) - Sum(GetOr(b, category, [])) + Sum(bucket)
  {
    if |b| > 0 {
      if b[0].0 == category {
        assert Put(b, category, bucket)[1..] == b[1..];
      } else {
        TotalPut(b[1..], category, bucket);
        assert Put(b, category, bucket)[1..] == Put(b[1..], category, bucket);
      }
    }
  }

  /**
   * The (category, subcategory) the loop settles on for a name: an `mcp__`
   * name goes under mcp by the segment between its first and second `__`
   * (`tool_name.split("__")[1]`, the first `__` being the one right after
   * `mcp`), a colon-free name under its category by its whole name, and any
   * other name by its first two colon fields.
   */
  function Regroup(toolName: string): (string, string) {
    if StartsWith(toolName, "mcp__") then ("mcp", SplitOnceOn(toolName[5..], "__").0)
    else if ':' !in toolName then (CategorizeTool(toolName), toolName)
    else
      var d := ParseDetailedToolName(toolName);
      (d.category, d.subcategory)
  }

  /** Names in the old format always land in their own category's bucket; only colon names can miss. */
  lemma RegroupCategory(toolName: string)
    ensures ':' !in toolName || StartsWith(toolName, "mcp__") ==> Regroup(toolName).0 == CategorizeTool(toolName)
    ensures Regroup(toolName).0 !in CategoryNames ==> ':' in toolName && !StartsWith(toolName, "mcp__")
  {
  }

  /** The entries of a tools dict, each with the cell the loop picks for it. */
  type Cells = seq<((string, string), int)>

  function CellsOf(tools: Counts): (cells: Cells)
    ensures |cells| == |tools|
  {
    if |tools| == 0 then []
    else
      var last := tools[|tools| - 1];
      CellsOf(tools[..|tools| - 1]) + [(Regroup(last.0), last.1)]
  }

  /** One loop step: the count goes into its cell if the cell's category has a bucket. */
  function AddEntry(b: Breakdown, cell: (string, string), count: int): Breakdown {
    if HasKey(b, cell.0) then
      var bucket := GetOr(b, cell.0, []);
      Put(b, cell.0, Put(bucket, cell.1, GetOr(bucket, cell.1, 0) + count))
    else b
  }

  /** The breakdown of a run of cells, as the loop builds it: always the five buckets, in order. */
  function BreakdownFrom(cells: Cells): Breakdown {
    if |cells| == 0 then EmptyBreakdown
    else
      var last := cells[|cells| - 1];
      AddEntry(BreakdownFrom(cells[..|cells| - 1]), last.0, last.1)
  }

  /** The breakdown always has the five buckets, in their order. */
  lemma {:induction false} BreakdownKeys(cells: Cells)
    ensures Keys(BreakdownFrom(cells)) == CategoryNames
  {
    if |cells| == 0 {
      EmptyBreakdownKeys();
    } else {
      var last := cells[|cells| - 1];
      BreakdownKeys(cells[..|cells| - 1]);
      AddEntryKeys(BreakdownFrom(cells[..|cells| - 1]), last.0, last.1);
    }
  }

  /** A loop step never adds or removes a bucket. */
  lemma AddEntryKeys(b: Breakdown, cell: (string, string), count: int)
    ensures Keys(AddEntry(b, cell, count)) == Keys(b)
  {
    if HasKey(b, cell.0) {
      var bucket := GetOr(b, cell.0, []);
      PutKeys(b, cell.0, Put(bucket, cell.1, GetOr(bucket, cell.1, 0) + count));
    }
  }

  function BreakdownOf(tools: Counts): Breakdown {
    BreakdownFrom(CellsOf(tools))
  }

  /** Entry `i` of the cells is entry `i` of the tools dict with its cell. */
  lemma {:induction false} CellsOfAt(tools: Counts, i: nat)
    requires i < |tools|
    ensures CellsOf(tools)[i] == (Regroup(tools[i].0), tools[i].1)
  {
    if i < |tools| - 1 {
      CellsOfAt(tools[..|tools| - 1], i);
    }
  }

  /** The loop body's choice of cell, branch by branch. */
  method RegroupName(toolName: string) returns (category: string, subcategory: string)
    ensures (category, subcategory) == Regroup(toolName)
  {
    var d := ParseDetailedToolName(toolName);
    category, subcategory := d.category, d.subcategory;
    if StartsWith(toolName, "mcp__") {
      category := "mcp";
      subcategory := SplitOnceOn(toolName[5..], "__").0;
    } else if ':' !in toolName {
      category := CategorizeTool(toolName);
      subcategory := toolName;
    }
  }

  /** get_subcategory_breakdown */
  method GetSubcategoryBreakdown(tools: Counts) returns (breakdown: Breakdown)
    ensures breakdown == BreakdownOf(tools)
  {
    ghost var cells := CellsOf(tools);
    breakdown := [("native", []), ("mcp", []), ("agent", []), ("skill", []), ("command", [])];
    for i := 0 to |tools|
      invariant breakdown == BreakdownFrom(cells[..i])
    {
      var (toolName, count) := tools[i];
      var category, subcategory := RegroupName(toolName);
      CellsOfAt(tools, i);
      assert cells[..i + 1] == cells[..i] + [((category, subcategory), count)];
      breakdown := AddToBucket(breakdown, category, subcategory, count);
    }
    assert cells[..|tools|] == cells;
  }

  /**
   * The loop body's update as statements: the count is added to the cell only
   * when its category has a bucket; proved equal to AddEntry, which the
   * breakdown lemmas are about.
   */
  method AddToBucket(breakdown: Breakdown, category: string, subcategory: string, count: int) returns (r: Breakdown)
    ensures r == AddEntry(breakdown, (category, subcategory), count)
  {
    r := breakdown;
    if HasKey(breakdown, category) {
      var bucket := GetOr(breakdown, category, []);
      r := Put(breakdown, category, Put(bucket, subcategory, GetOr(bucket, subcategory, 0) + count));
    }
  }

  /** The sum of the counts of the entries whose cell is (category, subcategory). */
  function CellCount(cells: Cells, category: string, subcategory: string): int {
    if |cells| == 0 then 0
    else
      var last := cells[|cells| - 1];
      CellCount(cells[..|cells| - 1], category, subcategory) + (if last.0 == (category, subcategory) then last.1 else 0)
  }

  /** One entry adds its count to its own cell and to no other cell of an existing bucket. */
  lemma AddEntryCell(b: Breakdown, cell: (string, string), count: int, category: string, subcategory: string)
    requires HasKey(b, category)
    ensures GetOr(GetOr(AddEntry(b, cell, count), category, []), subcategory, 0) ==
      GetOr(GetOr(b, category, []), subcategory, 0) + (if cell == (category, subcategory) then count else 0)
  {
    var (c, s) := cell;
    if HasKey(b, c) {
      var bucket := GetOr(b, c, []);
      var bucket' := Put(bucket, s, GetOr(bucket, s, 0) + count);
      if c != category {
        PutOther(b, c, bucket', category);
      } else if s != subcategory {
        PutOther(bucket, s, GetOr(bucket, s, 0) + count, subcategory);
      }
    }
  }

  /** Each cell of the breakdown is the sum of the counts of the entries that belong in it. */
  lemma {:induction false} BreakdownCell(cells: Cells, category: string, subcategory: string)
    requires category in CategoryNames
    ensures GetOr(GetOr(BreakdownFrom(cells), category, []), subcategory, 0) == CellCount(cells, category, subcategory)
  {
    if |cells| > 0 {
      var prefix := cells[..|cells| - 1];
      var last := cells[|cells| - 1];
      BreakdownCell(prefix, category, subcategory);
      BreakdownKeys(prefix);
      HasKeyIff(BreakdownFrom(prefix), category);
      AddEntryCell(BreakdownFrom(prefix), last.0, last.1, category, subcategory);
    }
  }

  /** The sum of the counts of the entries whose category has a bucket. */
  function KeptCount(cells: Cells): int {
    if |cells| == 0 then 0
    else
      var last := cells[|cells| - 1];
      KeptCount(cells[..|cells| - 1]) + (if last.0.0 in CategoryNames then last.1 else 0)
  }

  /** One entry raises the total by its count when its category has a bucket, and not at all otherwise. */
  lemma AddEntryTotal(b: Breakdown, cell: (string, string), count: int)
    requires Keys(b) == CategoryNames
    ensures Total(AddEntry(b, cell, count)) == Total(b) + (if cell.0 in CategoryNames then count else 0)
  {
    var (c, s) := cell;
    HasKeyIff(b, c);
    if HasKey(b, c) {
      var bucket := GetOr(b, c, []);
      SumPut(bucket, s, GetOr(bucket, s, 0) + count);
      TotalPut(b, c, Put(bucket, s, GetOr(bucket, s, 0) + count));
    }
  }

  /** The buckets together hold exactly the counts of the entries that were kept. */
  lemma {:induction false} BreakdownTotal(cells: Cells)
    ensures Total(BreakdownFrom(cells)) == KeptCount(cells)
  {
    if |cells| > 0 {
      var prefix := cells[..|cells| - 1];
      var last := cells[|cells| - 1];
      BreakdownTotal(prefix);
      BreakdownKeys(prefix);
      AddEntryTotal(BreakdownFrom(prefix), last.0, last.1);
    }
  }
}
