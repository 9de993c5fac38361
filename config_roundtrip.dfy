/**
 * What save_config writes, parse_yaml_frontmatter reads back: for settings
 * whose keys and values survive the line format (no newlines, no colons in
 * keys or list items, no surrounding whitespace, no text that reads as a
 * boolean, a skipped value or a list item), loading the written file gives
 * the same settings, in the same order.
 */
module ConfigRoundTrip {
  import opened Wrappers
  import opened Text
  import opened OrderedDict
  import opened Config

  // ---------------------------------------------------------------------------
  // Which settings survive the file format

  /** A key that is read back as itself: a key line neither blank, nor a comment, nor a list item. */
  predicate WellFormedKey(k: string) {
    && k != []
    && '\n' !in k && ':' !in k
    && !IsSpace(k[0]) && !IsSpace(k[|k| - 1])
    && k[0] != '#' && k[0] != '-'
  }

  /** A list item that is read back as itself. */
  predicate WellFormedItem(x: string) {
    && x != []
    && '\n' !in x && ':' !in x
    && !IsSpace(x[0]) && !IsSpace(x[|x| - 1])
  }

  /** A value that is read back as itself. */
  predicate WellFormedValue(v: Value) {
    match v
    case Bool(_) => true
    case Str(s) =>
      && '\n' !in s
      && (s == [] || (!IsSpace(s[0]) && !IsSpace(s[|s| - 1])))
      && Lower(s) != "true" && Lower(s) != "false"
      && !StartsWith(s, "[") && !StartsWith(s, "-")
    case List(items) =>
      && items != []
      && forall i :: 0 <= i < |items| ==> WellFormedItem(items[i])
  }

  predicate EntriesWellFormed(config: Settings) {
    forall i :: 0 <= i < |config| ==> WellFormedKey(config[i].0) && WellFormedValue(config[i].1)
  }

  ghost predicate WellFormedConfig(config: Settings) {
    UniqueKeys(config) && EntriesWellFormed(config)
  }

  // ---------------------------------------------------------------------------
  // Finding the closing `---`

  /** No line of `s` after its first starts with `-`. */
  predicate NoDashLine(s: string) {
    forall i :: 0 <= i && i + 1 < |s| ==> s[i] != '\n' || s[i + 1] != '-'
  }

  predicate DashFree(s: string) {
    s == [] || s[0] != '-'
  }

  predicate LinesOk(lines: seq<string>) {
    forall i :: 0 <= i < |lines| ==> '\n' !in lines[i] && DashFree(lines[i])
  }

  /** A line joined in front of dash-free lines starts no dashed line. */
  lemma NoDashCons(a: string, b: string)
    requires '\n' !in a && NoDashLine(b) && DashFree(b)
    ensures NoDashLine(a + ['\n'] + b) && DashFree(a + ['\n'] + b) == DashFree(a + ['\n'])
  {
    var s := a + ['\n'] + b;
    forall i | 0 <= i && i + 1 < |s|
      ensures s[i] != '\n' || s[i + 1] != '-'
    {
      if i < |a| {
        assert s[i] == a[i];
      } else if i == |a| {
        assert s[i + 1] == b[0];
      } else {
        assert s[i] == b[i - |a| - 1] && s[i + 1] == b[i - |a|];
      }
    }
  }

  lemma {:induction false} NoDashJoin(lines: seq<string>)
    requires LinesOk(lines)
    ensures NoDashLine(Join(lines, '\n')) && DashFree(Join(lines, '\n'))
  {
    if |lines| == 1 {
      assert '\n' !in lines[0];
    } else if |lines| > 1 {
      NoDashJoin(lines[1..]);
      assert '\n' !in lines[0] && DashFree(lines[0]);
      NoDashCons(lines[0], Join(lines[1..], '\n'));
    }
  }

  lemma NoCloserAt(s: string, from: nat, j: nat)
    requires from <= j && j + 4 <= |s| && NoDashLine(s[from..])
    ensures !OccursAt(s, "\n---", j)
  {
    var t := s[from..];
    assert t[j - from] != '\n' || t[j - from + 1] != '-';
    assert t[j - from] == s[j] && t[j - from + 1] == s[j + 1];
    assert s[j..j + 4][0] == s[j] && s[j..j + 4][1] == s[j + 1];
  }

  /** With no dashed line after `from`, no closing `\n---` is found there. */
  lemma FindNoCloser(s: string, from: nat)
    requires from <= |s| && NoDashLine(s[from..])
    ensures Find(s, "\n---", from) == None
  {
    forall j: nat | from <= j && j + 4 <= |s|
      ensures !OccursAt(s, "\n---", j)
    {
      NoCloserAt(s, from, j);
    }
    FindSpec(s, "\n---", from);
  }

  lemma NoCloserBefore(s: string, b: nat, e: nat, j: nat)
    requires b <= j < e && e + 4 <= |s| && s[e..e + 4] == "\n---" && NoDashLine(s[b..e])
    ensures !OccursAt(s, "\n---", j)
  {
    var body := s[b..e];
    assert s[j] == body[j - b];
    if j + 1 < e {
      assert s[j + 1] == body[j + 1 - b];
      assert body[j - b] != '\n' || body[j - b + 1] != '-';
    } else {
      assert s[j + 1] == s[e..e + 4][0] == '\n';
    }
    assert s[j..j + 4][0] == s[j] && s[j..j + 4][1] == s[j + 1];
  }

  /** The first closing after a stretch without dashed lines is the one that ends it. */
  lemma FindCloser(s: string, b: nat, e: nat)
    requires b <= e && e + 4 <= |s| && s[e..e + 4] == "\n---" && NoDashLine(s[b..e])
    ensures Find(s, "\n---", b) == Some(e)
  {
    forall j: nat | b <= j < e
      ensures !OccursAt(s, "\n---", j)
    {
      NoCloserBefore(s, b, e, j);
    }
    assert OccursAt(s, "\n---", e);
    FindSpec(s, "\n---", b);
  }

  // ---------------------------------------------------------------------------
  // One setting's lines

  /** The first line save_config writes for a setting. */
  function KeyLine(k: string, v: Value): string {
    match v
    case Bool(b) => k + ": " + (if b then "true" else "false")
    case List(_) => k + ":"
    case Str(s) => k + ": " + s
  }

  /** What follows the colon of a key line once the line is stripped. */
  function Tail(v: Value): string {
    match v
    case Bool(b) => " " + (if b then "true" else "false")
    case List(_) => ""
    case Str(s) => if s == [] then [] else " " + s
  }

  /** The value as the parser sees it after the colon. */
  function ValueText(v: Value): string {
    match v
    case Bool(b) => if b then "true" else "false"
    case List(_) => ""
    case Str(s) => s
  }

  /** The value the scalar pass stores for a setting: a list is seen as an empty text. */
  function ScalarOf(v: Value): Value {
    if v.List? then Str("") else v
  }

  lemma EntryLinesShape(k: string, v: Value)
    ensures EntryLines(k, v) == [KeyLine(k, v)] + (if v.List? then ItemLines(v.items) else [])
  {
  }

  lemma LowerKeywords()
    ensures Lower("true") == "true" && Lower("false") == "false" && Lower("") == ""
  {
    assert Lower("true") == "true" by {
      assert |Lower("true")| == 4;
      assert Lower("true")[0] == 't' && Lower("true")[1] == 'r';
      assert Lower("true")[2] == 'u' && Lower("true")[3] == 'e';
    }
    assert Lower("false") == "false" by {
      assert |Lower("false")| == 5;
      assert Lower("false")[0] == 'f' && Lower("false")[1] == 'a';
      assert Lower("false")[2] == 'l' && Lower("false")[3] == 's' && Lower("false")[4] == 'e';
    }
  }

  lemma StartsWithFirst(s: string, c: char)
    requires s != [] && s[0] != c
    ensures !StartsWith(s, [c])
  {
    assert s[..1][0] == s[0];
  }

  lemma NoPrefixFirst(s: string, p: string)
    requires s != [] && p != [] && s[0] != p[0]
    ensures !StartsWith(s, p)
  {
    if |p| <= |s| {
      assert s[..|p|][0] == s[0];
    }
  }

  /** `key: text` strips to itself, and its text after the colon strips to `text`. */
  lemma StripKeyText(k: string, v: Value, t: string)
    requires k != [] && !IsSpace(k[0])
    requires t != [] && !IsSpace(t[0]) && !IsSpace(t[|t| - 1])
    requires KeyLine(k, v) == k + ": " + t && Tail(v) == " " + t && ValueText(v) == t
    ensures Strip(KeyLine(k, v)) == k + [':'] + Tail(v)
    ensures Strip(Tail(v)) == ValueText(v)
  {
    var line := k + ": " + t;
    assert line == k + [':'] + (" " + t);
    assert line[0] == k[0] && line[|line| - 1] == t[|t| - 1];
    StripTrimmed(line);
    assert AllSpace(" ");
    StripLeadingSpace(" ", t);
    StripTrimmed(t);
  }

  /** `key: ` loses its trailing space. */
  lemma StripColonSpace(k: string)
    requires k != [] && !IsSpace(k[0])
    ensures Strip(k + ": ") == k + [':']
  {
    var line := k + ": ";
    assert line[0] == k[0];
    assert TrimStart(line) == line;
    var bare := k + [':'];
    assert line[..|line| - 1] == bare;
    assert TrimEnd(line) == TrimEnd(bare);
    assert bare[0] == k[0] && bare[|bare| - 1] == ':';
    StripTrimmed(bare);
  }

  lemma StripKeyEmpty(k: string, v: Value)
    requires k != [] && !IsSpace(k[0])
    requires KeyLine(k, v) == k + ": " && Tail(v) == [] && ValueText(v) == []
    ensures Strip(KeyLine(k, v)) == k + [':'] + Tail(v)
    ensures Strip(Tail(v)) == ValueText(v)
  {
    StripColonSpace(k);
    assert k + [':'] + [] == k + [':'];
    StripTrimmed([]);
  }

  /** `key:` strips to itself. */
  lemma StripKeyBare(k: string, v: Value)
    requires k != [] && !IsSpace(k[0])
    requires KeyLine(k, v) == k + ":" && Tail(v) == [] && ValueText(v) == []
    ensures Strip(KeyLine(k, v)) == k + [':'] + Tail(v)
    ensures Strip(Tail(v)) == ValueText(v)
  {
    var bare := k + [':'];
    assert k + ":" == bare;
    assert bare[0] == k[0] && bare[|bare| - 1] == ':';
    StripTrimmed(bare);
    assert bare + [] == bare;
    StripTrimmed([]);
  }

  /** A key line strips to the key, a colon, and the text of the value after optional spaces. */
  lemma KeyLineStrip(k: string, v: Value)
    requires k != [] && !IsSpace(k[0])
    requires v.Str? && v.s != [] ==> !IsSpace(v.s[0]) && !IsSpace(v.s[|v.s| - 1])
    ensures Strip(KeyLine(k, v)) == k + [':'] + Tail(v)
    ensures Strip(Tail(v)) == ValueText(v)
  {
    match v
    case Bool(b) =>
      StripKeyText(k, v, if b then "true" else "false");
    case List(_) =>
      StripKeyBare(k, v);
    case Str(s) =>
      if s == [] {
        StripKeyEmpty(k, v);
      } else {
        StripKeyText(k, v, s);
      }
  }

  /** What the scalar pass does with a key and the stripped text after its colon. */
  function ScalarStore(config: Settings, key: string, value: string): Settings {
    if Lower(value) == "true" then Put(config, key, Bool(true))
    else if Lower(value) == "false" then Put(config, key, Bool(false))
    else if StartsWith(value, "[") || StartsWith(value, "-") then config
    else Put(config, key, Str(value))
  }

  /** The text a value is written as is read back as that value, a list as empty text. */
  lemma ScalarStoreValue(config: Settings, k: string, v: Value)
    requires WellFormedValue(v)
    ensures ScalarStore(config, k, ValueText(v)) == Put(config, k, ScalarOf(v))
  {
    LowerKeywords();
    match v
    case Bool(b) =>
    case List(_) =>
    case Str(s) =>
      if s != [] {
        StartsWithFirst(s, '[');
        StartsWithFirst(s, '-');
      }
  }

  /** The scalar pass stores a setting's key line as the setting, with a list seen as empty text. */
  lemma KeyLineScalar(config: Settings, k: string, v: Value)
    requires WellFormedKey(k) && WellFormedValue(v)
    ensures ScalarLine(config, KeyLine(k, v)) == Put(config, k, ScalarOf(v))
  {
    KeyLineStrip(k, v);
    StartsWithFirst(k, '#');
    ScalarLineEntry(config, KeyLine(k, v), k, Tail(v));
    StripTrimmed(k);
    assert ScalarLine(config, KeyLine(k, v)) == ScalarStore(config, k, ValueText(v));
    ScalarStoreValue(config, k, v);
  }

  /** The setting a key line leaves pending in the list pass: its key, when nothing follows the colon. */
  function PendingKey(k: string, v: Value): string {
    if ValueText(v) == "" then k else ""
  }

  /** The list pass stores the pending list and opens a new one exactly for a key with nothing after the colon. */
  lemma KeyLineList(st: ListState, k: string, v: Value)
    requires WellFormedKey(k) && WellFormedValue(v)
    ensures ListLine(st, KeyLine(k, v)) == ListState(Flush(st), PendingKey(k, v), [])
  {
    KeyLineStrip(k, v);
    StartsWithFirst(k, '#');
    NoPrefixFirst(k, "- ");
    ListLineKey(st, KeyLine(k, v), k, Tail(v));
    StripTrimmed(k);
  }

  lemma ItemStrip(x: string)
    requires WellFormedItem(x)
    ensures Strip("  - " + x) == "- " + x
  {
    var s := "- " + x;
    assert s[0] == '-' && s[|s| - 1] == x[|x| - 1];
    assert "  - " + x == "  " + s;
    assert AllSpace("  ");
    StripLeadingSpace("  ", s);
    StripTrimmed(s);
  }

  /** An item line is no setting to the scalar pass. */
  lemma ItemLineScalar(config: Settings, x: string)
    requires WellFormedItem(x)
    ensures ScalarLine(config, "  - " + x) == config
  {
    ItemStrip(x);
    ScalarLineSkips(config, "  - " + x);
  }

  /** An item line adds its item to the pending list. */
  lemma ItemLineList(st: ListState, x: string)
    requires WellFormedItem(x) && st.key != ""
    ensures ListLine(st, "  - " + x) == st.(items := st.items + [x])
  {
    ItemStrip(x);
    ListLineItem(st, "  - " + x, x);
    StripTrimmed(x);
  }

  // ---------------------------------------------------------------------------
  // The two passes over runs of lines

  lemma {:induction false} ScalarFromAppend(config: Settings, a: seq<string>, b: seq<string>)
    ensures ScalarFrom(config, a + b) == ScalarFrom(ScalarFrom(config, a), b)
    decreases |b|
  {
    if |b| == 0 {
      assert a + b == a;
    } else {
      assert (a + b)[..|a + b| - 1] == a + b[..|b| - 1];
      ScalarFromAppend(config, a, b[..|b| - 1]);
    }
  }

  lemma {:induction false} ListFromAppend(st: ListState, a: seq<string>, b: seq<string>)
    ensures ListFrom(st, a + b) == ListFrom(ListFrom(st, a), b)
    decreases |b|
  {
    if |b| == 0 {
      assert a + b == a;
    } else {
      assert (a + b)[..|a + b| - 1] == a + b[..|b| - 1];
      ListFromAppend(st, a, b[..|b| - 1]);
    }
  }

  /** Each item line is written as two spaces, a dash, a space and the item. */
  predicate ItemRun(lines: seq<string>, items: seq<string>) {
    |lines| == |items| &&
    (|lines| > 0 ==>
       ItemRun(lines[..|lines| - 1], items[..|items| - 1]) &&
       lines[|lines| - 1] == "  - " + items[|items| - 1] && WellFormedItem(items[|items| - 1]))
  }

  lemma {:induction false} ItemLinesRun(items: seq<string>)
    requires forall i :: 0 <= i < |items| ==> WellFormedItem(items[i])
    ensures ItemRun(ItemLines(items), items)
  {
    if |items| > 0 {
      ItemLinesRun(items[..|items| - 1]);
      assert ItemLines(items)[..|items| - 1] == ItemLines(items[..|items| - 1]);
    }
  }

  lemma LastSplit<T>(s: seq<T>)
    requires |s| > 0
    ensures s[..|s| - 1] + [s[|s| - 1]] == s
  {
  }

  /** Item lines are no settings to the scalar pass. */
  lemma {:induction false} ScalarFromItems(config: Settings, lines: seq<string>, items: seq<string>)
    requires ItemRun(lines, items)
    ensures ScalarFrom(config, lines) == config
  {
    if |lines| > 0 {
      ScalarFromItems(config, lines[..|lines| - 1], items[..|items| - 1]);
      ItemLineScalar(config, items[|items| - 1]);
    }
  }

  /** Item lines after a key collect their items, in order. */
  lemma {:induction false} ListFromItems(config: Settings, k: string, lines: seq<string>, items: seq<string>)
    requires k != [] && ItemRun(lines, items)
    ensures ListFrom(ListState(config, k, []), lines) == ListState(config, k, items)
  {
    if |lines| > 0 {
      var init := items[..|items| - 1];
      var x := items[|items| - 1];
      var line := lines[|lines| - 1];
      assert ListFrom(ListState(config, k, []), lines[..|lines| - 1]) == ListState(config, k, init) by {
        ListFromItems(config, k, lines[..|lines| - 1], init);
      }
      assert ListLine(ListState(config, k, init), line) == ListState(config, k, items) by {
        assert line == "  - " + x;
        ItemLineList(ListState(config, k, init), x);
        LastSplit(items);
      }
    }
  }

  /** The scalar pass over one setting's lines stores the setting, a list as empty text. */
  lemma ScalarFromEntry(config: Settings, k: string, v: Value)
    requires WellFormedKey(k) && WellFormedValue(v)
    ensures ScalarFrom(config, EntryLines(k, v)) == Put(config, k, ScalarOf(v))
  {
    var rest := if v.List? then ItemLines(v.items) else [];
    EntryLinesShape(k, v);
    ScalarFromAppend(config, [KeyLine(k, v)], rest);
    assert [KeyLine(k, v)][..0] == [];
    KeyLineScalar(config, k, v);
    if v.List? {
      ItemLinesRun(v.items);
      ScalarFromItems(Put(config, k, ScalarOf(v)), ItemLines(v.items), v.items);
    }
  }

  // ---------------------------------------------------------------------------
  // The settings after the scalar pass

  /** The settings with every list replaced by empty text, as the scalar pass leaves them. */
  function ScalarView(config: Settings): (r: Settings)
    ensures |r| == |config|
  {
    if |config| == 0 then []
    else
      var last := config[|config| - 1];
      ScalarView(config[..|config| - 1]) + [(last.0, ScalarOf(last.1))]
  }

  lemma {:induction false} ScalarViewAt(config: Settings, i: nat)
    requires i < |config|
    ensures ScalarView(config)[i] == (config[i].0, ScalarOf(config[i].1))
  {
    if i < |config| - 1 {
      ScalarViewAt(config[..|config| - 1], i);
    }
  }

  /** Dicts with the same keys at the same places have the same key lists. */
  lemma {:induction false} SameKeys(d: Settings, e: Settings)
    requires |d| == |e| && forall i :: 0 <= i < |d| ==> d[i].0 == e[i].0
    ensures Keys(d) == Keys(e)
  {
    if |d| > 0 {
      SameKeys(d[1..], e[1..]);
    }
  }

  lemma ScalarViewKeys(config: Settings)
    ensures Keys(ScalarView(config)) == Keys(config)
  {
    forall i | 0 <= i < |config| ensures ScalarView(config)[i].0 == config[i].0 {
      ScalarViewAt(config, i);
    }
    SameKeys(ScalarView(config), config);
  }

  /** Dropping the last setting keeps the settings well formed, and its key is not among the rest. */
  lemma WellFormedInit(config: Settings)
    requires WellFormedConfig(config) && |config| > 0
    ensures WellFormedConfig(config[..|config| - 1])
    ensures config[|config| - 1].0 !in Keys(config[..|config| - 1])
  {
    var init := config[..|config| - 1];
    var last := config[|config| - 1];
    assert config == init + [last];
    KeysAppend(init, [last]);
    assert Keys([last]) == [last.0];
    var ks := Keys(config);
    assert Keys(init) == ks[..|init|];
    assert ks[|init|] == last.0;
  }

  /** The scalar pass over the written lines gives the settings with lists seen as empty text. */
  lemma {:induction false} ScalarPassLines(config: Settings)
    requires WellFormedConfig(config)
    ensures ScalarFrom([], ConfigLines(config)) == ScalarView(config)
  {
    if |config| > 0 {
      var init := config[..|config| - 1];
      var (k, v) := config[|config| - 1];
      WellFormedInit(config);
      ScalarPassLines(init);
      ScalarFromAppend([], ConfigLines(init), EntryLines(k, v));
      ScalarFromEntry(ScalarView(init), k, v);
      ScalarViewKeys(init);
      HasKeyIff(ScalarView(init), k);
      PutNew(ScalarView(init), k, ScalarOf(v));
    }
  }

  // ---------------------------------------------------------------------------
  // The list pass over the written lines

  /** The first `j` settings as written, the rest as the scalar pass left them. */
  function Mix(config: Settings, j: nat): (r: Settings)
    requires j <= |config|
    ensures |r| == |config|
  {
    config[..j] + ScalarView(config)[j..]
  }

  lemma MixAt(config: Settings, j: nat, i: nat)
    requires j <= |config| && i < |config|
    ensures Mix(config, j)[i] == if i < j then config[i] else (config[i].0, ScalarOf(config[i].1))
  {
    ScalarViewAt(config, i);
  }

  lemma MixKeys(config: Settings, j: nat)
    requires j <= |config|
    ensures Keys(Mix(config, j)) == Keys(config)
  {
    forall i | 0 <= i < |config| ensures Mix(config, j)[i].0 == config[i].0 {
      MixAt(config, j, i);
    }
    SameKeys(Mix(config, j), config);
  }

  /** The items a setting leaves pending after its key line and item lines. */
  function PendingItems(v: Value): seq<string> {
    if v.List? then v.items else []
  }

  /**
   * The list pass's state after the lines of the first `m` settings: every
   * earlier list stored, and the last setting's list, if any, pending.
   */
  function State(config: Settings, m: nat): ListState
    requires m <= |config|
  {
    if m == 0 then ListState(ScalarView(config), "", [])
    else
      var (k, v) := config[m - 1];
      ListState(Mix(config, m - 1), PendingKey(k, v), PendingItems(v))
  }

  /** One more setting as written. */
  lemma MixStep(config: Settings, i: nat)
    requires i < |config|
    ensures Mix(config, i + 1) == Mix(config, i)[i := config[i]]
  {
    var a := Mix(config, i + 1);
    var b := Mix(config, i)[i := config[i]];
    forall j | 0 <= j < |config| ensures a[j] == b[j] {
      if j < i {
        assert a[j] == config[j] == b[j];
      } else if j > i {
        assert a[j] == ScalarView(config)[j] == b[j];
      }
    }
  }

  /** A setting the scalar pass already read in full needs nothing from the list pass. */
  lemma MixScalar(config: Settings, i: nat)
    requires i < |config| && !config[i].1.List?
    ensures Mix(config, i + 1) == Mix(config, i)
  {
    MixStep(config, i);
    ScalarViewAt(config, i);
    var before := Mix(config, i);
    assert before[i] == ScalarView(config)[i] == config[i];
    assert before[i := config[i]] == before;
  }

  /** A list's entry, read as empty text, is replaced in place by the list. */
  lemma MixList(config: Settings, i: nat)
    requires UniqueKeys(config) && i < |config| && config[i].1.List?
    ensures Put(Mix(config, i), config[i].0, config[i].1) == Mix(config, i + 1)
  {
    MixStep(config, i);
    ScalarViewAt(config, i);
    var before := Mix(config, i);
    assert before[i] == ScalarView(config)[i];
    MixKeys(config, i);
    PutExisting(before, i, config[i].1);
  }

  /** Storing the pending list completes the first `m` settings. */
  lemma FlushState(config: Settings, m: nat)
    requires UniqueKeys(config) && m <= |config|
    requires m > 0 ==> config[m - 1].0 != [] && (config[m - 1].1.List? ==> config[m - 1].1.items != [])
    ensures Flush(State(config, m)) == Mix(config, m)
  {
    if m == 0 {
      assert Mix(config, 0) == ScalarView(config);
    } else if config[m - 1].1.List? {
      FlushList(config, m);
    } else {
      FlushScalar(config, m);
    }
  }

  lemma FlushList(config: Settings, m: nat)
    requires UniqueKeys(config) && 0 < m <= |config|
    requires config[m - 1].0 != [] && config[m - 1].1.List? && config[m - 1].1.items != []
    ensures Flush(State(config, m)) == Mix(config, m)
  {
    var (k, v) := config[m - 1];
    assert ValueText(v) == "";
    assert State(config, m) == ListState(Mix(config, m - 1), k, v.items);
    MixList(config, m - 1);
  }

  lemma FlushScalar(config: Settings, m: nat)
    requires 0 < m <= |config| && !config[m - 1].1.List?
    ensures Flush(State(config, m)) == Mix(config, m)
  {
    assert State(config, m).items == [];
    MixScalar(config, m - 1);
  }

  /** The list pass over one more setting's lines moves to the next state. */
  lemma EntryStep(config: Settings, m: nat)
    requires WellFormedConfig(config) && m < |config|
    ensures ListFrom(State(config, m), EntryLines(config[m].0, config[m].1)) == State(config, m + 1)
  {
    var (k, v) := config[m];
    var st := State(config, m);
    var rest := if v.List? then ItemLines(v.items) else [];
    EntryLinesShape(k, v);
    ListFromAppend(st, [KeyLine(k, v)], rest);
    assert [KeyLine(k, v)][..0] == [];
    KeyLineList(st, k, v);
    if m > 0 {
      assert WellFormedKey(config[m - 1].0) && WellFormedValue(config[m - 1].1);
    }
    FlushState(config, m);
    if v.List? {
      ItemLinesRun(v.items);
      ListFromItems(Mix(config, m), k, ItemLines(v.items), v.items);
    }
  }

  /** Running the list pass over `a + b` chains its runs over `a` and over `b`. */
  lemma ListFromChain(start: ListState, a: seq<string>, b: seq<string>, whole: seq<string>, mid: ListState, next: ListState)
    requires whole == a + b && ListFrom(start, a) == mid && ListFrom(mid, b) == next
    ensures ListFrom(start, whole) == next
  {
    ListFromAppend(start, a, b);
  }

  lemma {:induction false} ListPassLines(config: Settings, m: nat)
    requires WellFormedConfig(config) && m <= |config|
    ensures ListFrom(ListState(ScalarView(config), "", []), ConfigLines(config[..m])) == State(config, m)
  {
    if m > 0 {
      ListPassLines(config, m - 1);
      ConfigLinesSnoc(config, m - 1);
      EntryStep(config, m - 1);
      ListFromChain(ListState(ScalarView(config), "", []), ConfigLines(config[..m - 1]),
        EntryLines(config[m - 1].0, config[m - 1].1), ConfigLines(config[..m]), State(config, m - 1), State(config, m));
    }
  }

  /** The written lines of well-formed settings parse back to the settings. */
  lemma ParseConfigLines(config: Settings)
    requires WellFormedConfig(config)
    ensures Flush(ListFrom(ListState(ScalarFrom([], ConfigLines(config)), "", []), ConfigLines(config))) == config
  {
    ScalarPassLines(config);
    ListPassLines(config, |config|);
    assert config[..|config|] == config;
    FlushState(config, |config|);
    assert Mix(config, |config|) == config;
  }

  // ---------------------------------------------------------------------------
  // The written text

  lemma LinesOkAppend(a: seq<string>, b: seq<string>)
    requires LinesOk(a) && LinesOk(b)
    ensures LinesOk(a + b)
  {
    forall i | 0 <= i < |a + b| ensures '\n' !in (a + b)[i] && DashFree((a + b)[i]) {
      if i < |a| {
        assert (a + b)[i] == a[i];
      } else {
        assert (a + b)[i] == b[i - |a|];
      }
    }
  }

  lemma {:induction false} ItemLinesOk(items: seq<string>)
    requires forall i :: 0 <= i < |items| ==> WellFormedItem(items[i])
    ensures LinesOk(ItemLines(items))
  {
    if |items| > 0 {
      var x := items[|items| - 1];
      ItemLinesOk(items[..|items| - 1]);
      assert WellFormedItem(x);
      assert ("  - " + x)[0] == ' ';
      LinesOkAppend(ItemLines(items[..|items| - 1]), ["  - " + x]);
    }
  }

  /** Every written line is a single line, and none but the first opens with a dash. */
  lemma EntryLinesOk(k: string, v: Value)
    requires WellFormedKey(k) && WellFormedValue(v)
    ensures LinesOk(EntryLines(k, v))
  {
    EntryLinesShape(k, v);
    var line := KeyLine(k, v);
    assert line[0] == k[0];
    assert '\n' !in line;
    assert LinesOk([line]);
    if v.List? {
      ItemLinesOk(v.items);
      LinesOkAppend([line], ItemLines(v.items));
    } else {
      assert [line] + [] == [line];
    }
  }

  lemma {:induction false} ConfigLinesOk(config: Settings)
    requires EntriesWellFormed(config)
    ensures LinesOk(ConfigLines(config))
  {
    if |config| > 0 {
      var (k, v) := config[|config| - 1];
      assert WellFormedKey(k) && WellFormedValue(v);
      ConfigLinesOk(config[..|config| - 1]);
      EntryLinesOk(k, v);
      LinesOkAppend(ConfigLines(config[..|config| - 1]), EntryLines(k, v));
    }
  }

  /** The first written line is the first setting's key line. */
  lemma {:induction false} ConfigLinesHead(config: Settings)
    requires |config| > 0
    ensures |ConfigLines(config)| > 0 && ConfigLines(config)[0] == KeyLine(config[0].0, config[0].1)
  {
    var (k, v) := config[|config| - 1];
    EntryLinesShape(k, v);
    if |config| > 1 {
      ConfigLinesHead(config[..|config| - 1]);
    }
  }

  lemma TitleLineOk()
    ensures '\n' !in Trailer[2] && DashFree(Trailer[2])
  {
    assert Trailer[2] == "# Claude Tool Tracker Configuration";
  }

  /** The note line, taken in the two halves the trailer writes it in, so that each half is checked as a short literal. */
  lemma NoteLineOk()
    ensures '\n' !in Trailer[4] && DashFree(Trailer[4])
  {
    var a, b := "This file contains settings ", "for the claude-tool-tracker plugin.";
    assert Trailer[4] == a + b;
    assert '\n' !in a && '\n' !in b;
  }

  /** The hint line, in its two halves, as for the note line. */
  lemma HintLineOk()
    ensures '\n' !in Trailer[5] && DashFree(Trailer[5])
  {
    var a, b := "Edit the YAML frontmatter ", "above to customize behavior.";
    assert Trailer[5] == a + b;
    assert '\n' !in a && '\n' !in b;
  }

  lemma TrailerRestOk()
    ensures LinesOk(Trailer[1..])
  {
    TitleLineOk();
    NoteLineOk();
    HintLineOk();
    assert Trailer[1] == Trailer[3] == "";
    forall i | 0 <= i < 5 ensures '\n' !in Trailer[1..][i] && DashFree(Trailer[1..][i]) {
      assert Trailer[1..][i] == Trailer[i + 1];
    }
  }

  /** The trailer opens with the closing `---` line, and after it no line starts with a dash. */
  lemma TrailerLines()
    ensures Join(Trailer, '\n') == "---" + "\n" + Join(Trailer[1..], '\n')
    ensures NoDashLine(Join(Trailer, '\n'))
  {
    var rest := Trailer[1..];
    TrailerRestOk();
    NoDashJoin(rest);
    NoDashCons("---", Join(rest, '\n'));
  }

  /** The text written for no settings holds no frontmatter block. */
  lemma RoundTripEmpty()
    ensures FrontmatterConfig(ConfigText([])) == []
  {
    var content := ConfigText([]);
    var trailer := Join(Trailer, '\n');
    assert content == "---" + "\n" + trailer by {
      assert ["---"] + ConfigLines([]) + Trailer == ["---"] + Trailer;
    }
    assert NoDashLine(content[4..]) && content[4] == '-' by {
      TrailerLines();
      assert content[4..] == trailer;
    }
    assert MatchFrontmatter(content) == CloseFrom(content, 0) by {
      assert content[..3] == "---";
      assert content[3] == '\n';
      assert SpaceRun(content, 3) == 1;
    }
    FindNoCloser(content, 4);
  }

  lemma JoinCons(first: string, lines: seq<string>)
    requires |lines| > 0
    ensures Join([first] + lines, '\n') == first + ['\n'] + Join(lines, '\n')
  {
    assert ([first] + lines)[1..] == lines;
  }

  lemma FrameText(first: string, lines: seq<string>, trailer: seq<string>)
    requires |lines| > 0 && |trailer| > 0
    ensures Join([first] + lines + trailer, '\n') ==
      first + ['\n'] + Join(lines, '\n') + (['\n'] + Join(trailer, '\n'))
  {
    var head := [first] + lines;
    assert Join(head + trailer, '\n') == Join(head, '\n') + ['\n'] + Join(trailer, '\n') by {
      JoinAppend(head, trailer, '\n');
    }
    assert Join(head, '\n') == first + ['\n'] + Join(lines, '\n') by {
      JoinCons(first, lines);
    }
    NewlineAssoc(Join(head, '\n'), Join(trailer, '\n'));
  }

  lemma NewlineAssoc(x: string, y: string)
    ensures x + ['\n'] + y == x + (['\n'] + y)
  {
  }

  /** Written settings are framed by the opening `---` line and the trailer's closing one. */
  lemma TextFrame(config: Settings)
    requires config != []
    ensures |ConfigLines(config)| > 0
    ensures ConfigText(config) ==
      "---" + ['\n'] + Join(ConfigLines(config), '\n') + (['\n'] + ("---" + "\n" + Join(Trailer[1..], '\n')))
  {
    ConfigLinesHead(config);
    TrailerLines();
    FrameText("---", ConfigLines(config), Trailer);
  }

  /** A body that starts with a non-space and holds no dashed line is the block the pattern finds. */
  lemma MatchBody(content: string, body: string, tail: string)
    requires content == "---" + ['\n'] + body + tail && StartsWith(tail, "\n---")
    requires body != [] && !IsSpace(body[0]) && NoDashLine(body)
    ensures MatchFrontmatter(content) == Some((4, 4 + |body|))
    ensures content[4..4 + |body|] == body
  {
    var e := 4 + |body|;
    assert content[4..e] == body;
    assert content[e..] == tail;
    assert content[e..e + 4] == tail[..4];
    FindCloser(content, 4, e);
    assert content[..3] == "---";
    assert content[3] == '\n' && content[4] == body[0];
    assert SpaceRun(content, 3) == 1;
  }

  /** The text written for some settings has their lines as its frontmatter block. */
  /** The written block starts with the first key. */
  lemma BodyHead(config: Settings)
    requires config != [] && EntriesWellFormed(config)
    ensures Join(ConfigLines(config), '\n') != [] && !IsSpace(Join(ConfigLines(config), '\n')[0])
  {
    var lines := ConfigLines(config);
    var (k, v) := config[0];
    ConfigLinesHead(config);
    assert WellFormedKey(k);
    assert lines[0][0] == k[0];
    assert Join(lines, '\n')[..|lines[0]|] == lines[0];
  }

  /** A block between the opening line and a closing `---` line is what gets parsed. */
  lemma FrontmatterOf(content: string, body: string, tail: string)
    requires content == "---" + ['\n'] + body + tail && StartsWith(tail, "\n---")
    requires body != [] && !IsSpace(body[0]) && NoDashLine(body)
    ensures FrontmatterConfig(content) == ParseBlock(body)
  {
    MatchBody(content, body, tail);
  }

  lemma FrontmatterBlock(config: Settings)
    requires config != [] && EntriesWellFormed(config)
    ensures FrontmatterConfig(ConfigText(config)) == ParseBlock(Join(ConfigLines(config), '\n'))
  {
    var lines := ConfigLines(config);
    var body := Join(lines, '\n');
    var tail := ['\n'] + ("---" + "\n" + Join(Trailer[1..], '\n'));
    assert ConfigText(config) == "---" + ['\n'] + body + tail by {
      TextFrame(config);
    }
    assert StartsWith(tail, "\n---") by {
      assert tail[..4] == "\n---";
    }
    assert body != [] && !IsSpace(body[0]) by {
      BodyHead(config);
    }
    assert NoDashLine(body) by {
      ConfigLinesOk(config);
      NoDashJoin(lines);
    }
    FrontmatterOf(ConfigText(config), body, tail);
  }

  /**
   * Loading what save_config wrote gives back the settings it was given, in
   * their order, whenever they survive the line format.
   */
  lemma RoundTrip(config: Settings)
    requires WellFormedConfig(config)
    ensures FrontmatterConfig(ConfigText(config)) == config
  {
    if config == [] {
      RoundTripEmpty();
    } else {
      FrontmatterBlock(config);
      ConfigLinesOk(config);
      SplitJoin(ConfigLines(config), '\n');
      ParseConfigLines(config);
    }
  }


  // ---------------------------------------------------------------------------
  // set_theme, then get_theme

  /** The three theme names survive the file format. */
  lemma ThemeWellFormed(theme: string)
    requires theme in Themes
    ensures WellFormedValue(Str(theme))
  {
    if theme == "emoji" {
      assert Lower(theme)[0] == 'e';
    }
  }

  /** Storing a setting that survives the format keeps every setting surviving it. */
  lemma {:induction false} PutEntriesWellFormed(config: Settings, k: string, v: Value)
    requires EntriesWellFormed(config) && WellFormedKey(k) && WellFormedValue(v)
    ensures EntriesWellFormed(Put(config, k, v))
  {
    if |config| > 0 && config[0].0 != k {
      PutEntriesWellFormed(config[1..], k, v);
    }
  }

  /** DEFAULT_CONFIG survives the format. */
  lemma DefaultsWellFormed()
    ensures WellFormedConfig(Defaults)
  {
    DefaultsUnique();
    forall i | 0 <= i < |Defaults| ensures WellFormedKey(Defaults[i].0) && WellFormedValue(Defaults[i].1) {
      DefaultEntryWellFormed(i);
    }
  }

  lemma DefaultEntryWellFormed(i: nat)
    requires i < |Defaults|
    ensures WellFormedKey(Defaults[i].0) && WellFormedValue(Defaults[i].1)
  {
    if i == 0 {
      ThemeWellFormed("colorful");
      DefaultKeyWellFormed("theme");
    } else if i == 1 {
      StatsLocationWellFormed();
    } else if i == 2 {
      CategoriesWellFormed();
      DefaultKeyWellFormed("enabled_categories");
    } else {
      DefaultKeyWellFormed("show_stats_on_exit");
    }
  }

  /** A key made of lower-case letters and underscores survives the format. */
  lemma DefaultKeyWellFormed(k: string)
    requires k != [] && forall i :: 0 <= i < |k| ==> 'a' <= k[i] <= 'z' || k[i] == '_'
    ensures WellFormedKey(k)
  {
  }

  lemma StatsLocationWellFormed()
    ensures WellFormedKey("stats_location") && WellFormedValue(Str("global"))
  {
    DefaultKeyWellFormed("stats_location");
    assert Lower("global")[0] == 'g';
  }

  lemma CategoriesWellFormed()
    ensures WellFormedValue(List(DefaultCategories))
  {
    forall i | 0 <= i < |DefaultCategories| ensures WellFormedItem(DefaultCategories[i]) {
      DefaultKeyWellFormed(DefaultCategories[i]);
    }
  }

  /**
   * After set_theme has written a valid theme to the global file, get_theme
   * reads it back, unless the project's file sets a theme of its own.
   */
  lemma SetThemeThenGetTheme(theme: string, global: Option<string>, local: Option<string>)
    requires theme in Themes
    requires WellFormedConfig(LoadedConfig(global, local))
    requires !HasKey(Layer(local), "theme")
    ensures GetTheme(Some(ConfigText(Put(LoadedConfig(global, local), "theme", Str(theme)))), local) == Str(theme)
  {
    ThemeWellFormed(theme);
    SavedTheme(LoadedConfig(global, local), Str(theme));
    ThemeReadBack(ConfigText(Put(LoadedConfig(global, local), "theme", Str(theme))),
      Put(LoadedConfig(global, local), "theme", Str(theme)), local, Str(theme));
  }

  /** Replacing the theme of well-formed settings by a well-formed value keeps them well formed. */
  lemma SavedTheme(loaded: Settings, theme: Value)
    requires WellFormedConfig(loaded) && WellFormedValue(theme)
    ensures WellFormedConfig(Put(loaded, "theme", theme))
  {
    PutUnique(loaded, "theme", theme);
    PutEntriesWellFormed(loaded, "theme", theme);
  }

  /** A global file whose settings hold a theme gives that theme, when the project's file sets none. */
  lemma ThemeReadBack(content: string, saved: Settings, local: Option<string>, theme: Value)
    requires WellFormedConfig(saved) && content == ConfigText(saved)
    requires Get(saved, "theme") == Some(theme) && !HasKey(Layer(local), "theme")
    ensures GetTheme(Some(content), local) == theme
  {
    assert Layer(Some(content)) == saved by {
      RoundTrip(saved);
    }
    LoadedConfigGet(Some(content), local, "theme");
  }

  /** With no settings files yet, set_theme then get_theme gives the theme that was set. */
  lemma SetThemeFresh(theme: string)
    requires theme in Themes
    ensures GetTheme(Some(ConfigText(Put(Defaults, "theme", Str(theme)))), None) == Str(theme)
  {
    DefaultsWellFormed();
    assert LoadedConfig(None, None) == Defaults;
    SetThemeThenGetTheme(theme, None, None);
  }
}
