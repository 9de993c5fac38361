/**
 * The tracker's settings: the YAML frontmatter of a markdown settings file,
 * read by a small hand-written two-pass line parser, merged over the
 * defaults (defaults, then the global file, then the project's file), and
 * written back as frontmatter followed by a fixed explanatory trailer.
 */
module Config {
  import opened Wrappers
  import opened Text
  import opened OrderedDict

  /** A setting's value: what the parser can produce and the defaults hold. */
  datatype Value = Bool(b: bool) | Str(s: string) | List(items: seq<string>)

  /** A settings dict, keys in insertion order. */
  type Settings = Dict<Value>

  const DefaultCategories: seq<string> := ["native", "mcp", "agent", "skill", "command"]

  /** DEFAULT_CONFIG */
  const Defaults: Settings := [
    ("theme", Str("colorful")),
    ("stats_location", Str("global")),
    ("enabled_categories", List(DefaultCategories)),
    ("show_stats_on_exit", Bool(false))
  ]

  // ---------------------------------------------------------------------------
  // The frontmatter block: `re.match(r'^---\s*\n(.*?)\n---', content, re.DOTALL)`

  /** The length of the run of whitespace starting at `from`. */
  function SpaceRun(s: string, from: nat): (n: nat)
    requires from <= |s|
    ensures from + n <= |s|
    decreases |s| - from
  {
    if from < |s| && IsSpace(s[from]) then 1 + SpaceRun(s, from + 1) else 0
  }

  lemma {:induction false} SpaceRunSpec(s: string, from: nat)
    requires from <= |s|
    ensures forall i :: from <= i < from + SpaceRun(s, from) ==> IsSpace(s[i])
    ensures from + SpaceRun(s, from) < |s| ==> !IsSpace(s[from + SpaceRun(s, from)])
    decreases |s| - from
  {
    if from < |s| && IsSpace(s[from]) {
      SpaceRunSpec(s, from + 1);
    }
  }

  /**
   * The body may start at `b`: the text opens with `---`, then whitespace,
   * then the newline just before `b`.
   */
  predicate Opening(content: string, b: nat) {
    4 <= b <= |content| && StartsWith(content, "---") && content[b - 1] == '\n' && AllSpace(content[3..b - 1])
  }

  /**
   * The backtracking search of the pattern: `\s*` first takes `p + 1`
   * characters of whitespace and gives them back one at a time, and for each
   * choice that leaves a newline next the lazy group stops at the first
   * `\n---` after it.
   */
  function CloseFrom(content: string, p: nat): (m: Option<(nat, nat)>)
    requires 3 + p < |content|
    ensures m.Some? ==> m.value.0 <= m.value.1 <= |content|
  {
    var found := if content[3 + p] == '\n' then Find(content, "\n---", 4 + p) else None;
    if found.Some? then Some((4 + p, found.value))
    else if p == 0 then None
    else CloseFrom(content, p - 1)
  }

  /** Where the frontmatter block starts and ends, if the pattern matches. */
  function MatchFrontmatter(content: string): (m: Option<(nat, nat)>)
    ensures m.Some? ==> m.value.0 <= m.value.1 <= |content|
  {
    if StartsWith(content, "---") && SpaceRun(content, 3) > 0 then CloseFrom(content, SpaceRun(content, 3) - 1)
    else None
  }

  /** A newline after `---` and whitespace only is an opening. */
  lemma OpeningAt(content: string, p: nat)
    requires StartsWith(content, "---") && p < SpaceRun(content, 3) && content[3 + p] == '\n'
    ensures Opening(content, 4 + p)
  {
    SpaceRunSpec(content, 3);
  }

  /** Every opening lies within the leading run of whitespace after `---`. */
  lemma OpeningWithinRun(content: string, b: nat)
    requires Opening(content, b)
    ensures b < 4 + SpaceRun(content, 3)
  {
    SpaceRunSpec(content, 3);
  }

  /** A block found by the search starts after a newline and ends at the first closing after it. */
  lemma {:induction false} CloseFromFound(content: string, p: nat)
    requires 3 + p < |content| && CloseFrom(content, p).Some?
    ensures var (b, e) := CloseFrom(content, p).value;
      4 <= b <= 4 + p && content[b - 1] == '\n' && Find(content, "\n---", b) == Some(e)
  {
    if !(content[3 + p] == '\n' && Find(content, "\n---", 4 + p).Some?) {
      CloseFromFound(content, p - 1);
    }
  }

  /** Every start the search passed over has no closing after it. */
  lemma {:induction false} CloseFromPassed(content: string, p: nat, b: nat)
    requires 3 + p < |content| && 4 <= b <= 4 + p && content[b - 1] == '\n'
    requires CloseFrom(content, p).None? || CloseFrom(content, p).value.0 < b
    ensures Find(content, "\n---", b).None?
  {
    if b < 4 + p {
      CloseFromPassed(content, p - 1, b);
    }
  }

  /**
   * The pattern matches exactly when some opening is followed by a closing
   * `\n---`; then the block starts at the latest opening that has one and ends
   * at the first closing after that start.
   */
  lemma MatchFrontmatterSpec(content: string)
    ensures var m := MatchFrontmatter(content);
      m.Some? ==> Opening(content, m.value.0) && Find(content, "\n---", m.value.0) == Some(m.value.1)
    ensures var m := MatchFrontmatter(content);
      m.Some? ==> forall b :: m.value.0 < b && Opening(content, b) ==> Find(content, "\n---", b).None?
    ensures var m := MatchFrontmatter(content);
      m.None? ==> forall b :: Opening(content, b) ==> Find(content, "\n---", b).None?
  {
    if StartsWith(content, "---") && SpaceRun(content, 3) > 0 {
      var p := SpaceRun(content, 3) - 1;
      var m := CloseFrom(content, p);
      if m.Some? {
        CloseFromFound(content, p);
        OpeningAt(content, m.value.0 - 4);
      }
      forall b: nat | Opening(content, b) && (m.None? || m.value.0 < b) ensures Find(content, "\n---", b).None? {
        OpeningWithinRun(content, b);
        CloseFromPassed(content, p, b);
      }
    } else if StartsWith(content, "---") {
      forall b: nat | Opening(content, b) ensures b < 4 {
        OpeningWithinRun(content, b);
      }
    }
  }

  // ---------------------------------------------------------------------------
  // First pass: scalars

  /**
   * The setting one line of the scalar pass stores, if any. A split finding
   * no colon is the source's `':' in line` test failing.
   */
  function ScalarEntry(raw: string): Option<(string, Value)> {
    var line := Strip(raw);
    if line == [] || StartsWith(line, "#") then None
    else
      match SplitOnce(line, ':')
      case (_, None) => None
      case (k, Some(v)) => KeyValue(Strip(k), Strip(v))
  }

  /** What a `key: value` line stores, from its trimmed sides. */
  function KeyValue(key: string, value: string): Option<(string, Value)> {
    if Lower(value) == "true" then Some((key, Bool(true)))
    else if Lower(value) == "false" then Some((key, Bool(false)))
    else if StartsWith(value, "[") || StartsWith(value, "-") then None
    else Some((key, Str(value)))
  }

  /** One line of the scalar pass. */
  function ScalarLine(config: Settings, raw: string): Settings {
    match ScalarEntry(raw)
    case None => config
    case Some((key, value)) => Put(config, key, value)
  }

  /** The scalar pass over a run of lines, one line at a time from `config`. */
  function ScalarFrom(config: Settings, lines: seq<string>): Settings {
    if |lines| == 0 then config
    else ScalarLine(ScalarFrom(config, lines[..|lines| - 1]), lines[|lines| - 1])
  }

  /** Blank lines, comments and lines without a colon leave the settings alone. */
  lemma ScalarLineSkips(config: Settings, raw: string)
    requires Strip(raw) == [] || StartsWith(Strip(raw), "#") || ':' !in Strip(raw)
    ensures ScalarLine(config, raw) == config
  {
    SplitOnceSpec(Strip(raw), ':');
  }

  /**
   * A line `key: value` is cut at its first colon, both sides are trimmed,
   * `true` and `false` in any case become booleans, a value opening with
   * `[` or `-` is skipped, and any other value is kept as text.
   */
  lemma ScalarLineEntry(config: Settings, raw: string, k: string, v: string)
    requires Strip(raw) == k + [':'] + v && ':' !in k && !StartsWith(k, "#")
    ensures var key := Strip(k);
      var value := Strip(v);
      ScalarLine(config, raw) ==
        if Lower(value) == "true" then Put(config, key, Bool(true))
        else if Lower(value) == "false" then Put(config, key, Bool(false))
        else if StartsWith(value, "[") || StartsWith(value, "-") then config
        else Put(config, key, Str(value))
  {
    var line := Strip(raw);
    assert line != [] && !StartsWith(line, "#") by {
      if |k| > 0 {
        assert line[..1] == k[..1];
      } else {
        assert line[..1] == [':'];
      }
    }
    SplitOnceAt(k, ':', v);
    assert ScalarEntry(raw) == KeyValue(Strip(k), Strip(v));
  }

  // ---------------------------------------------------------------------------
  // Second pass: lists

  /** The list pass's variables: the settings, `current_key` (empty for None) and `current_list`. */
  datatype ListState = ListState(config: Settings, key: string, items: seq<string>)

  /** `if current_key and current_list: config[current_key] = current_list` */
  function Flush(st: ListState): Settings {
    if st.key != "" && st.items != [] then Put(st.config, st.key, List(st.items)) else st.config
  }

  /** One line of the list pass. A split finding no colon is the source's `':' in stripped` test failing. */
  function ListLine(st: ListState, raw: string): ListState {
    var stripped := Strip(raw);
    if StartsWith(stripped, "- ") then
      if st.key != "" then st.(items := st.items + [Strip(stripped[2..])]) else st
    else if StartsWith(stripped, "#") then st
    else
      match SplitOnce(stripped, ':')
      case (_, None) => st
      case (k, Some(v)) =>
        var config := Flush(st);
        var key := Strip(k);
        if Strip(v) == "" then ListState(config, key, []) else ListState(config, "", [])
  }

  function ListFrom(st: ListState, lines: seq<string>): ListState {
    if |lines| == 0 then st
    else ListLine(ListFrom(st, lines[..|lines| - 1]), lines[|lines| - 1])
  }

  /**
   * The list pass has no branch for blank lines, comments or lines without
   * a colon: such a line neither stores nor resets the pending list.
   */
  lemma ListLineSkips(st: ListState, raw: string)
    requires Strip(raw) == [] || StartsWith(Strip(raw), "#") || (':' !in Strip(raw) && !StartsWith(Strip(raw), "- "))
    ensures ListLine(st, raw) == st
  {
    SplitOnceSpec(Strip(raw), ':');
    if StartsWith(Strip(raw), "#") && |Strip(raw)| >= 2 {
      assert Strip(raw)[..2][0] == '#';
    }
  }

  /** A `- item` line after a key with an empty value adds the trimmed item at the end of its list. */
  lemma ListLineItem(st: ListState, raw: string, item: string)
    requires Strip(raw) == "- " + item && st.key != ""
    ensures ListLine(st, raw) == st.(items := st.items + [Strip(item)])
  {
    assert Strip(raw)[2..] == item;
  }

  /** A `- item` line is ignored when the last key had a value of its own, or there was none. */
  lemma ListLineIgnoredItem(st: ListState, raw: string)
    requires StartsWith(Strip(raw), "- ") && st.key == ""
    ensures ListLine(st, raw) == st
  {
  }

  /**
   * A key line stores the pending list, if it has items, and then starts a
   * new list when its own value is empty and none otherwise.
   */
  lemma ListLineKey(st: ListState, raw: string, k: string, v: string)
    requires Strip(raw) == k + [':'] + v && ':' !in k && !StartsWith(k, "#") && !StartsWith(k, "- ")
    ensures ListLine(st, raw) ==
      if Strip(v) == "" then ListState(Flush(st), Strip(k), []) else ListState(Flush(st), "", [])
  {
    var line := Strip(raw);
    assert !StartsWith(line, "- ") && !StartsWith(line, "#") by {
      if |k| >= 2 {
        assert line[..2] == k[..2] && line[..1] == k[..1];
      } else if |k| == 1 {
        assert line[1] == ':' && line[..1] == k[..1];
      } else {
        assert line[0] == ':';
      }
    }
    SplitOnceAt(k, ':', v);
  }

  /** The settings of a frontmatter block: the scalar pass, then the list pass over the same lines. */
  function ParseBlock(block: string): Settings {
    var lines := Split(block, '\n');
    Flush(ListFrom(ListState(ScalarFrom([], lines), "", []), lines))
  }

  /** parse_yaml_frontmatter, as a function of the text. */
  function FrontmatterConfig(content: string): Settings {
    match MatchFrontmatter(content)
    case None => []
    case Some((b, e)) => ParseBlock(content[b..e])
  }

  /** Without a frontmatter block there are no settings. */
  lemma NoFrontmatterNoSettings(content: string)
    requires forall b :: Opening(content, b) ==> Find(content, "\n---", b).None?
    ensures FrontmatterConfig(content) == []
  {
    MatchFrontmatterSpec(content);
  }

  /** The body of the scalar loop for one line; a method because the source's loop body is one, proved equal to ScalarLine, which the lemmas are about. */
  method ScalarStep(config: Settings, raw: string) returns (r: Settings)
    ensures r == ScalarLine(config, raw)
  {
    r := config;
    var line := Strip(raw);
    if line == [] || StartsWith(line, "#") {
      return;
    }
    SplitOnceSpec(line, ':');
    if ':' in line {
      var (k, v) := SplitOnce(line, ':');
      var key := Strip(k);
      var value := Strip(v.value);
      if Lower(value) == "true" {
        r := Put(config, key, Bool(true));
      } else if Lower(value) == "false" {
        r := Put(config, key, Bool(false));
      } else if StartsWith(value, "[") || StartsWith(value, "-") {
        return;
      } else {
        r := Put(config, key, Str(value));
      }
    }
  }

  /** The body of the list loop for one line; a method because the source's loop body is one, proved equal to ListLine, which the lemmas are about. */
  method ListStep(st: ListState, raw: string) returns (r: ListState)
    ensures r == ListLine(st, raw)
  {
    var config, currentKey, currentList := st.config, st.key, st.items;
    var stripped := Strip(raw);
    SplitOnceSpec(stripped, ':');
    if StartsWith(stripped, "- ") {
      if currentKey != "" {
        currentList := currentList + [Strip(stripped[2..])];
      }
    } else if ':' in stripped && !StartsWith(stripped, "#") {
      if currentKey != "" && currentList != [] {
        config := Put(config, currentKey, List(currentList));
      }
      var (k, v) := SplitOnce(stripped, ':');
      var key := Strip(k);
      var value := Strip(v.value);
      if value == "" {
        currentKey := key;
        currentList := [];
      } else {
        currentKey := "";
        currentList := [];
      }
    }
    r := ListState(config, currentKey, currentList);
  }

  /** The first loop of parse_yaml_frontmatter. */
  method ScalarPass(lines: seq<string>) returns (config: Settings)
    ensures config == ScalarFrom([], lines)
  {
    config := [];
    for i := 0 to |lines|
      invariant config == ScalarFrom([], lines[..i])
    {
      ghost var before := ScalarFrom([], lines[..i]);
      assert lines[..i + 1][..i] == lines[..i];
      assert ScalarFrom([], lines[..i + 1]) == ScalarLine(before, lines[i]);
      config := ScalarStep(config, lines[i]);
    }
    assert lines[..|lines|] == lines;
  }

  /** The second loop of parse_yaml_frontmatter and the final store of a pending list. */
  method ListPass(config: Settings, lines: seq<string>) returns (r: Settings)
    ensures r == Flush(ListFrom(ListState(config, "", []), lines))
  {
    var st := ListState(config, "", []);
    for i := 0 to |lines|
      invariant st == ListFrom(ListState(config, "", []), lines[..i])
    {
      ghost var before := ListFrom(ListState(config, "", []), lines[..i]);
      assert lines[..i + 1][..i] == lines[..i];
      assert ListFrom(ListState(config, "", []), lines[..i + 1]) == ListLine(before, lines[i]);
      st := ListStep(st, lines[i]);
    }
    assert lines[..|lines|] == lines;
    r := st.config;
    if st.key != "" && st.items != [] {
      r := Put(r, st.key, List(st.items));
    }
  }

  /** parse_yaml_frontmatter */
  method ParseYamlFrontmatter(content: string) returns (config: Settings)
    ensures config == FrontmatterConfig(content)
  {
    var m := MatchFrontmatter(content);
    if m.None? {
      return [];
    }
    var lines := Split(content[m.value.0..m.value.1], '\n');
    config := ScalarPass(lines);
    config := ListPass(config, lines);
  }

  // ---------------------------------------------------------------------------
  // Parsed settings never repeat a key

  lemma ScalarLineUnique(config: Settings, raw: string)
    requires UniqueKeys(config)
    ensures UniqueKeys(ScalarLine(config, raw))
  {
    match ScalarEntry(raw)
    case None =>
    case Some((key, value)) =>
      PutUnique(config, key, value);
  }

  lemma {:induction false} ScalarFromUnique(config: Settings, lines: seq<string>)
    requires UniqueKeys(config)
    ensures UniqueKeys(ScalarFrom(config, lines))
  {
    if |lines| > 0 {
      ScalarFromUnique(config, lines[..|lines| - 1]);
      ScalarLineUnique(ScalarFrom(config, lines[..|lines| - 1]), lines[|lines| - 1]);
    }
  }

  lemma FlushUnique(st: ListState)
    requires UniqueKeys(st.config)
    ensures UniqueKeys(Flush(st))
  {
    if st.key != "" && st.items != [] {
      PutUnique(st.config, st.key, List(st.items));
    }
  }

  lemma ListLineUnique(st: ListState, raw: string)
    requires UniqueKeys(st.config)
    ensures UniqueKeys(ListLine(st, raw).config)
  {
    FlushUnique(st);
  }

  lemma {:induction false} ListFromUnique(st: ListState, lines: seq<string>)
    requires UniqueKeys(st.config)
    ensures UniqueKeys(ListFrom(st, lines).config)
  {
    if |lines| > 0 {
      ListFromUnique(st, lines[..|lines| - 1]);
      ListLineUnique(ListFrom(st, lines[..|lines| - 1]), lines[|lines| - 1]);
    }
  }

  /** Like a Python dict, the parsed settings hold each key once. */
  lemma FrontmatterConfigUnique(content: string)
    ensures UniqueKeys(FrontmatterConfig(content))
  {
    match MatchFrontmatter(content)
    case None =>
    case Some((b, e)) =>
      var lines := Split(content[b..e], '\n');
      ScalarFromUnique([], lines);
      var st := ListFrom(ListState(ScalarFrom([], lines), "", []), lines);
      ListFromUnique(ListState(ScalarFrom([], lines), "", []), lines);
      FlushUnique(st);
  }

  // ---------------------------------------------------------------------------
  // load_config

  /** The settings a file contributes: none when it is missing or unreadable. */
  function Layer(file: Option<string>): Settings {
    match file
    case None => []
    case Some(content) => FrontmatterConfig(content)
  }

  /** The defaults, updated by the global file, updated by the project's file. */
  function LoadedConfig(global: Option<string>, local: Option<string>): Settings {
    Update(Update(Defaults, Layer(global)), Layer(local))
  }

  lemma LayerUnique(file: Option<string>)
    ensures UniqueKeys(Layer(file))
  {
    if file.Some? {
      FrontmatterConfigUnique(file.value);
    }
  }

  /**
   * load_config, with the two files' contents as inputs: None stands for a
   * file that is missing or that could not be read.
   */
  method LoadConfig(global: Option<string>, local: Option<string>) returns (config: Settings)
    ensures config == LoadedConfig(global, local)
  {
    config := Defaults;
    if global.Some? {
      var globalConfig := ParseYamlFrontmatter(global.value);
      config := Update(config, globalConfig);
    }
    if local.Some? {
      var localConfig := ParseYamlFrontmatter(local.value);
      config := Update(config, localConfig);
    }
  }

  /** Each setting comes from the project's file if it sets it, else from the global file, else from the defaults. */
  lemma LoadedConfigGet(global: Option<string>, local: Option<string>, k: string)
    ensures Get(LoadedConfig(global, local), k) ==
      if HasKey(Layer(local), k) then Get(Layer(local), k)
      else if HasKey(Layer(global), k) then Get(Layer(global), k)
      else Get(Defaults, k)
  {
    LayerUnique(global);
    LayerUnique(local);
    UpdateGet(Update(Defaults, Layer(global)), Layer(local), k);
    UpdateGet(Defaults, Layer(global), k);
  }

  lemma DefaultsUnique()
    ensures UniqueKeys(Defaults)
  {
    assert Keys(Defaults[3..]) == ["show_stats_on_exit"];
    assert Keys(Defaults[2..]) == ["enabled_categories", "show_stats_on_exit"];
    assert Keys(Defaults[1..]) == ["stats_location", "enabled_categories", "show_stats_on_exit"];
    assert Keys(Defaults) == ["theme", "stats_location", "enabled_categories", "show_stats_on_exit"];
  }

  /** The loaded settings keep every default key and repeat no key. */
  lemma LoadedConfigKeys(global: Option<string>, local: Option<string>)
    ensures UniqueKeys(LoadedConfig(global, local))
    ensures forall k :: HasKey(Defaults, k) ==> HasKey(LoadedConfig(global, local), k)
  {
    DefaultsUnique();
    UpdateUnique(Defaults, Layer(global));
    UpdateUnique(Update(Defaults, Layer(global)), Layer(local));
  }

  // ---------------------------------------------------------------------------
  // save_config

  /** The `  - item` lines of a list, in order. */
  function ItemLines(items: seq<string>): (lines: seq<string>)
    ensures |lines| == |items|
  {
    if |items| == 0 then []
    else ItemLines(items[..|items| - 1]) + ["  - " + items[|items| - 1]]
  }

  /** The lines one setting is written as: booleans in lower case, a list as its key then one line per item. */
  function EntryLines(key: string, value: Value): seq<string> {
    match value
    case Bool(b) => [key + ": " + (if b then "true" else "false")]
    case List(items) => [key + ":"] + ItemLines(items)
    case Str(s) => [key + ": " + s]
  }

  /** The lines of the frontmatter block, setting after setting. */
  function ConfigLines(config: Settings): seq<string> {
    if |config| == 0 then []
    else
      var last := config[|config| - 1];
      ConfigLines(config[..|config| - 1]) + EntryLines(last.0, last.1)
  }

  /**
   * What follows the frontmatter: its closing line, then a fixed explanation.
   * The two long sentences are each written as two halves so that the proofs
   * about the trailer can look at their characters, which the verifier does
   * readily only for short literals; the text is the same.
   */
  const Trailer: seq<string> := [
    "---",
    "",
    "# Claude Tool Tracker Configuration",
    "",
    "This file contains settings " + "for the claude-tool-tracker plugin.",
    "Edit the YAML frontmatter " + "above to customize behavior."
  ]

  /** The text save_config writes. */
  function ConfigText(config: Settings): string {
    Join(["---"] + ConfigLines(config) + Trailer, '\n')
  }

  /** The body of save_config's loop for one setting: its lines appended to `yamlLines`. */
  method AppendEntry(yamlLines: seq<string>, key: string, value: Value) returns (r: seq<string>)
    ensures r == yamlLines + EntryLines(key, value)
  {
    match value {
      case Bool(b) =>
        r := yamlLines + [key + ": " + (if b then "true" else "false")];
      case List(items) =>
        r := yamlLines + [key + ":"];
        for j := 0 to |items|
          invariant r == yamlLines + [key + ":"] + ItemLines(items[..j])
        {
          assert items[..j + 1][..j] == items[..j];
          r := r + ["  - " + items[j]];
        }
        assert items[..|items|] == items;
        assert yamlLines + [key + ":"] + ItemLines(items) == yamlLines + ([key + ":"] + ItemLines(items));
      case Str(s) =>
        r := yamlLines + [key + ": " + s];
    }
  }

  /** The lines of one more setting follow those of the settings before it. */
  lemma ConfigLinesSnoc(config: Settings, i: nat)
    requires i < |config|
    ensures ConfigLines(config[..i + 1]) == ConfigLines(config[..i]) + EntryLines(config[i].0, config[i].1)
  {
    assert config[..i + 1][..i] == config[..i];
  }

  lemma AppendLines(a: seq<string>, b: seq<string>, c: seq<string>)
    ensures a + b + c == a + (b + c)
  {
  }

  /** The loop of save_config: the opening line, then each setting's lines. */
  method FrontmatterLines(config: Settings) returns (yamlLines: seq<string>)
    ensures yamlLines == ["---"] + ConfigLines(config)
  {
    yamlLines := ["---"];
    for i := 0 to |config|
      invariant yamlLines == ["---"] + ConfigLines(config[..i])
    {
      ConfigLinesSnoc(config, i);
      AppendLines(["---"], ConfigLines(config[..i]), EntryLines(config[i].0, config[i].1));
      yamlLines := AppendEntry(yamlLines, config[i].0, config[i].1);
    }
    assert config[..|config|] == config;
  }

  /**
   * save_config without the choice of path and the directory creation: the
   * text to write, and `writeOk`, the outcome of the write, as the answer.
   */
  method SaveConfig(config: Settings, writeOk: bool) returns (content: string, saved: bool)
    ensures content == ConfigText(config)
    ensures saved == writeOk
  {
    var yamlLines := FrontmatterLines(config);
    yamlLines := yamlLines + Trailer;
    content := Join(yamlLines, '\n');
    saved := writeOk;
  }

  // ---------------------------------------------------------------------------
  // get_theme, set_theme, is_category_enabled

  const Themes: seq<string> := ["colorful", "minimal", "emoji"]

  /** get_theme: the loaded `theme` setting, `colorful` if it is absent. */
  function GetTheme(global: Option<string>, local: Option<string>): Value {
    GetOr(LoadedConfig(global, local), "theme", Str("colorful"))
  }

  /** Without settings files the theme is `colorful`. */
  lemma GetThemeDefault()
    ensures GetTheme(None, None) == Str("colorful")
  {
    LoadedConfigGet(None, None, "theme");
  }

  /**
   * set_theme: an unknown theme is refused and nothing is written; otherwise
   * the loaded settings, with the new theme, are written to the global file,
   * and the answer is the outcome of the write.
   */
  method SetTheme(theme: string, global: Option<string>, local: Option<string>, writeOk: bool)
    returns (ok: bool, written: Option<string>)
    ensures theme !in Themes ==> !ok && written == None
    ensures theme in Themes ==>
      ok == writeOk && written == Some(ConfigText(Put(LoadedConfig(global, local), "theme", Str(theme))))
  {
    if theme !in Themes {
      return false, None;
    }
    var config := LoadConfig(global, local);
    config := Put(config, "theme", Str(theme));
    var content;
    content, ok := SaveConfig(config, writeOk);
    written := Some(content);
  }

  /**
   * is_category_enabled: membership in a list, a substring test when the
   * setting was written as plain text, and None for a boolean, where the
   * source's `in` raises a TypeError.
   */
  function IsCategoryEnabled(category: string, global: Option<string>, local: Option<string>): Option<bool> {
    match GetOr(LoadedConfig(global, local), "enabled_categories", List(DefaultCategories))
    case List(items) => Some(category in items)
    case Str(s) => Some(Contains(s, category))
    case Bool(_) => None
  }

  /** Without settings files exactly the five categories are enabled. */
  lemma IsCategoryEnabledDefault(category: string)
    ensures IsCategoryEnabled(category, None, None) == Some(category in DefaultCategories)
  {
    LoadedConfigGet(None, None, "enabled_categories");
    assert Get(Defaults[2..], "enabled_categories") == Some(List(DefaultCategories));
  }
}
