# claude-tool-tracker, modelled in Dafny

claude-tool-tracker is a hook for a coding assistant. It classifies every
tool invocation and counts it in a per-day statistics document. It then
prints a short notice in one of three themes. Its settings come from a
frontmatter block in a markdown file, read from a global file and a
project file.

This project models that logic and proves properties of it:

- `wrappers.dfy`: `Option`.
- `text.dfy`: the Python string operations the code relies on. These are
  `strip`, `split`, `join`, `find`, `in`, `startswith`, slicing, and ASCII
  `lower`/`upper`, each with its specification.
- `ordered_dict.dfy`: a Python `dict` with string keys. It is kept as a
  sequence of (key, value) pairs in insertion order, with `get`, `d[k] = v`
  and `update`.
- `stats.dfy` (`scripts/stats.py`): it has three parts.
  - Classification, splitting of detailed names and the counters.
  - The statistics document as a class whose methods update it in place:
    recording a use and clearing a session.
  - The stable top-N sort and the per-category breakdown loop.
- `config.dfy` (`scripts/config.py`): it has four parts.
  - The frontmatter match `^---\s*\n(.*?)\n---` as a search with the regex's
    backtracking made explicit.
  - The two line passes of `parse_yaml_frontmatter`, as loops proved against
    fold functions.
  - The three-layer `load_config` merge and the text `save_config` writes.
  - `get_theme`, `set_theme` and `is_category_enabled`.
- `config_roundtrip.dfy`: settings that survive the line format are read
  back as themselves after saving, in the same order. A theme set by
  `set_theme` is then what `get_theme` returns.
- `track_tool.dfy` (`hooks/handlers/track-tool.py`): it has three parts.
  - `parse_tool_info`.
  - The three renderers with their lookup tables, and the theme dispatch.
  - The hook's `main` gate: record and render only when the category is
    enabled, and always let the tool proceed.

The comment at `scripts/stats.py:97` and the docstring of
`parse_detailed_tool_name` (`scripts/stats.py:112-124`) describe a detailed
`category:subcategory[:detail]` key. The hook records the raw `tool_name`
instead (`hooks/handlers/track-tool.py:167`). The model follows the code.
Both `categorize_tool` and the breakdown accept the raw `mcp__server__tool`
form and the colon form, and so does the model. The comment at
`scripts/config.py:14` names three themes, and `set_theme` checks against
them (`scripts/config.py:171`). Loading, though, keeps whatever text the
file holds. An `enabled_categories` given as text is tested by substring.
One given as a boolean raises a `TypeError`, which `main` turns into an
error message. The model follows the code here too.

## Model

| member | source | states |
|---|---|---|
| Stats.CategorizeToolCases | scripts/stats.py:92-109 | The category is always one of the five. Each category is chosen exactly when the name has that category's prefix or sentinel name, so no two branches compete. Every other name is native. |
| Stats.ParseDetailedToolNameNoColon | scripts/stats.py:112-124 | A name without a colon gives itself as both category and subcategory, with no detail. |
| Stats.ParseDetailedToolNameColon | scripts/stats.py:120-124 | With a colon, category and subcategory hold no colon. Joining the parts with `:` gives the name back. |
| Stats.Increment | scripts/stats.py:151-152 | `d[k] = d.get(k, 0) + 1` raises the count of `k` by one and the sum of all counts by one. |
| Stats.CountUseCounts | scripts/stats.py:150-157 | One use adds exactly 1 to the tool's counter and 1 to its category's counter. Both sums grow by 1, so the two sums stay equal exactly when they were equal. |
| Stats.CountUseOtherTool | scripts/stats.py:151 | No other tool's counter changes. |
| Stats.CountUseOtherCategory | scripts/stats.py:152 | No other category's counter changes. |
| Stats.CountUseWellFormed | scripts/stats.py:150-157 | The counters keep their keys unique. |
| Stats.CountUseCategoryKeys | scripts/stats.py:152 | The category counters keep exactly the five categories. |
| Stats.CountIn | scripts/stats.py:150-157 | The increments of one tally compute the one-use update. |
| Stats.EmptyTallyZero | scripts/stats.py:139-145 | A fresh tally has no tools and the five categories at zero. |
| Stats.EmptyTallyInvariants | scripts/stats.py:44-56 | A fresh tally has unique keys and equal sums. |
| Stats.RecordInSessionsFrame | scripts/stats.py:134-153 | Only the day's session changes, and it is created only when absent. A new session starts at the start time with counters counted from zero. An existing session keeps its start. `end` becomes the end time. The two times are separate reads of the clock. |
| Stats.RecordInSessionsInvariants | scripts/stats.py:134-157 | Recording keeps every session's keys unique and its two sums equal. |
| Stats.StatsDocument.constructor | scripts/stats.py:43-56 | The fallback document has no sessions and a zeroed total. |
| Stats.StatsDocument.RecordToolUsage | scripts/stats.py:127-159 | The sessions and totals after recording are the one-use update of those before. Unique keys and equal sums are preserved. |
| Stats.StatsDocument.SessionStats | scripts/stats.py:162-172 | It returns the day's counters. For a day without a session it returns no tools and the five categories at zero. |
| Stats.StatsDocument.TopTools | scripts/stats.py:181-191 | It returns `tools[:n]` of the sorted pairs: drawn from the map, counts non-increasing. For an absent session it returns nothing. |
| Stats.SliceLength | scripts/stats.py:191 | The length of `xs[:n]`, including Python's counting from the end for negative `n`. |
| Stats.SortByCountSpec | scripts/stats.py:190 | The sort is non-increasing by count and a permutation. Pairs with equal counts keep their insertion order, as Python's stable sort with `reverse=True` does. |
| Stats.InsertByCountStable | scripts/stats.py:190 | Inserting a pair puts it before the pairs of the same count already in the list, and keeps their order. The sort inserts each entry into the sorted rest of the input, so equal counts keep their input order. |
| Stats.TopNSpec | scripts/stats.py:190-191 | The top-N list is sorted and drawn from the map. Among equal counts it is a prefix of the insertion order. |
| Stats.TopNIsTop | scripts/stats.py:190-191 | No pair left out has a higher count than a pair kept. |
| Stats.TopNExample | scripts/stats.py:190-191 | With counts 5, 5, 2, 1, the top three keep the two tied pairs in insertion order. |
| Stats.EmptyBreakdownKeys | scripts/stats.py:204-210 | The breakdown starts with the five category buckets, in order. |
| Stats.RegroupCategory | scripts/stats.py:212-224 | A colon-free name or an `mcp__` name lands in `categorize_tool`'s category. Only a colon name can pick a bucket outside the five. |
| Stats.RegroupName | scripts/stats.py:213-224 | The loop's choice of (category, subcategory) for one name. |
| Stats.AddToBucket | scripts/stats.py:225-226 | The loop's step for one entry adds the entry's count to its (category, subcategory) cell when the category has a bucket, and otherwise changes nothing. |
| Stats.AddEntryCell | scripts/stats.py:225-226 | One entry adds its count to its own (category, subcategory) cell and to no other cell. |
| Stats.AddEntryTotal | scripts/stats.py:225-226 | The bucket total grows by the count exactly when the category is one of the five. |
| Stats.GetSubcategoryBreakdown | scripts/stats.py:194-228 | The loop computes the breakdown of the tools dict. |
| Stats.BreakdownKeys | scripts/stats.py:204-228 | The breakdown always has exactly the five buckets. |
| Stats.BreakdownCell | scripts/stats.py:212-226 | Each cell holds the sum of the counts of the names regrouped to it. |
| Stats.BreakdownTotal | scripts/stats.py:212-226 | The buckets add up to the counts of the names that were kept. Colon names with an unknown first field are dropped. |
| Stats.StatsDocument.ClearSessionStats | scripts/stats.py:295-306 | Exactly the given session is removed, and the totals and other sessions are unchanged. The answer is false when the session was absent or the write failed. |
| Config.SpaceRunSpec | scripts/config.py:43 | `\s*` at its longest: a run of whitespace ending before a non-space or the end. |
| Config.MatchFrontmatterSpec | scripts/config.py:43-47 | A match opens with `---`, then whitespace up to a newline, then the body up to the first `\n---`. The whitespace may give back newlines. The regex prefers the longest whitespace run that still finds a closer, and the match fails only when no choice does. |
| Config.NoFrontmatterNoSettings | scripts/config.py:43-45 | Without a frontmatter block the settings are empty. |
| Config.ScalarLineSkips | scripts/config.py:51-55 | In the first pass, blank lines, comments and lines without a colon store nothing. |
| Config.ScalarLineEntry | scripts/config.py:55-69 | A line is cut at its first colon and both sides are trimmed. `true`/`false` in any case become booleans. A value opening with `[` or `-` is skipped. Any other value is stored as trimmed text. |
| Config.ListLineSkips | scripts/config.py:76-91 | In the list pass, a blank line, a comment or a line with no colon that is not an item leaves the state as it is: the pending key and its items are neither stored nor reset. |
| Config.ListLineItem | scripts/config.py:78-80 | A `- item` line after a key with an empty value adds the trimmed item at the end of the list. |
| Config.ListLineIgnoredItem | scripts/config.py:78-80 | A `- item` line with no pending key is ignored. |
| Config.ListLineKey | scripts/config.py:78-91 | A key line stores the pending list, if it has items. It starts a new pending key exactly when its value is empty. This holds for every key not starting with `#` or `- `, including keys such as `-x`. |
| Config.ScalarStep | scripts/config.py:51-69 | The first loop's body for one line. |
| Config.ListStep | scripts/config.py:77-91 | The second loop's body for one line. |
| Config.ScalarPass | scripts/config.py:50-69 | The first loop folds the line function over the lines. |
| Config.ListPass | scripts/config.py:72-94 | The second loop folds its line function, then stores the last pending list. |
| Config.ParseYamlFrontmatter | scripts/config.py:38-96 | The parser computes the settings of the matched block, or none without a match. |
| Config.FrontmatterConfigUnique | scripts/config.py:38-96 | The parsed settings have unique keys. |
| Config.DefaultsUnique | scripts/config.py:13-18 | DEFAULT_CONFIG has four distinct keys. |
| Config.LoadConfig | scripts/config.py:99-123 | The method computes the defaults updated by the global layer, then by the local layer. |
| Config.LoadedConfigGet | scripts/config.py:99-123 | Each key takes the local value if the project file has it, else the global value, else the default. |
| Config.LoadedConfigKeys | scripts/config.py:100-121 | The merged settings have unique keys and every default key. |
| Config.ItemLines | scripts/config.py:143-145 | A list is written as one item line per element. |
| Config.AppendEntry | scripts/config.py:138-146 | One setting's lines are appended. A boolean gives one `key: true`/`false` line, a list gives `key:` and its items, any other value gives `key: value`. |
| Config.FrontmatterLines | scripts/config.py:136-146 | The loop writes `---`, then every setting's lines in insertion order. |
| Config.SaveConfig | scripts/config.py:126-160 | The written text is the lines and the closing trailer joined by newlines. The answer is the write's outcome. |
| Config.GetThemeDefault | scripts/config.py:163-166 | Without settings files the theme is `colorful`. |
| Config.SetTheme | scripts/config.py:169-176 | Any theme other than colorful, minimal and emoji gives false and writes nothing. A valid theme writes the loaded settings with the theme replaced. |
| Config.IsCategoryEnabledDefault | scripts/config.py:185-189 | Without settings files exactly the five categories are enabled. |
| ConfigRoundTrip.EntryLinesShape | scripts/config.py:138-146 | One setting is written as its key line, then one `  - item` line per list element. |
| ConfigRoundTrip.KeyLineScalar | scripts/config.py:50-69 | The first pass reads a written key line back as the stored value. A list reads back as empty text. |
| ConfigRoundTrip.KeyLineList | scripts/config.py:81-91 | The second pass makes a written key line pending exactly when it heads a list. |
| ConfigRoundTrip.ItemLineScalar | scripts/config.py:51-55 | The first pass ignores written item lines. |
| ConfigRoundTrip.ItemLineList | scripts/config.py:78-80 | The second pass collects a written item unchanged. |
| ConfigRoundTrip.ScalarFromEntry | scripts/config.py:50-69 | The first pass over one setting's lines stores that setting. |
| ConfigRoundTrip.ListFromItems | scripts/config.py:76-80 | Written item lines after their key collect the items in order. |
| ConfigRoundTrip.ScalarPassLines | scripts/config.py:50-69 | The first pass over the written lines gives the settings with every list as empty text. |
| ConfigRoundTrip.ParseConfigLines | scripts/config.py:72-94 | The second pass then replaces each such empty text with its list, giving back the settings. |
| ConfigRoundTrip.TrailerLines | scripts/config.py:147-152 | The trailer opens with the closing `---` line, and no later line starts with a dash. |
| ConfigRoundTrip.RoundTripEmpty | scripts/config.py:136-155 | Saving no settings reads back as no settings. |
| ConfigRoundTrip.FrontmatterBlock | scripts/config.py:43-47 | The frontmatter match on the written text extracts exactly the written settings block. |
| ConfigRoundTrip.RoundTrip | scripts/config.py:126-160 | Parsing what save_config wrote gives back the same settings in the same order, for settings that survive the format. |
| ConfigRoundTrip.DefaultsWellFormed | scripts/config.py:13-18 | DEFAULT_CONFIG survives the format. |
| ConfigRoundTrip.SetThemeThenGetTheme | scripts/config.py:163-176 | set_theme writes a valid theme to the global file, and get_theme then returns it. This holds when the merged settings survive the line format and the project file sets no theme. |
| ConfigRoundTrip.SetThemeFresh | scripts/config.py:163-176 | With no settings files, set_theme then get_theme gives the theme that was set. |
| TrackTool.ParseToolInfoKind | hooks/handlers/track-tool.py:106-136 | The hook's type is always one of the five categories. It equals `categorize_tool` of the same name, except that colon-form names are native to the hook. |
| TrackTool.ParseMcpName | hooks/handlers/track-tool.py:109-115 | For an `mcp__` name, the server is the text before the first `__` and may be empty. The tool is the rest and may contain more `__`. Without a second `__` the server is the whole rest and the tool is `unknown`. |
| TrackTool.McpServerIsSubcategory | hooks/handlers/track-tool.py:109-115 | The server the hook shows is the subcategory the breakdown files the tool under. |
| TrackTool.ParseSkillCommandInfo | hooks/handlers/track-tool.py:124-132 | `Skill` is a skill and `SlashCommand` a command. Each takes its primary name from the input's `skill` or `command` field, with `unknown` when the field is missing. Neither has a second name or an extra line. |
| TrackTool.ParseTaskInfo | hooks/handlers/track-tool.py:117-122 | For `Task`, the agent type defaults to `general`. The extra line is present exactly when there is a description, and it reads `Task: ` plus the description. |
| TrackTool.ParseToolInfoFields | hooks/handlers/track-tool.py:106-136 | Only an mcp tool has a second name. Only `Task` has an extra line. A native tool shows its own name. |
| TrackTool.LookupFallbacks | hooks/handlers/track-tool.py:42-98 | Each theme's table covers exactly the five categories. An unknown type gets the native entry: blue, gray, or the wrench. |
| TrackTool.Border | hooks/handlers/track-tool.py:53-64 | The border is 47 horizontal bars. |
| TrackTool.ColorfulShape | hooks/handlers/track-tool.py:53-66 | The box has a top and a bottom border of 47 bars. It has 3 lines, or 4 exactly when there is extra text. |
| TrackTool.ColorfulLineCount | hooks/handlers/track-tool.py:53-66 | With single-line fields, the printed box splits back into exactly its 3 or 4 lines. |
| TrackTool.MinimalLabel | hooks/handlers/track-tool.py:80 | The label is the type's first three characters in capitals, or the whole type when it is shorter. |
| TrackTool.MinimalLabels | hooks/handlers/track-tool.py:80 | The five labels are NAT, MCP, AGE, SKI and COM. |
| TrackTool.OneLineEnding | hooks/handlers/track-tool.py:82-103 | The minimal and emoji notices end with the primary name, followed by `→` and the second name when there is one. |
| TrackTool.EmojiUnknownIsNative | hooks/handlers/track-tool.py:98 | In the emoji theme an unknown type looks exactly like a native tool. |
| TrackTool.OneLineShowsNames | hooks/handlers/track-tool.py:69-103 | The minimal and emoji notices contain the primary name, and the second name when there is one. |
| TrackTool.ColorfulShowsNames | hooks/handlers/track-tool.py:56-59 | The colorful box contains the primary name, and the second name when there is one. |
| TrackTool.RenderOutput | hooks/handlers/track-tool.py:139-146 | Every theme other than `minimal` and `emoji` renders the colorful box. |
| TrackTool.RenderTheme | hooks/handlers/track-tool.py:158-170 | A theme setting that is not text compares unequal to both names and renders the colorful box. |
| TrackTool.NoticeShowsPrimary | hooks/handlers/track-tool.py:139-146 | Whatever the theme, the notice names the tool. |
| TrackTool.HandleEvent | hooks/handlers/track-tool.py:149-186 | The tool always goes ahead. It records and renders exactly when the category is enabled, and leaves the document untouched otherwise. A boolean `enabled_categories` gives the error message. |

## Left out

- File I/O and paths. These are `get_stats_path`, the reads and writes of `load_stats`/`save_stats`, `mkdir`, the settings paths and `read_text`/`write_text`. File contents are parameters: `Option<string>`, with `None` for a missing or unreadable file. A write's outcome is a boolean parameter.
- `save_config`'s `location` argument: only the text written is modelled, not where it goes.
- The clock. The session id (today's date) and the two timestamps are parameters. These are the start a new session gets and the end every use stamps.
- A corrupt statistics file. It is read as the fresh document, which is the constructor.
- `format_stats_output`. Its percentages and bar lengths are floating point, and the rest is display text.
- `get_stats_location` and `get_total_stats`: plain lookups.
- JSON on standard input and output. The hook's input is a decoded tool name and a tool input whose fields are text. Non-text JSON values in `tool_input` are not modelled.
- Exceptions other than the `TypeError` of `category in True`. This covers failures of JSON decoding and failures inside `record_tool_usage`'s load and save.
- Unicode case mapping. `lower`/`upper` are modelled on ASCII letters; other characters are left unchanged.
- Concurrency. Two hooks can read and rewrite the statistics file at once; that race is not modelled.
- ANSI escape codes. They are constants with no meaning attached.
- Stats.TopN: its own contract gives only the length. Order, provenance and tie order are stated by Stats.TopNSpec and Stats.SortByCountSpec.
- ConfigRoundTrip.RoundTrip: holds only for settings that survive the line format. Keys and list items must have no newline or colon and no surrounding space. Keys must not start with `#` or `-`. Lists must be non-empty. Text values must not read as a boolean or start with `[` or `-`. Other settings change when saved and loaded again. For example, an empty list reads back as empty text, and the text `True` reads back as a boolean.
