/**
 * The PostToolUse hook: it classifies one tool invocation into (type,
 * primary, secondary, extra), checks that the type is an enabled category,
 * records the use and renders a one-notice summary in the configured theme.
 */
module TrackTool {
  import opened Wrappers
  import opened Text
  import opened OrderedDict
  import opened Stats
  import opened Config

  // ---------------------------------------------------------------------------
  // ANSI escape sequences, as opaque constants

  const Reset := "\U{1b}[0m"
  const Bold := "\U{1b}[1m"
  const Dim := "\U{1b}[2m"

  const Cyan := "\U{1b}[36m"
  const Magenta := "\U{1b}[35m"
  const Yellow := "\U{1b}[33m"
  const Green := "\U{1b}[32m"
  const Blue := "\U{1b}[34m"
  const White := "\U{1b}[37m"
  const Gray := "\U{1b}[90m"

  const BgCyan := "\U{1b}[46m"
  const BgMagenta := "\U{1b}[45m"
  const BgYellow := "\U{1b}[43m"
  const BgGreen := "\U{1b}[42m"
  const BgBlue := "\U{1b}[44m"

  const Arrow := "\U{2192}"

  // ---------------------------------------------------------------------------
  // parse_tool_info

  /** What the notice shows: the type, the main name, an optional second name and an optional extra line. */
  datatype ToolInfo = ToolInfo(kind: string, primary: string, secondary: string, extra: string)

  /** The hook's `tool_input`, with its string-valued fields in order. */
  type ToolInput = Dict<string>

  /**
   * parse_tool_info: the first rule that matches wins. An `mcp__` name is cut
   * into server and tool at the first `__` after the prefix; `Task`, `Skill`
   * and `SlashCommand` take their primary name from the input, with a default
   * when it is missing; every other name is a native tool.
   */
  function ParseToolInfo(toolName: string, toolInput: ToolInput): ToolInfo {
    if StartsWith(toolName, "mcp__") then
      var parts := SplitOnceOn(toolName[5..], "__");
      ToolInfo("mcp", parts.0, parts.1.GetOr("unknown"), "")
    else if toolName == "Task" then
      var description := GetOr(toolInput, "description", "");
      var extra := if description != "" then "Task: " + description else "";
      ToolInfo("agent", GetOr(toolInput, "subagent_type", "general"), "", extra)
    else if toolName == "Skill" then
      ToolInfo("skill", GetOr(toolInput, "skill", "unknown"), "", "")
    else if toolName == "SlashCommand" then
      ToolInfo("command", GetOr(toolInput, "command", "unknown"), "", "")
    else
      ToolInfo("native", toolName, "", "")
  }

  /** A name in the colon form, which categorize_tool knows but the hook does not. */
  predicate DetailedForm(toolName: string) {
    StartsWith(toolName, "mcp:") || StartsWith(toolName, "agent:") ||
    StartsWith(toolName, "skill:") || StartsWith(toolName, "cmd:")
  }

  /**
   * The hook's type is always one of the five categories, and it is the one
   * categorize_tool gives the same name, except for colon-form names, which
   * the hook treats as native tools.
   */
  lemma ParseToolInfoKind(toolName: string, toolInput: ToolInput)
    ensures ParseToolInfo(toolName, toolInput).kind in CategoryNames
    ensures ParseToolInfo(toolName, toolInput).kind ==
      if DetailedForm(toolName) then "native" else CategorizeTool(toolName)
  {
    CategorizeToolCases(toolName);
    if StartsWith(toolName, "mcp:") {
      assert toolName[3] == ':';
    }
  }

  /**
   * An `mcp__` name: the server is everything up to the first `__` after the
   * prefix (possibly nothing) and the tool is everything after it (possibly
   * holding more `__`); without a second `__` the server is the whole rest and
   * the tool is `unknown`.
   */
  lemma ParseMcpName(toolName: string, toolInput: ToolInput)
    requires StartsWith(toolName, "mcp__")
    ensures var info := ParseToolInfo(toolName, toolInput);
      var rest := toolName[5..];
      && info.kind == "mcp" && info.extra == ""
      && ((exists j: nat :: OccursAt(rest, "__", j)) ==>
            && toolName == "mcp__" + info.primary + "__" + info.secondary
            && forall j: nat :: j < |info.primary| ==> !OccursAt(rest, "__", j))
      && ((forall j: nat :: !OccursAt(rest, "__", j)) ==>
            info.primary == rest && info.secondary == "unknown")
  {
    var rest := toolName[5..];
    var parts := SplitOnceOn(rest, "__");
    assert toolName == "mcp__" + rest;
    assert ParseToolInfo(toolName, toolInput) == ToolInfo("mcp", parts.0, parts.1.GetOr("unknown"), "");
    SplitOnceOnSpec(rest, "__");
    if parts.1.Some? {
      assert OccursAt(rest, "__", |parts.0|) by {
        assert rest[|parts.0|..|parts.0| + 2] == "__";
      }
      assert toolName == "mcp__" + parts.0 + "__" + parts.1.value;
    }
  }

  /** The server the hook shows for an `mcp__` tool is the subcategory the breakdown files it under. */
  lemma McpServerIsSubcategory(toolName: string, toolInput: ToolInput)
    requires StartsWith(toolName, "mcp__")
    ensures Regroup(toolName) == (ParseToolInfo(toolName, toolInput).kind, ParseToolInfo(toolName, toolInput).primary)
  {
  }

  /** `Task`: the agent type defaults to `general`; the extra line is there exactly when there is a description. */
  lemma ParseTaskInfo(toolInput: ToolInput)
    ensures var info := ParseToolInfo("Task", toolInput);
      var description := GetOr(toolInput, "description", "");
      && info.kind == "agent" && info.secondary == ""
      && info.primary == (if HasKey(toolInput, "subagent_type") then Get(toolInput, "subagent_type").value else "general")
      && (info.extra == "" <==> description == "")
      && (description != "" ==> info.extra == "Task: " + description)
  {
  }

  /** Only an mcp tool has a second name, and only an agent call has an extra line. */
  /**
   * `Skill` and `SlashCommand` take their primary name from the input's
   * `skill` or `command` field, `unknown` when it is missing, and show
   * nothing else.
   */
  lemma ParseSkillCommandInfo(toolInput: ToolInput)
    ensures ParseToolInfo("Skill", toolInput) ==
      ToolInfo("skill", if HasKey(toolInput, "skill") then Get(toolInput, "skill").value else "unknown", "", "")
    ensures ParseToolInfo("SlashCommand", toolInput) ==
      ToolInfo("command", if HasKey(toolInput, "command") then Get(toolInput, "command").value else "unknown", "", "")
  {
    assert "Skill"[..5][0] == 'S' && "SlashCommand"[..5][0] == 'S';
  }

  lemma ParseToolInfoFields(toolName: string, toolInput: ToolInput)
    ensures var info := ParseToolInfo(toolName, toolInput);
      && (info.secondary != "" ==> info.kind == "mcp")
      && (info.extra != "" ==> info.kind == "agent" && toolName == "Task")
      && (info.kind == "native" ==> info.primary == toolName)
  {
  }

  // ---------------------------------------------------------------------------
  // The lookup tables of the three themes

  /** The colorful theme's (foreground, background) per category. */
  const ColorfulColors: map<string, (string, string)> := map[
    "mcp" := (Cyan, BgCyan),
    "agent" := (Magenta, BgMagenta),
    "skill" := (Yellow, BgYellow),
    "command" := (Green, BgGreen),
    "native" := (Blue, BgBlue)
  ]

  /** The minimal theme's color per category. */
  const MinimalColors: map<string, string> := map[
    "mcp" := Cyan,
    "agent" := Magenta,
    "skill" := Yellow,
    "command" := Green,
    "native" := Gray
  ]

  /** The emoji theme's symbol per category: globe, robot, lightning, memo, wrench. */
  const Emojis: map<string, string> := map[
    "mcp" := "\U{1F310}",
    "agent" := "\U{1F916}",
    "skill" := "\U{26A1}",
    "command" := "\U{1F4DD}",
    "native" := "\U{1F527}"
  ]

  function ColorfulColor(kind: string): (string, string) {
    if kind in ColorfulColors then ColorfulColors[kind] else (Blue, BgBlue)
  }

  function MinimalColor(kind: string): string {
    if kind in MinimalColors then MinimalColors[kind] else Gray
  }

  function Emoji(kind: string): string {
    if kind in Emojis then Emojis[kind] else "\U{1F527}"
  }

  /** Each table has exactly the five categories, and a type outside them is shown as a native tool. */
  lemma LookupFallbacks(kind: string)
    ensures ColorfulColors.Keys == MinimalColors.Keys == Emojis.Keys == set c | c in CategoryNames
    ensures kind !in CategoryNames ==>
      && ColorfulColor(kind) == ColorfulColor("native") == (Blue, BgBlue)
      && MinimalColor(kind) == MinimalColor("native") == Gray
      && Emoji(kind) == Emoji("native") == "\U{1F527}"
  {
    assert forall c :: c in ColorfulColors.Keys <==> c in CategoryNames;
  }

  // ---------------------------------------------------------------------------
  // The three renderers

  const BorderWidth := 47

  /** A run of 47 box-drawing horizontal bars. */
  function Border(): (r: string)
    ensures |r| == BorderWidth && forall i :: 0 <= i < |r| ==> r[i] == '\U{2500}'
  {
    Repeat('\U{2500}', BorderWidth)
  }

  /** The lines of render_colorful, before they are joined. */
  function ColorfulLines(info: ToolInfo): seq<string> {
    var color := ColorfulColor(info.kind).0;
    var bgColor := ColorfulColor(info.kind).1;
    var extra := if info.extra != "" then [ExtraLine(color, info.extra)] else [];
    [TopLine(color), NameLine(color, bgColor, Upper(info.kind), info.primary, info.secondary)] + extra + [BottomLine(color)]
  }

  function TopLine(color: string): string {
    Bold + color + "\U{250C}" + Border() + "\U{2510}" + Reset
  }

  /** The type in capitals on its background, the primary name, and the second name when there is one. */
  function NameLine(color: string, bgColor: string, typeName: string, primary: string, secondary: string): string {
    Bold + color + "\U{2502}" + Reset + " " + bgColor + Bold + White + " " + typeName + " " + Reset + " " + color
      + primary + Reset + ColorfulSecondary(secondary)
  }

  function ExtraLine(color: string, extra: string): string {
    Bold + color + "\U{2502}" + Reset + " " + Dim + extra + Reset
  }

  function BottomLine(color: string): string {
    Bold + color + "\U{2514}" + Border() + "\U{2518}" + Reset
  }

  /** The arrow and the second name on the colorful name line, when there is one. */
  function ColorfulSecondary(secondary: string): string {
    if secondary != "" then " " + Dim + Arrow + Reset + " " + Bold + secondary + Reset else ""
  }

  /** render_colorful */
  function RenderColorful(info: ToolInfo): string {
    Join(ColorfulLines(info), '\n')
  }

  /**
   * A box: a top border and a bottom border of 47 bars each, the name line,
   * and the extra line only when there is extra text; the name line carries
   * the type in capitals and the primary name.
   */
  lemma ColorfulShape(info: ToolInfo)
    ensures var lines := ColorfulLines(info);
      var color := ColorfulColor(info.kind).0;
      && |lines| == (if info.extra != "" then 4 else 3)
      && lines[0] == Bold + color + "\U{250C}" + Border() + "\U{2510}" + Reset
      && lines[|lines| - 1] == Bold + color + "\U{2514}" + Border() + "\U{2518}" + Reset
      && (info.extra != "" ==> lines[2] == Bold + color + "\U{2502}" + Reset + " " + Dim + info.extra + Reset)
  {
  }

  /** No field of the notice holds a line break. */
  predicate SingleLineFields(info: ToolInfo) {
    '\n' !in info.kind && '\n' !in info.primary && '\n' !in info.secondary && '\n' !in info.extra
  }

  lemma UpperKeepsLines(s: string)
    requires '\n' !in s
    ensures '\n' !in Upper(s)
  {
    forall i | 0 <= i < |s| ensures Upper(s)[i] != '\n' {
      assert s[i] != '\n';
    }
  }

  /**
   * With single-line fields, the printed box is exactly its lines: splitting
   * it at line breaks gives 3 lines, or 4 when there is extra text.
   */
  lemma ColorfulLineCount(info: ToolInfo)
    requires SingleLineFields(info)
    ensures Split(RenderColorful(info), '\n') == ColorfulLines(info)
    ensures |Split(RenderColorful(info), '\n')| == if info.extra != "" then 4 else 3
  {
    ColorfulLinesSingle(info);
    SplitJoin(ColorfulLines(info), '\n');
  }

  lemma ColorfulLinesSingle(info: ToolInfo)
    requires SingleLineFields(info)
    ensures forall i :: 0 <= i < |ColorfulLines(info)| ==> '\n' !in ColorfulLines(info)[i]
  {
    var color := ColorfulColor(info.kind).0;
    ColorsSingle(info.kind);
    UpperKeepsLines(info.kind);
    BorderLinesSingle(color);
    NameLineSingle(color, ColorfulColor(info.kind).1, Upper(info.kind), info.primary, info.secondary);
    ExtraLineSingle(color, info.extra);
  }

  lemma ColorsSingle(kind: string)
    ensures '\n' !in ColorfulColor(kind).0 && '\n' !in ColorfulColor(kind).1
  {
  }

  lemma BorderLinesSingle(color: string)
    requires '\n' !in color
    ensures '\n' !in TopLine(color) && '\n' !in BottomLine(color)
  {
    assert '\n' !in Border();
  }

  lemma NameLineSingle(color: string, bgColor: string, typeName: string, primary: string, secondary: string)
    requires '\n' !in color && '\n' !in bgColor && '\n' !in typeName && '\n' !in primary && '\n' !in secondary
    ensures '\n' !in NameLine(color, bgColor, typeName, primary, secondary)
  {
    assert '\n' !in ColorfulSecondary(secondary);
  }

  lemma ExtraLineSingle(color: string, extra: string)
    requires '\n' !in color && '\n' !in extra
    ensures '\n' !in ExtraLine(color, extra)
  {
  }

  /** The minimal theme's label: the type's first three characters in capitals. */
  function MinimalLabel(kind: string): (r: string)
    ensures |r| == if |kind| < 3 then |kind| else 3
    ensures forall i :: 0 <= i < |r| ==> r[i] == UpperChar(kind[i])
  {
    Upper(Prefix(kind, 3))
  }

  /** The labels of the five categories. */
  lemma MinimalLabels()
    ensures MinimalLabel("native") == "NAT" && MinimalLabel("mcp") == "MCP" && MinimalLabel("agent") == "AGE"
    ensures MinimalLabel("skill") == "SKI" && MinimalLabel("command") == "COM"
  {
  }

  /** How the one-line themes end: the primary name, then an arrow and the second name when there is one. */
  function Names(primary: string, secondary: string): string {
    if secondary != "" then primary + " " + Arrow + " " + secondary else primary
  }

  /** render_minimal */
  function RenderMinimal(info: ToolInfo): string {
    MinimalColor(info.kind) + "[" + MinimalLabel(info.kind) + "]" + Reset + " " + Names(info.primary, info.secondary)
  }

  /** render_emoji */
  function RenderEmoji(info: ToolInfo): string {
    Emoji(info.kind) + " " + Names(info.primary, info.secondary)
  }

  /** `s.endswith(suffix)` */
  predicate EndsWith(s: string, suffix: string) {
    |suffix| <= |s| && s[|s| - |suffix|..] == suffix
  }

  lemma SuffixOf(a: string, b: string)
    ensures EndsWith(a + b, b)
  {
    assert (a + b)[|a|..] == b;
  }

  /**
   * The one-line themes end with the primary name, followed by an arrow and
   * the second name exactly when there is one.
   */
  lemma OneLineEnding(info: ToolInfo)
    ensures info.secondary == "" ==>
      EndsWith(RenderMinimal(info), " " + info.primary) && EndsWith(RenderEmoji(info), " " + info.primary)
    ensures info.secondary != "" ==>
      && EndsWith(RenderMinimal(info), " " + info.primary + " " + Arrow + " " + info.secondary)
      && EndsWith(RenderEmoji(info), " " + info.primary + " " + Arrow + " " + info.secondary)
  {
    NamesEnding(MinimalColor(info.kind) + "[" + MinimalLabel(info.kind) + "]" + Reset, info.primary, info.secondary);
    NamesEnding(Emoji(info.kind), info.primary, info.secondary);
  }

  lemma NamesEnding(pre: string, primary: string, secondary: string)
    ensures secondary == "" ==> EndsWith(pre + " " + Names(primary, secondary), " " + primary)
    ensures secondary != "" ==>
      EndsWith(pre + " " + Names(primary, secondary), " " + primary + " " + Arrow + " " + secondary)
  {
    if secondary == "" {
      assert pre + " " + Names(primary, secondary) == pre + (" " + primary);
      SuffixOf(pre, " " + primary);
    } else {
      var suffix := " " + primary + " " + Arrow + " " + secondary;
      assert pre + " " + Names(primary, secondary) == pre + suffix;
      SuffixOf(pre, suffix);
    }
  }

  /** The emoji theme does not show the type by name, so an unknown type looks exactly like a native tool. */
  lemma EmojiUnknownIsNative(info: ToolInfo)
    requires info.kind !in CategoryNames
    ensures RenderEmoji(info) == RenderEmoji(info.(kind := "native"))
  {
    LookupFallbacks(info.kind);
  }

  // ---------------------------------------------------------------------------
  // What every theme shows

  /** `pat in a + pat + b` */
  lemma ContainsMiddle(a: string, pat: string, b: string)
    ensures Contains(a + pat + b, pat)
  {
    ContainsIff(a + pat + b, pat);
    assert OccursAt(a + pat + b, pat, |a|) by {
      assert (a + pat + b)[|a|..|a| + |pat|] == pat;
    }
  }

  /** Joined lines contain each of their lines. */
  lemma {:induction false} JoinContainsLine(lines: seq<string>, i: nat, pat: string)
    requires i < |lines| && Contains(lines[i], pat)
    ensures Contains(Join(lines, '\n'), pat)
  {
    ContainsIff(lines[i], pat);
    var j: nat :| OccursAt(lines[i], pat, j);
    var pre, at := JoinAround(lines, i);
    ContainsIff(Join(lines, '\n'), pat);
    assert OccursAt(Join(lines, '\n'), pat, |pre| + j) by {
      assert Join(lines, '\n')[|pre| + j..|pre| + j + |pat|] == lines[i][j..j + |pat|];
    }
  }

  /** Where line `i` sits inside the joined text. */
  lemma {:induction false} JoinAround(lines: seq<string>, i: nat) returns (pre: string, post: string)
    requires i < |lines|
    ensures Join(lines, '\n') == pre + lines[i] + post
  {
    if |lines| == 1 {
      pre, post := "", "";
    } else if i == 0 {
      pre, post := "", ['\n'] + Join(lines[1..], '\n');
    } else {
      var p, q := JoinAround(lines[1..], i - 1);
      pre, post := lines[0] + ['\n'] + p, q;
    }
  }

  /** Text around a piece keeps what the piece contains. */
  lemma ContainsWithin(a: string, s: string, b: string, pat: string)
    requires Contains(s, pat)
    ensures Contains(a + s + b, pat)
  {
    ContainsIff(s, pat);
    var j: nat :| OccursAt(s, pat, j);
    ContainsIff(a + s + b, pat);
    assert OccursAt(a + s + b, pat, |a| + j) by {
      assert (a + s + b)[|a| + j..|a| + j + |pat|] == s[j..j + |pat|];
    }
  }

  lemma NamesShown(primary: string, secondary: string)
    ensures Contains(Names(primary, secondary), primary)
    ensures secondary != "" ==> Contains(Names(primary, secondary), secondary)
  {
    if secondary != "" {
      ContainsMiddle("", primary, " " + Arrow + " " + secondary);
      assert Names(primary, secondary) == primary + " " + Arrow + " " + secondary + "";
      ContainsMiddle(primary + " " + Arrow + " ", secondary, "");
    } else {
      ContainsMiddle("", primary, "");
    }
  }

  /** The minimal and the emoji theme show the primary name, and the second name when there is one. */
  lemma OneLineShowsNames(info: ToolInfo)
    ensures Contains(RenderMinimal(info), info.primary) && Contains(RenderEmoji(info), info.primary)
    ensures info.secondary != "" ==>
      Contains(RenderMinimal(info), info.secondary) && Contains(RenderEmoji(info), info.secondary)
  {
    var names := Names(info.primary, info.secondary);
    var m := MinimalColor(info.kind) + "[" + MinimalLabel(info.kind) + "]" + Reset + " ";
    var e := Emoji(info.kind) + " ";
    NamesShown(info.primary, info.secondary);
    assert RenderMinimal(info) == m + names + "";
    assert RenderEmoji(info) == e + names + "";
    ContainsWithin(m, names, "", info.primary);
    ContainsWithin(e, names, "", info.primary);
    if info.secondary != "" {
      ContainsWithin(m, names, "", info.secondary);
      ContainsWithin(e, names, "", info.secondary);
    }
  }

  /** The colorful theme shows the primary name on its name line, and the second name when there is one. */
  lemma ColorfulShowsNames(info: ToolInfo)
    ensures Contains(RenderColorful(info), info.primary)
    ensures info.secondary != "" ==> Contains(RenderColorful(info), info.secondary)
  {
    var lines := ColorfulLines(info);
    var color := ColorfulColor(info.kind).0;
    var bgColor := ColorfulColor(info.kind).1;
    var head := Bold + color + "\U{2502}" + Reset + " " + bgColor + Bold + White + " " + Upper(info.kind) + " " + Reset + " " + color;
    var after := ColorfulSecondary(info.secondary);
    assert lines[1] == head + info.primary + (Reset + after);
    ContainsMiddle(head, info.primary, Reset + after);
    JoinContainsLine(lines, 1, info.primary);
    if info.secondary != "" {
      var middle := " " + Dim + Arrow + Reset + " " + Bold;
      assert after == middle + info.secondary + Reset;
      ContainsMiddle(middle, info.secondary, Reset);
      assert lines[1] == head + info.primary + Reset + after + "";
      ContainsWithin(head + info.primary + Reset, after, "", info.secondary);
      JoinContainsLine(lines, 1, info.secondary);
    }
  }

  // ---------------------------------------------------------------------------
  // render_output and the hook's gate

  /**
   * render_output: `minimal` and `emoji` pick their renderer, any other theme the colorful one.
   * The contract is the source's dispatch rule itself; `NoticeShowsPrimary` states what every notice shows.
   */
  function RenderOutput(info: ToolInfo, theme: string): (r: string)
    ensures theme != "minimal" && theme != "emoji" ==> r == RenderColorful(info)
  {
    if theme == "minimal" then RenderMinimal(info)
    else if theme == "emoji" then RenderEmoji(info)
    else RenderColorful(info)
  }

  /** The configured theme, which is never equal to a theme name when it is not text; like `RenderOutput`, its contract is the dispatch rule itself. */
  function RenderTheme(info: ToolInfo, theme: Value): (r: string)
    ensures !theme.Str? ==> r == RenderColorful(info)
  {
    match theme
    case Str(name) => RenderOutput(info, name)
    case _ => RenderColorful(info)
  }

  /** Whatever the theme, the notice names the tool. */
  lemma NoticeShowsPrimary(info: ToolInfo, theme: Value)
    ensures Contains(RenderTheme(info, theme), info.primary)
  {
    OneLineShowsNames(info);
    ColorfulShowsNames(info);
  }

  /** The JSON object the hook prints on standard output. */
  datatype Response = Response(continues: bool, suppressOutput: bool, systemMessage: Option<string>)

  /** The message of the TypeError raised by `category in True` when enabled_categories is a boolean. */
  const BoolNotIterable := "argument of type 'bool' is not iterable"

  /**
   * main, with the standard input decoded into the tool name (absent when the
   * JSON has none) and its input, the two settings files' contents, and the
   * clock's session id and the two times record_tool_usage reads. The use is recorded and the notice rendered
   * only when the tool's category is enabled; the tool always goes ahead, and
   * an error is reported in a system message.
   */
  method HandleEvent(doc: StatsDocument, toolName: Option<string>, toolInput: ToolInput,
                     global: Option<string>, local: Option<string>, sessionId: string, startTime: string, endTime: string)
    returns (response: Response, notice: Option<string>)
    modifies doc
    ensures response.continues && !response.suppressOutput
    ensures var name := toolName.GetOr("unknown");
      var info := ParseToolInfo(name, toolInput);
      match IsCategoryEnabled(info.kind, global, local)
      case Some(true) =>
        && notice == Some(RenderTheme(info, GetTheme(global, local)))
        && response.systemMessage == None
        && doc.sessions == RecordInSessions(old(doc.sessions), name, sessionId, startTime, endTime)
        && doc.totals == CountUse(old(doc.totals), name)
      case Some(false) =>
        && notice == None && response.systemMessage == None
        && doc.sessions == old(doc.sessions) && doc.totals == old(doc.totals)
      case None =>
        && notice == None && response.systemMessage == Some("Tool tracker error: " + BoolNotIterable)
        && doc.sessions == old(doc.sessions) && doc.totals == old(doc.totals)
    ensures old(doc.Valid()) ==> doc.Valid()
    ensures old(doc.Consistent()) ==> doc.Consistent()
  {
    var name := toolName.GetOr("unknown");
    var config := LoadConfig(global, local);
    var theme := GetOr(config, "theme", Str("colorful"));
    var info := ParseToolInfo(name, toolInput);
    var enabled := IsCategoryEnabled(info.kind, global, local);
    match enabled {
      case None =>
        return Response(true, false, Some("Tool tracker error: " + BoolNotIterable)), None;
      case Some(on) =>
        notice := None;
        if on {
          doc.RecordToolUsage(name, sessionId, startTime, endTime);
          notice := Some(RenderTheme(info, theme));
        }
        response := Response(true, false, None);
    }
  }
}
