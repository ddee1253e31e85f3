/** processIssue: an aggregated issue rendered as a card, declaratively by
    the functions and step by step by the method ProcessIssue, which is
    proved equal to them. */
module IssueCard {
  import opened Js
  import opened Helpers
  import opened Card

  // The values processIssue derives before it renders anything.

  /** `issue.metadata || {}` */
  function IssueMeta(issue: Json): (r: Json)
    requires !IsNullish(issue)
    ensures !IsNullish(r)
  {
    Or(Get(issue, "metadata"), Obj(map[]))
  }

  /** `issue.project ? issue.project.slug || issue.project.name : "Sentry
      Project"`. A project with neither a slug nor a name gives the name,
      falsy as it is. */
  function IssueProject(issue: Json): (r: Json)
    requires !IsNullish(issue)
    ensures !Truthy(Get(issue, "project")) ==> r == Str("Sentry Project")
  {
    var project := Get(issue, "project");
    if Truthy(project) then Or(Get(project, "slug"), Get(project, "name")) else Str("Sentry Project")
  }

  /** `meta.sdk?.name_normalized || meta.sdk?.name || "未知SDK"` */
  function IssueSdk(issue: Json): Json
    requires !IsNullish(issue)
  {
    var sdk := Get(IssueMeta(issue), "sdk");
    Or(Or(OptGet(sdk, "name_normalized"), OptGet(sdk, "name")), Str("未知SDK"))
  }

  datatype IssueFields = IssueFields(
    project: Json,
    url: Json,
    level: Json,
    shortId: Json,
    time: string,
    errorMessage: Json,
    errorType: Json,
    culprit: Json,
    platform: Json,
    sdk: Json,
    count: Json,
    userCount: Json,
    priority: Json,
    unhandled: bool,
    firstSeen: Json,
    lastSeen: Json,
    lastSeenTime: string)

  /** Lines 266-291 of processIssue. formatDate is a pure function of its
      argument and the clock, so the rendering of `lastSeen`, which the
      source computes only when it pushes that line, is computed here with
      the rest. Every counter and every part of the tech stack has a truthy
      default. */
  function DeriveIssue(issue: Json, clock: Clock): (f: IssueFields)
    requires !IsNullish(issue)
    ensures Truthy(f.count) && Truthy(f.userCount) && Truthy(f.priority)
    ensures Truthy(f.platform) && Truthy(f.sdk)
    ensures Truthy(f.level) && Truthy(f.errorType) && Truthy(f.culprit)
    ensures f.firstSeen == Get(issue, "firstSeen") && f.lastSeen == Get(issue, "lastSeen")
    ensures f.unhandled <==> Truthy(Get(issue, "isUnhandled"))
  {
    var meta := IssueMeta(issue);
    IssueFields(
      project := IssueProject(issue),
      url := Or(Get(issue, "web_url"), Get(issue, "permalink")),
      level := Or(Get(issue, "level"), Str("error")),
      shortId := Get(issue, "shortId"),
      time := FormatDate(Get(issue, "firstSeen"), clock),
      errorMessage := Or(Get(meta, "value"), Get(issue, "title")),
      errorType := Or(Get(meta, "type"), Str("Error")),
      culprit := Or(Get(issue, "culprit"), Str("未知位置")),
      platform := Or(Get(issue, "platform"), Str("javascript")),
      sdk := IssueSdk(issue),
      count := Or(Get(issue, "count"), Str("1")),
      userCount := Or(Get(issue, "userCount"), Num(1)),
      priority := Or(Get(issue, "priority"), Str("medium")),
      unhandled := Truthy(Get(issue, "isUnhandled")),
      firstSeen := Get(issue, "firstSeen"),
      lastSeen := Get(issue, "lastSeen"),
      lastSeenTime := FormatDate(Get(issue, "lastSeen"), clock))
  }

  // The colour rule.

  /** Red for a fatal or error level, orange otherwise. */
  function IssueTemplate(level: Json): (r: string)
    ensures r == "red" || r == "orange"
    ensures r == "red" <==> level in {Str("fatal"), Str("error")}
  {
    if StrictEquals(level, Str("fatal")) || StrictEquals(level, Str("error")) then "red" else "orange"
  }

  // The body lines.

  /** The conditions under which processIssue pushes its optional lines. */
  datatype IssueSwitches = IssueSwitches(stats: bool, priority: bool, unhandled: bool, tech: bool, lastSeen: bool)

  /** The last-seen line needs a `lastSeen` that is truthy and not `===` to
      `firstSeen`. */
  predicate ShowsLastSeen(f: IssueFields) {
    Truthy(f.lastSeen) && !StrictEquals(f.lastSeen, f.firstSeen)
  }

  function Switches(f: IssueFields): IssueSwitches {
    IssueSwitches(Truthy(f.count) || Truthy(f.userCount), Truthy(f.priority), f.unhandled,
      Truthy(f.platform) || Truthy(f.sdk), ShowsLastSeen(f))
  }

  /** Whether processIssue pushes a line of the given kind. */
  predicate Shown(w: IssueSwitches, k: LineKind) {
    match k
    case ProjectLine => true
    case TypeLine => true
    case MessageLine => true
    case CulpritLine => true
    case StatsLine => w.stats
    case PriorityLine => w.priority
    case UnhandledLine => w.unhandled
    case TechLine => w.tech
    case FirstSeenLine => true
    case LastSeenLine => w.lastSeen
    case _ => false
  }

  predicate IssueLinePresent(f: IssueFields, k: LineKind) {
    Shown(Switches(f), k)
  }

  /** The kinds of line, in the order processIssue pushes them. */
  function Layout(w: IssueSwitches): seq<LineKind> {
    var k0 := [ProjectLine, TypeLine, MessageLine, CulpritLine];
    var k1 := PushIf(k0, w.stats, StatsLine);
    var k2 := PushIf(k1, w.priority, PriorityLine);
    var k3 := PushIf(k2, w.unhandled, UnhandledLine);
    var k4 := PushIf(k3, w.tech, TechLine);
    var k5 := PushIf(k4, true, FirstSeenLine);
    PushIf(k5, w.lastSeen, LastSeenLine)
  }

  function IssueKinds(f: IssueFields): seq<LineKind> {
    Layout(Switches(f))
  }

  /** The four lines every issue card starts with are in order. */
  lemma HeadInOrder()
    ensures InOrder([ProjectLine, TypeLine, MessageLine, CulpritLine])
    ensures Precedes([ProjectLine, TypeLine, MessageLine, CulpritLine], StatsLine)
  {
  }

  lemma LayoutInOrder(w: IssueSwitches)
    ensures InOrder(Layout(w))
  {
    var k0 := [ProjectLine, TypeLine, MessageLine, CulpritLine];
    var k1 := PushIf(k0, w.stats, StatsLine);
    var k2 := PushIf(k1, w.priority, PriorityLine);
    var k3 := PushIf(k2, w.unhandled, UnhandledLine);
    var k4 := PushIf(k3, w.tech, TechLine);
    var k5 := PushIf(k4, true, FirstSeenLine);
    HeadInOrder();
    PushIfKeepsOrder(k0, w.stats, StatsLine, PriorityLine);
    PushIfKeepsOrder(k1, w.priority, PriorityLine, UnhandledLine);
    PushIfKeepsOrder(k2, w.unhandled, UnhandledLine, TechLine);
    PushIfKeepsOrder(k3, w.tech, TechLine, FirstSeenLine);
    PushIfKeepsOrder(k4, true, FirstSeenLine, LastSeenLine);
    PushIfInOrder(k5, w.lastSeen, LastSeenLine);
  }

  lemma LayoutMembers(w: IssueSwitches)
    ensures forall k :: k in Layout(w) <==> Shown(w, k)
  {
    var k0 := [ProjectLine, TypeLine, MessageLine, CulpritLine];
    var k1 := PushIf(k0, w.stats, StatsLine);
    var k2 := PushIf(k1, w.priority, PriorityLine);
    var k3 := PushIf(k2, w.unhandled, UnhandledLine);
    var k4 := PushIf(k3, w.tech, TechLine);
    var k5 := PushIf(k4, true, FirstSeenLine);
    forall k
      ensures k in Layout(w) <==> Shown(w, k)
    {
      assert k in k0 <==> 1 <= Rank(k) <= 4;
      PushIfMember(k0, w.stats, StatsLine, k);
      PushIfMember(k1, w.priority, PriorityLine, k);
      PushIfMember(k2, w.unhandled, UnhandledLine, k);
      PushIfMember(k3, w.tech, TechLine, k);
      PushIfMember(k4, true, FirstSeenLine, k);
      PushIfMember(k5, w.lastSeen, LastSeenLine, k);
    }
  }

  /** The body follows the fixed order and holds a line of each kind exactly
      when processIssue's condition for it holds. */
  lemma IssueLayout(f: IssueFields)
    ensures InOrder(IssueKinds(f))
    ensures forall k :: k in IssueKinds(f) <==> IssueLinePresent(f, k)
  {
    LayoutInOrder(Switches(f));
    LayoutMembers(Switches(f));
  }

  /** So the layout is the only ordered list of the present kinds. */
  lemma IssueLayoutDetermined(f: IssueFields, ks: seq<LineKind>)
    requires InOrder(ks) && forall k :: k in ks <==> IssueLinePresent(f, k)
    ensures ks == IssueKinds(f)
  {
    IssueLayout(f);
    OrderedLayoutUnique(ks, IssueKinds(f));
  }

  /** The body ends with the timestamps: the first-seen line, then the
      last-seen line when it is shown. */
  lemma TimestampsLast(w: IssueSwitches)
    ensures var ks := Layout(w); var n := |ks|;
      n >= 5 &&
      (w.lastSeen ==> n >= 6 && ks[n - 2] == FirstSeenLine && ks[n - 1] == LastSeenLine) &&
      (!w.lastSeen ==> ks[n - 1] == FirstSeenLine)
  {
  }

  /** The stats line: the count, then the number of users. */
  function StatsParts(f: IssueFields): seq<string> {
    (if Truthy(f.count) then ["发生 **" + ToStr(f.count) + "** 次"] else []) +
    (if Truthy(f.userCount) then ["影响 **" + ToStr(f.userCount) + "** 个用户"] else [])
  }

  /** The tech stack: the platform, then the sdk, each when truthy. */
  function IssueTechInfo(f: IssueFields): seq<Json> {
    (if Truthy(f.platform) then [f.platform] else []) + (if Truthy(f.sdk) then [f.sdk] else [])
  }

  /** `priority.toUpperCase()` exists only on strings. */
  predicate PriorityThrows(f: IssueFields) {
    Truthy(f.priority) && !f.priority.Str?
  }

  /** The upper-cased priority; only read when it is a string. */
  function PriorityText(priority: Json): string {
    if priority.Str? then Upper(priority.s) else ""
  }

  // The text of each kind of line.

  function ProjectText(f: IssueFields): string { "**📦 项目:** " + ToStr(f.project) }
  function TypeText(f: IssueFields): string { "**🐛 错误类型:** " + ToStr(f.errorType) }
  function MessageText(f: IssueFields): string { "**📝 错误信息:** " + ToStr(f.errorMessage) }
  function CulpritText(f: IssueFields): string { "**📍 报错位置:** " + ToStr(f.culprit) }
  function StatsText(f: IssueFields): string { "**📊 统计:** " + Join(StatsParts(f), " · ") }
  function PriorityLineText(f: IssueFields): string {
    "**" + GetPriorityIcon(f.priority) + " 优先级:** " + PriorityText(f.priority)
  }
  function TechText(f: IssueFields): string { "**🔧 技术栈:** " + JoinValues(IssueTechInfo(f), " / ") }
  function FirstSeenText(f: IssueFields): string { "**🕐 首次出现:** " + f.time }
  function LastSeenText(f: IssueFields): string { "**🕐 最近出现:** " + f.lastSeenTime }

  /** The text of a line of the given kind. */
  function IssueLine(f: IssueFields, k: LineKind): string {
    match k
    case ProjectLine => ProjectText(f)
    case TypeLine => TypeText(f)
    case MessageLine => MessageText(f)
    case CulpritLine => CulpritText(f)
    case StatsLine => StatsText(f)
    case PriorityLine => PriorityLineText(f)
    case UnhandledLine => UnhandledText
    case TechLine => TechText(f)
    case FirstSeenLine => FirstSeenText(f)
    case LastSeenLine => LastSeenText(f)
    case _ => ""
  }

  /** The texts of the given kinds of line, in order. */
  function RenderLines(f: IssueFields, ks: seq<LineKind>): seq<string> {
    if ks == [] then [] else RenderLines(f, ks[..|ks| - 1]) + [IssueLine(f, ks[|ks| - 1])]
  }

  /** Line i of the body is the text of the i-th kind. */
  lemma {:induction false} RenderLinesAt(f: IssueFields, ks: seq<LineKind>, i: nat)
    requires i < |ks|
    ensures |RenderLines(f, ks)| == |ks|
    ensures RenderLines(f, ks)[i] == IssueLine(f, ks[i])
  {
    if i < |ks| - 1 {
      RenderLinesAt(f, ks[..|ks| - 1], i);
    } else if |ks| > 1 {
      RenderLinesAt(f, ks[..|ks| - 1], 0);
    }
  }

  function IssueLines(f: IssueFields): seq<string> {
    RenderLines(f, IssueKinds(f))
  }

  /** Lines 294-383 of processIssue: the colour, the body and the card. A
      priority that is not a string has no `toUpperCase`. */
  function RenderIssue(f: IssueFields): Outcome<Document> {
    if PriorityThrows(f) then Threw(NotAFunction("toUpperCase"))
    else Returned(Interactive(
      "🚨 Sentry Issue [" + ToStr(f.shortId) + "]",
      IssueTemplate(f.level),
      [Div(Join(IssueLines(f), "\n"))] + Footer(f.url)))
  }

  /** processIssue(issueData). Reading `metadata` of null or undefined
      throws. */
  function IssueCard(issue: Json, clock: Clock): Outcome<Document> {
    if IsNullish(issue) then Threw(CannotReadProperty("metadata"))
    else RenderIssue(DeriveIssue(issue, clock))
  }

  // What processIssue promises.

  /** A card is made of the body, the divider and one action row with the
      single primary details button, and is headed by the short id. */
  lemma IssueCardShape(f: IssueFields)
    requires RenderIssue(f).Returned?
    ensures var d := RenderIssue(f).value;
      d.msgType == "interactive" && d.wideScreen &&
      d.title == "🚨 Sentry Issue [" + ToStr(f.shortId) + "]" &&
      d.template == IssueTemplate(f.level) &&
      d.elements == [Div(Join(IssueLines(f), "\n")), Hr, Action([Button("🔍 查看详情", f.url, "primary")])]
  {
  }

  /** processIssue throws exactly for a missing issue and for a priority
      that is truthy but not a string. */
  lemma IssueThrows(issue: Json, clock: Clock)
    ensures IssueCard(issue, clock).Threw? <==>
      IsNullish(issue) || (Truthy(Get(issue, "priority")) && !Get(issue, "priority").Str?)
    ensures IsNullish(issue) ==> IssueCard(issue, clock) == Threw(CannotReadProperty("metadata"))
    ensures !IsNullish(issue) && IssueCard(issue, clock).Threw? ==>
      IssueCard(issue, clock) == Threw(NotAFunction("toUpperCase"))
  {
  }

  /** A card that was rendered is the rendering of the derived fields. */
  lemma IssueCardOf(issue: Json, clock: Clock)
    requires IssueCard(issue, clock).Returned?
    ensures !IsNullish(issue)
    ensures IssueCard(issue, clock) == RenderIssue(DeriveIssue(issue, clock))
  {
  }

  /** An issue that is there is rendered from its derived fields. */
  lemma IssueCardRenders(issue: Json, clock: Clock)
    requires !IsNullish(issue)
    ensures IssueCard(issue, clock) == RenderIssue(DeriveIssue(issue, clock))
  {
  }

  /** The button opens `web_url`, or `permalink` when there is no web URL,
      and the header names the short id. */
  lemma IssueHeaderAndButton(issue: Json, clock: Clock)
    requires IssueCard(issue, clock).Returned?
    ensures !IsNullish(issue)
    ensures var d := IssueCard(issue, clock).value;
      var url := if Truthy(Get(issue, "web_url")) then Get(issue, "web_url") else Get(issue, "permalink");
      d.title == "🚨 Sentry Issue [" + ToStr(Get(issue, "shortId")) + "]" &&
      |d.elements| == 3 && d.elements[1] == Hr &&
      d.elements[2] == Action([Button(DetailLabel, url, "primary")])
  {
    IssueCardOf(issue, clock);
    IssueCardShape(DeriveIssue(issue, clock));
  }

  /** The colour depends on the level alone: red for "fatal" and "error",
      and for a missing level, which counts as "error". */
  lemma IssueTemplateRule(issue: Json, clock: Clock)
    requires IssueCard(issue, clock).Returned?
    ensures !IsNullish(issue)
    ensures var t := IssueCard(issue, clock).value.template;
      (t == "red" <==> Or(Get(issue, "level"), Str("error")) in {Str("fatal"), Str("error")}) &&
      (!Truthy(Get(issue, "level")) ==> t == "red")
  {
    IssueCardOf(issue, clock);
  }

  /** Two issues with the same level get the same colour, whatever else
      they hold. */
  lemma IssueTemplateOnlyLevel(a: Json, b: Json, clockA: Clock, clockB: Clock)
    requires IssueCard(a, clockA).Returned? && IssueCard(b, clockB).Returned?
    requires !IsNullish(a) && !IsNullish(b) && Get(a, "level") == Get(b, "level")
    ensures IssueCard(a, clockA).value.template == IssueCard(b, clockB).value.template
  {
    IssueTemplateRule(a, clockA);
    IssueTemplateRule(b, clockB);
  }

  /** The stats, priority, tech stack and first-seen lines are always
      there, because their values all have truthy defaults; the last-seen
      line is there exactly when `lastSeen` is truthy and not `===` to
      `firstSeen`. */
  lemma IssueLinesPresent(issue: Json, clock: Clock)
    requires !IsNullish(issue)
    ensures var ks := IssueKinds(DeriveIssue(issue, clock));
      StatsLine in ks && PriorityLine in ks && TechLine in ks && FirstSeenLine in ks &&
      (LastSeenLine in ks <==>
        Truthy(Get(issue, "lastSeen")) && !StrictEquals(Get(issue, "lastSeen"), Get(issue, "firstSeen"))) &&
      (UnhandledLine in ks <==> Truthy(Get(issue, "isUnhandled")))
  {
    var f := DeriveIssue(issue, clock);
    KindsPresent(f);
  }

  /** Which optional lines a field set shows. */
  lemma KindsPresent(f: IssueFields)
    ensures var ks := IssueKinds(f);
      (StatsLine in ks <==> Truthy(f.count) || Truthy(f.userCount)) &&
      (PriorityLine in ks <==> Truthy(f.priority)) &&
      (TechLine in ks <==> Truthy(f.platform) || Truthy(f.sdk)) &&
      FirstSeenLine in ks &&
      (LastSeenLine in ks <==> ShowsLastSeen(f)) &&
      (UnhandledLine in ks <==> f.unhandled)
  {
    var w := Switches(f);
    LayoutMembers(w);
    assert Shown(w, StatsLine) == w.stats && Shown(w, PriorityLine) == w.priority;
    assert Shown(w, TechLine) == w.tech && Shown(w, FirstSeenLine);
    assert Shown(w, LastSeenLine) == w.lastSeen && Shown(w, UnhandledLine) == w.unhandled;
  }

  /** So an issue card shows one or two timestamps, and the last line of the
      body is the latest one shown. */
  lemma IssueTimestamps(f: IssueFields)
    ensures var ls := IssueLines(f);
      |ls| >= 5 &&
      (ShowsLastSeen(f) ==>
        ls[|ls| - 2] == "**🕐 首次出现:** " + f.time && ls[|ls| - 1] == "**🕐 最近出现:** " + f.lastSeenTime) &&
      (!ShowsLastSeen(f) ==> ls[|ls| - 1] == "**🕐 首次出现:** " + f.time)
  {
    var ks := IssueKinds(f);
    TimestampsLast(Switches(f));
    RenderLinesAt(f, ks, |ks| - 1);
    RenderLinesAt(f, ks, |ks| - 2);
  }

  // The imperative rendering.

  /** Rendering after a conditional push is a conditional append. */
  lemma RenderPush(f: IssueFields, ks: seq<LineKind>, cond: bool, k: LineKind)
    ensures RenderLines(f, PushIf(ks, cond, k)) == PushLine(RenderLines(f, ks), cond, IssueLine(f, k))
  {
    if cond {
      assert (ks + [k])[..|ks|] == ks;
    }
  }

  /** The four lines every issue card starts with. */
  lemma RenderFixedLines(f: IssueFields)
    ensures RenderLines(f, [ProjectLine, TypeLine, MessageLine, CulpritLine]) ==
      [IssueLine(f, ProjectLine), IssueLine(f, TypeLine), IssueLine(f, MessageLine), IssueLine(f, CulpritLine)]
  {
    var k0 := [ProjectLine, TypeLine, MessageLine, CulpritLine];
    assert k0[..1] == PushIf([], true, ProjectLine);
    assert k0[..2] == PushIf(k0[..1], true, TypeLine);
    assert k0[..3] == PushIf(k0[..2], true, MessageLine);
    assert k0 == PushIf(k0[..3], true, CulpritLine);
    RenderPush(f, [], true, ProjectLine);
    RenderPush(f, k0[..1], true, TypeLine);
    RenderPush(f, k0[..2], true, MessageLine);
    RenderPush(f, k0[..3], true, CulpritLine);
  }

  /** The body lines as the pushes of processIssue produce them. */
  lemma IssueLinesPushed(f: IssueFields)
    ensures IssueLines(f) ==
      var w := Switches(f);
      var l0 := [IssueLine(f, ProjectLine), IssueLine(f, TypeLine), IssueLine(f, MessageLine), IssueLine(f, CulpritLine)];
      var l1 := PushLine(l0, w.stats, IssueLine(f, StatsLine));
      var l2 := PushLine(l1, w.priority, IssueLine(f, PriorityLine));
      var l3 := PushLine(l2, w.unhandled, IssueLine(f, UnhandledLine));
      var l4 := PushLine(l3, w.tech, IssueLine(f, TechLine));
      var l5 := PushLine(l4, true, IssueLine(f, FirstSeenLine));
      PushLine(l5, w.lastSeen, IssueLine(f, LastSeenLine))
  {
    var w := Switches(f);
    var k0 := [ProjectLine, TypeLine, MessageLine, CulpritLine];
    var k1 := PushIf(k0, w.stats, StatsLine);
    var k2 := PushIf(k1, w.priority, PriorityLine);
    var k3 := PushIf(k2, w.unhandled, UnhandledLine);
    var k4 := PushIf(k3, w.tech, TechLine);
    var k5 := PushIf(k4, true, FirstSeenLine);
    RenderFixedLines(f);
    RenderPush(f, k0, w.stats, StatsLine);
    RenderPush(f, k1, w.priority, PriorityLine);
    RenderPush(f, k2, w.unhandled, UnhandledLine);
    RenderPush(f, k3, w.tech, TechLine);
    RenderPush(f, k4, true, FirstSeenLine);
    RenderPush(f, k5, w.lastSeen, LastSeenLine);
  }

  /** Lines 310-312 of processIssue: the parts of the stats line. */
  method BuildStatsLine(f: IssueFields) returns (statsLine: seq<string>)
    ensures statsLine == StatsParts(f)
  {
    statsLine := [];
    if Truthy(f.count) {
      statsLine := statsLine + ["发生 **" + ToStr(f.count) + "** 次"];
    }
    if Truthy(f.userCount) {
      statsLine := statsLine + ["影响 **" + ToStr(f.userCount) + "** 个用户"];
    }
  }

  /** Lines 328-330 of processIssue: the parts of the tech stack. */
  method BuildTechInfo(f: IssueFields) returns (techInfo: seq<Json>)
    ensures techInfo == IssueTechInfo(f)
  {
    techInfo := [];
    if Truthy(f.platform) {
      techInfo := techInfo + [f.platform];
    }
    if Truthy(f.sdk) {
      techInfo := techInfo + [f.sdk];
    }
  }

  /** Lines 301-319 of processIssue: the four fixed lines, the stats line
      and the priority line, which throws for a priority that is not a
      string. */
  method BuildIssueLines(f: IssueFields) returns (r: Outcome<seq<string>>)
    ensures PriorityThrows(f) ==> r == Threw(NotAFunction("toUpperCase"))
    ensures !PriorityThrows(f) ==> r == Returned(IssueLines(f))
  {
    ghost var w := Switches(f);
    var contentLines := [
      "**📦 项目:** " + ToStr(f.project),
      "**🐛 错误类型:** " + ToStr(f.errorType),
      "**📝 错误信息:** " + ToStr(f.errorMessage),
      "**📍 报错位置:** " + ToStr(f.culprit)
    ];
    ghost var expected := [IssueLine(f, ProjectLine), IssueLine(f, TypeLine), IssueLine(f, MessageLine), IssueLine(f, CulpritLine)];
    assert contentLines == expected;
    if Truthy(f.count) || Truthy(f.userCount) {
      var statsLine := BuildStatsLine(f);
      contentLines := contentLines + ["**📊 统计:** " + Join(statsLine, " · ")];
    }
    expected := PushLine(expected, w.stats, IssueLine(f, StatsLine));
    assert contentLines == expected;
    if Truthy(f.priority) {
      if !f.priority.Str? {
        return Threw(NotAFunction("toUpperCase"));
      }
      var priorityIcon := GetPriorityIcon(f.priority);
      contentLines := contentLines + ["**" + priorityIcon + " 优先级:** " + Upper(f.priority.s)];
    }
    expected := PushLine(expected, w.priority, IssueLine(f, PriorityLine));
    assert contentLines == expected;
    contentLines := PushTrailingLines(f, contentLines);
    IssueLinesPushed(f);
    r := Returned(contentLines);
  }

  /** Lines 322-340 of processIssue: the unhandled line, the tech stack
      line and the timestamps. */
  method PushTrailingLines(f: IssueFields, lines: seq<string>) returns (contentLines: seq<string>)
    ensures contentLines ==
      var w := Switches(f);
      var l3 := PushLine(lines, w.unhandled, IssueLine(f, UnhandledLine));
      var l4 := PushLine(l3, w.tech, IssueLine(f, TechLine));
      var l5 := PushLine(l4, true, IssueLine(f, FirstSeenLine));
      PushLine(l5, w.lastSeen, IssueLine(f, LastSeenLine))
  {
    ghost var w := Switches(f);
    contentLines := lines;
    if f.unhandled {
      contentLines := contentLines + [UnhandledText];
    }
    ghost var expected := PushLine(lines, w.unhandled, IssueLine(f, UnhandledLine));
    assert contentLines == expected;
    if Truthy(f.platform) || Truthy(f.sdk) {
      var techInfo := BuildTechInfo(f);
      contentLines := contentLines + ["**🔧 技术栈:** " + JoinValues(techInfo, " / ")];
    }
    expected := PushLine(expected, w.tech, IssueLine(f, TechLine));
    assert contentLines == expected;
    contentLines := contentLines + ["**🕐 首次出现:** " + f.time];
    assert IssueLine(f, FirstSeenLine) == "**🕐 首次出现:** " + f.time;
    expected := PushLine(expected, true, IssueLine(f, FirstSeenLine));
    assert contentLines == expected;
    if Truthy(f.lastSeen) && !StrictEquals(f.lastSeen, f.firstSeen) {
      contentLines := contentLines + ["**🕐 最近出现:** " + f.lastSeenTime];
    }
    assert IssueLine(f, LastSeenLine) == "**🕐 最近出现:** " + f.lastSeenTime;
  }

  /** Lines 266-291 of processIssue: the values it reads from the issue. */
  method ExtractIssueFields(issue: Json, clock: Clock) returns (f: IssueFields)
    requires !IsNullish(issue)
    ensures f == DeriveIssue(issue, clock)
  {
    var meta := Or(Get(issue, "metadata"), Obj(map[]));
    assert meta == IssueMeta(issue);
    var project := Str("Sentry Project");
    if Truthy(Get(issue, "project")) {
      project := Or(Get(Get(issue, "project"), "slug"), Get(Get(issue, "project"), "name"));
    }
    var url := Or(Get(issue, "web_url"), Get(issue, "permalink"));
    var level := Or(Get(issue, "level"), Str("error"));
    var shortId := Get(issue, "shortId");
    var time := FormatDate(Get(issue, "firstSeen"), clock);

    var errorMessage := Or(Get(meta, "value"), Get(issue, "title"));
    var errorType := Or(Get(meta, "type"), Str("Error"));
    var culprit := Or(Get(issue, "culprit"), Str("未知位置"));
    var platform := Or(Get(issue, "platform"), Str("javascript"));
    var sdk := Or(Or(OptGet(Get(meta, "sdk"), "name_normalized"), OptGet(Get(meta, "sdk"), "name")), Str("未知SDK"));

    var count := Or(Get(issue, "count"), Str("1"));
    var userCount := Or(Get(issue, "userCount"), Num(1));
    var priority := Or(Get(issue, "priority"), Str("medium"));
    var isUnhandled := Get(issue, "isUnhandled");

    f := IssueFields(project, url, level, shortId, time, errorMessage, errorType, culprit, platform, sdk,
      count, userCount, priority, Truthy(isUnhandled), Get(issue, "firstSeen"), Get(issue, "lastSeen"),
      FormatDate(Get(issue, "lastSeen"), clock));
  }

  /** Lines 294-383 of processIssue: the colour, the body and the card. */
  method BuildIssueCard(f: IssueFields) returns (r: Outcome<Document>)
    ensures r == RenderIssue(f)
  {
    var colorTemplate := if StrictEquals(f.level, Str("fatal")) || StrictEquals(f.level, Str("error")) then "red" else "orange";
    var lines := BuildIssueLines(f);
    if lines.Threw? {
      return Threw(lines.error);
    }
    var contentLines := lines.value;
    var cardElements := [Div(Join(contentLines, "\n"))];
    cardElements := cardElements + [Hr, Action([Button(DetailLabel, f.url, "primary")])];
    r := Returned(Document("interactive", true, "🚨 Sentry Issue [" + ToStr(f.shortId) + "]", colorTemplate, cardElements));
  }

  /** processIssue(issueData), step by step as handlers.js writes it. */
  method ProcessIssue(issueData: Json, clock: Clock) returns (r: Outcome<Document>)
    ensures r == IssueCard(issueData, clock)
  {
    if IsNullish(issueData) {
      return Threw(CannotReadProperty("metadata"));
    }
    var fields := ExtractIssueFields(issueData, clock);
    r := BuildIssueCard(fields);
  }

  // A worked example.

  /** The issue of the worked example: project "web", short id WEB-1, level
      error, seen first at the start of 2024, five events, three users and
      a high priority. */
  const ExampleIssue: Json := Obj(map[
    "project" := Obj(map["slug" := Str("web")]),
    "title" := Str("TypeError: x is undefined"),
    "shortId" := Str("WEB-1"),
    "culprit" := Str("login.vue"),
    "level" := Str("error"),
    "firstSeen" := Str("2024-01-01T00:00:00Z"),
    "count" := Num(5),
    "userCount" := Num(3),
    "priority" := Str("high")])

  /** The properties of the example that processIssue reads, in three
      parts. */
  lemma ExampleLookupsHead()
    ensures Get(ExampleIssue, "project") == Obj(map["slug" := Str("web")])
    ensures Get(ExampleIssue, "metadata") == Undefined
    ensures Get(ExampleIssue, "web_url") == Undefined && Get(ExampleIssue, "permalink") == Undefined
    ensures Get(ExampleIssue, "level") == Str("error") && Get(ExampleIssue, "shortId") == Str("WEB-1")
  {
  }

  lemma ExampleLookupsBody()
    ensures Get(ExampleIssue, "firstSeen") == Str("2024-01-01T00:00:00Z")
    ensures Get(ExampleIssue, "title") == Str("TypeError: x is undefined")
    ensures Get(ExampleIssue, "culprit") == Str("login.vue") && Get(ExampleIssue, "platform") == Undefined
  {
  }

  lemma ExampleLookupsStats()
    ensures Get(ExampleIssue, "count") == Num(5) && Get(ExampleIssue, "userCount") == Num(3)
    ensures Get(ExampleIssue, "priority") == Str("high")
    ensures Get(ExampleIssue, "isUnhandled") == Undefined && Get(ExampleIssue, "lastSeen") == Undefined
  {
  }

  /** The fields processIssue derives from it, with their defaults: type
      "Error", platform "javascript", no sdk name, no last-seen time. */
  function ExampleFields(clock: Clock): IssueFields {
    IssueFields(
      Str("web"), Undefined, Str("error"), Str("WEB-1"), clock.shanghai(Str("2024-01-01T00:00:00Z")),
      Str("TypeError: x is undefined"), Str("Error"), Str("login.vue"), Str("javascript"), Str("未知SDK"),
      Num(5), Num(3), Str("high"), false, Str("2024-01-01T00:00:00Z"), Undefined, clock.now)
  }

  lemma ExampleIssueFields(clock: Clock)
    ensures DeriveIssue(ExampleIssue, clock) == ExampleFields(clock)
  {
    ExampleLookupsHead();
    ExampleLookupsBody();
    ExampleLookupsStats();
    ExampleDerivedParts();
  }

  /** Without metadata the sdk takes its default; the project is its slug. */
  lemma ExampleDerivedParts()
    ensures IssueMeta(ExampleIssue) == Obj(map[])
    ensures IssueProject(ExampleIssue) == Str("web")
    ensures IssueSdk(ExampleIssue) == Str("未知SDK")
  {
    ExampleLookupsHead();
    assert Get(Obj(map["slug" := Str("web")]), "slug") == Str("web");
  }

  // The example's lines, one lemma each: the cost of comparing two string
  // literals grows with their length.

  lemma ExampleEvents(f: IssueFields)
    requires f.count == Num(5)
    ensures "发生 **" + ToStr(f.count) + "** 次" == "发生 **5** 次"
  {
    DigitText(5);
    assert [DigitChar(5)] == "5";
  }

  lemma ExampleUsers(f: IssueFields)
    requires f.userCount == Num(3)
    ensures "影响 **" + ToStr(f.userCount) + "** 个用户" == "影响 **3** 个用户"
  {
    DigitText(3);
    assert [DigitChar(3)] == "3";
  }

  /** The stats line for five events by three users. */
  lemma ExampleStatsLine(f: IssueFields)
    requires f.count == Num(5) && f.userCount == Num(3)
    ensures IssueLine(f, StatsLine) == "**📊 统计:** " + ("发生 **5** 次" + " · " + "影响 **3** 个用户")
  {
    ExampleEvents(f);
    ExampleUsers(f);
    assert StatsParts(f) == ["发生 **5** 次", "影响 **3** 个用户"];
    JoinTwo("发生 **5** 次", "影响 **3** 个用户", " · ");
  }

  lemma ExampleStatsText()
    ensures "**📊 统计:** " + ("发生 **5** 次" + " · " + "影响 **3** 个用户") ==
      "**📊 统计:** 发生 **5** 次 · 影响 **3** 个用户"
  {
    assert "发生 **5** 次" + " · " + "影响 **3** 个用户" == "发生 **5** 次 · 影响 **3** 个用户";
  }

  /** The priority line for a high priority. */
  lemma ExamplePriorityLine(f: IssueFields)
    requires f.priority == Str("high")
    ensures IssueLine(f, PriorityLine) == "**🔴 优先级:** HIGH"
  {
    assert Upper("high") == "HIGH";
    assert GetPriorityIcon(f.priority) == "🔴";
  }

  /** The tech stack line for the default platform and sdk. */
  lemma ExampleTechLine(f: IssueFields)
    requires f.platform == Str("javascript") && f.sdk == Str("未知SDK")
    ensures IssueLine(f, TechLine) == "**🔧 技术栈:** " + ("javascript" + " / " + "未知SDK")
  {
    assert IssueTechInfo(f) == [Str("javascript"), Str("未知SDK")];
    JoinValuesTwo(Str("javascript"), Str("未知SDK"), " / ");
  }

  lemma ExampleTechText()
    ensures "**🔧 技术栈:** " + ("javascript" + " / " + "未知SDK") == "**🔧 技术栈:** javascript / 未知SDK"
  {
    assert "javascript" + " / " + "未知SDK" == "javascript / 未知SDK";
  }

  lemma ExampleProjectLine(f: IssueFields)
    requires f.project == Str("web")
    ensures IssueLine(f, ProjectLine) == "**📦 项目:** web"
  {
    assert ToStr(f.project) == "web";
  }

  lemma ExampleTypeLine(f: IssueFields)
    requires f.errorType == Str("Error")
    ensures IssueLine(f, TypeLine) == "**🐛 错误类型:** Error"
  {
    assert ToStr(f.errorType) == "Error";
  }

  lemma ExampleMessageLine(f: IssueFields)
    requires f.errorMessage == Str("TypeError: x is undefined")
    ensures IssueLine(f, MessageLine) == "**📝 错误信息:** TypeError: x is undefined"
  {
    assert ToStr(f.errorMessage) == "TypeError: x is undefined";
  }

  lemma ExampleCulpritLine(f: IssueFields)
    requires f.culprit == Str("login.vue")
    ensures IssueLine(f, CulpritLine) == "**📍 报错位置:** login.vue"
  {
    assert ToStr(f.culprit) == "login.vue";
  }

  /** The example shows the stats, priority, tech stack and first-seen
      lines and no other optional line. */
  lemma ExampleLinesByKind(clock: Clock)
    ensures var f := ExampleFields(clock);
      IssueLines(f) == [IssueLine(f, ProjectLine), IssueLine(f, TypeLine), IssueLine(f, MessageLine),
        IssueLine(f, CulpritLine), IssueLine(f, StatsLine), IssueLine(f, PriorityLine),
        IssueLine(f, TechLine), IssueLine(f, FirstSeenLine)]
  {
    var f := ExampleFields(clock);
    assert Switches(f) == IssueSwitches(true, true, false, true, false);
    IssueLinesPushed(f);
  }

  /** The body of any card with the example's lines and values. */
  lemma ExampleBodyOf(f: IssueFields, when: string)
    requires f.project == Str("web") && f.errorType == Str("Error") && f.culprit == Str("login.vue")
    requires f.errorMessage == Str("TypeError: x is undefined")
    requires f.count == Num(5) && f.userCount == Num(3) && f.priority == Str("high")
    requires f.platform == Str("javascript") && f.sdk == Str("未知SDK") && f.time == when
    requires IssueLines(f) == [IssueLine(f, ProjectLine), IssueLine(f, TypeLine), IssueLine(f, MessageLine),
        IssueLine(f, CulpritLine), IssueLine(f, StatsLine), IssueLine(f, PriorityLine),
        IssueLine(f, TechLine), IssueLine(f, FirstSeenLine)]
    ensures IssueLines(f) == [
        "**📦 项目:** web",
        "**🐛 错误类型:** Error",
        "**📝 错误信息:** TypeError: x is undefined",
        "**📍 报错位置:** login.vue",
        "**📊 统计:** 发生 **5** 次 · 影响 **3** 个用户",
        "**🔴 优先级:** HIGH",
        "**🔧 技术栈:** javascript / 未知SDK",
        "**🕐 首次出现:** " + when]
  {
    ExampleProjectLine(f);
    ExampleTypeLine(f);
    ExampleMessageLine(f);
    ExampleCulpritLine(f);
    ExampleStatsLine(f);
    ExampleStatsText();
    ExamplePriorityLine(f);
    ExampleTechLine(f);
    ExampleTechText();
    assert IssueLine(f, FirstSeenLine) == "**🕐 首次出现:** " + when;
  }

  /** The body of its card. */
  lemma ExampleBodyLines(clock: Clock)
    ensures IssueLines(ExampleFields(clock)) == [
        "**📦 项目:** web",
        "**🐛 错误类型:** Error",
        "**📝 错误信息:** TypeError: x is undefined",
        "**📍 报错位置:** login.vue",
        "**📊 统计:** 发生 **5** 次 · 影响 **3** 个用户",
        "**🔴 优先级:** HIGH",
        "**🔧 技术栈:** javascript / 未知SDK",
        "**🕐 首次出现:** " + clock.shanghai(Str("2024-01-01T00:00:00Z"))]
  {
    ExampleLinesByKind(clock);
    ExampleBodyOf(ExampleFields(clock), clock.shanghai(Str("2024-01-01T00:00:00Z")));
  }

  /** The card of any issue with the fields of the example. */
  lemma ExampleCardOfFields(issue: Json, clock: Clock)
    requires !IsNullish(issue) && DeriveIssue(issue, clock) == ExampleFields(clock)
    ensures IssueCard(issue, clock).Returned?
    ensures var d := IssueCard(issue, clock).value;
      d.title == "🚨 Sentry Issue [WEB-1]" && d.template == "red" &&
      d.elements[0] == Div(Join(IssueLines(ExampleFields(clock)), "\n"))
  {
    var f := ExampleFields(clock);
    IssueCardRenders(issue, clock);
    assert !PriorityThrows(f) && f.shortId == Str("WEB-1") && f.level == Str("error");
    IssueCardShape(f);
  }

  /** Its card: a red header for WEB-1 and a body that counts five events
      by three users at high priority, seen once. */
  lemma ExampleIssueCard(clock: Clock)
    ensures IssueCard(ExampleIssue, clock).Returned?
    ensures var d := IssueCard(ExampleIssue, clock).value;
      d.title == "🚨 Sentry Issue [WEB-1]" && d.template == "red" &&
      d.elements[0] == Div(Join([
        "**📦 项目:** web",
        "**🐛 错误类型:** Error",
        "**📝 错误信息:** TypeError: x is undefined",
        "**📍 报错位置:** login.vue",
        "**📊 统计:** 发生 **5** 次 · 影响 **3** 个用户",
        "**🔴 优先级:** HIGH",
        "**🔧 技术栈:** javascript / 未知SDK",
        "**🕐 首次出现:** " + clock.shanghai(Str("2024-01-01T00:00:00Z"))], "\n"))
  {
    ExampleIssueFields(clock);
    ExampleBodyLines(clock);
    ExampleCardOfFields(ExampleIssue, clock);
  }
}
