/** processError: one concrete error event rendered as a card. The
    functions give the card declaratively; the method ProcessError builds it
    step by step, as handlers.js does, and is proved equal to them. */
module ErrorCard {
  import opened Js
  import opened Helpers
  import opened Card

  const Marker: string := "报错行数未知"
  const Placeholder: string := "报错行数未知（请检查是否开启 SourceMap）"
  const HintText: string := "💡 **提示：** 无法获取具体报错行数，建议检查项目配置：\n- 确保构建时开启了 SourceMap\n- 确保已上传 SourceMap 到 Sentry"

  // The values processError derives before it renders anything.

  /** `error.metadata || {}` */
  function Meta(error: Json): Json
    requires !IsNullish(error)
  {
    Or(Get(error, "metadata"), Obj(map[]))
  }

  /** `error.tags || []` */
  function Tags(error: Json): Json
    requires !IsNullish(error)
  {
    Or(Get(error, "tags"), Arr([]))
  }

  /** `error.exception?.values?.[0] || {}` */
  function Exception(error: Json): Json
    requires !IsNullish(error)
  {
    Or(OptIndex(OptGet(Get(error, "exception"), "values"), 0), Obj(map[]))
  }

  /** `exception.stacktrace?.frames || []` */
  function Frames(error: Json): Json
    requires !IsNullish(error)
  {
    var exception := Exception(error);
    Or(OptGet(Get(exception, "stacktrace"), "frames"), Arr([]))
  }

  /** `stacktrace.length` as `> 0` and `- 1` read it: the length of an array
      or a string, and for an object its own `length` field converted to a
      number (a positive integer, `true` as 1, a string of decimal digits);
      0 for a value whose length is missing, not positive, or not a
      number. */
  function FrameCount(frames: Json): nat {
    match frames
    case Arr(items) => |items|
    case Str(s) => |s|
    case Obj(_) =>
      (match Get(frames, "length")
       case Num(n) => if n > 0 then n else 0
       case Bool(b) => if b then 1 else 0
       case Str(s) => if forall i | 0 <= i < |s| :: '0' <= s[i] <= '9' then DigitsValue(s) else 0
       case _ => 0)
    case _ => 0
  }

  /** `stacktrace[stacktrace.length - 1]` when `stacktrace.length > 0`: the
      last element of an array, the last character of a string, and for an
      object with a positive `length` n its property "n-1", which may well be
      missing. */
  function LastFrame(frames: Json): (r: Option<Json>)
    ensures r.Some? <==> FrameCount(frames) > 0
    ensures r.Some? && frames.Arr? ==> r.value == frames.items[|frames.items| - 1]
    ensures r.Some? && frames.Obj? ==> r.value == Get(frames, NatToString(FrameCount(frames) - 1))
  {
    var n := FrameCount(frames);
    if n > 0 then Some(Index(frames, n - 1)) else None
  }

  /** The environment tag, else the `environment` field, else "unknown". */
  function ResolvedEnvironment(error: Json): Json
    requires !IsNullish(error)
  {
    Or(Or(GetTagValue(Tags(error), "environment"), Get(error, "environment")), Str("unknown"))
  }

  /** `error.level || "error"` */
  function Level(error: Json): Json
    requires !IsNullish(error)
  {
    Or(Get(error, "level"), Str("error"))
  }

  // The code location.

  function LineSuffix(lineno: Json): string {
    if Truthy(lineno) then ":" + ToStr(lineno) else ""
  }

  function FunctionSuffix(fn: Json): string {
    if Truthy(fn) then " (" + ToStr(fn) + ")" else ""
  }

  /** The value of a `let` after `+=` of the given text, or the value
      itself when there is nothing to append. */
  function Appended(v: Json, suffix: string): (r: Json)
    ensures ToStr(r) == ToStr(v) + suffix
  {
    if suffix == "" then v else Concat(v, suffix)
  }

  lemma AppendedTwice(v: Json, a: string, b: string)
    ensures Appended(Appended(v, a), b) == Appended(v, a + b)
  {
    if a != "" && b != "" {
      ConcatTwice(v, a, b);
    }
  }

  /** The code location: the metadata file with its line and function, else
      the last frame's file with its line, its column (only after a line)
      and its function, else the placeholder. Reading the file of a null
      last frame throws. */
  function CodeLocation(meta: Json, lastFrame: Option<Json>): (r: Outcome<Json>)
    requires !IsNullish(meta)
    ensures r.Threw? <==>
      !Truthy(Get(meta, "filename")) && lastFrame.Some? && IsNullish(lastFrame.value)
    ensures r.Returned? ==> Truthy(r.value)
  {
    var file := Get(meta, "filename");
    if Truthy(file) then
      Returned(Appended(file, LineSuffix(Get(meta, "lineno")) + FunctionSuffix(Get(meta, "function"))))
    else match lastFrame
      case None => Returned(Str(Placeholder))
      case Some(frame) =>
        if IsNullish(frame) then Threw(CannotReadProperty("filename"))
        else
          var frameFile := Get(frame, "filename");
          var lineno := Get(frame, "lineno");
          var column := if Truthy(lineno) then LineSuffix(Get(frame, "colno")) else "";
          if !Truthy(frameFile) then Returned(Str(Placeholder))
          else Returned(Appended(frameFile, LineSuffix(lineno) + column + FunctionSuffix(Get(frame, "function"))))
  }

  /** Neither the metadata nor the last frame names a file. */
  predicate UsesPlaceholder(meta: Json, lastFrame: Option<Json>)
    requires !IsNullish(meta)
  {
    !Truthy(Get(meta, "filename")) &&
    (lastFrame.None? || (!IsNullish(lastFrame.value) && !Truthy(Get(lastFrame.value, "filename"))))
  }

  /** The location is the placeholder text exactly when no file is named,
      unless a named file is itself spelled like the placeholder. */
  lemma PlaceholderWhenNoFile(meta: Json, lastFrame: Option<Json>)
    requires !IsNullish(meta)
    ensures UsesPlaceholder(meta, lastFrame) ==> CodeLocation(meta, lastFrame) == Returned(Str(Placeholder))
    ensures CodeLocation(meta, lastFrame).Returned? && !UsesPlaceholder(meta, lastFrame) ==>
      var file := if Truthy(Get(meta, "filename")) then Get(meta, "filename") else Get(lastFrame.value, "filename");
      Truthy(file) && ToStr(file) <= ToStr(CodeLocation(meta, lastFrame).value)
  {
  }

  /** A file in the metadata wins: the stack frames are not consulted. */
  lemma {:induction false} MetadataFileWins(meta: Json, a: Option<Json>, b: Option<Json>)
    requires !IsNullish(meta) && Truthy(Get(meta, "filename"))
    ensures CodeLocation(meta, a) == CodeLocation(meta, b)
    ensures CodeLocation(meta, a).Returned?
    ensures ToStr(CodeLocation(meta, a).value) ==
      ToStr(Get(meta, "filename")) + LineSuffix(Get(meta, "lineno")) + FunctionSuffix(Get(meta, "function"))
  {
  }

  /** Without a file in the metadata, nothing else of the metadata shows in
      the location. */
  lemma {:induction false} FrameIgnoresMetadata(meta: Json, lastFrame: Option<Json>)
    requires !IsNullish(meta) && !Truthy(Get(meta, "filename"))
    ensures CodeLocation(meta, lastFrame) == CodeLocation(Obj(map[]), lastFrame)
  {
  }

  /** A frame's column is shown only after its line: with no line number the
      column does not affect the location. */
  lemma {:induction false} ColumnNeedsLine(meta: Json, frame: map<string, Json>, column: Json)
    requires !IsNullish(meta) && !Truthy(Get(meta, "filename"))
    requires "lineno" !in frame || !Truthy(frame["lineno"])
    ensures CodeLocation(meta, Some(Obj(frame["colno" := column]))) == CodeLocation(meta, Some(Obj(frame)))
  {
    var f := Obj(frame);
    var g := Obj(frame["colno" := column]);
    assert Get(g, "filename") == Get(f, "filename");
    assert Get(g, "lineno") == Get(f, "lineno");
    assert Get(g, "function") == Get(f, "function");
  }

  /** Without a file in the metadata, a last frame that names a file gives
      the file, `:lineno` when there is a line number, `:colno` after it when
      there is also a column, and ` (function)` when there is a function. */
  lemma LastFrameText(meta: Json, frame: Json)
    requires !IsNullish(meta) && !Truthy(Get(meta, "filename"))
    requires !IsNullish(frame) && Truthy(Get(frame, "filename"))
    ensures CodeLocation(meta, Some(frame)).Returned?
    ensures ToStr(CodeLocation(meta, Some(frame)).value) ==
      ToStr(Get(frame, "filename")) + LineSuffix(Get(frame, "lineno")) +
      (if Truthy(Get(frame, "lineno")) then LineSuffix(Get(frame, "colno")) else "") +
      FunctionSuffix(Get(frame, "function"))
  {
  }

  /** An object in place of the frame list is read through its own
      `length`: with `length` 1 and no property "0" the last frame is
      undefined, and reading its file throws. */
  lemma LengthOnlyFramesThrow(meta: Json)
    requires !IsNullish(meta) && !Truthy(Get(meta, "filename"))
    ensures CodeLocation(meta, LastFrame(Obj(map["length" := Num(1)]))) == Threw(CannotReadProperty("filename"))
  {
    assert NatToString(0) == "0";
    assert Get(Obj(map["length" := Num(1)]), "0") == Undefined;
  }

  /** ... and with a property "0" that names a file, that file is the
      location. */
  lemma ObjectFramesFile(meta: Json)
    requires !IsNullish(meta) && !Truthy(Get(meta, "filename"))
    ensures CodeLocation(meta, LastFrame(Obj(map["length" := Num(1), "0" := Obj(map["filename" := Str("a.js")])]))) ==
      Returned(Str("a.js"))
  {
    var frames := Obj(map["length" := Num(1), "0" := Obj(map["filename" := Str("a.js")])]);
    assert NatToString(0) == "0";
    assert LastFrame(frames) == Some(Obj(map["filename" := Str("a.js")]));
  }

  /** The lines 111-139 of processError: `errorLocation` grows by `+=`. */
  method BuildErrorLocation(meta: Json, stacktrace: Json) returns (r: Outcome<Json>)
    requires !IsNullish(meta)
    ensures r == CodeLocation(meta, LastFrame(stacktrace))
  {
    var errorLocation := Str("");
    var lastFrame := LastFrame(stacktrace);
    if Truthy(Get(meta, "filename")) {
      errorLocation := Get(meta, "filename");
      if Truthy(Get(meta, "lineno")) {
        errorLocation := Concat(errorLocation, ":" + ToStr(Get(meta, "lineno")));
      }
      if Truthy(Get(meta, "function")) {
        errorLocation := Concat(errorLocation, " (" + ToStr(Get(meta, "function")) + ")");
      }
      AppendedTwice(Get(meta, "filename"), LineSuffix(Get(meta, "lineno")), FunctionSuffix(Get(meta, "function")));
    } else if lastFrame.Some? {
      var frame := lastFrame.value;
      if IsNullish(frame) {
        return Threw(CannotReadProperty("filename"));
      }
      if Truthy(Get(frame, "filename")) {
        errorLocation := Get(frame, "filename");
        ghost var column := "";
        if Truthy(Get(frame, "lineno")) {
          errorLocation := Concat(errorLocation, ":" + ToStr(Get(frame, "lineno")));
          if Truthy(Get(frame, "colno")) {
            errorLocation := Concat(errorLocation, ":" + ToStr(Get(frame, "colno")));
          }
          column := LineSuffix(Get(frame, "colno"));
          AppendedTwice(Get(frame, "filename"), LineSuffix(Get(frame, "lineno")), column);
        }
        if Truthy(Get(frame, "function")) {
          errorLocation := Concat(errorLocation, " (" + ToStr(Get(frame, "function")) + ")");
        }
        AppendedTwice(Get(frame, "filename"), LineSuffix(Get(frame, "lineno")) + column, FunctionSuffix(Get(frame, "function")));
      }
    }
    if !Truthy(errorLocation) {
      errorLocation := Str(Placeholder);
    }
    r := Returned(errorLocation);
  }

  // The colour rule.

  /** Red for a production environment (compared case-sensitively) or a
      fatal or error level, orange otherwise. */
  function ErrorTemplate(environment: Json, level: Json): (r: string)
    ensures r == "red" || r == "orange"
    ensures r == "red" <==>
      environment in {Str("production"), Str("prod")} || level in {Str("fatal"), Str("error")}
  {
    if StrictEquals(environment, Str("production")) || StrictEquals(environment, Str("prod")) then "red"
    else if StrictEquals(level, Str("fatal")) || StrictEquals(level, Str("error")) then "red"
    else "orange"
  }

  // The derived field set.

  datatype ErrorFields = ErrorFields(
    environment: Json,
    env: EnvInfo,
    browser: Json,
    os: Json,
    pageUrl: Json,
    release: Json,
    transaction: Json,
    project: Json,
    url: Json,
    level: Json,
    time: string,
    errorMessage: Json,
    errorType: Json,
    culprit: Json,
    platform: Json,
    sdk: Json,
    sdkVersion: Json,
    location: Json,
    unhandled: bool)

  /** Lines 73-143 of processError. Reading the table entry of a truthy
      environment that is not a string throws, and so does reading the file
      of a null last frame. */
  function ExtractError(error: Json, clock: Clock): Outcome<ErrorFields>
    requires !IsNullish(error)
  {
    match GetEnvironmentInfo(ResolvedEnvironment(error))
    case Threw(e) => Threw(e)
    case Returned(envInfo) =>
      match CodeLocation(Meta(error), LastFrame(Frames(error)))
      case Threw(e) => Threw(e)
      case Returned(location) => Returned(DeriveFields(error, clock, envInfo, location))
  }

  /** `getTagValue(tags, "browser") || "未知浏览器"` */
  function Browser(error: Json): Json
    requires !IsNullish(error)
  {
    Or(GetTagValue(Tags(error), "browser"), Str("未知浏览器"))
  }

  /** `getTagValue(tags, "os") || "未知系统"` */
  function Os(error: Json): Json
    requires !IsNullish(error)
  {
    Or(GetTagValue(Tags(error), "os"), Str("未知系统"))
  }

  /** The url tag, else `error.request?.url`, else the empty string. */
  function PageUrl(error: Json): Json
    requires !IsNullish(error)
  {
    Or(Or(GetTagValue(Tags(error), "url"), OptGet(Get(error, "request"), "url")), Str(""))
  }

  /** The release tag, else `error.release`, else the empty string. */
  function Release(error: Json): Json
    requires !IsNullish(error)
  {
    Or(Or(GetTagValue(Tags(error), "release"), Get(error, "release")), Str(""))
  }

  /** The transaction tag, else `error.transaction`, else the empty string. */
  function Transaction(error: Json): Json
    requires !IsNullish(error)
  {
    Or(Or(GetTagValue(Tags(error), "transaction"), Get(error, "transaction")), Str(""))
  }

  /** The exception value, else the metadata value, else the title (itself
      `error.title || exception.value || "Unknown Error"`). */
  function ErrorMessage(error: Json): Json
    requires !IsNullish(error)
  {
    var exception := Exception(error);
    var title := Or(Or(Get(error, "title"), Get(exception, "value")), Str("Unknown Error"));
    Or(Or(Get(exception, "value"), Get(Meta(error), "value")), title)
  }

  /** The exception type, else the metadata type, else "Error". */
  function ErrorType(error: Json): Json
    requires !IsNullish(error)
  {
    Or(Or(Get(Exception(error), "type"), Get(Meta(error), "type")), Str("Error"))
  }

  /** The `handled` tag is the string "no", or the exception mechanism says
      `handled: false`. */
  predicate IsUnhandled(error: Json)
    requires !IsNullish(error)
  {
    StrictEquals(GetTagValue(Tags(error), "handled"), Str("no")) ||
    StrictEquals(OptGet(Get(Exception(error), "mechanism"), "handled"), Bool(false))
  }

  /** Extraction throws exactly when the environment is not a string or the
      last frame is null with no file in the metadata. */
  lemma ExtractErrorThrows(error: Json, clock: Clock)
    requires !IsNullish(error)
    ensures ExtractError(error, clock).Threw? <==>
      !ResolvedEnvironment(error).Str? ||
      (!Truthy(Get(Meta(error), "filename")) && LastFrame(Frames(error)).Some? && IsNullish(LastFrame(Frames(error)).value))
  {
  }

  /** The field set, once the environment entry and the code location are
      known. Every displayed field except the optional release, page URL and
      transaction resolves to a truthy value, so no line shows a missing
      value. */
  function DeriveFields(error: Json, clock: Clock, envInfo: EnvInfo, location: Json): (f: ErrorFields)
    requires !IsNullish(error)
    ensures Truthy(f.environment) && f.env == envInfo && f.location == location
    ensures Truthy(f.browser) && Truthy(f.os) && Truthy(f.project) && Truthy(f.level)
    ensures Truthy(f.errorMessage) && Truthy(f.errorType) && Truthy(f.culprit)
    ensures Truthy(f.platform) && Truthy(f.sdk)
  {
    ErrorFields(
      environment := ResolvedEnvironment(error),
      env := envInfo,
      browser := Browser(error),
      os := Os(error),
      pageUrl := PageUrl(error),
      release := Release(error),
      transaction := Transaction(error),
      project := Or(Get(error, "project"), Str("Sentry Project")),
      url := Get(error, "web_url"),
      level := Level(error),
      time := FormatDate(Get(error, "datetime"), clock),
      errorMessage := ErrorMessage(error),
      errorType := ErrorType(error),
      culprit := Or(Get(error, "culprit"), Str("未知位置")),
      platform := Or(Get(error, "platform"), Str("javascript")),
      sdk := Or(OptGet(Get(error, "sdk"), "name"), Str("未知SDK")),
      sdkVersion := Or(OptGet(Get(error, "sdk"), "version"), Str("")),
      location := location,
      unhandled := IsUnhandled(error))
  }

  // The body lines.

  /** The conditions under which processError pushes its optional lines:
      release, page URL, transaction, unhandled, tech stack. */
  datatype ErrorSwitches = ErrorSwitches(release: bool, pageUrl: bool, transaction: bool, unhandled: bool, tech: bool)

  function Switches(f: ErrorFields): ErrorSwitches {
    ErrorSwitches(Truthy(f.release), Truthy(f.pageUrl), Truthy(f.transaction), f.unhandled,
      Truthy(f.platform) || Truthy(f.sdk))
  }

  /** Whether processError pushes a line of the given kind. */
  predicate Shown(w: ErrorSwitches, k: LineKind) {
    match k
    case EnvLine => true
    case ProjectLine => true
    case TypeLine => true
    case MessageLine => true
    case CulpritLine => true
    case LocationLine => true
    case ReleaseLine => w.release
    case PageUrlLine => w.pageUrl
    case TransactionLine => w.transaction
    case ClientLine => true
    case UnhandledLine => w.unhandled
    case TechLine => w.tech
    case TimeLine => true
    case _ => false
  }

  predicate ErrorLinePresent(f: ErrorFields, k: LineKind) {
    Shown(Switches(f), k)
  }

  /** The kinds of line, in the order processError pushes them. */
  function Layout(w: ErrorSwitches): seq<LineKind> {
    var k0 := [EnvLine, ProjectLine, TypeLine, MessageLine, CulpritLine, LocationLine];
    var k1 := PushIf(k0, w.release, ReleaseLine);
    var k2 := PushIf(k1, w.pageUrl, PageUrlLine);
    var k3 := PushIf(k2, w.transaction, TransactionLine);
    var k4 := PushIf(k3, true, ClientLine);
    var k5 := PushIf(k4, w.unhandled, UnhandledLine);
    var k6 := PushIf(k5, w.tech, TechLine);
    PushIf(k6, true, TimeLine)
  }

  function ErrorKinds(f: ErrorFields): seq<LineKind> {
    Layout(Switches(f))
  }

  lemma LayoutInOrder(w: ErrorSwitches)
    ensures InOrder(Layout(w))
  {
    var k0 := [EnvLine, ProjectLine, TypeLine, MessageLine, CulpritLine, LocationLine];
    var k1 := PushIf(k0, w.release, ReleaseLine);
    var k2 := PushIf(k1, w.pageUrl, PageUrlLine);
    var k3 := PushIf(k2, w.transaction, TransactionLine);
    var k4 := PushIf(k3, true, ClientLine);
    var k5 := PushIf(k4, w.unhandled, UnhandledLine);
    var k6 := PushIf(k5, w.tech, TechLine);
    assert InOrder(k0) && Precedes(k0, ReleaseLine);
    PushIfKeepsOrder(k0, w.release, ReleaseLine, PageUrlLine);
    PushIfKeepsOrder(k1, w.pageUrl, PageUrlLine, TransactionLine);
    PushIfKeepsOrder(k2, w.transaction, TransactionLine, ClientLine);
    PushIfKeepsOrder(k3, true, ClientLine, UnhandledLine);
    PushIfKeepsOrder(k4, w.unhandled, UnhandledLine, TechLine);
    PushIfKeepsOrder(k5, w.tech, TechLine, TimeLine);
    PushIfKeepsOrder(k6, true, TimeLine, FirstSeenLine);
  }

  lemma LayoutMembers(w: ErrorSwitches)
    ensures forall k :: k in Layout(w) <==> Shown(w, k)
  {
    var k0 := [EnvLine, ProjectLine, TypeLine, MessageLine, CulpritLine, LocationLine];
    var k1 := PushIf(k0, w.release, ReleaseLine);
    var k2 := PushIf(k1, w.pageUrl, PageUrlLine);
    var k3 := PushIf(k2, w.transaction, TransactionLine);
    var k4 := PushIf(k3, true, ClientLine);
    var k5 := PushIf(k4, w.unhandled, UnhandledLine);
    var k6 := PushIf(k5, w.tech, TechLine);
    forall k
      ensures k in Layout(w) <==> Shown(w, k)
    {
      assert k in k0 <==> Rank(k) < 6;
      PushIfMember(k0, w.release, ReleaseLine, k);
      PushIfMember(k1, w.pageUrl, PageUrlLine, k);
      PushIfMember(k2, w.transaction, TransactionLine, k);
      PushIfMember(k3, true, ClientLine, k);
      PushIfMember(k4, w.unhandled, UnhandledLine, k);
      PushIfMember(k5, w.tech, TechLine, k);
      PushIfMember(k6, true, TimeLine, k);
    }
  }

  /** The body follows the fixed order and holds a line of each kind exactly
      when that line's value is present. */
  lemma ErrorLayout(f: ErrorFields)
    ensures InOrder(ErrorKinds(f))
    ensures forall k :: k in ErrorKinds(f) <==> ErrorLinePresent(f, k)
  {
    LayoutInOrder(Switches(f));
    LayoutMembers(Switches(f));
  }

  /** The location is always the sixth line. */
  lemma LocationLineSixth(w: ErrorSwitches)
    ensures |Layout(w)| > 5 && Layout(w)[5] == LocationLine
  {
  }

  /** So the layout is the only ordered list of the present kinds. */
  lemma ErrorLayoutDetermined(f: ErrorFields, ks: seq<LineKind>)
    requires InOrder(ks) && forall k :: k in ks <==> ErrorLinePresent(f, k)
    ensures ks == ErrorKinds(f)
  {
    ErrorLayout(f);
    OrderedLayoutUnique(ks, ErrorKinds(f));
  }

  /** `techInfo` of processError: the platform, then `sdk@version` or the
      sdk alone. */
  function ErrorTechInfo(f: ErrorFields): seq<Json> {
    [f.platform] +
    if Truthy(f.sdk) && Truthy(f.sdkVersion) then [Str(ToStr(f.sdk) + "@" + ToStr(f.sdkVersion))]
    else if Truthy(f.sdk) then [f.sdk]
    else []
  }

  /** The text of a line of the given kind. */
  function ErrorLine(f: ErrorFields, k: LineKind): string {
    match k
    case EnvLine => "**" + f.env.icon + " 环境:** " + f.env.name
    case ProjectLine => "**📦 项目:** " + ToStr(f.project)
    case TypeLine => "**🐛 错误类型:** " + ToStr(f.errorType)
    case MessageLine => "**📝 错误信息:** " + ToStr(f.errorMessage)
    case CulpritLine => "**📍 报错位置:** " + ToStr(f.culprit)
    case LocationLine => "**📄 代码行数:** " + ToStr(f.location)
    case ReleaseLine => "**🏷️ 版本:** " + ToStr(f.release)
    case PageUrlLine => "**🔗 页面URL:** " + ToStr(f.pageUrl)
    case TransactionLine => "**📑 页面/事务:** " + ToStr(f.transaction)
    case ClientLine => "**💻 环境信息:** " + ToStr(f.browser) + " / " + ToStr(f.os)
    case UnhandledLine => UnhandledText
    case TechLine => "**🔧 技术栈:** " + JoinValues(ErrorTechInfo(f), " / ")
    case TimeLine => "**🕐 发生时间:** " + f.time
    case _ => ""
  }

  /** The texts of the given kinds of line, in order. */
  function RenderLines(f: ErrorFields, ks: seq<LineKind>): seq<string> {
    if ks == [] then [] else RenderLines(f, ks[..|ks| - 1]) + [ErrorLine(f, ks[|ks| - 1])]
  }

  /** Line i of the body is the text of the i-th kind. */
  lemma {:induction false} RenderLinesAt(f: ErrorFields, ks: seq<LineKind>, i: nat)
    requires i < |ks|
    ensures |RenderLines(f, ks)| == |ks|
    ensures RenderLines(f, ks)[i] == ErrorLine(f, ks[i])
  {
    if i < |ks| - 1 {
      RenderLinesAt(f, ks[..|ks| - 1], i);
    } else if |ks| > 1 {
      RenderLinesAt(f, ks[..|ks| - 1], 0);
    }
  }

  function ErrorLines(f: ErrorFields): seq<string> {
    RenderLines(f, ErrorKinds(f))
  }

  /** The card elements: the body, the hint when asked for, the footer. */
  function ErrorElements(content: string, hint: bool, url: Json): seq<Element> {
    [Div(content)] + (if hint then [Div(HintText)] else []) + Footer(url)
  }

  /** Lines 153-256 of processError. The hint is decided by
      `errorLocation.includes(...)`, which throws for a location that is
      neither a string nor an array. */
  function RenderError(f: ErrorFields): Outcome<Document> {
    match Includes(f.location, Marker)
    case Threw(e) => Threw(e)
    case Returned(hint) =>
      Returned(Interactive(
        f.env.icon + " Sentry Error [" + f.env.name + "]",
        ErrorTemplate(f.environment, f.level),
        ErrorElements(Join(ErrorLines(f), "\n"), hint, f.url)))
  }

  /** processError(errorData). Reading `metadata` of null or undefined
      throws. */
  function ErrorCard(error: Json, clock: Clock): Outcome<Document> {
    if IsNullish(error) then Threw(CannotReadProperty("metadata"))
    else match ExtractError(error, clock)
      case Threw(e) => Threw(e)
      case Returned(f) => RenderError(f)
  }

  /** A card that was rendered is the rendering of the extracted fields. */
  lemma ErrorCardOf(error: Json, clock: Clock)
    requires ErrorCard(error, clock).Returned?
    ensures !IsNullish(error) && ExtractError(error, clock).Returned?
    ensures ErrorCard(error, clock) == RenderError(ExtractError(error, clock).value)
  {
  }

  lemma PlaceholderHasMarker()
    ensures HasSubstring(Placeholder, Marker)
  {
    assert Marker <= Placeholder;
  }

  /** The hint block sits between the body and the divider exactly when the
      location text includes the marker; the placeholder always does. A card
      is made of the body, the optional hint, the divider and one action row
      with the single primary details button for `web_url`. */
  lemma ErrorCardShape(f: ErrorFields)
    requires RenderError(f).Returned?
    ensures var d := RenderError(f).value; var n := |d.elements|;
      d.msgType == "interactive" && d.wideScreen &&
      d.title == f.env.icon + " Sentry Error [" + f.env.name + "]" &&
      (n == 3 || n == 4) &&
      d.elements[0] == Div(Join(ErrorLines(f), "\n")) &&
      d.elements[n - 2] == Hr &&
      d.elements[n - 1] == Action([Button("🔍 查看详情", f.url, "primary")]) &&
      (n == 4 <==> Includes(f.location, Marker) == Returned(true)) &&
      (n == 4 ==> d.elements[1] == Div(HintText))
    ensures f.location == Str(Placeholder) ==> |RenderError(f).value.elements| == 4
  {
    PlaceholderHasMarker();
  }

  /** With no file in the metadata and no stack frames, the location is the
      placeholder. */
  lemma NoFileLocation(error: Json, clock: Clock)
    requires !IsNullish(error) && !Truthy(Get(Meta(error), "filename")) && LastFrame(Frames(error)).None?
    requires ResolvedEnvironment(error).Str?
    ensures ExtractError(error, clock).Returned?
    ensures ExtractError(error, clock).value.location == Str(Placeholder)
  {
    ExtractErrorThrows(error, clock);
    ExtractedFields(error, clock);
  }

  /** ... so the location line shows the placeholder and the card carries
      the source-map hint. */
  lemma NoFileGivesHint(error: Json, clock: Clock)
    requires !IsNullish(error) && !Truthy(Get(Meta(error), "filename")) && LastFrame(Frames(error)).None?
    requires ResolvedEnvironment(error).Str?
    ensures ExtractError(error, clock).Returned? && ErrorCard(error, clock).Returned?
    ensures "**📄 代码行数:** " + Placeholder in ErrorLines(ExtractError(error, clock).value)
    ensures var d := ErrorCard(error, clock).value;
      |d.elements| == 4 && d.elements[1] == Div(HintText)
  {
    NoFileLocation(error, clock);
    var f := ExtractError(error, clock).value;
    assert ErrorCard(error, clock) == RenderError(f);
    ErrorCardShape(f);
    PlaceholderLine(f);
  }

  /** The location line of a placeholder location. */
  lemma PlaceholderLine(f: ErrorFields)
    requires f.location == Str(Placeholder)
    ensures "**📄 代码行数:** " + Placeholder in ErrorLines(f)
  {
    LocationLineSixth(Switches(f));
    RenderLinesAt(f, ErrorKinds(f), 5);
    assert ErrorLines(f)[5] == "**📄 代码行数:** " + Placeholder;
  }

  /** A production environment makes the header red whatever the level; a
      missing level counts as "error" and is red too. */
  lemma ErrorTemplateRule(error: Json, clock: Clock)
    requires ErrorCard(error, clock).Returned?
    ensures !IsNullish(error)
    ensures var t := ErrorCard(error, clock).value.template;
      (t == "red" <==>
        ResolvedEnvironment(error) in {Str("production"), Str("prod")} ||
        Level(error) in {Str("fatal"), Str("error")}) &&
      (ResolvedEnvironment(error) == Str("production") ==> t == "red") &&
      (!Truthy(Get(error, "level")) ==> t == "red")
  {
    ErrorCardOf(error, clock);
    ExtractedFields(error, clock);
  }

  /** The header names the environment as the table gives it; the lookup of
      the environment ignores case while the colour rule does not. */
  lemma ErrorHeaderEnvironment(error: Json, clock: Clock)
    requires ErrorCard(error, clock).Returned?
    ensures !IsNullish(error) && ResolvedEnvironment(error).Str?
    ensures var env := GetEnvironmentInfo(ResolvedEnvironment(error)).value;
      ErrorCard(error, clock).value.title == env.icon + " Sentry Error [" + env.name + "]"
  {
    ErrorCardOf(error, clock);
    ExtractedFields(error, clock);
  }

  /** processError throws exactly when the event is null or undefined (at
      `metadata`), when extraction throws, or when the location found is
      neither a string nor an array, which have no `includes` method. */
  lemma ErrorCardThrows(error: Json, clock: Clock)
    ensures ErrorCard(error, clock).Threw? <==>
      IsNullish(error) || ExtractError(error, clock).Threw? ||
      (var loc := ExtractError(error, clock).value.location; !loc.Str? && !loc.Arr?)
    ensures IsNullish(error) ==> ErrorCard(error, clock) == Threw(CannotReadProperty("metadata"))
    ensures !IsNullish(error) && ExtractError(error, clock).Returned? && ErrorCard(error, clock).Threw? ==>
      ErrorCard(error, clock) == Threw(NotAFunction("includes"))
  {
    if !IsNullish(error) && ExtractError(error, clock).Returned? {
      ExtractedFields(error, clock);
    }
  }

  /** The card ends with the divider and the action row whose one primary
      button opens the event's `web_url`, whatever that holds. */
  lemma ErrorFooter(error: Json, clock: Clock)
    requires ErrorCard(error, clock).Returned?
    ensures !IsNullish(error)
    ensures var d := ErrorCard(error, clock).value; var n := |d.elements|;
      (n == 3 || n == 4) && d.elements[n - 2] == Hr &&
      d.elements[n - 1] == Action([Button(DetailLabel, Get(error, "web_url"), "primary")])
  {
    ErrorCardOf(error, clock);
    ExtractedFields(error, clock);
    ErrorCardShape(ExtractError(error, clock).value);
  }

  /** A field set that was extracted is the derivation from the table entry
      and the code location. */
  lemma ExtractedFields(error: Json, clock: Clock)
    requires !IsNullish(error) && ExtractError(error, clock).Returned?
    ensures GetEnvironmentInfo(ResolvedEnvironment(error)).Returned?
    ensures CodeLocation(Meta(error), LastFrame(Frames(error))).Returned?
    ensures ExtractError(error, clock).value ==
      DeriveFields(error, clock, GetEnvironmentInfo(ResolvedEnvironment(error)).value,
        CodeLocation(Meta(error), LastFrame(Frames(error))).value)
  {
  }

  /** The unhandled line is shown exactly when the `handled` tag is "no" or
      the exception mechanism says `handled: false`. With ExtractedFields,
      this holds of every extracted field set. */
  lemma UnhandledLineRule(error: Json, clock: Clock, envInfo: EnvInfo, location: Json)
    requires !IsNullish(error)
    ensures UnhandledLine in ErrorKinds(DeriveFields(error, clock, envInfo, location)) <==>
      GetTagValue(Tags(error), "handled") == Str("no") ||
      OptGet(Get(Exception(error), "mechanism"), "handled") == Bool(false)
  {
    var f := DeriveFields(error, clock, envInfo, location);
    LayoutMembers(Switches(f));
    assert UnhandledLine in ErrorKinds(f) <==> f.unhandled;
  }

  /** Rendering after a conditional push is a conditional append. */
  lemma RenderPush(f: ErrorFields, ks: seq<LineKind>, cond: bool, k: LineKind)
    ensures RenderLines(f, PushIf(ks, cond, k)) == PushLine(RenderLines(f, ks), cond, ErrorLine(f, k))
  {
    if cond {
      assert (ks + [k])[..|ks|] == ks;
    }
  }

  /** The six lines every error card starts with. */
  lemma RenderFixedLines(f: ErrorFields)
    ensures RenderLines(f, [EnvLine, ProjectLine, TypeLine, MessageLine, CulpritLine, LocationLine]) ==
      [ErrorLine(f, EnvLine), ErrorLine(f, ProjectLine), ErrorLine(f, TypeLine),
       ErrorLine(f, MessageLine), ErrorLine(f, CulpritLine), ErrorLine(f, LocationLine)]
  {
    var k0 := [EnvLine, ProjectLine, TypeLine, MessageLine, CulpritLine, LocationLine];
    assert k0[..1] == PushIf([], true, EnvLine);
    assert k0[..2] == PushIf(k0[..1], true, ProjectLine);
    assert k0[..3] == PushIf(k0[..2], true, TypeLine);
    assert k0[..4] == PushIf(k0[..3], true, MessageLine);
    assert k0[..5] == PushIf(k0[..4], true, CulpritLine);
    assert k0 == PushIf(k0[..5], true, LocationLine);
    RenderPush(f, [], true, EnvLine);
    RenderPush(f, k0[..1], true, ProjectLine);
    RenderPush(f, k0[..2], true, TypeLine);
    RenderPush(f, k0[..3], true, MessageLine);
    RenderPush(f, k0[..4], true, CulpritLine);
    RenderPush(f, k0[..5], true, LocationLine);
  }

  /** The body lines as the pushes of processError produce them. */
  lemma ErrorLinesPushed(f: ErrorFields)
    ensures ErrorLines(f) ==
      var w := Switches(f);
      var l0 := [ErrorLine(f, EnvLine), ErrorLine(f, ProjectLine), ErrorLine(f, TypeLine),
                 ErrorLine(f, MessageLine), ErrorLine(f, CulpritLine), ErrorLine(f, LocationLine)];
      var l1 := PushLine(l0, w.release, ErrorLine(f, ReleaseLine));
      var l2 := PushLine(l1, w.pageUrl, ErrorLine(f, PageUrlLine));
      var l3 := PushLine(l2, w.transaction, ErrorLine(f, TransactionLine));
      var l4 := PushLine(l3, true, ErrorLine(f, ClientLine));
      var l5 := PushLine(l4, w.unhandled, ErrorLine(f, UnhandledLine));
      var l6 := PushLine(l5, w.tech, ErrorLine(f, TechLine));
      PushLine(l6, true, ErrorLine(f, TimeLine))
  {
    var w := Switches(f);
    var k0 := [EnvLine, ProjectLine, TypeLine, MessageLine, CulpritLine, LocationLine];
    var k1 := PushIf(k0, w.release, ReleaseLine);
    var k2 := PushIf(k1, w.pageUrl, PageUrlLine);
    var k3 := PushIf(k2, w.transaction, TransactionLine);
    var k4 := PushIf(k3, true, ClientLine);
    var k5 := PushIf(k4, w.unhandled, UnhandledLine);
    var k6 := PushIf(k5, w.tech, TechLine);
    RenderFixedLines(f);
    RenderPush(f, k0, w.release, ReleaseLine);
    RenderPush(f, k1, w.pageUrl, PageUrlLine);
    RenderPush(f, k2, w.transaction, TransactionLine);
    RenderPush(f, k3, true, ClientLine);
    RenderPush(f, k4, w.unhandled, UnhandledLine);
    RenderPush(f, k5, w.tech, TechLine);
    RenderPush(f, k6, true, TimeLine);
  }

  /** Lines 187-194 of processError: the tech stack parts. */
  method BuildTechInfo(f: ErrorFields) returns (techInfo: seq<Json>)
    ensures techInfo == ErrorTechInfo(f)
  {
    techInfo := [f.platform];
    if Truthy(f.sdk) && Truthy(f.sdkVersion) {
      techInfo := techInfo + [Str(ToStr(f.sdk) + "@" + ToStr(f.sdkVersion))];
    } else if Truthy(f.sdk) {
      techInfo := techInfo + [f.sdk];
    }
  }

  /** Lines 154-198 of processError: the body lines, pushed one by one. The
      ghost `expected` follows the pushes on the kinds of line. */
  method BuildErrorLines(f: ErrorFields) returns (contentLines: seq<string>)
    ensures contentLines == ErrorLines(f)
  {
    ghost var w := Switches(f);
    contentLines := [
      "**" + f.env.icon + " 环境:** " + f.env.name,
      "**📦 项目:** " + ToStr(f.project),
      "**🐛 错误类型:** " + ToStr(f.errorType),
      "**📝 错误信息:** " + ToStr(f.errorMessage),
      "**📍 报错位置:** " + ToStr(f.culprit),
      "**📄 代码行数:** " + ToStr(f.location)
    ];
    ghost var expected := [ErrorLine(f, EnvLine), ErrorLine(f, ProjectLine), ErrorLine(f, TypeLine),
                           ErrorLine(f, MessageLine), ErrorLine(f, CulpritLine), ErrorLine(f, LocationLine)];
    if Truthy(f.release) {
      contentLines := contentLines + ["**🏷️ 版本:** " + ToStr(f.release)];
    }
    assert ErrorLine(f, ReleaseLine) == "**🏷️ 版本:** " + ToStr(f.release);
    expected := PushLine(expected, w.release, ErrorLine(f, ReleaseLine));
    assert contentLines == expected;
    if Truthy(f.pageUrl) {
      contentLines := contentLines + ["**🔗 页面URL:** " + ToStr(f.pageUrl)];
    }
    assert ErrorLine(f, PageUrlLine) == "**🔗 页面URL:** " + ToStr(f.pageUrl);
    expected := PushLine(expected, w.pageUrl, ErrorLine(f, PageUrlLine));
    assert contentLines == expected;
    if Truthy(f.transaction) {
      contentLines := contentLines + ["**📑 页面/事务:** " + ToStr(f.transaction)];
    }
    assert ErrorLine(f, TransactionLine) == "**📑 页面/事务:** " + ToStr(f.transaction);
    expected := PushLine(expected, w.transaction, ErrorLine(f, TransactionLine));
    assert contentLines == expected;
    contentLines := PushTrailingLines(f, contentLines);
    ErrorLinesPushed(f);
  }

  /** Lines 178-198 of processError: the client line, the unhandled line,
      the tech stack line and the time line. */
  method PushTrailingLines(f: ErrorFields, lines: seq<string>) returns (contentLines: seq<string>)
    ensures contentLines ==
      var w := Switches(f);
      var l4 := PushLine(lines, true, ErrorLine(f, ClientLine));
      var l5 := PushLine(l4, w.unhandled, ErrorLine(f, UnhandledLine));
      var l6 := PushLine(l5, w.tech, ErrorLine(f, TechLine));
      PushLine(l6, true, ErrorLine(f, TimeLine))
  {
    ghost var w := Switches(f);
    contentLines := lines + ["**💻 环境信息:** " + ToStr(f.browser) + " / " + ToStr(f.os)];
    assert ErrorLine(f, ClientLine) == "**💻 环境信息:** " + ToStr(f.browser) + " / " + ToStr(f.os);
    ghost var expected := PushLine(lines, true, ErrorLine(f, ClientLine));
    assert contentLines == expected;
    if f.unhandled {
      contentLines := contentLines + [UnhandledText];
    }
    expected := PushLine(expected, w.unhandled, ErrorLine(f, UnhandledLine));
    assert contentLines == expected;
    if Truthy(f.platform) || Truthy(f.sdk) {
      var techInfo := BuildTechInfo(f);
      contentLines := contentLines + ["**🔧 技术栈:** " + JoinValues(techInfo, " / ")];
    }
    expected := PushLine(expected, w.tech, ErrorLine(f, TechLine));
    assert contentLines == expected;
    contentLines := contentLines + ["**🕐 发生时间:** " + f.time];
    assert ErrorLine(f, TimeLine) == "**🕐 发生时间:** " + f.time;
  }

  /** Lines 73-143 of processError: the values it reads from the event, in
      the order it reads them. */
  method ExtractErrorFields(error: Json, clock: Clock) returns (r: Outcome<ErrorFields>)
    requires !IsNullish(error)
    ensures r == ExtractError(error, clock)
  {
    var meta := Or(Get(error, "metadata"), Obj(map[]));
    var tags := Or(Get(error, "tags"), Arr([]));
    var exception := Or(OptIndex(OptGet(Get(error, "exception"), "values"), 0), Obj(map[]));
    var stacktrace := Or(OptGet(Get(exception, "stacktrace"), "frames"), Arr([]));
    assert meta == Meta(error) && tags == Tags(error) && exception == Exception(error);
    assert stacktrace == Frames(error);

    var environment := Or(Or(GetTagValue(tags, "environment"), Get(error, "environment")), Str("unknown"));
    assert environment == ResolvedEnvironment(error);
    var envResult := GetEnvironmentInfo(environment);
    if envResult.Threw? {
      return Threw(envResult.error);
    }
    var envInfo := envResult.value;

    var browser := Or(GetTagValue(tags, "browser"), Str("未知浏览器"));
    var os := Or(GetTagValue(tags, "os"), Str("未知系统"));
    var handled := GetTagValue(tags, "handled");
    var pageUrl := Or(Or(GetTagValue(tags, "url"), OptGet(Get(error, "request"), "url")), Str(""));
    var release := Or(Or(GetTagValue(tags, "release"), Get(error, "release")), Str(""));
    var transaction := Or(Or(GetTagValue(tags, "transaction"), Get(error, "transaction")), Str(""));

    var project := Or(Get(error, "project"), Str("Sentry Project"));
    var title := Or(Or(Get(error, "title"), Get(exception, "value")), Str("Unknown Error"));
    var url := Get(error, "web_url");
    var level := Or(Get(error, "level"), Str("error"));
    var time := FormatDate(Get(error, "datetime"), clock);

    var errorMessage := Or(Or(Get(exception, "value"), Get(meta, "value")), title);
    var errorType := Or(Or(Get(exception, "type"), Get(meta, "type")), Str("Error"));
    var culprit := Or(Get(error, "culprit"), Str("未知位置"));
    var platform := Or(Get(error, "platform"), Str("javascript"));
    var sdk := Or(OptGet(Get(error, "sdk"), "name"), Str("未知SDK"));
    var sdkVersion := Or(OptGet(Get(error, "sdk"), "version"), Str(""));

    var locationResult := BuildErrorLocation(meta, stacktrace);
    if locationResult.Threw? {
      return Threw(locationResult.error);
    }
    var errorLocation := locationResult.value;

    var isUnhandled := StrictEquals(handled, Str("no")) ||
                       StrictEquals(OptGet(Get(exception, "mechanism"), "handled"), Bool(false));

    r := Returned(ErrorFields(environment, envInfo, browser, os, pageUrl, release, transaction,
      project, url, level, time, errorMessage, errorType, culprit, platform, sdk, sdkVersion,
      errorLocation, isUnhandled));
  }

  /** Lines 145-256 of processError: the colour, the body and the card. */
  method BuildErrorCard(f: ErrorFields) returns (r: Outcome<Document>)
    ensures r == RenderError(f)
  {
    var colorTemplate := "orange";
    if StrictEquals(f.environment, Str("production")) || StrictEquals(f.environment, Str("prod")) {
      colorTemplate := "red";
    } else if StrictEquals(f.level, Str("fatal")) || StrictEquals(f.level, Str("error")) {
      colorTemplate := "red";
    }
    var contentLines := BuildErrorLines(f);

    var cardElements := [Div(Join(contentLines, "\n"))];
    var hint := Includes(f.location, Marker);
    if hint.Threw? {
      return Threw(hint.error);
    }
    if hint.value {
      cardElements := cardElements + [Div(HintText)];
    }
    assert cardElements == [Div(Join(contentLines, "\n"))] + (if hint.value then [Div(HintText)] else []);
    cardElements := cardElements + [Hr, Action([Button(DetailLabel, f.url, "primary")])];

    var headerTitle := f.env.icon + " Sentry Error [" + f.env.name + "]";
    r := Returned(Document("interactive", true, headerTitle, colorTemplate, cardElements));
  }

  /** processError(errorData), step by step as handlers.js writes it. */
  method ProcessError(errorData: Json, clock: Clock) returns (r: Outcome<Document>)
    ensures r == ErrorCard(errorData, clock)
  {
    if IsNullish(errorData) {
      return Threw(CannotReadProperty("metadata"));
    }
    var fields := ExtractErrorFields(errorData, clock);
    if fields.Threw? {
      return Threw(fields.error);
    }
    r := BuildErrorCard(fields.value);
  }
}
