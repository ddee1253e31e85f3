/** The small lookups of handlers.js: tag values, the environment table, the
    priority icon, and date formatting as an opaque collaborator. */
module Helpers {
  import opened Js

  /** `Array.isArray(t) && t[0] === key`: the element is a tag for key. */
  predicate IsTagFor(t: Json, key: string) {
    t.Arr? && StrictEquals(Index(t, 0), Str(key))
  }

  /** `items.findIndex(...)` for the tag test: the first tag for key. */
  function FindTag(items: seq<Json>, key: string): (r: Option<nat>)
    ensures r.Some? ==> r.value < |items| && IsTagFor(items[r.value], key)
    ensures r.Some? ==> forall j | 0 <= j < r.value :: !IsTagFor(items[j], key)
    ensures r.None? ==> forall j | 0 <= j < |items| :: !IsTagFor(items[j], key)
  {
    if items == [] then None
    else if IsTagFor(items[0], key) then Some(0)
    else match FindTag(items[1..], key)
      case None => None
      case Some(i) => Some(i + 1)
  }

  /** getTagValue(tags, key): the second item of the first tag for key, or
      null when tags is not an array or holds no tag for key. A tag with a
      single item yields undefined. */
  function GetTagValue(tags: Json, key: string): (r: Json)
    ensures !tags.Arr? ==> r == Null
    ensures tags.Arr? && (forall j | 0 <= j < |tags.items| :: !IsTagFor(tags.items[j], key)) ==> r == Null
    ensures tags.Arr? ==>
      forall i | 0 <= i < |tags.items| && IsTagFor(tags.items[i], key) ::
        (forall j | 0 <= j < i :: !IsTagFor(tags.items[j], key)) ==> r == Index(tags.items[i], 1)
  {
    if !tags.Arr? then Null
    else match FindTag(tags.items, key)
      case None => Null
      case Some(i) => Index(tags.items[i], 1)
  }

  /** A tag that comes before every other tag for the same key decides the
      value, whatever follows it. */
  lemma FirstTagWins(first: Json, rest: seq<Json>, key: string, value: Json)
    requires first == Arr([Str(key), value])
    ensures GetTagValue(Arr([first] + rest), key) == value
  {
    assert IsTagFor(([first] + rest)[0], key);
  }

  /** A non-array entry of the tag list is skipped. */
  lemma NonArrayTagSkipped(junk: Json, rest: seq<Json>, key: string)
    requires !junk.Arr?
    ensures GetTagValue(Arr([junk] + rest), key) == GetTagValue(Arr(rest), key)
  {
    assert ([junk] + rest)[1..] == rest;
  }

  /** An entry of the environment table. */
  datatype EnvInfo = EnvInfo(name: string, icon: string, color: string)

  const Production: EnvInfo := EnvInfo("生产环境", "🔴", "red")
  const Staging: EnvInfo := EnvInfo("预发环境", "🟠", "orange")
  const Testing: EnvInfo := EnvInfo("测试环境", "🟡", "yellow")
  const Development: EnvInfo := EnvInfo("开发环境", "🟢", "green")

  const EnvTable: map<string, EnvInfo> := map[
    "production" := Production,
    "prod" := Production,
    "staging" := Staging,
    "test" := Testing,
    "testing" := Testing,
    "development" := Development,
    "dev" := Development
  ]

  const UnknownEnvName: string := "未知环境"

  /** getEnvironmentInfo(env): the table entry of the lower-cased name, or a
      grey entry named after the input. `(env || "").toLowerCase()` throws
      for a truthy value that is not a string. */
  function GetEnvironmentInfo(env: Json): (r: Outcome<EnvInfo>)
    ensures r.Threw? <==> Truthy(env) && !env.Str?
    ensures !Truthy(env) ==> r == Returned(EnvInfo(UnknownEnvName, "⚪", "grey"))
    ensures env.Str? && Lower(env.s) in {"production", "prod"} ==> r == Returned(Production)
    ensures env.Str? && Lower(env.s) == "staging" ==> r == Returned(Staging)
    ensures env.Str? && Lower(env.s) in {"test", "testing"} ==> r == Returned(Testing)
    ensures env.Str? && Lower(env.s) in {"development", "dev"} ==> r == Returned(Development)
    ensures env.Str? && env.s != "" && Lower(env.s) !in EnvTable ==> r == Returned(EnvInfo(env.s, "⚪", "grey"))
  {
    var e := Or(env, Str(""));
    if !e.Str? then Threw(NotAFunction("toLowerCase"))
    else
      var lowerEnv := Lower(e.s);
      if lowerEnv in EnvTable then Returned(EnvTable[lowerEnv])
      else Returned(EnvInfo(if Truthy(env) then e.s else UnknownEnvName, "⚪", "grey"))
  }

  /** The lookup ignores case: two names that lower-case alike and hit the
      table get the same entry. */
  lemma EnvironmentCaseInsensitive(a: string, b: string)
    requires Lower(a) == Lower(b) && Lower(a) in EnvTable
    ensures GetEnvironmentInfo(Str(a)) == GetEnvironmentInfo(Str(b))
  {
    assert a != "" && b != "" by {
      assert "" !in EnvTable;
    }
  }

  /** The grey fallback is used exactly for the names outside the table, and
      every string has an entry. */
  lemma EnvironmentGreyIffUnknown(s: string)
    ensures GetEnvironmentInfo(Str(s)).Returned?
    ensures GetEnvironmentInfo(Str(s)).value.color == "grey" <==> Lower(s) !in EnvTable
  {
    assert "" !in EnvTable;
  }

  const PriorityTable: map<string, string> := map["high" := "🔴", "medium" := "🟡", "low" := "🟢"]

  /** getPriorityIcon(priority): `priorityMap[priority] || "⚪"`. Property
      lookup converts the key with `String`. */
  function GetPriorityIcon(priority: Json): (r: string)
    ensures r == "🔴" <==> ToStr(priority) == "high"
    ensures r == "🟡" <==> ToStr(priority) == "medium"
    ensures r == "🟢" <==> ToStr(priority) == "low"
    ensures r == "⚪" <==> ToStr(priority) !in {"high", "medium", "low"}
  {
    var key := ToStr(priority);
    if key in PriorityTable then PriorityTable[key] else "⚪"
  }

  /** The clock and locale that formatDate reads: the current time as
      `toLocaleString()` renders it, and the Asia/Shanghai zh-CN rendering of
      `new Date(value)`. */
  datatype Clock = Clock(now: string, shanghai: Json -> string)

  /** formatDate(isoString): the current time for a falsy argument, the
      localized rendering of the given value otherwise. */
  function FormatDate(iso: Json, clock: Clock): string {
    if !Truthy(iso) then clock.now else clock.shanghai(iso)
  }
}
