/** processUnknown: a body that is neither an error event nor an issue is
    shown as a raw dump of its JSON. */
module UnknownCard {
  import opened Js
  import opened Card

  const UnknownTitle: string := "🚨 Sentry 报警"
  const DumpLimit: nat := 500
  const DumpIntro: string := "收到未知格式的 Sentry webhook\n\n```json\n"
  const DumpOutro: string := "...\n```"

  /** `JSON.stringify(body, null, 2)` with two-space indentation. Its
      layout is not modelled: the model only needs that every decoded value
      other than `undefined` has some text. */
  type Serializer = Json -> string

  /** The text of the card's single block: the notice, then the first 500
      characters of the dump, always followed by an ellipsis, in a json
      code fence. */
  function DumpText(serialized: string): string {
    DumpIntro + Take(serialized, DumpLimit) + DumpOutro
  }

  /** processUnknown(body). `JSON.stringify(undefined)` gives undefined,
      whose `substring` cannot be read. */
  function ProcessUnknown(body: Json, stringify: Serializer): (r: Outcome<Document>)
    ensures r.Threw? <==> body.Undefined?
    ensures r.Threw? ==> r.error == CannotReadProperty("substring")
    ensures r.Returned? ==>
      r.value.msgType == "interactive" && r.value.wideScreen &&
      r.value.title == UnknownTitle && r.value.template == "orange" &&
      r.value.elements == [Div(DumpText(stringify(body)))]
  {
    if body.Undefined? then Threw(CannotReadProperty("substring"))
    else Returned(Interactive(UnknownTitle, "orange", [Div(DumpText(stringify(body)))]))
  }

  /** The dump is the start of the serialized body, at most 500 characters
      of it, and the whole of it when it is no longer than that; the block
      holds no divider and no button. */
  lemma UnknownDump(body: Json, stringify: Serializer)
    requires !body.Undefined?
    ensures var d := ProcessUnknown(body, stringify).value;
      var text := stringify(body);
      |d.elements| == 1 && d.elements[0].Div? &&
      exists dump :: d.elements[0].content == DumpIntro + dump + DumpOutro &&
        dump <= text && |dump| <= DumpLimit && (|text| <= DumpLimit ==> dump == text)
  {
    var dump := Take(stringify(body), DumpLimit);
    assert ProcessUnknown(body, stringify).value.elements[0].content == DumpIntro + dump + DumpOutro;
  }

  /** Two bodies whose dumps agree on the first 500 characters give the
      same card. */
  lemma UnknownDumpTruncates(a: Json, b: Json, stringify: Serializer)
    requires !a.Undefined? && !b.Undefined?
    requires |stringify(a)| >= DumpLimit && |stringify(b)| >= DumpLimit
    requires stringify(a)[..DumpLimit] == stringify(b)[..DumpLimit]
    ensures ProcessUnknown(a, stringify) == ProcessUnknown(b, stringify)
  {
    assert Take(stringify(a), DumpLimit) == Take(stringify(b), DumpLimit);
  }

  /** A body with no error and no issue, serialized as `{}`: the orange
      alarm card with the dump in a json fence. */
  lemma ExampleUnknownCard(stringify: Serializer)
    requires stringify(Obj(map[])) == "{}"
    ensures ProcessUnknown(Obj(map[]), stringify) == Returned(Document(
      "interactive", true, "🚨 Sentry 报警", "orange",
      [Div("收到未知格式的 Sentry webhook\n\n```json\n{}...\n```")]))
  {
    assert Take("{}", DumpLimit) == "{}";
    assert DumpText("{}") == "收到未知格式的 Sentry webhook\n\n```json\n{}...\n```";
  }
}
