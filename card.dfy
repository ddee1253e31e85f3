/** The notification card that every renderer returns, and the kinds of
    body line the error and issue cards are made of. */
module Card {
  import opened Js

  /** A button of an `action` element: `{tag: "button", text: {tag:
      "plain_text", content: text}, url, type: style}`. The url is whatever
      value the payload held, `undefined` included. */
  datatype Button = Button(text: string, url: Json, style: string)

  /** An entry of `card.elements`: a `div` holding `lark_md` text, an `hr`,
      or an `action` row of buttons. */
  datatype Element = Div(content: string) | Hr | Action(actions: seq<Button>)

  /** The whole outbound document: `msg_type`, `card.config.wide_screen_mode`,
      the header's `plain_text` title and its colour template, and the
      elements in order. */
  datatype Document = Document(
    msgType: string,
    wideScreen: bool,
    title: string,
    template: string,
    elements: seq<Element>)

  const DetailLabel: string := "🔍 查看详情"

  /** The status line of an unhandled exception, common to both cards. */
  const UnhandledText: string := "**⚠️ 状态:** 未处理的异常"

  /** The document shell shared by all three renderers. */
  function Interactive(title: string, template: string, elements: seq<Element>): Document {
    Document("interactive", true, title, template, elements)
  }

  /** The closing `hr` and the action row with the single primary
      "view details" button. */
  function Footer(url: Json): seq<Element> {
    [Hr, Action([Button(DetailLabel, url, "primary")])]
  }

  /** The line kinds of both body layouts, declared in the one order that is
      consistent with both: an error card uses Env ... Time, an issue card
      Project ... LastSeen. */
  datatype LineKind =
    | EnvLine
    | ProjectLine
    | TypeLine
    | MessageLine
    | CulpritLine
    | LocationLine
    | ReleaseLine
    | PageUrlLine
    | TransactionLine
    | ClientLine
    | StatsLine
    | PriorityLine
    | UnhandledLine
    | TechLine
    | TimeLine
    | FirstSeenLine
    | LastSeenLine

  function Rank(k: LineKind): (r: nat)
    ensures r < 17
  {
    match k
    case EnvLine => 0
    case ProjectLine => 1
    case TypeLine => 2
    case MessageLine => 3
    case CulpritLine => 4
    case LocationLine => 5
    case ReleaseLine => 6
    case PageUrlLine => 7
    case TransactionLine => 8
    case ClientLine => 9
    case StatsLine => 10
    case PriorityLine => 11
    case UnhandledLine => 12
    case TechLine => 13
    case TimeLine => 14
    case FirstSeenLine => 15
    case LastSeenLine => 16
  }

  lemma RankInjective(a: LineKind, b: LineKind)
    requires Rank(a) == Rank(b)
    ensures a == b
  {
  }

  /** Each kind occurs at most once and the kinds follow the fixed order. */
  predicate InOrder(ks: seq<LineKind>) {
    forall i, j | 0 <= i < j < |ks| :: Rank(ks[i]) < Rank(ks[j])
  }

  lemma HeadIsMember(s: seq<LineKind>)
    ensures |s| > 0 ==> s[0] in s
  {
  }

  /** Two ordered lists with the same kinds start with the same kind. */
  lemma HeadsAgree(a: seq<LineKind>, b: seq<LineKind>)
    requires InOrder(a) && InOrder(b)
    requires forall k :: k in a <==> k in b
    requires a != []
    ensures b != [] && a[0] == b[0]
  {
    assert a[0] in b;
    assert b[0] in a;
    var i :| 0 <= i < |a| && a[i] == b[0];
    var j :| 0 <= j < |b| && b[j] == a[0];
    assert Rank(a[0]) <= Rank(a[i]);
    assert Rank(b[0]) <= Rank(b[j]);
    RankInjective(a[0], b[0]);
  }

  /** ... and then their tails hold the same kinds. */
  lemma TailsAgree(a: seq<LineKind>, b: seq<LineKind>)
    requires InOrder(a) && InOrder(b)
    requires forall k :: k in a <==> k in b
    requires a != [] && b != [] && a[0] == b[0]
    ensures forall k :: k in a[1..] <==> k in b[1..]
  {
    forall k
      ensures k in a[1..] <==> k in b[1..]
    {
      if k in a[1..] {
        var p :| 0 <= p < |a[1..]| && a[1..][p] == k;
        assert a[p + 1] == k && Rank(a[0]) < Rank(a[p + 1]);
        assert k in a;
        var q :| 0 <= q < |b| && b[q] == k;
        assert q != 0;
        assert b[1..][q - 1] == k;
      }
      if k in b[1..] {
        var q :| 0 <= q < |b[1..]| && b[1..][q] == k;
        assert b[q + 1] == k && Rank(b[0]) < Rank(b[q + 1]);
        assert k in b;
        var p :| 0 <= p < |a| && a[p] == k;
        assert p != 0;
        assert a[1..][p - 1] == k;
      }
    }
  }

  /** Fixed order plus presence determine a layout: two ordered kind lists
      holding the same kinds are the same list. */
  lemma {:induction false} OrderedLayoutUnique(a: seq<LineKind>, b: seq<LineKind>)
    requires InOrder(a) && InOrder(b)
    requires forall k :: k in a <==> k in b
    ensures a == b
  {
    if a == [] {
      HeadIsMember(b);
    } else {
      HeadsAgree(a, b);
      TailsAgree(a, b);
      assert InOrder(a[1..]) && InOrder(b[1..]);
      OrderedLayoutUnique(a[1..], b[1..]);
      assert a == [a[0]] + a[1..];
      assert b == [b[0]] + b[1..];
    }
  }

  /** `lines.push(...)` under a condition, on the kinds of line. */
  function PushIf(ks: seq<LineKind>, cond: bool, k: LineKind): seq<LineKind> {
    if cond then ks + [k] else ks
  }

  /** Every kind of the list ranks below k. */
  predicate Precedes(ks: seq<LineKind>, k: LineKind) {
    forall i | 0 <= i < |ks| :: Rank(ks[i]) < Rank(k)
  }

  /** A push of a kind that ranks after everything so far keeps the order. */
  lemma PushIfKeepsOrder(ks: seq<LineKind>, cond: bool, k: LineKind, next: LineKind)
    requires InOrder(ks) && Precedes(ks, k) && Rank(k) < Rank(next)
    ensures InOrder(PushIf(ks, cond, k)) && Precedes(PushIf(ks, cond, k), next)
  {
  }

  /** ... and so does a push of the kind that ranks last. */
  lemma PushIfInOrder(ks: seq<LineKind>, cond: bool, k: LineKind)
    requires InOrder(ks) && Precedes(ks, k)
    ensures InOrder(PushIf(ks, cond, k))
  {
  }

  lemma PushIfMember(ks: seq<LineKind>, cond: bool, k: LineKind, x: LineKind)
    ensures x in PushIf(ks, cond, k) <==> x in ks || (cond && x == k)
  {
  }

  /** `if (cond) lines.push(line)` on the texts of the lines. */
  function PushLine(lines: seq<string>, cond: bool, line: string): seq<string> {
    if cond then lines + [line] else lines
  }
}
