/**
 * The message trimmer extension (extensions/builtin/message_trimmer.py):
 * before a model call, a history longer than half the context window (at
 * four characters a token) is cut to the system prompt, one summary of the
 * older messages and the six most recent messages.
 */
module MessageTrimmer {
  import opened Text
  import opened JsonValues

  const CharsPerToken := 4
  const KeepRecent := 6
  const ClipAt := 200
  const MaxParts := 10
  const SummaryHeading := "[Earlier conversation summary]\n"

  /** What the hook returns: None, a trimmed list, or the IndexError of `messages[0]` on an empty list. */
  datatype Trim = Unchanged | Trimmed(messages: seq<Dict>) | IndexError

  /** `int(ctx * 0.5)`: half the context length, truncated toward zero. */
  function HalfTruncated(ctx: int): (h: int)
    ensures ctx >= 0 ==> 2 * h <= ctx <= 2 * h + 1
    ensures ctx < 0 ==> 2 * h - 1 <= ctx <= 2 * h
  {
    if ctx >= 0 then ctx / 2 else -((-ctx) / 2)
  }

  /** The history budget in characters. */
  function Budget(ctx: int): int {
    HalfTruncated(ctx) * CharsPerToken
  }

  /** `m.get("content", "")` as text. */
  function ContentOf(m: Dict): string {
    match GetOr(m, "content", JStr(""))
    case JStr(s) => s
    case v => PyStr(v)
  }

  function TotalChars(history: seq<Dict>): nat {
    if history == [] then 0 else TotalChars(history[..|history| - 1]) + |ContentOf(history[|history| - 1])|
  }

  /** An earlier content, cut to 200 characters plus "..." when longer. */
  function Clip(content: string): (r: string)
    ensures |r| <= ClipAt + 3
    ensures |content| <= ClipAt ==> r == content
    ensures |content| > ClipAt ==> r == content[..ClipAt] + "..."
  {
    if |content| > ClipAt then content[..ClipAt] + "..." else content
  }

  /** `f"[{role}]: {content}"` for one earlier message. */
  function SummaryPart(m: Dict): string {
    "[" + PyStr(GetOr(m, "role", JStr("?"))) + "]: " + Clip(ContentOf(m))
  }

  function Parts(earlier: seq<Dict>): seq<string> {
    seq(|earlier|, i requires 0 <= i < |earlier| => SummaryPart(earlier[i]))
  }

  /** `summary_parts[-10:]` */
  function LastParts(parts: seq<string>): seq<string> {
    if |parts| <= MaxParts then parts else parts[|parts| - MaxParts..]
  }

  function SummaryText(earlier: seq<Dict>): string {
    SummaryOf(Parts(earlier))
  }

  /** The heading and the last ten parts, one per line. */
  function SummaryOf(parts: seq<string>): string {
    SummaryHeading + Join(LastParts(parts), "\n")
  }

  /** `{"role": "system", "content": content}` */
  function SystemMessage(content: string): Dict {
    [("role", JStr("system")), ("content", JStr(content))]
  }

  /** `messages[1:]` */
  function History(messages: seq<Dict>): seq<Dict> {
    if messages == [] then [] else messages[1..]
  }

  /** What `on_before_llm_call` returns for these messages and this context length. */
  function TrimHistory(messages: seq<Dict>, ctx: int): Trim {
    var history := History(messages);
    if TotalChars(history) <= Budget(ctx) then Unchanged
    else if messages == [] then IndexError
    else if |history| <= KeepRecent then Unchanged
    else Trimmed(Shortened(messages))
  }

  /** The first message, the summary of the earlier history as a system message, and the recent history. */
  function Shortened(messages: seq<Dict>): seq<Dict>
    requires |messages| > KeepRecent + 1
  {
    Assemble(messages[0], SummaryText(messages[1..|messages| - KeepRecent]), messages[|messages| - KeepRecent..])
  }

  /** The first message, the summary as a system message, then the recent messages. */
  function Assemble(first: Dict, summary: string, recent: seq<Dict>): seq<Dict> {
    [first, SystemMessage(summary)] + recent
  }

  /**
   * Nothing is trimmed exactly when the history fits the budget or holds six
   * messages or fewer; the IndexError needs an empty list and a negative
   * budget.
   */
  lemma TrimWhen(messages: seq<Dict>, ctx: int)
    ensures TrimHistory(messages, ctx) == Unchanged <==>
      TotalChars(History(messages)) <= Budget(ctx) || (messages != [] && |messages| - 1 <= KeepRecent)
    ensures TrimHistory(messages, ctx) == IndexError <==> messages == [] && Budget(ctx) < 0
  {
  }

  /**
   * A trimmed list has eight entries: the original first message, the summary
   * as a system message, and the last six messages unchanged and in order.
   */
  lemma TrimmedShape(messages: seq<Dict>, ctx: int)
    requires TrimHistory(messages, ctx).Trimmed?
    ensures |messages| > KeepRecent + 1 && TotalChars(messages[1..]) > Budget(ctx)
    ensures var r := TrimHistory(messages, ctx).messages;
      |r| == KeepRecent + 2
      && r[0] == messages[0]
      && r[1] == SystemMessage(SummaryText(messages[1..|messages| - KeepRecent]))
      && r[2..] == messages[|messages| - KeepRecent..]
  {
    var history := messages[1..];
    assert |messages| > KeepRecent + 1;
    ShortenedShape(messages);
  }

  lemma ShortenedShape(messages: seq<Dict>)
    requires |messages| > KeepRecent + 1
    ensures var r := Shortened(messages);
      |r| == KeepRecent + 2
      && r[0] == messages[0]
      && r[1] == SystemMessage(SummaryText(messages[1..|messages| - KeepRecent]))
      && r[2..] == messages[|messages| - KeepRecent..]
  {
    var history := messages[1..];
    assert history[..|history| - KeepRecent] == messages[1..|messages| - KeepRecent];
    assert history[|history| - KeepRecent..] == messages[|messages| - KeepRecent..];
  }

  /** The summary keeps one part for each of the last ten earlier messages at most, in their order. */
  lemma SummaryKeepsLastTen(earlier: seq<Dict>)
    ensures var kept := LastParts(Parts(earlier));
      var k := if |earlier| <= MaxParts then |earlier| else MaxParts;
      |kept| == k && forall j :: 0 <= j < k ==> kept[j] == SummaryPart(earlier[|earlier| - k + j])
  {
    var k := if |earlier| <= MaxParts then |earlier| else MaxParts;
    var parts := Parts(earlier);
    LastPartsSuffix(parts);
    forall j | 0 <= j < k
      ensures LastParts(parts)[j] == SummaryPart(earlier[|earlier| - k + j])
    {
      assert LastParts(parts)[j] == parts[|earlier| - k + j];
    }
  }

  lemma LastPartsSuffix(parts: seq<string>)
    ensures var k := if |parts| <= MaxParts then |parts| else MaxParts;
      |LastParts(parts)| == k && forall j :: 0 <= j < k ==> LastParts(parts)[j] == parts[|parts| - k + j]
  {
  }

  /** The hook: the budget checks, then the loop building the summary parts. */
  method OnBeforeLlmCall(messages: seq<Dict>, ctx: int) returns (r: Trim)
    ensures r == TrimHistory(messages, ctx)
  {
    var history := History(messages);
    if TotalChars(history) <= Budget(ctx) {
      r := Unchanged;
    } else if messages == [] {
      r := IndexError;
    } else if |history| <= KeepRecent {
      r := Unchanged;
    } else {
      var trimmed := Shorten(messages);
      r := Trimmed(trimmed);
    }
  }

  method Shorten(messages: seq<Dict>) returns (trimmed: seq<Dict>)
    requires |messages| > KeepRecent + 1
    ensures trimmed == Shortened(messages)
  {
    var history := messages[1..];
    var earlier := history[..|history| - KeepRecent];
    var recent := history[|history| - KeepRecent..];
    assert earlier == messages[1..|messages| - KeepRecent];
    assert recent == messages[|messages| - KeepRecent..];
    var parts := SummaryParts(earlier);
    trimmed := Assemble(messages[0], SummaryOf(parts), recent);
  }

  /** The loop building one summary part per earlier message. */
  method SummaryParts(earlier: seq<Dict>) returns (parts: seq<string>)
    ensures parts == Parts(earlier)
  {
    parts := [];
    var i := 0;
    while i < |earlier|
      invariant 0 <= i <= |earlier| && |parts| == i
      invariant forall j :: 0 <= j < i ==> parts[j] == SummaryPart(earlier[j])
    {
      var content := ContentOf(earlier[i]);
      if |content| > ClipAt {
        content := content[..ClipAt] + "...";
      }
      parts := parts + ["[" + PyStr(GetOr(earlier[i], "role", JStr("?"))) + "]: " + content];
      i := i + 1;
    }
  }
}
