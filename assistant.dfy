/**
 * pages/AiAssistant.tsx: the chat page's handlers (mount, input, send) and `formatText`, which turns
 * an AI reply into paragraphs and list items with `**bold**` runs. Rendering is modelled as a value
 * (`Block`s of `Inline`s) rather than as JSX.
 */
module AiAssistantPage {
  import opened Types
  import opened Text
  import opened Api
  import opened StoreState
  import Store

  // ---------------------------------------------------------------------------------------------
  // Handlers

  /** The mount effect: the chat has been seen. */
  method Mount(st: Store.AdminStore)
    requires st.Valid()
    modifies st
    ensures st.Model() == MarkedRead(old(st.Model()))
    ensures !st.hasUnreadAiResponse
    ensures st.Valid()
  {
    st.MarkAiAsRead();
  }

  /** `handleInputChange`: every keystroke replaces (and persists) the draft. */
  method HandleInputChange(st: Store.AdminStore, value: string)
    requires st.Valid()
    modifies st
    ensures st.Model() == DraftSet(old(st.Model()), value)
    ensures st.aiDraft == value
    ensures st.Valid()
  {
    st.SetAiDraft(value);
  }

  /** The state `handleSend` leaves while the chat call is in flight. */
  function Sent(s: AdminState): AdminState {
    AiStarted(UserMessageAdded(DraftSet(s, ""), s.aiDraft))
  }

  /**
   * `handleSend`: a blank draft, or a request already in flight, sends nothing; otherwise the
   * draft is cleared, appended as the user's message and returned as the prompt of the chat call,
   * which is then pending.
   */
  method HandleSend(st: Store.AdminStore) returns (prompt: Option<string>)
    requires st.Valid()
    modifies st
    ensures prompt.None? <==> AllSpace(old(st.aiDraft)) || old(st.isAiGenerating)
    ensures prompt.Some? ==> prompt.value == old(st.aiDraft) && st.Model() == Sent(old(st.Model()))
    ensures prompt.None? ==> st.Model() == old(st.Model())
    ensures st.Valid()
  {
    TrimEmptyIff(st.aiDraft);
    if Trim(st.aiDraft) == "" || st.isAiGenerating {
      return None;
    }
    var userText := st.aiDraft;
    st.SetAiDraft("");
    st.AddUserMessage(userText);
    st.AiPending();
    prompt := Some(userText);
  }

  /**
   * A send followed by the settled chat call leaves the draft empty, the chat two messages longer
   * (the prompt, then the reply or the failure text), nothing generating and the reply unread.
   */
  lemma SendThenSettle(s: AdminState, backend: Outcome<string>)
    ensures var t := AiSettled(Sent(s), backend);
      && t.aiDraft == "" && t.storage[AiDraftKey] == Raw("")
      && t.aiMessages == s.aiMessages + [ChatMessage(User, s.aiDraft),
                                         ChatMessage(Ai, if backend.Ok? then AiReply(backend).value else NetworkFailureText)]
      && !t.isAiGenerating && t.hasUnreadAiResponse
  {
    var u := Sent(s);
    assert u.aiMessages == s.aiMessages + [ChatMessage(User, s.aiDraft)];
    assert u.storage[AiDraftKey] == Raw("");
  }

  // ---------------------------------------------------------------------------------------------
  // formatText

  datatype Inline = Plain(text: string) | Bold(text: string)
  datatype Block = Paragraph(content: seq<Inline>) | Bullet(content: seq<Inline>)

  /** Two asterisks start at index k. */
  predicate StarsAt(s: string, k: int) {
    0 <= k && k + 1 < |s| && s[k] == '*' && s[k + 1] == '*'
  }

  ghost predicate NoStars(s: string) {
    forall k :: !StarsAt(s, k)
  }

  /** No line terminator in s[j..k]. */
  predicate TerminatorFree(s: string, j: int, k: int) {
    0 <= j <= k <= |s| && forall m :: j <= m < k ==> !IsLineTerminator(s[m])
  }

  /**
   * The lazy `.*?\*\*` of the pattern `(\*\*.*?\*\*)`, tried at j: the end of the first `**` at or
   * after j that no line terminator precedes, or `None` when there is none.
   */
  function CloseFrom(s: string, j: nat): (e: Option<nat>)
    requires j <= |s|
    ensures e.Some? ==> j + 2 <= e.value <= |s| && StarsAt(s, e.value - 2) && TerminatorFree(s, j, e.value - 2)
    ensures e.Some? ==> forall k :: j <= k < e.value - 2 ==> !StarsAt(s, k)
    ensures e.None? ==> forall k :: j <= k && TerminatorFree(s, j, k) ==> !StarsAt(s, k)
    decreases |s| - j
  {
    if j + 2 > |s| then None
    else if StarsAt(s, j) then Some(j + 2)
    else if IsLineTerminator(s[j]) then None
    else
      var e := CloseFrom(s, j + 1);
      assert forall k :: j + 1 <= k && TerminatorFree(s, j, k) ==> TerminatorFree(s, j + 1, k);
      e
  }

  /** The end of a match of `(\*\*.*?\*\*)` that starts at q, if one does. */
  function MatchAt(s: string, q: nat): (e: Option<nat>)
    requires q <= |s|
    ensures e.Some? ==> q + 4 <= e.value <= |s| && StarsAt(s, q) && StarsAt(s, e.value - 2)
  {
    if StarsAt(s, q) then CloseFrom(s, q + 2) else None
  }

  /**
   * `line.split(/(\*\*.*?\*\*)/g)` from the text after index p, scanning for a match at q: the pieces
   * between matches alternate with the matches themselves, which the capture group keeps.
   */
  function Segments(s: string, p: nat, q: nat): (parts: seq<string>)
    requires p <= q <= |s|
    ensures |parts| % 2 == 1
    decreases |s| - q
  {
    if q >= |s| then [s[p..]]
    else
      match MatchAt(s, q)
      case None => Segments(s, p, q + 1)
      case Some(e) => [s[p..q], s[q..e]] + Segments(s, e, e)
  }

  function Parts(line: string): (parts: seq<string>)
    ensures |parts| >= 1
  {
    Segments(line, 0, 0)
  }

  function Concat(parts: seq<string>): string {
    if parts == [] then "" else parts[0] + Concat(parts[1..])
  }

  lemma ConcatPair(a: string, b: string, rest: seq<string>)
    ensures Concat([a, b] + rest) == a + (b + Concat(rest))
  {
    assert ([a, b] + rest)[1..] == [b] + rest;
    assert ([b] + rest)[1..] == rest;
  }

  /** The split loses nothing: its pieces concatenate to the text they came from. */
  lemma {:induction false} SegmentsConcat(s: string, p: nat, q: nat)
    requires p <= q <= |s|
    ensures Concat(Segments(s, p, q)) == s[p..]
    decreases |s| - q
  {
    if q < |s| {
      var m := MatchAt(s, q);
      if m.None? {
        SegmentsConcat(s, p, q + 1);
      } else {
        var e := m.value;
        SegmentsConcat(s, e, e);
        ConcatPair(s[p..q], s[q..e], Segments(s, e, e));
        assert s[p..] == s[p..q] + (s[q..e] + s[e..]);
      }
    }
  }

  /** A matched piece: at least four characters, opening and closing with `**`. */
  predicate Captured(x: string) {
    |x| >= 4 && StartsWith(x, "**") && EndsWith(x, "**")
  }

  /** Every odd-numbered piece of the split is a match. */
  lemma {:induction false} SegmentsCaptured(s: string, p: nat, q: nat)
    requires p <= q <= |s|
    ensures forall i :: 0 <= i < |Segments(s, p, q)| && i % 2 == 1 ==> Captured(Segments(s, p, q)[i])
    decreases |s| - q
  {
    if q < |s| {
      match MatchAt(s, q)
      case None => SegmentsCaptured(s, p, q + 1);
      case Some(e) =>
        SegmentsCaptured(s, e, e);
        var x := s[q..e];
        assert x[..2] == "**" by { assert x[0] == s[q] && x[1] == s[q + 1]; }
        assert x[|x| - 2..] == "**" by { assert x[|x| - 2] == s[e - 2] && x[|x| - 1] == s[e - 1]; }
        var parts := [s[p..q], x] + Segments(s, e, e);
        forall i | 0 <= i < |parts| && i % 2 == 1 ensures Captured(parts[i]) {
          if i > 1 { assert parts[i] == Segments(s, e, e)[i - 2]; }
        }
    }
  }

  /** With no `**` in the text the split yields it whole. */
  lemma {:induction false} SegmentsWithoutStars(s: string, p: nat, q: nat)
    requires p <= q <= |s| && NoStars(s)
    ensures Segments(s, p, q) == [s[p..]]
    decreases |s| - q
  {
    if q < |s| {
      assert !StarsAt(s, q);
      SegmentsWithoutStars(s, p, q + 1);
    }
  }

  /** How one piece is shown: a piece opening and closing with `**` in bold, as `part.slice(2, -2)`. */
  function Render(part: string): (r: Inline)
    ensures r.Bold? <==> StartsWith(part, "**") && EndsWith(part, "**")
    ensures r.Plain? ==> r.text == part
    ensures r.Bold? && |part| >= 4 ==> part == "**" + r.text + "**"
    ensures r.Bold? && |part| < 4 ==> r.text == ""
  {
    if StartsWith(part, "**") && EndsWith(part, "**") then
      Bold(if |part| >= 4 then part[2..|part| - 2] else "")
    else Plain(part)
  }

  function RenderAll(parts: seq<string>): (r: seq<Inline>)
    ensures |r| == |parts|
    ensures forall i :: 0 <= i < |parts| ==> r[i] == Render(parts[i])
  {
    seq(|parts|, i requires 0 <= i < |parts| => Render(parts[i]))
  }

  /** Every match in a line is shown in bold, with its asterisks removed and nothing else. */
  lemma MatchesRenderBold(line: string)
    ensures forall i :: 0 <= i < |Parts(line)| && i % 2 == 1 ==>
      RenderAll(Parts(line))[i].Bold? && "**" + RenderAll(Parts(line))[i].text + "**" == Parts(line)[i]
  {
    SegmentsCaptured(line, 0, 0);
  }

  /** `line.trim()` opens with a list marker. */
  predicate IsBullet(line: string) {
    StartsWith(Trim(line), "* ") || StartsWith(Trim(line), "- ")
  }

  /** The text of a list item after its leading whitespace and its two-character marker. */
  function BulletBody(line: string): (body: string)
    requires IsBullet(line)
    ensures var t := TrimStart(line); |t| >= 2 && (t[..2] == "* " || t[..2] == "- ") && t == t[..2] + body
  {
    var t := TrimStart(line);
    assert Trim(line) == t[..|Trim(line)|];
    assert Trim(line)[..2] == t[..2];
    t[2..]
  }

  /** `formatText` on one line as written: a list item shows `renderedLine.slice(1)`. */
  function FormatLineAsWritten(line: string): (b: Block)
    ensures b.Bullet? <==> IsBullet(line)
    ensures b.Paragraph? ==> |b.content| == |Parts(line)|
  {
    var rendered := RenderAll(Parts(line));
    if IsBullet(line) then Bullet(rendered[1..]) else Paragraph(rendered)
  }

  /** One line as intended: a list item shows the rendering of its text after the marker. */
  function FormatLine(line: string): (b: Block)
    ensures b.Bullet? <==> IsBullet(line)
    ensures b.Paragraph? ==> |b.content| == |Parts(line)|
  {
    if IsBullet(line) then Bullet(RenderAll(Parts(BulletBody(line)))) else Paragraph(RenderAll(Parts(line)))
  }

  function FormatTextAsWritten(text: string): (r: seq<Block>)
    ensures |r| == |SplitOn(text, '\n')| == Count(text, '\n') + 1
    ensures forall i :: 0 <= i < |r| ==> (r[i].Bullet? <==> IsBullet(SplitOn(text, '\n')[i]))
  {
    SplitCount(text, '\n');
    var lines := SplitOn(text, '\n');
    seq(|lines|, i requires 0 <= i < |lines| => FormatLineAsWritten(lines[i]))
  }

  /** `formatText` with the list-item rendering corrected. */
  function FormatText(text: string): (r: seq<Block>)
    ensures |r| == |SplitOn(text, '\n')| == Count(text, '\n') + 1
    ensures forall i :: 0 <= i < |r| ==> (r[i].Bullet? <==> IsBullet(SplitOn(text, '\n')[i]))
  {
    SplitCount(text, '\n');
    var lines := SplitOn(text, '\n');
    seq(|lines|, i requires 0 <= i < |lines| => FormatLine(lines[i]))
  }

  /** One block per line: one more than the reply has newlines, each rendered from its own line. */
  lemma BlockPerLine(text: string)
    ensures |FormatText(text)| == |FormatTextAsWritten(text)| == Count(text, '\n') + 1
    ensures forall i :: 0 <= i < |FormatText(text)| ==> FormatText(text)[i] == FormatLine(SplitOn(text, '\n')[i])
  {
    SplitCount(text, '\n');
  }

  /** Shown text of a rendered line. */
  function Shown(content: seq<Inline>): string {
    if content == [] then "" else content[0].text + Shown(content[1..])
  }

  lemma NoStarsSuffix(s: string, i: nat)
    requires NoStars(s) && i <= |s|
    ensures NoStars(s[i..])
  {
    forall k ensures !StarsAt(s[i..], k) {
      assert !StarsAt(s, k + i);
    }
  }

  /** A line without `**` is one plain piece. */
  lemma PlainLine(line: string)
    requires NoStars(line)
    ensures RenderAll(Parts(line)) == [Plain(line)]
  {
    SegmentsWithoutStars(line, 0, 0);
    assert !StarsAt(line, 0);
  }

  /**
   * A list item without `**` loses all its text as written (its only piece is the one
   * `slice(1)` drops); corrected, it shows everything after the marker.
   */
  lemma BulletWithoutStars(line: string)
    requires NoStars(line) && IsBullet(line)
    ensures FormatLineAsWritten(line) == Bullet([])
    ensures FormatLine(line) == Bullet([Plain(BulletBody(line))])
    ensures Shown(FormatLine(line).content) == BulletBody(line)
  {
    PlainLine(line);
    BodyWithoutStars(line);
    PlainLine(BulletBody(line));
    assert Shown([Plain(BulletBody(line))]) == BulletBody(line) + Shown([]);
  }

  /** The text after the marker of a line without `**` has none either. */
  lemma BodyWithoutStars(line: string)
    requires NoStars(line) && IsBullet(line)
    ensures NoStars(BulletBody(line))
  {
    var t := TrimStart(line);
    NoStarsSuffix(line, |line| - |t| + 2);
    assert BulletBody(line) == line[|line| - |t| + 2..];
  }

  /** The concrete case: the reply line "- item" becomes an empty list item as written. */
  lemma BulletTextLost(line: string)
    requires line == "- item"
    ensures FormatLineAsWritten(line) == Bullet([])
    ensures FormatLine(line) == Bullet([Plain("item")])
  {
    assert TrimStart(line) == line;
    assert TrimEnd(line) == line;
    assert IsBullet(line) by { assert line[..2] == "- "; }
    assert NoStars(line) by {
      forall k ensures !StarsAt(line, k) { }
    }
    BulletWithoutStars(line);
    assert BulletBody(line) == line[2..] == "item";
  }
}
