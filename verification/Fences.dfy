/** How the text of the final answer is read: white space and markdown fences go, the rest is parsed. */
module Fences {
  import opened Wrappers
  import opened Text
  import opened AgentGraph

  function Fence(): (r: string)
    ensures |r| == 3 && forall i :: 0 <= i < 3 ==> r[i] == '`'
  {
    "```"
  }

  function AfterNewline(s: string): Option<string> {
    if s == "" then None
    else if s[0] == '\n' then Some(s[1..])
    else AfterNewline(s[1..])
  }

  /** An opening fence goes with the rest of its line, or alone when there is no other line. */
  function Opened(raw: string): string {
    if !(Fence() <= raw) then raw
    else if AfterNewline(raw).Some? then AfterNewline(raw).value
    else raw[3..]
  }

  predicate EndsWithFence(s: string) {
    |s| >= 3 && s[|s| - 3..] == Fence()
  }

  function Closed(s: string): string {
    if EndsWithFence(s) then s[..|s| - 3] else s
  }

  /** What is handed to the JSON parser. */
  function Unfence(text: string): string {
    Strip(Closed(Opened(Strip(text))))
  }

  /** The outcome of the synthesis call for an answer text, given the parser. */
  function Read(json: string -> Option<Verdict>, text: string): Synthesis {
    Answer(json(Unfence(text)))
  }

  predicate NoNewline(s: string) {
    forall i :: 0 <= i < |s| ==> s[i] != '\n'
  }

  lemma {:induction false} AfterHeader(h: string, rest: string)
    requires NoNewline(h)
    ensures AfterNewline(h + "\n" + rest) == Some(rest)
  {
    var s := h + "\n" + rest;
    if h != "" {
      assert s[1..] == h[1..] + "\n" + rest;
      AfterHeader(h[1..], rest);
    } else {
      assert s[1..] == rest;
    }
  }

  function Fenced(info: string, body: string): string {
    Fence() + info + "\n" + (body + "\n" + Fence())
  }

  lemma FencedIsTrimmed(info: string, body: string)
    ensures Trimmed(Fenced(info, body))
  {
    var text := Fenced(info, body);
    assert text[0] == Fence()[0] && text[|text| - 1] == Fence()[2];
  }

  lemma OpenedFenced(info: string, body: string)
    requires NoNewline(info)
    ensures Opened(Fenced(info, body)) == body + "\n" + Fence()
  {
    var rest := body + "\n" + Fence();
    var header := Fence() + info;
    assert NoNewline(header);
    AfterHeader(header, rest);
    assert Fence() <= header + "\n" + rest;
  }

  lemma ClosedFenced(body: string)
    requires Trimmed(body) && body != ""
    ensures Strip(Closed(body + "\n" + Fence())) == body
  {
    var inner := body + "\n" + Fence();
    assert inner[|inner| - 3..] == Fence();
    assert inner[..|inner| - 3] == "" + body + "\n";
    StripRemoves("", body, "\n");
  }

  lemma BareIsRead(body: string)
    requires Trimmed(body) && !(Fence() <= body) && !EndsWithFence(body)
    ensures Unfence(body) == body
  {
    TrimmedIsStripped(body);
  }

  lemma ReadThrough(text: string, inner: string, body: string)
    requires Trimmed(text) && Opened(text) == inner && Strip(Closed(inner)) == body
    ensures Unfence(text) == body
  {
    TrimmedIsStripped(text);
  }

  /** A fenced answer is read like the bare one, whatever info string follows the opening fence. */
  lemma FencesDoNotMatter(info: string, body: string)
    requires NoNewline(info) && Trimmed(body) && body != "" && !(Fence() <= body) && !EndsWithFence(body)
    ensures Unfence(Fenced(info, body)) == Unfence(body) == body
  {
    FencedIsTrimmed(info, body);
    OpenedFenced(info, body);
    ClosedFenced(body);
    ReadThrough(Fenced(info, body), body + "\n" + Fence(), body);
    BareIsRead(body);
  }

  /** So the investigation is the same, trail and all. */
  lemma FencesSameInvestigation(env: Env, json: string -> Option<Verdict>, info: string, body: string)
    requires NoNewline(info) && Trimmed(body) && body != "" && !(Fence() <= body) && !EndsWithFence(body)
    ensures Investigate(env.(synthesis := Read(json, Fenced(info, body)))) ==
        Investigate(env.(synthesis := Read(json, body)))
  {
    FencesDoNotMatter(info, body);
  }

  /** Without a newline only the opening fence itself goes. */
  lemma LoneFence(body: string)
    requires NoNewline(body) && Trimmed(body) && body != "" && !EndsWithFence(Fence() + body)
    ensures Unfence(Fence() + body) == body
  {
    var text := Fence() + body;
    assert text[0] == '`' && text[|text| - 1] == body[|body| - 1];
    NoNewlineAfter(text);
    assert text[3..] == body;
    assert |body| >= 3 ==> text[|text| - 3..] == body[|body| - 3..];
    TrimmedIsStripped(body);
    assert text[..3] == Fence();
    ReadThrough(text, body, body);
  }

  /** Fences around nothing leave nothing. */
  lemma EmptyFenced(info: string)
    requires NoNewline(info)
    ensures Unfence(Fence() + info + "\n" + Fence()) == ""
  {
    var text := Fence() + info + "\n" + Fence();
    assert text[0] == Fence()[0] && text[|text| - 1] == Fence()[2];
    AfterHeader(Fence() + info, Fence());
    assert Fence() <= text;
    assert Fence()[|Fence()| - 3..] == Fence();
    assert Closed(Fence()) == "";
    ReadThrough(text, Fence(), "");
  }

  lemma {:induction false} NoNewlineAfter(s: string)
    requires NoNewline(s)
    ensures AfterNewline(s).None?
  {
    if s != "" {
      NoNewlineAfter(s[1..]);
    }
  }
}
