/** Bounding the summary that a compaction returns, as `_bounded_summary` of xr_ai_conversation/_context.py does. */
module Summaries {
  import opened Utf8
  import opened Clipping

  /** What `str.isspace` accepts. */
  predicate Space(c: char) {
    var n := c as int;
    || 0x9 <= n <= 0xD || 0x1C <= n <= 0x20 || n == 0x85 || n == 0xA0 || n == 0x1680
    || 0x2000 <= n <= 0x200A || n == 0x2028 || n == 0x2029 || n == 0x202F || n == 0x205F || n == 0x3000
  }

  predicate Blank(s: string) {
    forall i :: 0 <= i < |s| ==> Space(s[i])
  }

  function StripLeft(s: string): string {
    if s != "" && Space(s[0]) then StripLeft(s[1..]) else s
  }

  function StripRight(s: string): string {
    if s != "" && Space(s[|s| - 1]) then StripRight(s[..|s| - 1]) else s
  }

  function Strip(s: string): string {
    StripRight(StripLeft(s))
  }

  lemma {:induction false} StripLeftTrims(s: string) returns (k: nat)
    ensures k <= |s| && StripLeft(s) == s[k..] && Blank(s[..k])
    ensures StripLeft(s) != "" ==> !Space(StripLeft(s)[0])
  {
    k := 0;
    if s != "" && Space(s[0]) {
      var more := StripLeftTrims(s[1..]);
      k := more + 1;
      assert s[1..][more..] == s[k..];
      assert s[..k] == [s[0]] + s[1..][..more];
    }
  }

  lemma {:induction false} StripRightTrims(s: string) returns (k: nat)
    ensures k <= |s| && StripRight(s) == s[..k] && Blank(s[k..])
    ensures k > 0 ==> !Space(s[k - 1])
  {
    k := |s|;
    if s != "" && Space(s[|s| - 1]) {
      var front := s[..|s| - 1];
      k := StripRightTrims(front);
      assert front[..k] == s[..k];
      assert s[k..] == front[k..] + [s[|s| - 1]];
    }
  }

  /** Exactly the white space around the text is removed. */
  lemma StripTrims(s: string) returns (i: nat, j: nat)
    ensures i <= j <= |s| && Strip(s) == s[i..j] && Blank(s[..i]) && Blank(s[j..])
    ensures i < j ==> !Space(s[i]) && !Space(s[j - 1])
    ensures Strip(s) == "" <==> Blank(s)
  {
    i := StripLeftTrims(s);
    var k := StripRightTrims(s[i..]);
    j := i + k;
    assert s[i..][..k] == s[i..j] && s[i..][k..] == s[j..];
    if i == j {
      assert s == s[..i] + s[i..];
    } else {
      assert StripLeft(s)[0] == s[i] && s[i..][k - 1] == s[j - 1];
      assert !Blank(s);
    }
  }

  /** How a model request ended. `CutOff` is a response cut off at the output limit. */
  datatype Reply = Answer(text: string) | CutOff | Error

  datatype Outcome = Summary(text: string) | Failed

  /** What the second request is asked to condense. */
  function CondenseInput(summary: string, payload: nat): string {
    Clip(Strip(summary), payload)
  }

  /** The request to condense carries no more than the payload budget. */
  lemma CondenseRequestFits(summary: string, payload: nat)
    ensures Size(CondenseInput(summary, payload)) <= payload
  {
    hide Clip, Encode, Strip;
    ClipFits(Strip(summary), payload);
  }

  predicate Oversized(first: Reply, limit: nat) {
    first.Answer? && Strip(first.text) != "" && Size(Strip(first.text)) > limit
  }

  /** `second` answers the request to condense, which is made only when the first summary is too large. */
  function BoundedSummary(first: Reply, second: Reply, limit: nat): Outcome {
    match first
    case CutOff => Failed
    case Error => Failed
    case Answer(text) =>
      var summary := Strip(text);
      if summary == "" then Failed
      else if Size(summary) <= limit then Summary(summary)
      else
        match second
        case Error => Failed
        case CutOff => Summary(Clip(summary, limit))
        case Answer(more) => Summary(Clip(if Strip(more) != "" then Strip(more) else summary, limit))
  }

  /** The text that is kept, before it is clipped. */
  function Kept(first: Reply, second: Reply): string
    requires first.Answer?
  {
    if second.Answer? && Strip(second.text) != "" then Strip(second.text) else Strip(first.text)
  }

  /**
   A summary is refused only when a request failed or the first answer was
   blank; a kept one fits, and is empty exactly when the first character of the
   kept text alone exceeds the limit.
   */
  lemma SummaryIsBounded(first: Reply, second: Reply, limit: nat)
    ensures var r := BoundedSummary(first, second, limit);
      && (r == Failed <==> !first.Answer? || Blank(first.text) || (Oversized(first, limit) && second == Error))
      && (r.Summary? ==> Size(r.text) <= limit)
      && (r.Summary? ==> (r.text == "" <==> Oversized(first, limit) && limit < |EncodeChar(Kept(first, second)[0])|))
  {
    hide Strip, Blank, Clip, EncodeChar, Encode;
    if first.Answer? {
      var i, j := StripTrims(first.text);
      if Strip(first.text) != "" && Size(Strip(first.text)) > limit {
        ClipFits(Kept(first, second), limit);
        ClipEmpty(Kept(first, second), limit);
      }
    }
  }

  /** From four bytes on, a summary that is kept says something. */
  lemma SummaryIsNotEmpty(first: Reply, second: Reply, limit: nat)
    requires limit >= 4
    ensures var r := BoundedSummary(first, second, limit); r.Summary? ==> r.text != ""
  {
    SummaryIsBounded(first, second, limit);
  }

  /** Below four bytes it can come out empty. */
  lemma TinyLimitEmpties(limit: nat)
    requires 0 < limit < 4
    ensures BoundedSummary(Answer("\U{1F600}"), CutOff, limit) == Summary("")
  {
    var s := "\U{1F600}";
    var i, j := StripTrims(s);
    assert Strip(s) == s;
    assert Encode(s) == EncodeChar(s[0]) + Encode(s[1..]);
    ClipEmpty(s, limit);
    hide Clip, Encode;
  }
}
