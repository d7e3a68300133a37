/**
 How entries and summaries read in a prompt, and how many bytes they take:
 xr_ai_conversation/_context.py measures entries exactly as they are rendered.
 */
module Rendering {
  import opened Seqs
  import opened Utf8
  import opened Clipping

  // Times are microseconds since 1970 and display as minutes, such as "2026-01-31 08:05 UTC".

  function TwoDigits(n: int): (s: string)
    ensures |s| == 2 && Ascii(s)
  {
    [Digit(n / 10 % 10), Digit(n % 10)]
  }

  datatype Date = Date(year: int, month: int, day: int)

  /** The date of a day counted from 1970-01-01, in the proleptic Gregorian calendar. */
  function DateOf(day: int): Date {
    var era, doe := (day + 719468) / 146097, (day + 719468) % 146097;
    var yoe := (doe - doe / 1460 + doe / 36524 - doe / 146096) / 365;
    var doy := doe - (365 * yoe + yoe / 4 - yoe / 100);
    var mp := (5 * doy + 2) / 153;
    var month := if mp < 10 then mp + 3 else mp - 9;
    Date(yoe + 400 * era + (if month <= 2 then 1 else 0), month, doy - (153 * mp + 2) / 5 + 1)
  }

  function FormatMinute(us: int): (s: string)
    ensures |s| == 20 && Ascii(s)
  {
    var minute := us / 60_000_000;
    var date := DateOf(minute / 1440);
    TwoDigits(date.year / 100) + TwoDigits(date.year) + "-" + TwoDigits(date.month) + "-" + TwoDigits(date.day)
    + " " + TwoDigits(minute % 1440 / 60) + ":" + TwoDigits(minute % 60) + " UTC"
  }

  /** A completed exchange or one update of a source, without its sequence number. */
  datatype Content =
    | Exchange(user: string, assistant: string, time: Option<int>)
    | Update(source: string, text: string, time: Option<int>)

  function TimeLabel(time: Option<int>): string {
    if time.Some? then "around " + FormatMinute(time.value) else "at an unknown time"
  }

  // The framing of each kind of text.

  const ExchangeHead := "Exchange completed "
  const UserHead := ":\nUser: "
  const AssistantHead := "\nAssistant: "
  const OpenQuote := "\U{201C}"
  const CloseQuote := "\U{201D}"
  const SourceHead := "Source "
  const UpdateHead := " update, published "
  const StateHead := " current state, " + "published "
  const EarlierHead := "Earlier summary " + "(up to "
  const DialogueHead := "Summary of the " + "earlier conversation " + "with this user, up to "
  const SourceSummaryHead := " summary of " + "earlier updates, up to "

  function ExchangeText(user: string, assistant: string, time: Option<int>): string {
    ExchangeHead + TimeLabel(time) + UserHead + user + AssistantHead + OpenQuote + assistant + CloseQuote
  }

  function UpdateText(source: string, text: string, time: Option<int>): string {
    SourceHead + source + UpdateHead + TimeLabel(time) + ":\n" + text
  }

  function Rendered(c: Content): string {
    match c
    case Exchange(user, assistant, time) => ExchangeText(user, assistant, time)
    case Update(source, text, time) => UpdateText(source, text, time)
  }

  /** The size of an entry as rendered into a prompt. */
  function ContentSize(c: Content): nat {
    Size(Rendered(c))
  }

  function StateText(source: string, text: string, time: Option<int>): string {
    SourceHead + source + StateHead + TimeLabel(time) + ":\n" + text
  }

  function DialogueSummaryText(text: string, time: Option<int>): string {
    DialogueHead + TimeLabel(time) + ":\n" + text
  }

  function SourceSummaryText(source: string, text: string, time: Option<int>): string {
    SourceHead + source + SourceSummaryHead + TimeLabel(time) + ":\n" + text
  }

  /** The earlier summary as a compaction request carries it. */
  function PreviousInput(text: string, time: Option<int>): string {
    if text == "" then "" else EarlierHead + TimeLabel(time) + "):\n" + text
  }

  // Sizes.

  lemma AsciiConcat(s: string, t: string)
    requires Ascii(s) && Ascii(t)
    ensures Ascii(s + t) && Size(s + t) == |s| + |t|
  {
    hide Encode;
    AsciiSize(s + t);
  }

  lemma LabelSize(time: Option<int>)
    ensures Size(TimeLabel(time)) <= 27
  {
    hide Encode;
    hide FormatMinute;
    assert Ascii("around ") && Ascii("at an unknown time");
    AsciiSize(TimeLabel(time));
  }

  lemma QuoteSizes()
    ensures Size(OpenQuote) == 3 && Size(CloseQuote) == 3
  {
    EncodeFirst('\U{201C}', "");
    EncodeFirst('\U{201D}', "");
    assert OpenQuote == ['\U{201C}'] + "" && CloseQuote == ['\U{201D}'] + "";
    assert |EncodeChar('\U{201C}')| == 3 && |EncodeChar('\U{201D}')| == 3;
  }

  lemma ExchangeHeadSizes()
    ensures Size(ExchangeHead) == 19 && Size(UserHead) == 8 && Size(AssistantHead) == 12
  {
    hide Encode;
    AsciiSize(ExchangeHead);
    AsciiSize(UserHead);
    AsciiSize(AssistantHead);
  }

  lemma UpdateHeadSizes()
    ensures Size(SourceHead) == 7 && Size(UpdateHead) == 19 && Size(":\n") == 2 && Size("):\n") == 3
  {
    hide Encode;
    AsciiSize(SourceHead);
    AsciiSize(UpdateHead);
    AsciiSize(":\n");
    AsciiSize("):\n");
  }

  lemma EarlierHeadSize()
    ensures Size(EarlierHead) == 23
  {
    hide Encode;
    AsciiConcat("Earlier summary ", "(up to ");
  }

  lemma SourceSummaryHeadSize()
    ensures Size(SourceSummaryHead) == 35
  {
    hide Encode;
    AsciiConcat(" summary of ", "earlier updates, up to ");
  }

  lemma DialogueHeadSize()
    ensures Size(DialogueHead) == 58
  {
    hide Encode;
    Concat3("Summary of the ", "earlier conversation ", "with this user, up to ");
    AsciiSize("Summary of the ");
    AsciiSize("earlier conversation ");
    AsciiSize("with this user, up to ");
  }

  lemma Concat3(a: string, b: string, c: string)
    ensures Size(a + b + c) == Size(a) + Size(b) + Size(c)
  {
    hide Encode;
    SizeConcat(a + b, c);
    SizeConcat(a, b);
  }

  lemma Concat4(a: string, b: string, c: string, d: string)
    ensures Size(a + b + c + d) == Size(a) + Size(b) + Size(c) + Size(d)
  {
    hide Encode;
    SizeConcat(a + b + c, d);
    Concat3(a, b, c);
  }

  function ExchangeFraming(time: Option<int>): (n: nat) {
    45 + Size(TimeLabel(time))
  }

  function UpdateFraming(source: string, time: Option<int>): (n: nat) {
    28 + Size(source) + Size(TimeLabel(time))
  }

  /** The bytes of an entry besides its own text. */
  function Framing(c: Content): nat {
    match c
    case Exchange(_, _, time) => ExchangeFraming(time)
    case Update(source, _, time) => UpdateFraming(source, time)
  }

  function OwnSize(c: Content): nat {
    match c
    case Exchange(user, assistant, _) => Size(user) + Size(assistant)
    case Update(_, text, _) => Size(text)
  }

  lemma ExchangeSize(user: string, assistant: string, time: Option<int>)
    ensures Size(ExchangeText(user, assistant, time)) == ExchangeFraming(time) + Size(user) + Size(assistant)
  {
    hide Encode;
    ExchangeHeadSizes();
    QuoteSizes();
    var a := ExchangeHead + TimeLabel(time) + UserHead + user;
    Concat4(ExchangeHead, TimeLabel(time), UserHead, user);
    Concat4(a, AssistantHead, OpenQuote, assistant);
    SizeConcat(a + AssistantHead + OpenQuote + assistant, CloseQuote);
  }

  lemma UpdateSize(source: string, text: string, time: Option<int>)
    ensures Size(UpdateText(source, text, time)) == UpdateFraming(source, time) + Size(text)
  {
    hide Encode;
    UpdateHeadSizes();
    Concat4(SourceHead, source, UpdateHead, TimeLabel(time));
    Concat3(SourceHead + source + UpdateHead + TimeLabel(time), ":\n", text);
  }

  /** An entry takes its framing and its own text; the framing is never empty. */
  lemma SizeOfContent(c: Content)
    ensures ContentSize(c) == Framing(c) + OwnSize(c) && Framing(c) > 0
    ensures c.Exchange? ==> Framing(c) <= 72
    ensures c.Update? ==> Framing(c) <= 55 + Size(c.source)
  {
    hide Encode;
    LabelSize(c.time);
    hide TimeLabel;
    match c
    case Exchange(user, assistant, time) => ExchangeSize(user, assistant, time);
    case Update(source, text, time) => UpdateSize(source, text, time);
  }

  lemma PreviousInputSize(text: string, time: Option<int>)
    ensures Size(PreviousInput(text, time)) <= 53 + Size(text)
  {
    hide Encode;
    LabelSize(time);
    UpdateHeadSizes();
    EarlierHeadSize();
    hide TimeLabel;
    if text != "" {
      Concat4(EarlierHead, TimeLabel(time), "):\n", text);
    }
  }

  lemma StateSize(source: string, text: string, time: Option<int>)
    ensures Size(StateText(source, text, time)) == Size(StateText(source, "", time)) + Size(text)
  {
    hide Encode;
    SizeConcat(StateText(source, "", time), text);
    assert StateText(source, "", time) + text == StateText(source, text, time);
  }

  lemma DialogueSummarySize(text: string, time: Option<int>)
    ensures Size(DialogueSummaryText(text, time)) <= 87 + Size(text)
  {
    hide Encode;
    LabelSize(time);
    UpdateHeadSizes();
    DialogueHeadSize();
    hide TimeLabel;
    Concat4(DialogueHead, TimeLabel(time), ":\n", text);
  }

  lemma SourceSummarySize(source: string, text: string, time: Option<int>)
    ensures Size(SourceSummaryText(source, text, time)) <= 71 + Size(source) + Size(text)
  {
    hide Encode;
    LabelSize(time);
    UpdateHeadSizes();
    SourceSummaryHeadSize();
    hide TimeLabel;
    Concat4(SourceHead, source, SourceSummaryHead, TimeLabel(time));
    Concat3(SourceHead + source + SourceSummaryHead + TimeLabel(time), ":\n", text);
  }
}
