/**
 Byte budgets: which entries one compaction takes, how a lone oversized entry
 is clipped, what the constructor's check of the budgets guarantees about every
 request, and what a prompt section keeps.
 */
module Budgets {
  import opened Seqs
  import opened Utf8
  import opened Clipping
  import opened Rendering

  /** A stored exchange or update. */
  datatype Entry = Entry(sequence: nat, content: Content)

  function EntrySize(e: Entry): nat {
    ContentSize(e.content)
  }

  function Total(es: seq<Entry>): nat {
    if es == [] then 0 else EntrySize(es[0]) + Total(es[1..])
  }

  lemma {:induction false} TotalConcat(es: seq<Entry>, fs: seq<Entry>)
    ensures Total(es + fs) == Total(es) + Total(fs)
  {
    if es == [] {
      assert es + fs == fs;
    } else {
      TotalConcat(es[1..], fs);
      assert (es + fs)[1..] == es[1..] + fs;
    }
  }

  // The batch of one compaction.

  /** How many entries a batch holds that took the first `i` of them, `size` bytes in all, so far. */
  function BatchEnd(es: seq<Entry>, i: nat, size: nat, budget: nat): (n: nat)
    requires i <= |es|
    ensures i <= n <= |es|
    decreases |es| - i
  {
    if i == |es| || size >= budget || size + EntrySize(es[i]) > budget then i
    else BatchEnd(es, i + 1, size + EntrySize(es[i]), budget)
  }

  /** The first entry is always taken. */
  function OldestBatch(es: seq<Entry>, budget: nat): seq<Entry> {
    if es == [] then [] else es[..BatchEnd(es, 1, EntrySize(es[0]), budget)]
  }

  lemma TotalNext(es: seq<Entry>, i: nat)
    requires i < |es|
    ensures Total(es[..i + 1]) == Total(es[..i]) + EntrySize(es[i])
  {
    hide ContentSize;
    assert es[..i + 1] == es[..i] + [es[i]];
    TotalConcat(es[..i], [es[i]]);
    TotalOfOne(es[i]);
  }

  lemma TotalOfOne(e: Entry)
    ensures Total([e]) == EntrySize(e)
  {
    assert [e][1..] == [];
  }

  lemma EntryIsNotEmpty(e: Entry)
    ensures EntrySize(e) > 0
  {
    SizeOfContent(e.content);
  }

  lemma {:induction false} BatchEndIs(es: seq<Entry>, i: nat, size: nat, budget: nat)
    requires 1 <= i <= |es| && size == Total(es[..i]) && (i == 1 || size <= budget)
    ensures var n := BatchEnd(es, i, size, budget);
      && (n == 1 || Total(es[..n]) <= budget)
      && (n < |es| ==> budget < Total(es[..n]) + EntrySize(es[n]))
    decreases |es| - i
  {
    hide EntrySize, Total;
    if i < |es| {
      EntryIsNotEmpty(es[i]);
      if size < budget && size + EntrySize(es[i]) <= budget {
        TotalNext(es, i);
        BatchEndIs(es, i + 1, size + EntrySize(es[i]), budget);
      }
    }
  }

  /** The batch is the longest prefix that fits the budget, or the oldest entry alone when that is too large. */
  lemma OldestBatchIs(es: seq<Entry>, budget: nat)
    requires es != []
    ensures var b := OldestBatch(es, budget);
      && 1 <= |b| <= |es| && b == es[..|b|] && (|b| == 1 || Total(b) <= budget)
      && (|b| < |es| ==> budget < Total(b) + EntrySize(es[|b|]))
  {
    assert es[..1] == [es[0]];
    TotalOfOne(es[0]);
    hide ContentSize, Total;
    BatchEndIs(es, 1, EntrySize(es[0]), budget);
  }

  /** The loop of `_oldest_batch`. */
  method TakeOldest(entries: seq<Entry>, budget: nat) returns (batch: seq<Entry>)
    ensures batch == OldestBatch(entries, budget)
    ensures entries != [] ==> 1 <= |batch| <= |entries| && batch == entries[..|batch|]
    ensures |batch| > 1 ==> Total(batch) <= budget
    ensures |batch| < |entries| ==> budget < Total(batch) + EntrySize(entries[|batch|])
  {
    hide ContentSize, Total;
    batch := [];
    var size: nat, i: nat := 0, 0;
    while i < |entries|
      invariant i <= |entries| && batch == entries[..i]
      invariant i == 0 ==> size == 0
      invariant i > 0 ==> size < budget
      invariant i > 0 ==>
                  BatchEnd(entries, i, size, budget) == BatchEnd(entries, 1, EntrySize(entries[0]), budget)
    {
      var entry := entries[i];
      if batch != [] && size + EntrySize(entry) > budget {
        break;
      }
      batch := batch + [entry];
      size := size + EntrySize(entry);
      i := i + 1;
      if size >= budget {
        break;
      }
    }
    if entries != [] {
      assert batch == entries[..BatchEnd(entries, 1, EntrySize(entries[0]), budget)];
      OldestBatchIs(entries, budget);
    }
  }

  // Clipping a lone entry for the request.

  function Minus(n: nat, m: nat): nat {
    if n > m then n - m else 0
  }

  function ClipContent(c: Content, limit: nat): Content {
    match c
    case Exchange(user, assistant, time) =>
      Exchange(Clip(user, Minus(limit, Framing(c)) / 2), Clip(assistant, Minus(limit, Framing(c)) / 2), time)
    case Update(source, text, time) => Update(source, Clip(text, Minus(limit, Framing(c))), time)
  }

  /** A lone entry larger than the limit keeps its start and end. */
  function ClipSingle(batch: seq<Entry>, limit: nat): seq<Entry> {
    if |batch| != 1 || EntrySize(batch[0]) <= limit then batch
    else [batch[0].(content := ClipContent(batch[0].content, limit))]
  }

  /** The limit covers the framing; nothing else can exceed it. */
  lemma ClippedContentSize(c: Content, limit: nat)
    requires ContentSize(c) > limit
    ensures ContentSize(ClipContent(c, limit)) <= limit <==> Framing(c) <= limit
    ensures Framing(ClipContent(c, limit)) == Framing(c)
  {
    hide ContentSize, Clip, Encode;
    SizeOfContent(c);
    SizeOfContent(ClipContent(c, limit));
    match c
    case Exchange(user, assistant, time) =>
      ClipFits(user, Minus(limit, Framing(c)) / 2);
      ClipFits(assistant, Minus(limit, Framing(c)) / 2);
    case Update(source, text, time) => ClipFits(text, Minus(limit, Framing(c)));
  }

  /** A request's entries fit what is available exactly when the framing of the oldest entry does. */
  lemma BatchFits(es: seq<Entry>, available: nat)
    requires es != []
    ensures Total(ClipSingle(OldestBatch(es, available), available)) <= available
      <==> Framing(es[0].content) <= available
  {
    hide Clip, Encode, ContentSize, ClipContent;
    var b := OldestBatch(es, available);
    OldestBatchIs(es, available);
    hide OldestBatch;
    SizeOfContent(b[0].content);
    if |b| == 1 {
      TotalOfOne(b[0]);
      if EntrySize(b[0]) > available {
        ClippedContentSize(b[0].content, available);
        TotalOfOne(ClipSingle(b, available)[0]);
      }
    } else {
      assert Total(b) == EntrySize(b[0]) + Total(b[1..]);
    }
  }

  // The budgets of a manager.

  datatype Topic = Topic(name: string, budget: int)

  /** Incremental topics have unique names. */
  datatype Config = Config(dialogue: int, topics: seq<Topic>, input: int)

  function Largest(dialogue: int, topics: seq<Topic>): int {
    if topics == [] then dialogue
    else
      var rest := Largest(dialogue, topics[1..]);
      if topics[0].budget > rest then topics[0].budget else rest
  }

  /** What the constructor accepts. */
  predicate Accepted(cfg: Config) {
    && cfg.dialogue > 0 && cfg.input > 0 && (forall t :: t in cfg.topics ==> t.budget > 0)
    && cfg.input >= Largest(cfg.dialogue, cfg.topics) / 2 + 256
  }

  lemma {:induction false} LargestIsLargest(dialogue: int, topics: seq<Topic>)
    ensures Largest(dialogue, topics) >= dialogue
    ensures forall t :: t in topics ==> t.budget <= Largest(dialogue, topics)
  {
    if topics != [] {
      LargestIsLargest(dialogue, topics[1..]);
      assert topics == [topics[0]] + topics[1..];
    }
  }

  datatype Limits = Limits(trigger: nat, payload: nat, summary: nat)

  function LimitsOf(budget: nat, input: nat): Limits {
    Limits(budget / 2, input, if budget / 4 >= 1 then budget / 4 else 1)
  }

  /** The budget of a section of an accepted configuration. */
  ghost predicate SectionBudget(cfg: Config, budget: nat) {
    Accepted(cfg) && (budget == cfg.dialogue || exists t :: t in cfg.topics && t.budget == budget)
  }

  function Available(limits: Limits, previous: string): nat {
    if limits.payload - Size(previous) >= 1 then limits.payload - Size(previous) else 1
  }

  /** With a bounded earlier summary, an accepted configuration always leaves 202 bytes for new entries. */
  lemma AvailableIsEnough(cfg: Config, budget: nat, text: string, time: Option<int>)
    requires SectionBudget(cfg, budget) && Size(text) <= LimitsOf(budget, cfg.input).summary
    ensures var available := Available(LimitsOf(budget, cfg.input), PreviousInput(text, time));
      available >= 202 && available + Size(PreviousInput(text, time)) == cfg.input
  {
    hide Encode, PreviousInput;
    PreviousInputSize(text, time);
    LargestIsLargest(cfg.dialogue, cfg.topics);
    var l := Largest(cfg.dialogue, cfg.topics);
    assert budget <= l;
    assert budget / 2 <= l / 2;
  }

  /** The request that a compaction of `es` sends. */
  function Request(limits: Limits, previous: string, es: seq<Entry>): seq<Entry> {
    ClipSingle(OldestBatch(es, Available(limits, previous)), Available(limits, previous))
  }

  /**
   Under an accepted configuration and a bounded earlier summary, a request
   stays within its budget exactly when the framing of its oldest entry fits
   beside the summary.
   */
  lemma RequestFits(cfg: Config, budget: nat, text: string, time: Option<int>, es: seq<Entry>)
    requires SectionBudget(cfg, budget) && Size(text) <= LimitsOf(budget, cfg.input).summary && es != []
    ensures var previous := PreviousInput(text, time);
      Size(previous) + Total(Request(LimitsOf(budget, cfg.input), previous, es)) <= cfg.input
      <==> Size(previous) + Framing(es[0].content) <= cfg.input
  {
    hide PreviousInput, Encode, OldestBatch, ClipSingle, Accepted;
    AvailableIsEnough(cfg, budget, text, time);
    BatchFits(es, Available(LimitsOf(budget, cfg.input), PreviousInput(text, time)));
  }

  /** Dialogue requests always fit; so do those of a source whose name has at most 147 bytes. */
  lemma RequestsFit(cfg: Config, budget: nat, text: string, time: Option<int>, es: seq<Entry>)
    requires SectionBudget(cfg, budget) && Size(text) <= LimitsOf(budget, cfg.input).summary && es != []
    requires es[0].content.Update? ==> Size(es[0].content.source) <= 147
    ensures var previous := PreviousInput(text, time);
      Size(previous) + Total(Request(LimitsOf(budget, cfg.input), previous, es)) <= cfg.input
  {
    hide PreviousInput, Encode, Request, Accepted;
    AvailableIsEnough(cfg, budget, text, time);
    SizeOfContent(es[0].content);
    RequestFits(cfg, budget, text, time, es);
  }

  // Prompt sections.

  function TextTotal(texts: seq<string>): nat {
    if texts == [] then 0 else Size(texts[0]) + TextTotal(texts[1..])
  }

  lemma {:induction false} TextTotalConcat(a: seq<string>, b: seq<string>)
    ensures TextTotal(a + b) == TextTotal(a) + TextTotal(b)
  {
    if a == [] {
      assert a + b == b;
    } else {
      TextTotalConcat(a[1..], b);
      assert (a + b)[1..] == a[1..] + b;
    }
  }

  /** The suffix of `raw` from `k` on is what a section with this fixed text keeps. */
  ghost predicate Keeps(budget: int, fixed: seq<string>, raw: seq<string>, k: nat) {
    && k <= |raw| && (raw != [] ==> k < |raw|)
    && (k + 1 < |raw| ==> TextTotal(fixed) + TextTotal(raw[k..]) <= budget)
    && forall i :: 0 <= i < k ==> TextTotal(fixed) + TextTotal(raw[i..]) > budget
  }

  /** The longest suffix that fits, or else the newest entry alone. */
  method FitSection(budget: int, fixed: seq<string>, raw: seq<string>) returns (kept: seq<string>)
    ensures |fixed| <= |kept| <= |fixed| + |raw|
    ensures var k := |fixed| + |raw| - |kept|; Keeps(budget, fixed, raw, k) && kept == fixed + raw[k..]
    ensures TextTotal(kept) <= budget || kept == fixed + raw[if raw == [] then 0 else |raw| - 1..]
  {
    var rest := raw;
    ghost var k := 0;
    while |rest| > 1 && TextTotal(fixed + rest) > budget
      invariant k <= |raw| && rest == raw[k..] && (raw != [] ==> k < |raw|)
      invariant forall i :: 0 <= i < k ==> TextTotal(fixed) + TextTotal(raw[i..]) > budget
      decreases |rest|
    {
      TextTotalConcat(fixed, rest);
      rest := rest[1..];
      k := k + 1;
    }
    TextTotalConcat(fixed, rest);
    kept := fixed + rest;
  }

  /** One entry as a section shows it, each field within `limit`. */
  function ShownExchange(c: Content, limit: nat): string
    requires c.Exchange?
  {
    ExchangeText(Clip(c.user, limit), Clip(c.assistant, limit), c.time)
  }

  function ShownUpdate(c: Content, limit: nat): string
    requires c.Update?
  {
    UpdateText(c.source, Clip(c.text, limit), c.time)
  }

  lemma ShownExchangeSize(c: Content, limit: nat)
    requires c.Exchange?
    ensures Size(ShownExchange(c, limit)) <= 72 + 2 * limit
  {
    hide Clip, Encode;
    ClipFits(c.user, limit);
    ClipFits(c.assistant, limit);
    SizeOfContent(Exchange(Clip(c.user, limit), Clip(c.assistant, limit), c.time));
  }

  lemma ShownUpdateSize(c: Content, limit: nat)
    requires c.Update?
    ensures Size(ShownUpdate(c, limit)) <= 55 + Size(c.source) + limit
  {
    hide Clip, Encode;
    ClipFits(c.text, limit);
    SizeOfContent(Update(c.source, Clip(c.text, limit), c.time));
  }

  function DialogueRaw(es: seq<Content>, budget: nat): (texts: seq<string>)
    requires forall c :: c in es ==> c.Exchange?
    ensures |texts| == |es|
    ensures forall i :: 0 <= i < |es| ==> texts[i] == ShownExchange(es[i], budget / 4)
  {
    seq(|es|, i requires 0 <= i < |es| => ShownExchange(es[i], budget / 4))
  }

  function DialogueFixed(text: string, time: Option<int>): seq<string> {
    if text == "" then [] else [DialogueSummaryText(text, time)]
  }

  /** A dialogue section is within its budget whenever the budget covers the headers and three quarters of itself. */
  lemma DialogueSectionFits(budget: nat, text: string, time: Option<int>, es: seq<Content>, k: nat)
    requires forall c :: c in es ==> c.Exchange?
    requires 159 + 3 * (budget / 4) <= budget && Size(text) <= LimitsOf(budget, 0).summary
    requires Keeps(budget, DialogueFixed(text, time), DialogueRaw(es, budget), k)
    ensures TextTotal(DialogueFixed(text, time) + DialogueRaw(es, budget)[k..]) <= budget
  {
    hide Encode, DialogueSummaryText, ShownExchange;
    var fixed, raw := DialogueFixed(text, time), DialogueRaw(es, budget);
    TextTotalConcat(fixed, raw[k..]);
    DialogueSummarySize(text, time);
    assert TextTotal(fixed) <= 87 + budget / 4;
    if k + 1 == |raw| {
      ShownExchangeSize(es[k], budget / 4);
      assert raw[k..] == [raw[k]] && raw[k..][1..] == [];
    } else if raw == [] {
      assert raw[k..] == [];
    }
  }

  function SourceRaw(es: seq<Content>, budget: nat): (texts: seq<string>)
    requires forall c :: c in es ==> c.Update?
    ensures |texts| == |es|
    ensures forall i :: 0 <= i < |es| ==> texts[i] == ShownUpdate(es[i], budget / 2)
  {
    seq(|es|, i requires 0 <= i < |es| => ShownUpdate(es[i], budget / 2))
  }

  function SourceFixed(source: string, text: string, time: Option<int>): seq<string> {
    if text == "" then [] else [SourceSummaryText(source, text, time)]
  }

  lemma SourceSectionFits(budget: nat, source: string, text: string, time: Option<int>, es: seq<Content>, k: nat)
    requires forall c :: c in es ==> c.Update? && c.source == source
    requires 126 + 2 * Size(source) + budget / 4 + budget / 2 <= budget && Size(text) <= LimitsOf(budget, 0).summary
    requires Keeps(budget, SourceFixed(source, text, time), SourceRaw(es, budget), k)
    ensures TextTotal(SourceFixed(source, text, time) + SourceRaw(es, budget)[k..]) <= budget
  {
    hide Encode, SourceSummaryText, ShownUpdate;
    var fixed, raw := SourceFixed(source, text, time), SourceRaw(es, budget);
    TextTotalConcat(fixed, raw[k..]);
    SourceSummarySize(source, text, time);
    assert TextTotal(fixed) <= 71 + Size(source) + budget / 4;
    if k + 1 == |raw| {
      ShownUpdateSize(es[k], budget / 2);
      assert raw[k..] == [raw[k]] && raw[k..][1..] == [];
    } else if raw == [] {
      assert raw[k..] == [];
    }
  }

  // The state of a summary topic.

  /** The text stored for a state update, or nothing when not even its framing leaves room. */
  function StoredState(source: string, text: string, time: Option<int>, budget: nat): Option<string> {
    if Size(StateText(source, text, time)) <= budget then Some(text)
    else if Size(StateText(source, "", time)) >= budget then None
    else Some(Clip(text, budget - Size(StateText(source, "", time))))
  }

  /**
   A stored state renders within its topic's budget; it is dropped exactly when it
   is too large and nothing of it could fit.
   */
  lemma StoredStateFits(source: string, text: string, time: Option<int>, budget: nat)
    ensures var r := StoredState(source, text, time, budget);
      && (r.Some? ==> Size(StateText(source, r.value, time)) <= budget)
      && (r == None <==> budget < Size(StateText(source, "", time)) + if text == "" then 0 else 1)
  {
    hide Encode, StateText, Clip;
    StateSize(source, text, time);
    if Size(StateText(source, "", time)) < budget {
      var room := budget - Size(StateText(source, "", time));
      ClipFits(text, room);
      StateSize(source, Clip(text, room), time);
    }
  }
}
