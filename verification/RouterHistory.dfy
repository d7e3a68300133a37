/**
 The routing history of the agent router: three parallel lists per participant,
 kept within a byte budget, and the decision request that is retried with less
 history when the decision model rejects it as too large.
 */
module RouterHistory {
  import opened Seqs
  import opened Utf8
  import opened Rendering

  datatype AgentExchange = AgentExchange(user: string, assistant: string)

  // The size of one serialized history entry.

  function HexDigit(d: nat): char
    requires d < 16
  {
    if d < 10 then ('0' as int + d) as char else ('a' as int + (d - 10)) as char
  }

  /** How JSON writes one character inside a string, leaving non-ASCII characters as they are. */
  function Escaped(c: char): string {
    if c == '\"' then "\\\""
    else if c == '\\' then "\\\\"
    else if c == '\n' then "\\n"
    else if c == '\r' then "\\r"
    else if c == '\t' then "\\t"
    else if c as int == 8 then "\\b"
    else if c as int == 12 then "\\f"
    else if (c as int) < 32 then "\\u00" + [HexDigit(c as int / 16), HexDigit(c as int % 16)]
    else [c]
  }

  function JsonString(s: string): string {
    "\"" + JsonBody(s) + "\""
  }

  function JsonBody(s: string): string {
    if s == "" then "" else Escaped(s[0]) + JsonBody(s[1..])
  }

  function ItemText(x: AgentExchange, time: Option<int>): string {
    "{\"user\":" + JsonString(x.user) + ",\"assistant\":" + JsonString(x.assistant)
    + ",\"recorded_around_utc\":" + JsonString(if time.Some? then FormatMinute(time.value) else "unknown") + "}"
  }

  function ItemSize(x: AgentExchange, time: Option<int>): nat {
    Size(ItemText(x, time))
  }

  /** Three parallel lists. */
  datatype History = History(exchanges: seq<AgentExchange>, times: seq<Option<int>>, ids: seq<Option<nat>>)

  predicate Aligned(h: History) {
    |h.exchanges| == |h.times| == |h.ids|
  }

  function SizeFrom(h: History, k: nat): nat
    requires Aligned(h) && k <= |h.exchanges|
    decreases |h.exchanges| - k
  {
    if k == |h.exchanges| then 0 else ItemSize(h.exchanges[k], h.times[k]) + SizeFrom(h, k + 1)
  }

  function From(h: History, k: nat): (r: History)
    requires Aligned(h) && k <= |h.exchanges|
    ensures Aligned(r) && |r.exchanges| == |h.exchanges| - k
  {
    History(h.exchanges[k..], h.times[k..], h.ids[k..])
  }

  /** Where the longest suffix within the budget starts. */
  ghost predicate StartsLongest(h: History, budget: int, k: nat) {
    && Aligned(h) && k <= |h.exchanges|
    && (k < |h.exchanges| ==> SizeFrom(h, k) <= budget)
    && (k > 0 ==> k <= |h.exchanges| && SizeFrom(h, k - 1) > budget)
  }

  /** Earlier suffixes are no smaller, so none of them fits either. */
  lemma {:induction false} LargerSuffixes(h: History, j: nat, k: nat)
    requires Aligned(h) && j <= k <= |h.exchanges|
    ensures SizeFrom(h, j) >= SizeFrom(h, k)
    decreases k - j
  {
    hide ItemSize;
    if j < k { LargerSuffixes(h, j + 1, k); }
  }

  lemma LongestIsLongest(h: History, budget: int, k: nat, j: nat)
    requires StartsLongest(h, budget, k) && j < k
    ensures SizeFrom(h, j) > budget
  {
    hide ItemSize;
    LargerSuffixes(h, j, k - 1);
  }

  /** `r` is the longest suffix of `h` within the budget. */
  ghost predicate IsLongest(h: History, budget: int, r: History) {
    && Aligned(h) && Aligned(r) && |r.exchanges| <= |h.exchanges|
    && var k := |h.exchanges| - |r.exchanges|; StartsLongest(h, budget, k) && r == From(h, k)
  }

  /** The loop of `_bounded_history_with_metadata`, from the newest entry back. */
  method Bounded(h: History, budget: int) returns (r: History)
    requires Aligned(h)
    ensures IsLongest(h, budget, r)
  {
    hide ItemSize;
    var exchanges, times, ids := [], [], [];
    var size: nat := 0;
    var i := |h.exchanges|;
    while i > 0
      invariant 0 <= i <= |h.exchanges|
      invariant History(exchanges, times, ids) == From(h, i) && size == SizeFrom(h, i)
      invariant i < |h.exchanges| ==> size <= budget
    {
      var itemSize := ItemSize(h.exchanges[i - 1], h.times[i - 1]);
      if exchanges != [] && size + itemSize > budget {
        break;
      }
      if exchanges == [] && itemSize > budget {
        assert size == 0;
        break;
      }
      exchanges := [h.exchanges[i - 1]] + exchanges;
      times := [h.times[i - 1]] + times;
      ids := [h.ids[i - 1]] + ids;
      size := size + itemSize;
      i := i - 1;
    }
    r := History(exchanges, times, ids);
  }

  lemma {:induction false} SizeFromSuffix(h: History, k: nat, i: nat)
    requires Aligned(h) && k + i <= |h.exchanges|
    ensures SizeFrom(From(h, k), i) == SizeFrom(h, k + i)
    decreases |h.exchanges| - k - i
  {
    hide ItemSize;
    if k + i < |h.exchanges| {
      SizeFromSuffix(h, k, i + 1);
    }
  }

  /** Only one suffix qualifies. */
  lemma StartIsUnique(h: History, budget: int, j: nat, k: nat)
    requires StartsLongest(h, budget, j) && StartsLongest(h, budget, k)
    ensures j == k
  {
    hide ItemSize;
    if j < k && j < |h.exchanges| { LongestIsLongest(h, budget, k, j); }
    if k < j && k < |h.exchanges| { LongestIsLongest(h, budget, j, k); }
  }

  /** Trimming what was trimmed keeps all of it. */
  lemma TrimmingIsIdempotent(h: History, budget: int, r: History, again: History)
    requires IsLongest(h, budget, r) && IsLongest(r, budget, again)
    ensures again == r
  {
    hide From, SizeFrom, StartsLongest;
    var k, j := |h.exchanges| - |r.exchanges|, |r.exchanges| - |again.exchanges|;
    TrimmedFits(h, budget, k);
    StartIsUnique(r, budget, j, 0);
    FromStart(r);
  }

  lemma FromStart(h: History)
    requires Aligned(h)
    ensures From(h, 0) == h
  {
  }

  lemma TrimmedFits(h: History, budget: int, k: nat)
    requires StartsLongest(h, budget, k)
    ensures StartsLongest(From(h, k), budget, 0)
  {
    SizeFromSuffix(h, k, 0);
    hide SizeFrom, From;
  }

  class Histories {
    const budget: int
    var history: map<string, seq<AgentExchange>>
    var times: map<string, seq<Option<int>>>
    var ids: map<string, seq<Option<nat>>>

    /** The three tables have the same participants and aligned lists. */
    ghost predicate Valid()
      reads this
    {
      && history.Keys == times.Keys == ids.Keys
      && forall p :: p in history ==> Aligned(Of(p))
    }

    function Of(p: string): History
      reads this
    {
      if p in history && p in times && p in ids then History(history[p], times[p], ids[p]) else History([], [], [])
    }

    constructor (budget: int)
      ensures Valid() && this.budget == budget && forall p :: Of(p) == History([], [], [])
    {
      this.budget := budget;
      history, times, ids := map[], map[], map[];
    }

    /** Store the three lists of one participant. */
    method Put(p: string, h: History)
      requires Valid() && Aligned(h)
      modifies this
      ensures Valid() && p in history && Of(p) == h
      ensures forall q :: q != p ==> Of(q) == old(Of(q))
      ensures forall q :: q in history <==> q == p || q in old(history)
    {
      history, times, ids := history[p := h.exchanges], times[p := h.times], ids[p := h.ids];
    }

    method Trim(p: string)
      requires Valid() && p in history
      modifies this
      ensures Valid() && p in history && (forall q :: q != p ==> Of(q) == old(Of(q)))
      ensures IsLongest(old(Of(p)), budget, Of(p))
    {
      assert Aligned(Of(p));
      hide SizeFrom, From, StartsLongest, Of;
      var r := Bounded(Of(p), budget);
      Put(p, r);
    }

    /** The first turn of a participant brings its own history along, without times or identities. */
    method Adopt(p: string, given: seq<AgentExchange>)
      requires Valid()
      modifies this
      ensures Valid() && p in history && (forall q :: q != p ==> Of(q) == old(Of(q)))
      ensures old(p in history) ==> Of(p) == old(Of(p))
      ensures old(p !in history) ==> IsLongest(Untimed(given), budget, Of(p))
    {
      hide IsLongest, Of;
      if p !in history {
        Put(p, Untimed(given));
        Trim(p);
      }
    }

    method Remember(p: string, query: string, answer: string, time: int, id: nat)
      requires Valid()
      modifies this
      ensures Valid() && p in history && (forall q :: q != p ==> Of(q) == old(Of(q)))
      ensures IsLongest(Extended(old(Of(p)), AgentExchange(query, answer), time, id), budget, Of(p))
    {
      assert Aligned(Of(p));
      hide IsLongest, Of;
      Put(p, Extended(Of(p), AgentExchange(query, answer), time, id));
      Trim(p);
    }

    method Forget(p: string)
      requires Valid()
      modifies this
      ensures Valid() && p !in history && (forall q :: q != p ==> Of(q) == old(Of(q)))
    {
      history, times, ids := Without(history, p), Without(times, p), Without(ids, p);
    }
  }

  function Untimed(given: seq<AgentExchange>): (h: History)
    ensures Aligned(h) && h.exchanges == given
  {
    History(given, seq(|given|, i => None), seq(|given|, i => None))
  }

  function Extended(h: History, x: AgentExchange, time: int, id: nat): History {
    History(h.exchanges + [x], h.times + [Some(time)], h.ids + [Some(id)])
  }

  // The decision request.

  /** How the decision model answers one call. */
  datatype Verdict = Decides(choice: string) | TooLarge | Fails

  datatype Decided<T> = Decided(choice: string, sent: nat) | Rejected | Failed

  /** The smaller power: the floor of the binary logarithm. */
  function Log2(n: nat): nat
    requires n > 0
  {
    if n == 1 then 0 else 1 + Log2(n / 2)
  }

  function MostCalls(n: nat): nat {
    if n == 0 then 1 else Log2(n) + 2
  }

  /** The newest half, rounded down. */
  function NewestHalf<T>(history: seq<T>): (r: seq<T>)
    requires history != []
    ensures |r| == |history| / 2
  {
    history[(|history| + 1) / 2..]
  }

  lemma HalvingCosts(n: nat)
    requires n > 0
    ensures MostCalls(n) == 1 + MostCalls(n / 2)
  {
  }

  predicate IsSuffix<T(==)>(s: seq<T>, of: seq<T>) {
    |s| <= |of| && s == of[|of| - |s|..]
  }

  lemma NoHistoryCosts()
    ensures MostCalls(0) == 1
  {
  }

  lemma SomeHistoryCosts(n: nat)
    ensures MostCalls(n) >= 1
  {
  }

  lemma WholeIsSuffix<T>(s: seq<T>)
    ensures IsSuffix(s, s)
  {
  }

  lemma HalfIsSuffix<T>(s: seq<T>, of: seq<T>)
    requires IsSuffix(s, of) && s != []
    ensures IsSuffix(NewestHalf(s), of)
  {
  }

  lemma {:induction false} LogarithmBounds(n: nat)
    requires n > 0
    ensures Pow2(Log2(n)) <= n < 2 * Pow2(Log2(n))
  {
    if n > 1 { LogarithmBounds(n / 2); }
  }

  function Pow2(k: nat): (n: nat)
    ensures n > 0
  {
    if k == 0 then 1 else 2 * Pow2(k - 1)
  }

  lemma {:induction false} PowersGrow(j: nat, k: nat)
    requires j <= k
    ensures Pow2(j) <= Pow2(k)
  {
    if j < k { PowersGrow(j, k - 1); }
  }

  /**
   The description allows at most log2(n) + 1 calls. A count within reach of the
   loop keeps to that if and only if it is not the largest one.
   */
  lemma DescribedBound(n: nat, calls: nat)
    requires n > 0 && 1 <= calls <= MostCalls(n)
    ensures Pow2(calls - 1) <= n <==> calls < MostCalls(n)
  {
    LogarithmBounds(n);
    if calls < MostCalls(n) { PowersGrow(calls - 1, Log2(n)); }
  }

  /** The retry loop; `requests` are the histories sent, one per call, and `verdict` answers the calls in order. */
  method Decide<T(==)>(history: seq<T>, verdict: nat -> Verdict) returns (r: Decided<T>, requests: seq<seq<T>>)
    ensures requests != [] && requests[0] == history
    ensures forall i :: 0 <= i < |requests| ==> IsSuffix(requests[i], history)
    ensures forall i :: 0 <= i < |requests| - 1 ==> requests[i] != [] && requests[i + 1] == NewestHalf(requests[i])
    ensures |requests| <= MostCalls(|history|)
    ensures forall i :: 0 <= i < |requests| - 1 ==> verdict(i) == TooLarge
    ensures match verdict(|requests| - 1)
      case Decides(choice) => r == Decided(choice, |requests[|requests| - 1]|)
      case Fails => r == Failed
      case TooLarge => r == Rejected && requests[|requests| - 1] == [] && |requests| == MostCalls(|history|)
    ensures |requests| == MostCalls(|history|) <==>
      (forall i :: 0 <= i < MostCalls(|history|) - 1 ==> verdict(i) == TooLarge)
    ensures history != [] ==> (Pow2(|requests| - 1) <= |history| <==> |requests| < MostCalls(|history|))
  {
    hide IsSuffix, NewestHalf, MostCalls, Pow2;
    var sent := history;
    requests := [];
    WholeIsSuffix(history);
    while true
      invariant IsSuffix(sent, history)
      invariant requests == [] ==> sent == history
      invariant requests != [] ==> requests[0] == history && requests[|requests| - 1] != []
                                   && sent == NewestHalf(requests[|requests| - 1])
      invariant forall i :: 0 <= i < |requests| ==> IsSuffix(requests[i], history) && requests[i] != []
      invariant forall i :: 0 <= i < |requests| - 1 ==> requests[i + 1] == NewestHalf(requests[i])
      invariant forall i :: 0 <= i < |requests| ==> verdict(i) == TooLarge
      invariant |requests| + MostCalls(|sent|) == MostCalls(|history|)
      decreases |sent|, if requests == [] then 1 else 0
    {
      SomeHistoryCosts(|sent|);
      var answer := verdict(|requests|);
      requests := requests + [sent];
      SomeHistoryCosts(|history|);
      if history != [] { DescribedBound(|history|, |requests|); }
      match answer {
        case Decides(choice) => return Decided(choice, |sent|), requests;
        case Fails => return Failed, requests;
        case TooLarge =>
      }
      if sent == [] {
        assert MostCalls(0) == 1 by { NoHistoryCosts(); }
        return Rejected, requests;
      }
      HalvingCosts(|sent|);
      HalfIsSuffix(sent, history);
      sent := NewestHalf(sent);
    }
  }
}
