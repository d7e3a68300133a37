/**
 Merging a front end's window of completed exchanges into what is already known
 (`reconcile_transcript`, `_same_exchange` and `_contains_exchange_window` of
 xr_ai_conversation/_context.py). Text digests are taken to be collision free,
 so an exchange's key carries the texts themselves.
 */
module Reconcile {
  import opened Seqs

  /** `id` is the identity of the object that the front end supplied, if any. */
  datatype Exchange = Exchange(user: string, assistant: string, time: Option<int>, id: Option<nat>)

  predicate SameText(l: Exchange, r: Exchange) {
    l.user == r.user && l.assistant == r.assistant
  }

  /** Identity decides when either side has one; times count only when both have them. */
  predicate SameExchange(l: Exchange, r: Exchange) {
    if l.id.Some? || r.id.Some? then l.id.Some? && l.id == r.id
    else if l.time.Some? && r.time.Some? then l.time == r.time && SameText(l, r)
    else SameText(l, r)
  }

  /** `n` exchanges of `xs` from `i` on are those of `ys` from its start, one by one. */
  predicate Matches(xs: seq<Exchange>, i: nat, ys: seq<Exchange>, n: nat)
    requires i + n <= |xs| && n <= |ys|
  {
    forall t :: 0 <= t < n ==> SameExchange(xs[i + t], ys[t])
  }

  predicate ContainedAt(existing: seq<Exchange>, incoming: seq<Exchange>, start: nat) {
    start + |incoming| <= |existing| && Matches(existing, start, incoming, |incoming|)
  }

  predicate Contains(existing: seq<Exchange>, incoming: seq<Exchange>) {
    exists start :: 0 <= start <= |existing| && ContainedAt(existing, incoming, start)
  }

  /** Only the recent end of what is known is compared. */
  function Recent(seen: seq<Exchange>, n: nat): seq<Exchange> {
    if |seen| <= 2 * n then seen else seen[|seen| - 2 * n..]
  }

  /** The last `k` known exchanges are the first `k` of the window. */
  predicate Overlaps(existing: seq<Exchange>, window: seq<Exchange>, k: nat) {
    k <= |existing| && k <= |window| && Matches(existing, |existing| - k, window, k)
  }

  /** The longest overlap of at most `k` exchanges. */
  function LongestOverlap(existing: seq<Exchange>, window: seq<Exchange>, k: nat): (r: nat)
    requires k <= |existing| && k <= |window|
    ensures r <= k && Overlaps(existing, window, r)
    ensures forall j :: r < j <= k ==> !Overlaps(existing, window, j)
  {
    if k == 0 || Overlaps(existing, window, k) then k else LongestOverlap(existing, window, k - 1)
  }

  function Min(a: nat, b: nat): nat { if a < b then a else b }

  /** The exchanges of the window that are new. */
  function NewExchanges(seen: seq<Exchange>, window: seq<Exchange>): seq<Exchange> {
    var existing := Recent(seen, |window|);
    if Contains(existing, window) then []
    else window[LongestOverlap(existing, window, Min(|existing|, |window|))..]
  }

  function Merged(seen: seq<Exchange>, window: seq<Exchange>): seq<Exchange> {
    seen + NewExchanges(seen, window)
  }

  /** The search for the overlap, from the longest candidate down. */
  method FindNew(seen: seq<Exchange>, window: seq<Exchange>) returns (unseen: seq<Exchange>)
    ensures unseen == NewExchanges(seen, window)
    ensures unseen != [] ==>
      exists k :: 0 <= k < |window| && unseen == window[k..] && Overlaps(Recent(seen, |window|), window, k)
  {
    if window == [] {
      assert ContainedAt(Recent(seen, 0), window, 0);
      return [];
    }
    var existing := Recent(seen, |window|);
    if Contains(existing, window) {
      return [];
    }
    var overlap := Min(|existing|, |window|);
    while overlap != 0 && !Overlaps(existing, window, overlap)
      invariant 0 <= overlap <= Min(|existing|, |window|)
      invariant LongestOverlap(existing, window, overlap)
             == LongestOverlap(existing, window, Min(|existing|, |window|))
    {
      overlap := overlap - 1;
    }
    unseen := window[overlap..];
    if overlap == |window| {
      assert unseen == [];
    }
  }

  // Merging the same window twice adds nothing, whatever the identities.

  lemma MergedContains(seen: seq<Exchange>, window: seq<Exchange>)
    ensures Contains(Recent(Merged(seen, window), |window|), window)
  {
    var existing := Recent(seen, |window|);
    if Contains(existing, window) {
      assert seen + [] == seen;
    } else {
      var k := LongestOverlap(existing, window, Min(|existing|, |window|));
      OverlapThenRest(seen, window, k);
      var merged := seen + window[k..];
      RecentContains(merged, window);
    }
  }

  /** What overlapped and what was added make up the whole window at the end. */
  lemma OverlapThenRest(seen: seq<Exchange>, window: seq<Exchange>, k: nat)
    requires Overlaps(Recent(seen, |window|), window, k)
    ensures Matches(seen + window[k..], |seen| - k, window, |window|)
  {
    var existing := Recent(seen, |window|);
    forall t | 0 <= t < |window| ensures SameExchange((seen + window[k..])[|seen| - k + t], window[t]) {
      if t < k {
        assert seen[|seen| - k + t] == existing[|existing| - k + t];
      }
    }
  }

  lemma RecentContains(seen: seq<Exchange>, window: seq<Exchange>)
    requires |window| <= |seen| && Matches(seen, |seen| - |window|, window, |window|)
    ensures Contains(Recent(seen, |window|), window)
  {
    var recent := Recent(seen, |window|);
    var start := |recent| - |window|;
    forall t | 0 <= t < |window| ensures SameExchange(recent[start + t], window[t]) {
      assert recent[start + t] == seen[|seen| - |window| + t];
    }
    assert ContainedAt(recent, window, start);
  }

  lemma MergingTwiceAddsNothing(seen: seq<Exchange>, window: seq<Exchange>)
    ensures Merged(Merged(seen, window), window) == Merged(seen, window)
  {
    MergedContains(seen, window);
    var merged := Merged(seen, window);
    assert merged + [] == merged;
  }

  // Windows of one history whose exchanges are all different.

  ghost predicate Unique(h: seq<Exchange>) {
    forall i, j :: 0 <= i < |h| && 0 <= j < |h| && SameExchange(h[i], h[j]) ==> i == j
  }

  /** The exchanges of a history from `a` up to `b`. */
  function Slice(h: seq<Exchange>, a: nat, b: nat): (r: seq<Exchange>)
    requires a <= b <= |h|
    ensures |r| == b - a
    ensures forall i :: 0 <= i < b - a ==> r[i] == h[a + i]
  {
    h[a..b]
  }

  lemma RestOfSlice(h: seq<Exchange>, a: nat, b: nat, o: nat)
    requires a + o <= b <= |h|
    ensures Slice(h, a, b)[o..] == Slice(h, a + o, b)
  {
  }

  lemma JoinSlices(h: seq<Exchange>, k: nat, b: nat)
    requires k <= b <= |h|
    ensures Slice(h, 0, k) + Slice(h, k, b) == Slice(h, 0, b)
  {
  }

  function RecentStart(k: nat, n: nat): nat {
    if k <= 2 * n then 0 else k - 2 * n
  }

  lemma RecentOfPrefix(h: seq<Exchange>, k: nat, n: nat)
    requires k <= |h|
    ensures Recent(Slice(h, 0, k), n) == Slice(h, RecentStart(k, n), k)
  {
  }

  /** In a history without repetition, a non-empty stretch matches only itself. */
  lemma MatchesOnlyItself(h: seq<Exchange>, lo: nat, k: nat, i: nat, a: nat, b: nat, n: nat)
    requires Unique(h) && lo <= k <= |h| && a <= b <= |h| && 0 < n && i + n <= k - lo && n <= b - a
    ensures Matches(Slice(h, lo, k), i, Slice(h, a, b), n) <==> lo + i == a
  {
    hide Slice;
    assert Slice(h, lo, k)[i + 0] == h[lo + i] && Slice(h, a, b)[0] == h[a];
  }

  lemma ContainedExactly(h: seq<Exchange>, lo: nat, k: nat, a: nat, b: nat)
    requires Unique(h) && lo <= k <= |h| && a < b <= |h|
    ensures Contains(Slice(h, lo, k), Slice(h, a, b)) <==> lo <= a && b <= k
  {
    hide Slice;
    var existing, window := Slice(h, lo, k), Slice(h, a, b);
    forall start: nat | start + |window| <= |existing|
      ensures ContainedAt(existing, window, start) <==> lo + start == a
    {
      MatchesOnlyItself(h, lo, k, start, a, b, b - a);
    }
    if lo <= a && b <= k {
      assert ContainedAt(existing, window, a - lo);
    }
  }

  lemma OverlapsExactly(h: seq<Exchange>, lo: nat, k: nat, a: nat, b: nat, n: nat)
    requires Unique(h) && lo <= k <= |h| && a < b <= |h| && 0 < n <= k - lo && n <= b - a
    ensures Overlaps(Slice(h, lo, k), Slice(h, a, b), n) <==> a + n == k
  {
    hide Slice;
    MatchesOnlyItself(h, lo, k, k - lo - n, a, b, n);
  }

  /** The merged window leaves no gap, and reaches back no further than what is compared. */
  predicate Adjoins(k: nat, a: nat, b: nat)
    requires a < b
  {
    a <= k && (b >= k || a >= k - 2 * (b - a))
  }

  lemma OverlapOfWindow(h: seq<Exchange>, lo: nat, k: nat, a: nat, b: nat)
    requires Unique(h) && lo <= k <= |h| && a < b <= |h| && (lo == 0 || lo + 2 * (b - a) == k)
    requires !(lo <= a && b <= k)
    ensures LongestOverlap(Slice(h, lo, k), Slice(h, a, b), Min(k - lo, b - a)) == if a < k <= b then k - a else 0
  {
    hide Overlaps, LongestOverlap, Unique, Slice;
    var o := LongestOverlap(Slice(h, lo, k), Slice(h, a, b), Min(k - lo, b - a));
    if o > 0 { OverlapsExactly(h, lo, k, a, b, o); }
    if a < k <= b && o != k - a {
      OverlapsExactly(h, lo, k, a, b, k - a);
    }
  }

  lemma NewOfWindow(h: seq<Exchange>, k: nat, a: nat, b: nat)
    requires Unique(h) && k <= |h| && a < b <= |h|
    ensures NewExchanges(Slice(h, 0, k), Slice(h, a, b))
         == if b <= k && a >= k - 2 * (b - a) then [] else if a <= k <= b then Slice(h, k, b) else Slice(h, a, b)
  {
    hide Unique, Contains, LongestOverlap, Overlaps, Recent, Slice;
    var lo := RecentStart(k, b - a);
    RecentOfPrefix(h, k, b - a);
    ContainedExactly(h, lo, k, a, b);
    if !(lo <= a && b <= k) {
      OverlapOfWindow(h, lo, k, a, b);
      RestOfSlice(h, a, b, if a < k <= b then k - a else 0);
    }
  }

  /**
   With unique exchanges, merging a window of a history into a known prefix of
   it gives the longer of the two prefixes exactly when the window adjoins what
   is known.
   */
  lemma WindowsMergeExactly(h: seq<Exchange>, k: nat, a: nat, b: nat)
    requires Unique(h) && k <= |h| && a < b <= |h|
    ensures Merged(Slice(h, 0, k), Slice(h, a, b)) == Slice(h, 0, if k > b then k else b) <==> Adjoins(k, a, b)
  {
    NewOfWindow(h, k, a, b);
    hide Slice, Unique, NewExchanges;
    if a <= k <= b { JoinSlices(h, k, b); }
    assert Slice(h, 0, k) + [] == Slice(h, 0, k);
  }

  /** A window of a history. */
  datatype Window = Window(a: nat, b: nat)

  /** Windows of a growing history, each overlapping or adjoining what is known by then. */
  ghost predicate Growing(known: nat, windows: seq<Window>)
    decreases |windows|
  {
    windows != [] ==>
      windows[0].a <= known <= windows[0].b && windows[0].a < windows[0].b && Growing(windows[0].b, windows[1..])
  }

  ghost predicate Within(h: seq<Exchange>, windows: seq<Window>) {
    forall w :: w in windows ==> w.a <= w.b <= |h|
  }

  function MergedAll(seen: seq<Exchange>, h: seq<Exchange>, windows: seq<Window>): seq<Exchange>
    requires Within(h, windows)
    decreases |windows|
  {
    if windows == [] then seen
    else
      assert windows[0] in windows;
      MergedAll(Merged(seen, Slice(h, windows[0].a, windows[0].b)), h, windows[1..])
  }

  /** Any series of such windows leaves exactly the history so far: nothing lost, nothing twice. */
  lemma {:induction false} HistoriesAreKept(h: seq<Exchange>, known: nat, windows: seq<Window>)
    requires Unique(h) && known <= |h| && Growing(known, windows) && Within(h, windows)
    ensures windows == [] || windows[|windows| - 1].b <= |h|
    ensures MergedAll(Slice(h, 0, known), h, windows)
         == Slice(h, 0, if windows == [] then known else windows[|windows| - 1].b)
    decreases |windows|
  {
    hide Merged, Unique, Slice;
    if windows != [] {
      assert windows[0] in windows;
      WindowsMergeExactly(h, known, windows[0].a, windows[0].b);
      HistoriesAreKept(h, windows[0].b, windows[1..]);
    }
  }
}
