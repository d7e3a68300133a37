/**
 The transcript store (xr_ai_tools/text_memory.py) over a directory taken as two
 maps: identity files (which source a name belongs to) and data files (its
 lines). Which characters count as alphanumeric is a parameter.

 An identity is written as it is but read in text mode, which turns every
 carriage return into a line feed. The theorems say what that costs: they hold
 of a series of appends exactly when no source in it has a carriage return.
 */
module TranscriptStore {
  import opened Seqs
  import opened Clipping

  datatype Segment = Segment(time: int, text: string)

  datatype Dir = Dir(identities: map<string, string>, data: map<string, seq<Segment>>)

  type Alnum = f: char -> bool | !f('\r') witness (c: char) => false

  /** What text mode reads of a file that holds `s`: "\r\n" and "\r" become "\n". */
  function ReadBack(s: string): string {
    if s == "" then ""
    else if s[0] != '\r' then [s[0]] + ReadBack(s[1..])
    else "\n" + ReadBack(if |s| > 1 && s[1] == '\n' then s[2..] else s[1..])
  }

  predicate Plain(s: string) {
    '\r' !in s
  }

  lemma {:induction false} ReadBackIsPlain(s: string)
    ensures Plain(ReadBack(s))
  {
    if s != "" {
      ReadBackIsPlain(s[1..]);
      if |s| > 1 { ReadBackIsPlain(s[2..]); }
    }
  }

  /** Exactly the texts without a carriage return are read as they were written. */
  lemma {:induction false} PlainReadsBack(s: string)
    ensures ReadBack(s) == s <==> Plain(s)
  {
    ReadBackIsPlain(s);
    if Plain(s) && s != "" {
      assert forall c :: c in s[1..] ==> c in s;
      PlainReadsBack(s[1..]);
      assert s == [s[0]] + s[1..];
    }
  }

  function SafeChar(alnum: Alnum, c: char): char {
    if alnum(c) || c == '-' || c == '_' || c == '.' then c else '_'
  }

  /** The file name stem of a source. */
  function Safe(alnum: Alnum, source: string): string {
    seq(|source|, i requires 0 <= i < |source| => SafeChar(alnum, source[i]))
  }

  /** The `k`-th name tried for a stem. */
  function Candidate(stem: string, k: nat): string {
    if k <= 1 then stem else stem + "_" + Decimal(k)
  }

  // Candidate names are pairwise different.

  lemma DigitsDiffer(a: nat, b: nat)
    requires a < 10 && b < 10 && Digit(a) == Digit(b)
    ensures a == b
  {
    assert Digit(a) as int == '0' as int + a && Digit(b) as int == '0' as int + b;
  }

  lemma {:induction false} DecimalsDiffer(m: nat, n: nat)
    requires Decimal(m) == Decimal(n)
    ensures m == n
    decreases m
  {
    var s, t := Decimal(m), Decimal(n);
    assert s[|s| - 1] == Digit(m % 10) && t[|t| - 1] == Digit(n % 10);
    DigitsDiffer(m % 10, n % 10);
    if m >= 10 && n >= 10 {
      assert s[..|s| - 1] == Decimal(m / 10) && t[..|t| - 1] == Decimal(n / 10);
      DecimalsDiffer(m / 10, n / 10);
    }
  }

  lemma CandidatesDiffer(stem: string, j: nat, k: nat)
    requires 1 <= j < k
    ensures Candidate(stem, j) != Candidate(stem, k)
  {
    if j > 1 && Candidate(stem, j) == Candidate(stem, k) {
      assert Candidate(stem, j)[|stem| + 1..] == Decimal(j) && Candidate(stem, k)[|stem| + 1..] == Decimal(k);
      DecimalsDiffer(j, k);
    }
  }

  // The search for a name.

  function Occupied(d: Dir): set<string> {
    d.identities.Keys + d.data.Keys
  }

  /** The source that an identity file is read to name. */
  function Owner(d: Dir, name: string): string
    requires name in d.identities
  {
    ReadBack(d.identities[name])
  }

  predicate Owns(d: Dir, name: string, source: string) {
    name in d.identities && Owner(d, name) == source
  }

  /** The search stops at the `k`-th name: it is the source's own, its legacy file, or unused. */
  predicate Open(alnum: Alnum, d: Dir, source: string, k: nat) {
    var name := Candidate(Safe(alnum, source), k);
    || Owns(d, name, source)
    || (k == 1 && name in d.data && name !in d.identities && source == Safe(alnum, source))
    || name !in Occupied(d)
  }

  /** The occupied names that the search has still to pass, at most. */
  ghost function Ahead(d: Dir, stem: string, k: nat): set<string> {
    set n | n in Occupied(d) && IsLater(n, stem, k)
  }

  ghost predicate IsLater(name: string, stem: string, k: nat) {
    exists j :: k <= j && name == Candidate(stem, j)
  }

  /** Each name passed leaves fewer: the directory is finite and the names are all different. */
  lemma AheadShrinks(alnum: Alnum, d: Dir, source: string, k: nat)
    requires k >= 1 && !Open(alnum, d, source, k)
    ensures Ahead(d, Safe(alnum, source), k + 1) < Ahead(d, Safe(alnum, source), k)
  {
    var stem := Safe(alnum, source);
    var name := Candidate(stem, k);
    assert IsLater(name, stem, k) && name in Ahead(d, stem, k);
    if name in Ahead(d, stem, k + 1) {
      var j :| k + 1 <= j && name == Candidate(stem, j);
      CandidatesDiffer(stem, k, j);
    }
    forall n | n in Ahead(d, stem, k + 1) ensures n in Ahead(d, stem, k) {
      var j :| k + 1 <= j && n == Candidate(stem, j);
      assert IsLater(n, stem, k);
    }
  }

  /** The first name, from the `k`-th on, at which the search stops. */
  ghost function FirstOpen(alnum: Alnum, d: Dir, source: string, k: nat): (r: nat)
    requires k >= 1
    ensures r >= k && Open(alnum, d, source, r)
    ensures forall j :: k <= j < r ==> !Open(alnum, d, source, j)
    decreases Ahead(d, Safe(alnum, source), k)
  {
    if Open(alnum, d, source, k) then k
    else
      AheadShrinks(alnum, d, source, k);
      FirstOpen(alnum, d, source, k + 1)
  }

  lemma FirstOpenIs(alnum: Alnum, d: Dir, source: string, r: nat)
    requires r >= 1 && Open(alnum, d, source, r) && forall j :: 1 <= j < r ==> !Open(alnum, d, source, j)
    ensures FirstOpen(alnum, d, source, 1) == r
  {
  }

  ghost function NameFor(alnum: Alnum, d: Dir, source: string): string {
    Candidate(Safe(alnum, source), FirstOpen(alnum, d, source, 1))
  }

  function LinesOf(d: Dir, name: string): seq<Segment> {
    if name in d.data then d.data[name] else []
  }

  /** An identity file is written once. */
  function Claimed(identities: map<string, string>, name: string, source: string): map<string, string> {
    if name in identities then identities else identities[name := source]
  }

  /** `append`: claim the name and add one line. */
  ghost function Append(alnum: Alnum, d: Dir, source: string, segment: Segment): Dir {
    var name := NameFor(alnum, d, source);
    Dir(Claimed(d.identities, name, source), d.data[name := LinesOf(d, name) + [segment]])
  }

  // Reading.

  /** The order of file names: by characters, and a name before its extensions. */
  predicate Less(a: string, b: string) {
    b != "" && (a == "" || a[0] < b[0] || (a[0] == b[0] && Less(a[1..], b[1..])))
  }

  lemma {:induction false} LessIsTotal(a: string, b: string)
    ensures a == b || Less(a, b) || Less(b, a)
    ensures !(Less(a, b) && Less(b, a)) && !Less(a, a)
    decreases |a|
  {
    if a != "" {
      LessIsTotal(a[1..], if b == "" then "" else b[1..]);
      if b != "" && a[0] == b[0] {
        assert a == [a[0]] + a[1..] && b == [b[0]] + b[1..];
      }
    }
  }

  lemma {:induction false} LessIsTransitive(a: string, b: string, c: string)
    requires Less(a, b) && Less(b, c)
    ensures Less(a, c)
    decreases |b|
  {
    if a != "" && a[0] == b[0] == c[0] {
      LessIsTransitive(a[1..], b[1..], c[1..]);
    }
  }

  /** Identity files are visited in the order of their names. */
  predicate Before(m: string, n: string) {
    Less(m + ".identity", n + ".identity")
  }

  ghost predicate IsFirstOwned(d: Dir, name: string, source: string) {
    Owns(d, name, source) && forall n :: Owns(d, n, source) ==> n == name || Before(name, n)
  }

  /** The earlier of two names is before whatever the other is before. */
  lemma NamesCompare(m: string, n: string)
    requires m != n
    ensures Before(m, n) || Before(n, m)
    ensures Before(n, m) ==> forall x :: Before(m, x) ==> Before(n, x)
  {
    ExtensionsDiffer(m, n);
    LessIsTotal(m + ".identity", n + ".identity");
    if Before(n, m) {
      forall x | Before(m, x) ensures Before(n, x) {
        LessIsTransitive(n + ".identity", m + ".identity", x + ".identity");
      }
    }
  }

  lemma ExtensionsDiffer(m: string, n: string)
    requires m != n
    ensures m + ".identity" != n + ".identity"
  {
    if |m| == |n| {
      var i :| 0 <= i < |m| && m[i] != n[i];
      assert (m + ".identity")[i] != (n + ".identity")[i];
    }
  }

  /** The canonical file is the source's own, or its legacy file. */
  predicate Canonical(alnum: Alnum, d: Dir, source: string) {
    var stem := Safe(alnum, source);
    stem in d.data && (Owns(d, stem, source) || (stem !in d.identities && source == stem))
  }

  /** The name that a query finds: the canonical one, or else the first that the source owns. */
  ghost predicate Finds(alnum: Alnum, d: Dir, source: string, name: string) {
    if Canonical(alnum, d, source) then name == Safe(alnum, source)
    else IsFirstOwned(d, name, source) && name in d.data
  }

  ghost predicate NothingFound(alnum: Alnum, d: Dir, source: string) {
    forall name :: !Finds(alnum, d, source, name)
  }

  lemma OneIsFirst(d: Dir, source: string, m: string, n: string)
    requires IsFirstOwned(d, m, source) && IsFirstOwned(d, n, source)
    ensures m == n
  {
    LessIsTotal(m + ".identity", n + ".identity");
  }

  lemma OneIsFound(alnum: Alnum, d: Dir, source: string, m: string, n: string)
    requires Finds(alnum, d, source, m) && Finds(alnum, d, source, n)
    ensures m == n
  {
    hide IsFirstOwned;
    if !Canonical(alnum, d, source) { OneIsFirst(d, source, m, n); }
  }

  /** The lines a query sees. */
  ghost function LinesFound(alnum: Alnum, d: Dir, source: string): seq<Segment> {
    if NothingFound(alnum, d, source) then []
    else
      var name :| Finds(alnum, d, source, name);
      LinesOf(d, name)
  }

  lemma FoundLinesAre(alnum: Alnum, d: Dir, source: string, name: string)
    requires Finds(alnum, d, source, name)
    ensures LinesFound(alnum, d, source) == LinesOf(d, name)
  {
    hide Finds, LinesOf;
    forall n | Finds(alnum, d, source, n) ensures n == name {
      OneIsFound(alnum, d, source, n, name);
    }
  }

  function InWindow(lo: int, hi: int): Segment -> bool { (s: Segment) => lo <= s.time <= hi }

  function AtTime(t: int): Segment -> bool { (s: Segment) => s.time == t }

  /** Insert behind everything that is not later. */
  function Insert(s: Segment, sorted: seq<Segment>): seq<Segment> {
    if sorted == [] || s.time < sorted[0].time then [s] + sorted else [sorted[0]] + Insert(s, sorted[1..])
  }

  function SortByTime(ss: seq<Segment>): seq<Segment> {
    if ss == [] then [] else Insert(ss[|ss| - 1], SortByTime(ss[..|ss| - 1]))
  }

  function Query(lines: seq<Segment>, lo: int, hi: int): seq<Segment> {
    SortByTime(Filter(lines, InWindow(lo, hi)))
  }

  ghost predicate Sorted(ss: seq<Segment>) {
    forall i, j :: 0 <= i < j < |ss| ==> ss[i].time <= ss[j].time
  }

  lemma {:induction false} InsertMembers(s: Segment, sorted: seq<Segment>, x: Segment)
    ensures x in Insert(s, sorted) ==> x == s || x in sorted
  {
    if sorted != [] && s.time >= sorted[0].time {
      InsertMembers(s, sorted[1..], x);
    }
  }

  lemma SortedHead(s: Segment, rest: seq<Segment>)
    requires Sorted(rest) && forall x :: x in rest ==> s.time <= x.time
    ensures Sorted([s] + rest)
  {
  }

  lemma SortedTail(ss: seq<Segment>)
    requires Sorted(ss) && ss != []
    ensures Sorted(ss[1..]) && forall x :: x in ss ==> ss[0].time <= x.time
  {
  }

  lemma {:induction false} InsertSorts(s: Segment, sorted: seq<Segment>)
    requires Sorted(sorted)
    ensures Sorted(Insert(s, sorted))
  {
    if sorted != [] {
      SortedTail(sorted);
      hide Sorted;
      if s.time < sorted[0].time {
        SortedHead(s, sorted);
      } else {
        InsertSorts(s, sorted[1..]);
        forall x | x in Insert(s, sorted[1..]) ensures sorted[0].time <= x.time {
          InsertMembers(s, sorted[1..], x);
        }
        SortedHead(sorted[0], Insert(s, sorted[1..]));
      }
    }
  }

  lemma {:induction false} InsertKeepsTimes(s: Segment, sorted: seq<Segment>, t: int)
    requires Sorted(sorted)
    ensures Filter(Insert(s, sorted), AtTime(t)) == Filter(sorted, AtTime(t)) + (if s.time == t then [s] else [])
  {
    if sorted != [] {
      SortedTail(sorted);
      hide Sorted;
      if s.time < sorted[0].time {
        assert ([s] + sorted)[1..] == sorted;
        if s.time == t { FilterNone(sorted, AtTime(t)); }
      } else {
        InsertKeepsTimes(s, sorted[1..], t);
        assert ([sorted[0]] + Insert(s, sorted[1..]))[1..] == Insert(s, sorted[1..]);
      }
    }
  }

  /** Sorting orders by time and keeps, for every time, the segments of that time in their order. */
  lemma {:induction false} SortIsStable(ss: seq<Segment>, t: int)
    ensures Sorted(SortByTime(ss))
    ensures Filter(SortByTime(ss), AtTime(t)) == Filter(ss, AtTime(t))
  {
    if ss != [] {
      var front, last := ss[..|ss| - 1], ss[|ss| - 1];
      SortIsStable(front, t);
      InsertSorts(last, SortByTime(front));
      InsertKeepsTimes(last, SortByTime(front), t);
      assert ss == front + [last];
      FilterConcat(front, [last], AtTime(t));
    }
  }

  // Runs.

  datatype Appended = Appended(source: string, segment: Segment)

  ghost function Run(alnum: Alnum, d: Dir, log: seq<Appended>): Dir {
    if log == [] then d
    else Append(alnum, Run(alnum, d, log[..|log| - 1]), log[|log| - 1].source, log[|log| - 1].segment)
  }

  /** The segments appended for a source, in order. */
  function History(log: seq<Appended>, source: string): seq<Segment> {
    if log == [] then []
    else
      var last := log[|log| - 1];
      History(log[..|log| - 1], source) + if last.source == source then [last.segment] else []
  }

  /** What a source's file held before any identity was written: its namesake's lines, if its name is safe. */
  function Legacy(alnum: Alnum, start: Dir, source: string): seq<Segment> {
    if source == Safe(alnum, source) then LinesOf(start, source) else []
  }

  /** A new directory, or one written before identities existed. */
  predicate Unidentified(d: Dir) { d.identities == map[] }

  /** No source of the log has a carriage return. */
  predicate PlainLog(log: seq<Appended>) {
    forall e :: e in log ==> Plain(e.source)
  }

  /** Every name was tried in order by its owner, and each earlier one still is not the owner's to use. */
  ghost predicate Compact(alnum: Alnum, d: Dir) {
    forall n :: n in d.identities ==> PassedOver(alnum, d, n, Owner(d, n))
  }

  ghost predicate PassedOver(alnum: Alnum, d: Dir, name: string, source: string) {
    exists k: nat :: k >= 1 && name == Candidate(Safe(alnum, source), k) && NoneOpen(alnum, d, source, k)
  }

  ghost predicate NoneOpen(alnum: Alnum, d: Dir, source: string, k: nat) {
    forall j :: 1 <= j < k ==> !Open(alnum, d, source, j)
  }

  /** A source that has a name finds it again. */
  lemma OwnNameIsFound(alnum: Alnum, d: Dir, name: string, source: string)
    requires Compact(alnum, d) && Owns(d, name, source)
    ensures NameFor(alnum, d, source) == name
  {
    var k: nat :| k >= 1 && name == Candidate(Safe(alnum, source), k) && NoneOpen(alnum, d, source, k);
    FirstOpenIs(alnum, d, source, k);
  }

  /** The chosen name is nobody else's, and holds lines only if it is the source's own or its legacy file. */
  lemma ChosenName(alnum: Alnum, d: Dir, source: string)
    ensures var name := NameFor(alnum, d, source);
      && (name in d.identities ==> Owner(d, name) == source)
      && (name in d.data && name !in d.identities ==> name == source == Safe(alnum, source))
  {
    hide Safe, ReadBack;
  }

  /** Who owns what after an append of a source that reads back as it is. */
  lemma AppendOwners(alnum: Alnum, d: Dir, source: string, segment: Segment)
    requires Plain(source)
    ensures var name, d' := NameFor(alnum, d, source), Append(alnum, d, source, segment);
      && Owns(d', name, source)
      && forall n :: n != name ==> (n in d'.identities <==> n in d.identities)
                                   && (n in d.identities ==> Owner(d', n) == Owner(d, n))
  {
    ChosenName(alnum, d, source);
    PlainReadsBack(source);
    hide NameFor, ReadBack, LinesOf;
  }

  lemma AppendKeepsPassedOver(alnum: Alnum, d: Dir, source: string, segment: Segment, name: string, owner: string)
    requires Compact(alnum, d) && Owns(d, name, owner) && Plain(source)
    ensures PassedOver(alnum, Append(alnum, d, source, segment), name, owner)
  {
    var d' := Append(alnum, d, source, segment);
    var chosen := NameFor(alnum, d, source);
    ChosenName(alnum, d, source);
    AppendOwners(alnum, d, source, segment);
    var k: nat :| k >= 1 && name == Candidate(Safe(alnum, owner), k) && NoneOpen(alnum, d, owner, k);
    hide ReadBack, Safe, Candidate;
    forall j | 1 <= j < k ensures !Open(alnum, d', owner, j) {
      assert !Open(alnum, d, owner, j);
      if Candidate(Safe(alnum, owner), j) == chosen && source == owner {
        OwnNameIsFound(alnum, d, name, owner);
      }
    }
    assert NoneOpen(alnum, d', owner, k);
  }

  lemma AppendCompact(alnum: Alnum, d: Dir, source: string, segment: Segment)
    requires Compact(alnum, d) && Plain(source)
    ensures Compact(alnum, Append(alnum, d, source, segment))
  {
    var d' := Append(alnum, d, source, segment);
    var chosen := NameFor(alnum, d, source);
    AppendOwners(alnum, d, source, segment);
    ChosenName(alnum, d, source);
    hide ReadBack, Safe, Compact, Append, NameFor, PassedOver;
    forall n | n in d'.identities ensures PassedOver(alnum, d', n, Owner(d', n)) {
      if n in d.identities {
        AppendKeepsPassedOver(alnum, d, source, segment, n, Owner(d, n));
      } else {
        NewNamePassedOver(alnum, d, source, segment);
      }
    }
  }

  lemma NewNamePassedOver(alnum: Alnum, d: Dir, source: string, segment: Segment)
    requires Plain(source)
    ensures PassedOver(alnum, Append(alnum, d, source, segment), NameFor(alnum, d, source), source)
  {
    var d', r := Append(alnum, d, source, segment), FirstOpen(alnum, d, source, 1);
    AppendOwners(alnum, d, source, segment);
    hide ReadBack, Safe, Candidate;
    forall j | 1 <= j < r ensures !Open(alnum, d', source, j) {
      assert !Open(alnum, d, source, j);
      CandidatesDiffer(Safe(alnum, source), j, r);
    }
    assert NoneOpen(alnum, d', source, r);
  }

  /** An identified file holds its owner's legacy lines and what the owner appended. */
  ghost predicate LinesHold(alnum: Alnum, start: Dir, d: Dir, log: seq<Appended>) {
    forall n :: n in d.identities ==>
      n in d.data && d.data[n] == Legacy(alnum, start, Owner(d, n)) + History(log, Owner(d, n))
  }

  /** The original files without an identity are untouched, and those with one belong to their namesake. */
  ghost predicate LegacyHolds(alnum: Alnum, start: Dir, d: Dir) {
    && d.data.Keys == start.data.Keys + d.identities.Keys
    && (forall n :: n in start.data && n !in d.identities ==> d.data[n] == start.data[n])
    && (forall n :: n in d.identities && n in start.data ==> n == Owner(d, n) == Safe(alnum, n))
  }

  ghost predicate OwnersHold(d: Dir, log: seq<Appended>) {
    forall e :: e in log ==> exists n :: Owns(d, n, e.source)
  }

  /** What the directory holds after `log`, in terms of the log alone. */
  ghost predicate Holds(alnum: Alnum, start: Dir, d: Dir, log: seq<Appended>) {
    LegacyHolds(alnum, start, d) && LinesHold(alnum, start, d, log) && OwnersHold(d, log)
  }

  lemma {:induction false} HistoryConcat(log: seq<Appended>, e: Appended, source: string)
    ensures History(log + [e], source) == History(log, source) + if e.source == source then [e.segment] else []
  {
    assert (log + [e])[..|log|] == log;
  }

  lemma {:induction false} NoHistory(log: seq<Appended>, source: string)
    ensures History(log, source) == [] <==> forall e :: e in log ==> e.source != source
  {
    if log != [] {
      var front, last := log[..|log| - 1], log[|log| - 1];
      NoHistory(front, source);
      assert log == front + [last];
    }
  }

  /** A source without a name has appended nothing. */
  lemma NamelessHasNoHistory(alnum: Alnum, start: Dir, d: Dir, log: seq<Appended>, source: string)
    requires Holds(alnum, start, d, log) && !exists n :: Owns(d, n, source)
    ensures History(log, source) == []
  {
    hide LegacyHolds, LinesHold, History;
    NoHistory(log, source);
    forall e | e in log ensures e.source != source {
      var n :| Owns(d, n, e.source);
    }
  }

  /** What the chosen name holds when the source appends: its legacy lines and what it appended before. */
  lemma ChosenLines(alnum: Alnum, start: Dir, d: Dir, log: seq<Appended>, source: string)
    requires Compact(alnum, d) && Holds(alnum, start, d, log)
    ensures LinesOf(d, NameFor(alnum, d, source)) == Legacy(alnum, start, source) + History(log, source)
    ensures NameFor(alnum, d, source) in start.data ==> NameFor(alnum, d, source) == source == Safe(alnum, source)
  {
    var name := NameFor(alnum, d, source);
    ChosenName(alnum, d, source);
    hide ReadBack;
    if name !in d.identities {
      if n :| Owns(d, n, source) {
        OwnNameIsFound(alnum, d, n, source);
      }
      NamelessHasNoHistory(alnum, start, d, log, source);
      if source == Safe(alnum, source) && source in start.data {
        assert Candidate(source, 1) == source;
        assert source in d.identities ==> Owns(d, source, source);
        FirstOpenIs(alnum, d, source, 1);
      }
    }
  }

  lemma AppendLinesHold(alnum: Alnum, start: Dir, d: Dir, log: seq<Appended>, source: string, segment: Segment)
    requires Compact(alnum, d) && LinesHold(alnum, start, d, log) && Plain(source)
    requires LinesOf(d, NameFor(alnum, d, source)) == Legacy(alnum, start, source) + History(log, source)
    ensures LinesHold(alnum, start, Append(alnum, d, source, segment), log + [Appended(source, segment)])
  {
    var name, e := NameFor(alnum, d, source), Appended(source, segment);
    var d' := Append(alnum, d, source, segment);
    hide NameFor, Legacy, History, LinesOf, Safe, Compact, ReadBack;
    AppendOwners(alnum, d, source, segment);
    forall n | n in d'.identities
      ensures d'.data[n] == Legacy(alnum, start, Owner(d', n)) + History(log + [e], Owner(d', n))
    {
      HistoryConcat(log, e, Owner(d', n));
      var legacy, history := Legacy(alnum, start, Owner(d', n)), History(log, Owner(d', n));
      if n == name {
        assert legacy + history + [segment] == legacy + (history + [segment]);
      } else {
        if Owner(d, n) == source { OwnNameIsFound(alnum, d, n, source); }
        assert history + [] == history;
      }
    }
  }

  lemma AppendOwnersHold(alnum: Alnum, d: Dir, log: seq<Appended>, source: string, segment: Segment)
    requires OwnersHold(d, log) && Plain(source)
    ensures OwnersHold(Append(alnum, d, source, segment), log + [Appended(source, segment)])
  {
    var d' := Append(alnum, d, source, segment);
    var name := NameFor(alnum, d, source);
    ChosenName(alnum, d, source);
    AppendOwners(alnum, d, source, segment);
    hide NameFor, LinesOf, ReadBack, Append;
    forall x | x in log ensures exists n :: Owns(d', n, x.source) {
      var n :| Owns(d, n, x.source);
      assert Owns(d', n, x.source);
    }
  }

  lemma AppendLegacyHolds(alnum: Alnum, start: Dir, d: Dir, log: seq<Appended>, source: string, segment: Segment)
    requires Compact(alnum, d) && Holds(alnum, start, d, log) && Plain(source)
    ensures LegacyHolds(alnum, start, Append(alnum, d, source, segment))
  {
    hide NameFor, LinesOf, Legacy, History, Safe, Compact, LinesHold, OwnersHold, ReadBack;
    ChosenLines(alnum, start, d, log, source);
    ChosenName(alnum, d, source);
    AppendOwners(alnum, d, source, segment);
  }

  lemma AppendHolds(alnum: Alnum, start: Dir, d: Dir, log: seq<Appended>, source: string, segment: Segment)
    requires Compact(alnum, d) && Holds(alnum, start, d, log) && Plain(source)
    ensures Holds(alnum, start, Append(alnum, d, source, segment), log + [Appended(source, segment)])
  {
    hide NameFor, LinesOf, Legacy, History, Safe, Compact, LinesHold, OwnersHold, LegacyHolds, Append;
    ChosenLines(alnum, start, d, log, source);
    AppendLinesHold(alnum, start, d, log, source, segment);
    AppendOwnersHold(alnum, d, log, source, segment);
    AppendLegacyHolds(alnum, start, d, log, source, segment);
  }

  lemma StartHolds(alnum: Alnum, start: Dir)
    requires Unidentified(start)
    ensures Compact(alnum, start) && Holds(alnum, start, start, [])
  {
    hide Safe;
  }

  lemma {:induction false} RunHolds(alnum: Alnum, start: Dir, log: seq<Appended>)
    requires Unidentified(start) && PlainLog(log)
    ensures var d := Run(alnum, start, log); Compact(alnum, d) && Holds(alnum, start, d, log)
  {
    hide Compact, Holds, Append;
    if log == [] {
      StartHolds(alnum, start);
    } else {
      var front, last := log[..|log| - 1], log[|log| - 1];
      assert last in log && forall e :: e in front ==> e in log;
      RunHolds(alnum, start, front);
      AppendCompact(alnum, Run(alnum, start, front), last.source, last.segment);
      AppendHolds(alnum, start, Run(alnum, start, front), front, last.source, last.segment);
      assert log == front + [Appended(last.source, last.segment)];
    }
  }

  // What every series of appends keeps, whatever the sources contain.

  lemma RunNext(alnum: Alnum, start: Dir, log: seq<Appended>, i: nat)
    requires i < |log|
    ensures Run(alnum, start, log[..i + 1]) == Append(alnum, Run(alnum, start, log[..i]), log[i].source, log[i].segment)
  {
    assert log[..i + 1][..i] == log[..i];
  }

  ghost predicate Extends(was: map<string, string>, are: map<string, string>) {
    forall n :: n in was ==> n in are && are[n] == was[n]
  }

  lemma AppendExtends(alnum: Alnum, d: Dir, source: string, segment: Segment)
    ensures Extends(d.identities, Append(alnum, d, source, segment).identities)
  {
    hide NameFor, LinesOf;
  }

  /** Identity files are written once and stay. */
  lemma {:induction false} IdentitiesStay(alnum: Alnum, start: Dir, log: seq<Appended>, i: nat)
    requires i <= |log|
    ensures Extends(Run(alnum, start, log[..i]).identities, Run(alnum, start, log).identities)
    decreases |log|
  {
    hide Run, Append;
    if i < |log| {
      var front, last := log[..|log| - 1], log[|log| - 1];
      assert front[..i] == log[..i] && log[..|log|] == log;
      IdentitiesStay(alnum, start, front, i);
      RunNext(alnum, start, log, |log| - 1);
      AppendExtends(alnum, Run(alnum, start, front), last.source, last.segment);
    } else {
      assert log[..i] == log;
    }
  }

  /** The name that append `i` wrote to. */
  ghost function NameAt(alnum: Alnum, start: Dir, log: seq<Appended>, i: nat): string
    requires i < |log|
  {
    NameFor(alnum, Run(alnum, start, log[..i]), log[i].source)
  }

  /** That name has an identity ever after: the source's own, unless it reads back differently. */
  lemma NameIsTaken(alnum: Alnum, start: Dir, log: seq<Appended>, i: nat)
    requires i < |log|
    ensures var name, d := NameAt(alnum, start, log, i), Run(alnum, start, log);
      name in d.identities && (Plain(log[i].source) <==> Owner(d, name) == log[i].source)
  {
    var was := Run(alnum, start, log[..i]);
    ChosenName(alnum, was, log[i].source);
    PlainReadsBack(log[i].source);
    RunNext(alnum, start, log, i);
    IdentitiesStay(alnum, start, log, i + 1);
    ReadBackIsPlain(Run(alnum, start, log).identities[NameAt(alnum, start, log, i)]);
    hide NameFor, LinesOf, Run, ReadBack;
  }

  // Theorems, for every directory that starts empty or without identities and every series of appends.

  /** Append `i` and the next append of its source go to the same file. */
  ghost predicate Keeps(alnum: Alnum, start: Dir, log: seq<Appended>, i: nat)
    requires i < |log|
  {
    NameFor(alnum, Run(alnum, start, log), log[i].source) == NameAt(alnum, start, log, i)
  }

  lemma NextGoesElsewhere(alnum: Alnum, start: Dir, log: seq<Appended>, i: nat)
    requires i < |log| && !Plain(log[i].source)
    ensures !Keeps(alnum, start, log, i)
  {
    var d := Run(alnum, start, log);
    NameIsTaken(alnum, start, log, i);
    ChosenName(alnum, d, log[i].source);
    hide NameFor, Run, ReadBack, NameAt;
  }

  /** Every source's file is its file for good if and only if no source has a carriage return. */
  lemma FilesAreStable(alnum: Alnum, start: Dir, log: seq<Appended>)
    requires Unidentified(start)
    ensures (forall i :: 0 <= i < |log| ==> Keeps(alnum, start, log, i)) <==> PlainLog(log)
  {
    hide NameFor, Run, ReadBack, NameAt, Compact, Holds;
    if PlainLog(log) {
      RunHolds(alnum, start, log);
      forall i | 0 <= i < |log| ensures Keeps(alnum, start, log, i) {
        assert log[i] in log;
        NameIsTaken(alnum, start, log, i);
        OwnNameIsFound(alnum, Run(alnum, start, log), NameAt(alnum, start, log, i), log[i].source);
      }
    } else {
      var e :| e in log && !Plain(e.source);
      var i :| 0 <= i < |log| && log[i] == e;
      NextGoesElsewhere(alnum, start, log, i);
    }
  }

  /** Without carriage returns, no two sources ever write to the same file. */
  lemma FilesAreUnshared(alnum: Alnum, start: Dir, log: seq<Appended>, i: nat, j: nat)
    requires Unidentified(start) && PlainLog(log) && i < |log| && j < |log|
    ensures NameAt(alnum, start, log, i) == NameAt(alnum, start, log, j) <==> log[i].source == log[j].source
  {
    hide NameFor, Run, ReadBack, NameAt, Compact, Holds;
    assert log[i] in log && log[j] in log;
    NameIsTaken(alnum, start, log, i);
    NameIsTaken(alnum, start, log, j);
    if log[i].source == log[j].source {
      FilesAreStable(alnum, start, log);
      assert Keeps(alnum, start, log, i) && Keeps(alnum, start, log, j);
    }
  }

  /** A query for the source finds what it appended, behind its legacy file. */
  ghost predicate Answered(alnum: Alnum, start: Dir, log: seq<Appended>, source: string) {
    LinesFound(alnum, Run(alnum, start, log), source) == Legacy(alnum, start, source) + History(log, source)
  }

  /** Every query is answered so if and only if no source has a carriage return. */
  lemma QueriesFindWhatWasAppended(alnum: Alnum, start: Dir, log: seq<Appended>)
    requires Unidentified(start)
    ensures (forall source :: Answered(alnum, start, log, source)) <==> PlainLog(log)
  {
    hide Run, LinesFound, Legacy, History, Compact, Holds;
    var d := Run(alnum, start, log);
    if PlainLog(log) {
      RunHolds(alnum, start, log);
      forall source ensures Answered(alnum, start, log, source) {
        FoundAreAppended(alnum, start, d, log, source);
      }
    } else {
      var e :| e in log && !Plain(e.source);
      NothingFoundOf(alnum, d, e.source);
      NoHistory(log, e.source);
      assert !Answered(alnum, start, log, e.source);
    }
  }

  lemma NothingFoundOf(alnum: Alnum, d: Dir, source: string)
    requires !Plain(source)
    ensures LinesFound(alnum, d, source) == []
  {
    forall name ensures !Owns(d, name, source) {
      if name in d.identities { ReadBackIsPlain(d.identities[name]); }
    }
    SafeIsPlain(alnum, source);
    hide ReadBack, Safe, Owns;
  }

  lemma SafeIsPlain(alnum: Alnum, source: string)
    ensures Plain(Safe(alnum, source))
  {
  }

  lemma FoundAreAppended(alnum: Alnum, start: Dir, d: Dir, log: seq<Appended>, source: string)
    requires Compact(alnum, d) && Holds(alnum, start, d, log)
    ensures LinesFound(alnum, d, source) == Legacy(alnum, start, source) + History(log, source)
  {
    hide History, Compact, ReadBack, LinesFound, Safe, Owner, Finds, Legacy, Owns, Holds;
    if name :| Finds(alnum, d, source, name) {
      FoundLinesAre(alnum, d, source, name);
      FoundHolds(alnum, start, d, log, source, name);
    } else {
      NothingMeansNone(alnum, d, source);
      forall n ensures !Owns(d, n, source) {
        if Owns(d, n, source) { OwnedIsFound(alnum, start, d, log, source, n); }
      }
      NamelessHasNoHistory(alnum, start, d, log, source);
      NothingIsLegacy(alnum, start, d, log, source);
    }
  }

  lemma OwnedIsFound(alnum: Alnum, start: Dir, d: Dir, log: seq<Appended>, source: string, name: string)
    requires Compact(alnum, d) && Holds(alnum, start, d, log) && Owns(d, name, source)
    ensures Finds(alnum, d, source, name)
  {
    hide Compact, ReadBack, History, Legacy, Safe;
    OnlyOwned(alnum, d, name, source);
  }

  /** What is found holds the source's legacy lines and what it appended. */
  lemma FoundHolds(alnum: Alnum, start: Dir, d: Dir, log: seq<Appended>, source: string, name: string)
    requires Compact(alnum, d) && Holds(alnum, start, d, log) && Finds(alnum, d, source, name)
    ensures LinesOf(d, name) == Legacy(alnum, start, source) + History(log, source)
  {
    hide Compact, ReadBack, History, Safe;
    if !Owns(d, name, source) {
      forall n ensures !Owns(d, n, source) {
        if Owns(d, n, source) { CanonicalIsOwn(alnum, d, n, source); }
      }
      NamelessHasNoHistory(alnum, start, d, log, source);
    }
  }

  /** A source that no query finds has no legacy file either. */
  lemma NothingIsLegacy(alnum: Alnum, start: Dir, d: Dir, log: seq<Appended>, source: string)
    requires Holds(alnum, start, d, log) && (forall n :: !Owns(d, n, source)) && NothingFound(alnum, d, source)
    ensures Legacy(alnum, start, source) == []
  {
    hide ReadBack, History, LinesHold, OwnersHold, Safe;
    assert source == Safe(alnum, source) && source in start.data && source in d.identities ==> Owns(d, source, source);
    assert source == Safe(alnum, source) && source in start.data && source !in d.identities ==>
             Finds(alnum, d, source, source);
  }

  lemma NothingMeansNone(alnum: Alnum, d: Dir, source: string)
    requires NothingFound(alnum, d, source)
    ensures LinesFound(alnum, d, source) == []
  {
    hide NothingFound;
  }

  /** A source that owns a file has no other one, and no legacy file. */
  lemma CanonicalIsOwn(alnum: Alnum, d: Dir, name: string, source: string)
    requires Compact(alnum, d) && Owns(d, name, source)
    ensures var stem := Safe(alnum, source); !(stem in d.data && stem !in d.identities && source == stem)
  {
    hide Compact, ReadBack, Safe, NameFor;
    OwnNameIsFound(alnum, d, name, source);
    var stem := Safe(alnum, source);
    if stem in d.data && stem !in d.identities && source == stem { LegacyName(alnum, d, source); }
  }

  lemma LegacyName(alnum: Alnum, d: Dir, source: string)
    requires source == Safe(alnum, source) && source in d.data && source !in d.identities
    ensures NameFor(alnum, d, source) == source
  {
    FirstOpenIs(alnum, d, source, 1);
  }

  lemma OnlyOwned(alnum: Alnum, d: Dir, name: string, source: string)
    requires Compact(alnum, d) && Owns(d, name, source)
    ensures IsFirstOwned(d, name, source)
    ensures Canonical(alnum, d, source) ==> name == Safe(alnum, source)
  {
    hide Compact, Owner, Safe, ReadBack;
    forall n | Owns(d, n, source) ensures n == name {
      OwnNameIsFound(alnum, d, n, source);
      OwnNameIsFound(alnum, d, name, source);
    }
    CanonicalIsOwn(alnum, d, name, source);
  }

  /**
   What the store is for: every source keeps one file, no two share one, and
   queries find exactly what was appended. All of it holds if and only if no
   appended source has a carriage return.
   */
  lemma FaithfulIffPlain(alnum: Alnum, start: Dir, log: seq<Appended>)
    requires Unidentified(start)
    ensures
      (&& (forall i :: 0 <= i < |log| ==> Keeps(alnum, start, log, i))
       && (forall i, j :: 0 <= i < |log| && 0 <= j < |log| && log[i].source != log[j].source ==>
             NameAt(alnum, start, log, i) != NameAt(alnum, start, log, j))
       && (forall source :: Answered(alnum, start, log, source)))
      <==> PlainLog(log)
  {
    FilesAreStable(alnum, start, log);
    QueriesFindWhatWasAppended(alnum, start, log);
    hide Keeps, NameAt, LinesFound, Run, Legacy, History;
    if PlainLog(log) {
      forall i, j | 0 <= i < |log| && 0 <= j < |log| && log[i].source != log[j].source
        ensures NameAt(alnum, start, log, i) != NameAt(alnum, start, log, j)
      {
        hide PlainLog;
        FilesAreUnshared(alnum, start, log, i, j);
      }
    }
  }

  // Listing.

  ghost predicate Listed(d: Dir, source: string) {
    (exists n :: Owns(d, n, source) && n in d.data) || (source in d.data && source !in d.identities)
  }

  ghost predicate EveryOwnerAppended(d: Dir, log: seq<Appended>) {
    forall n :: n in d.identities ==> exists e :: e in log && ReadBack(e.source) == Owner(d, n)
  }

  ghost predicate EveryAppendOwned(d: Dir, log: seq<Appended>) {
    forall e :: e in log ==> exists n :: Owns(d, n, ReadBack(e.source))
  }

  /** What identities and data files there are after any log. */
  ghost predicate Filed(alnum: Alnum, start: Dir, d: Dir, log: seq<Appended>) {
    && d.data.Keys == start.data.Keys + d.identities.Keys
    && (forall n :: n in d.identities && n in start.data ==> n == Owner(d, n))
    && EveryOwnerAppended(d, log) && EveryAppendOwned(d, log)
  }

  /** The name that an append writes to. */
  ghost predicate Takes(start: Dir, d: Dir, name: string, source: string) {
    && (name in d.identities ==> Owner(d, name) == source && Plain(source))
    && (name in start.data ==> name == ReadBack(source))
  }

  lemma AppendTakes(alnum: Alnum, start: Dir, d: Dir, log: seq<Appended>, source: string)
    requires Filed(alnum, start, d, log)
    ensures Takes(start, d, NameFor(alnum, d, source), source)
  {
    var name := NameFor(alnum, d, source);
    ChosenName(alnum, d, source);
    PlainReadsBack(source);
    SafeIsPlain(alnum, source);
    if name in d.identities { ReadBackIsPlain(d.identities[name]); }
    hide NameFor, ReadBack, Safe;
  }

  lemma ClaimedOwners(d: Dir, name: string, source: string, lines: seq<Segment>)
    requires name in d.identities ==> Owner(d, name) == source && Plain(source)
    ensures var d' := Dir(Claimed(d.identities, name, source), d.data[name := lines]);
      && Owns(d', name, ReadBack(source))
      && forall n :: n in d.identities ==> n in d'.identities && Owner(d', n) == Owner(d, n)
  {
    PlainReadsBack(source);
    hide ReadBack;
  }

  lemma AppendFiled(alnum: Alnum, start: Dir, d: Dir, log: seq<Appended>, e: Appended)
    requires Filed(alnum, start, d, log)
    ensures Filed(alnum, start, Append(alnum, d, e.source, e.segment), log + [e])
  {
    hide NameFor, ReadBack, LinesOf, Filed;
    AppendTakes(alnum, start, d, log, e.source);
    ClaimFiled(alnum, start, d, log, e, NameFor(alnum, d, e.source),
               LinesOf(d, NameFor(alnum, d, e.source)) + [e.segment]);
  }

  lemma ClaimFiled(alnum: Alnum, start: Dir, d: Dir, log: seq<Appended>, e: Appended, name: string, lines: seq<Segment>)
    requires Filed(alnum, start, d, log) && Takes(start, d, name, e.source)
    ensures Filed(alnum, start, Dir(Claimed(d.identities, name, e.source), d.data[name := lines]), log + [e])
  {
    hide ReadBack, EveryOwnerAppended, EveryAppendOwned;
    ClaimedOwners(d, name, e.source, lines);
    ClaimedAppended(d, log, e, name, lines);
    ClaimedOwned(d, log, e, name, lines);
  }

  lemma ClaimedAppended(d: Dir, log: seq<Appended>, e: Appended, name: string, lines: seq<Segment>)
    requires EveryOwnerAppended(d, log)
    ensures EveryOwnerAppended(Dir(Claimed(d.identities, name, e.source), d.data[name := lines]), log + [e])
  {
    hide ReadBack;
    var d', log' := Dir(Claimed(d.identities, name, e.source), d.data[name := lines]), log + [e];
    forall n | n in d'.identities ensures exists x :: x in log' && ReadBack(x.source) == Owner(d', n) {
      if n in d.identities {
        var x :| x in log && ReadBack(x.source) == Owner(d, n);
        assert x in log' && d'.identities[n] == d.identities[n];
      } else {
        assert e in log' && ReadBack(e.source) == Owner(d', n);
      }
    }
  }

  lemma ClaimedOwned(d: Dir, log: seq<Appended>, e: Appended, name: string, lines: seq<Segment>)
    requires EveryAppendOwned(d, log) && (name in d.identities ==> Owner(d, name) == e.source && Plain(e.source))
    ensures EveryAppendOwned(Dir(Claimed(d.identities, name, e.source), d.data[name := lines]), log + [e])
  {
    hide ReadBack, Owner, Claimed;
    var d', log' := Dir(Claimed(d.identities, name, e.source), d.data[name := lines]), log + [e];
    ClaimedOwners(d, name, e.source, lines);
    forall x | x in log' ensures exists n :: Owns(d', n, ReadBack(x.source)) {
      if x in log {
        var n :| Owns(d, n, ReadBack(x.source));
        assert Owns(d', n, ReadBack(x.source));
      } else {
        assert x == e && Owns(d', name, ReadBack(e.source));
      }
    }
  }

  lemma StartFiled(alnum: Alnum, start: Dir)
    requires Unidentified(start)
    ensures Filed(alnum, start, start, [])
  {
  }

  lemma {:induction false} RunFiled(alnum: Alnum, start: Dir, log: seq<Appended>)
    requires Unidentified(start)
    ensures Filed(alnum, start, Run(alnum, start, log), log)
  {
    hide Append, ReadBack, Filed;
    if log == [] {
      assert Filed(alnum, start, start, []) by { StartFiled(alnum, start); }
    } else {
      var front, last := log[..|log| - 1], log[|log| - 1];
      RunFiled(alnum, start, front);
      AppendFiled(alnum, start, Run(alnum, start, front), front, last);
      assert log == front + [last];
    }
  }

  lemma ListedHas(alnum: Alnum, start: Dir, d: Dir, log: seq<Appended>, source: string)
    requires Filed(alnum, start, d, log) && Listed(d, source)
    ensures source in start.data || exists e :: e in log && ReadBack(e.source) == source
  {
    hide ReadBack, EveryAppendOwned, Owner;
  }

  lemma LegacyIsListed(alnum: Alnum, start: Dir, d: Dir, log: seq<Appended>, source: string)
    requires Filed(alnum, start, d, log) && source in start.data
    ensures Listed(d, source)
  {
    hide ReadBack, EveryAppendOwned, EveryOwnerAppended, Owner;
    assert source in d.identities ==> Owns(d, source, source);
  }

  lemma AppendedIsListed(alnum: Alnum, start: Dir, d: Dir, log: seq<Appended>, e: Appended)
    requires Filed(alnum, start, d, log) && e in log
    ensures Listed(d, ReadBack(e.source))
  {
    hide ReadBack, EveryOwnerAppended, Owner;
    var n :| Owns(d, n, ReadBack(e.source));
    assert n in d.data;
  }

  /** The listed sources are the original files and what the appended sources read back as, for every log. */
  lemma ListedAreAppendedOrLegacy(alnum: Alnum, start: Dir, log: seq<Appended>, source: string)
    requires Unidentified(start)
    ensures Listed(Run(alnum, start, log), source)
      <==> source in start.data || exists e :: e in log && ReadBack(e.source) == source
  {
    RunFiled(alnum, start, log);
    hide Run, ReadBack, Filed, Listed;
    var d := Run(alnum, start, log);
    if Listed(d, source) { ListedHas(alnum, start, d, log, source); }
    if source in start.data { LegacyIsListed(alnum, start, d, log, source); }
    if e :| e in log && ReadBack(e.source) == source { AppendedIsListed(alnum, start, d, log, e); }
  }

  // Carriage returns.

  const EmptyDir := Dir(map[], map[])
  const Returned := "a\rb"

  lemma SampleNames(alnum: Alnum)
    requires alnum('a') && alnum('b')
    ensures Safe(alnum, Returned) == "a_b"
    ensures !alnum('\n') ==> Safe(alnum, "a\nb") == "a_b"
    ensures ReadBack(Returned) == "a\nb"
  {
    var s := Returned;
    assert s[1..] == "\rb" && s[1..][1..] == "b" && s[2..] == "b";
    assert ReadBack("b") == "b" by { assert "b"[1..] == ""; }
    assert ReadBack("\rb") == "\nb";
  }

  /** One source, two appends, two files, and a query that finds neither. */
  lemma ReturnsAreLost(alnum: Alnum, segment: Segment)
    requires alnum('a') && alnum('b')
    ensures var log := [Appended(Returned, segment), Appended(Returned, segment)];
      && NameAt(alnum, EmptyDir, log, 0) == "a_b" && NameAt(alnum, EmptyDir, log, 1) != "a_b"
      && LinesFound(alnum, Run(alnum, EmptyDir, log), Returned) == []
  {
    var log := [Appended(Returned, segment), Appended(Returned, segment)];
    FirstSample(alnum, log);
    var front := log[..1];
    assert front[..0] == log[..0] && front[0] == log[0] && '\r' == Returned[1];
    NextGoesElsewhere(alnum, EmptyDir, front, 0);
    NothingFoundOf(alnum, Run(alnum, EmptyDir, log), Returned);
  }

  lemma FirstSample(alnum: Alnum, log: seq<Appended>)
    requires alnum('a') && alnum('b') && log != [] && log[0].source == Returned
    ensures NameAt(alnum, EmptyDir, log, 0) == "a_b"
  {
    SampleNames(alnum);
    assert log[..0] == [] && Open(alnum, EmptyDir, Returned, 1);
    FirstOpenIs(alnum, EmptyDir, Returned, 1);
  }

  /** Two sources, one file. */
  lemma ReturnsShareFiles(alnum: Alnum, segment: Segment)
    requires alnum('a') && alnum('b') && !alnum('\n')
    ensures var log := [Appended(Returned, segment), Appended("a\nb", segment)];
      NameAt(alnum, EmptyDir, log, 0) == NameAt(alnum, EmptyDir, log, 1) == "a_b"
  {
    var log := [Appended(Returned, segment), Appended("a\nb", segment)];
    FirstSample(alnum, log);
    SampleNames(alnum);
    var d := Run(alnum, EmptyDir, log[..1]);
    RunNext(alnum, EmptyDir, log, 0);
    assert d.identities == map["a_b" := Returned];
    assert Open(alnum, d, "a\nb", 1);
    FirstOpenIs(alnum, d, "a\nb", 1);
  }
}
