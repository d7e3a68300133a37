/** The transcript store as an object over its directory. */
module TranscriptFiles {
  import opened Seqs
  import opened TranscriptStore

  class Store {
    const alnum: Alnum
    var identities: map<string, string>
    var data: map<string, seq<Segment>>
    ghost const start: Dir
    ghost var log: seq<Appended>

    function Contents(): Dir
      reads this
    {
      Dir(identities, data)
    }

    /** The directory is what the appends so far made of the directory it started from. */
    ghost predicate Valid()
      reads this
    {
      Unidentified(start) && Contents() == Run(alnum, start, log)
    }

    /** Open a directory that is empty or was written before identities existed. */
    constructor (alnum: Alnum, legacy: map<string, seq<Segment>>)
      ensures Valid() && log == [] && start == Dir(map[], legacy) && this.alnum == alnum
    {
      this.alnum := alnum;
      identities, data := map[], legacy;
      start, log := Dir(map[], legacy), [];
    }

    /** The suffix search; it ends because the directory is finite and the names are all different. */
    method Claim(source: string) returns (name: string)
      modifies this`identities
      ensures name == NameFor(alnum, old(Contents()), source)
      ensures identities == Claimed(old(identities), name, source)
    {
      hide ReadBack;
      var stem := Safe(alnum, source);
      ghost var d := Contents();
      var suffix := 1;
      while true
        invariant suffix >= 1 && Contents() == d
        invariant forall j :: 1 <= j < suffix ==> !Open(alnum, d, source, j)
        decreases Ahead(d, stem, suffix)
      {
        name := Candidate(stem, suffix);
        if name in identities && ReadBack(identities[name]) == source {
          FirstOpenIs(alnum, d, source, suffix);
          return;
        }
        if suffix == 1 && name in data && name !in identities && source == stem {
          break;
        }
        if name !in identities && name !in data {
          break;
        }
        AheadShrinks(alnum, d, source, suffix);
        suffix := suffix + 1;
      }
      FirstOpenIs(alnum, d, source, suffix);
      identities := identities[name := source];
    }

    /** One line more in the source's file, and no other line anywhere. */
    method AppendLine(source: string, time: int, text: string)
      requires Valid()
      modifies this
      ensures Valid() && log == old(log) + [Appended(source, Segment(time, text))]
      ensures var name := NameFor(alnum, old(Contents()), source);
        && LinesOf(Contents(), name) == LinesOf(old(Contents()), name) + [Segment(time, text)]
        && forall n :: n != name ==> LinesOf(Contents(), n) == LinesOf(old(Contents()), n)
      ensures forall n :: n in old(identities) ==> n in identities && identities[n] == old(identities)[n]
    {
      hide NameFor;
      var name := Claim(source);
      data := data[name := (if name in data then data[name] else []) + [Segment(time, text)]];
      log := log + [Appended(source, Segment(time, text))];
      assert log[..|log| - 1] == old(log);
    }

    /** The search without creating: the canonical name, or else the first identity file that reads as the source. */
    method Find(source: string) returns (found: Option<string>)
      requires Valid()
      ensures found.Some? ==> Finds(alnum, Contents(), source, found.value)
      ensures found.None? ==> NothingFound(alnum, Contents(), source)
    {
      hide Run, Safe, ReadBack, Less;
      ghost var d := Contents();
      var stem := Safe(alnum, source);
      if stem in data
         && ((stem in identities && ReadBack(identities[stem]) == source) || (stem !in identities && source == stem))
      {
        return Some(stem);
      }
      var first: Option<string> := None;
      var rest := identities.Keys;
      while rest != {}
        invariant rest <= identities.Keys
        invariant first.Some? ==> Owns(d, first.value, source) && first.value !in rest
        invariant forall n :: Owns(d, n, source) && n !in rest ==>
          first.Some? && (n == first.value || Before(first.value, n))
        decreases |rest|
      {
        var n :| n in rest;
        rest := rest - {n};
        if ReadBack(identities[n]) == source {
          if first.Some? { NamesCompare(first.value, n); }
          if first.None? || Before(n, first.value) {
            first := Some(n);
          }
        }
      }
      forall n | first.Some? && IsFirstOwned(d, n, source) ensures n == first.value {
        OneIsFirst(d, source, n, first.value);
      }
      return if first.Some? && first.value in data then first else None;
    }

    method QueryWindow(source: string, lo: int, hi: int) returns (segments: seq<Segment>)
      requires Valid()
      ensures segments == Query(LinesFound(alnum, Contents(), source), lo, hi)
      ensures PlainLog(log) ==> segments == Query(Legacy(alnum, start, source) + History(log, source), lo, hi)
    {
      hide NothingFound, Finds, Query, Run, Legacy, History, LinesFound;
      QueriesFindWhatWasAppended(alnum, start, log);
      assert PlainLog(log) ==> Answered(alnum, start, log, source);
      var found := Find(source);
      if found.None? {
        NothingMeansNone(alnum, Contents(), source);
        return Query([], lo, hi);
      }
      FoundLinesAre(alnum, Contents(), source, found.value);
      return Query(if found.value in data then data[found.value] else [], lo, hi);
    }

    method ListSources() returns (sources: set<string>)
      requires Valid()
      ensures forall s :: s in sources <==> s in start.data || exists e :: e in log && ReadBack(e.source) == s
    {
      hide ReadBack, Run;
      var identified := set n | n in identities && n in data :: ReadBack(identities[n]);
      sources := identified + set n | n in data && n !in identities;
      forall s ensures s in sources <==> Listed(Contents(), s) {
        assert s in sources ==> Listed(Contents(), s) by {
          if n :| n in identities && n in data && ReadBack(identities[n]) == s {
            assert Owns(Contents(), n, s);
          }
        }
      }
      hide Listed;
      forall s ensures s in sources <==> s in start.data || exists e :: e in log && ReadBack(e.source) == s {
        ListedAreAppendedOrLegacy(alnum, start, log, s);
      }
    }
  }
}
