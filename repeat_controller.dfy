/** The repeat/navigation controller: indexes the repeat groups, the musical
    directions and the alternate endings of a score once, then answers, at
    each playback location, whether playback must jump and where to. */
module RepeatControl {
  import opened Directions
  import opened Score

  /** A direction symbol bound to a location: its type, the active symbol it
      requires and the repeat number it requires. */
  datatype DirectionSymbol = DirectionSymbol(symbolType: bv8, activeSymbol: bv8, repeatNumber: bv8)

  /** The behaviour of the Repeat class and of DirectionSymbol::shouldPerformDirection,
      whose code is not part of this model, over a repeat-group state R:
      - create(start): Repeat(start);
      - addRepeatEnd(r, location, count): Repeat::addRepeatEnd(location, RepeatEnd(count));
      - addAlternateEnding(r, ending): Repeat::addAlternateEnding;
      - performRepeat(r, location): Repeat::performRepeat, the new group state and the location to go to;
      - reset(r): Repeat::reset;
      - activeRepeat(r): Repeat::getActiveRepeat;
      - shouldPerformDirection(symbol, activeSymbol, activeRepeat). */
  datatype RepeatBehaviour<!R> = RepeatBehaviour(
    create: SystemLocation -> R,
    addRepeatEnd: (R, SystemLocation, nat) -> R,
    addAlternateEnding: (R, AlternateEnding) -> R,
    performRepeat: (R, SystemLocation) -> (R, SystemLocation),
    reset: R -> R,
    activeRepeat: R -> nat,
    shouldPerformDirection: (DirectionSymbol, bv8, nat) -> bool)

  /** One entry of the ordered map of repeat groups, keyed by the group's start. */
  datatype Group<R> = Group(start: SystemLocation, repeat: R)

  /** One entry of the multimap of directions, keyed by location. */
  datatype DirectionEntry = DirectionEntry(location: SystemLocation, symbol: DirectionSymbol)

  /** One entry of the multimap from symbol type to location. */
  datatype SymbolLocation = SymbolLocation(symbolType: bv8, location: SystemLocation)

  // ---------------------------------------------------------------------------
  // The ordered map of repeat groups: a sequence with strictly increasing keys
  // ---------------------------------------------------------------------------

  predicate GroupsSorted<R>(gs: seq<Group<R>>) {
    forall i, j :: 0 <= i < j < |gs| ==> Before(gs[i].start, gs[j].start)
  }

  function StartSet<R>(gs: seq<Group<R>>): set<SystemLocation> {
    set i | 0 <= i < |gs| :: gs[i].start
  }

  /** The map the sequence stands for. */
  ghost function AsMap<R>(gs: seq<Group<R>>): map<SystemLocation, R>
  {
    if gs == [] then map[] else AsMap(gs[..|gs| - 1])[gs[|gs| - 1].start := gs[|gs| - 1].repeat]
  }

  lemma {:induction false} AsMapKeys<R>(gs: seq<Group<R>>)
    ensures AsMap(gs).Keys == StartSet(gs)
  {
    if gs != [] {
      AsMapKeys(gs[..|gs| - 1]);
      assert StartSet(gs) == StartSet(gs[..|gs| - 1]) + {gs[|gs| - 1].start};
    }
  }

  lemma {:induction false} AsMapConcat<R>(a: seq<Group<R>>, b: seq<Group<R>>)
    ensures AsMap(a + b) == AsMap(a) + AsMap(b)
  {
    if b == [] {
      assert a + b == a;
    } else {
      var b' := b[..|b| - 1];
      assert (a + b)[..|a + b| - 1] == a + b';
      AsMapConcat(a, b');
    }
  }

  /** A group followed only by groups with other starts decides the map at its start. */
  lemma AsMapMiddle<R>(pre: seq<Group<R>>, g: Group<R>, suf: seq<Group<R>>)
    requires g.start !in StartSet(suf)
    ensures AsMap(pre + [g] + suf) == (AsMap(pre) + AsMap(suf))[g.start := g.repeat]
  {
    AsMapConcat(pre + [g], suf);
    AsMapConcat(pre, [g]);
    assert [g][..0] == [];
    AsMapKeys(suf);
  }

  /** Replacing the value of entry i changes the map at that entry's key only. */
  lemma AsMapUpdate<R>(gs: seq<Group<R>>, i: nat, v: R)
    requires GroupsSorted(gs) && i < |gs|
    ensures AsMap(gs[i := Group(gs[i].start, v)]) == AsMap(gs)[gs[i].start := v]
  {
    var pre, suf := gs[..i], gs[i + 1..];
    var key := gs[i].start;
    assert key !in StartSet(suf) by {
      assert forall j :: 0 <= j < |suf| ==> suf[j] == gs[i + 1 + j];
    }
    assert gs == pre + [gs[i]] + suf;
    assert gs[i := Group(key, v)] == pre + [Group(key, v)] + suf;
    AsMapMiddle(pre, gs[i], suf);
    AsMapMiddle(pre, Group(key, v), suf);
    MapUpdateTwice(AsMap(pre) + AsMap(suf), key, gs[i].repeat, v);
  }

  lemma MapUpdateTwice<K, V>(m: map<K, V>, k: K, a: V, b: V)
    ensures m[k := a][k := b] == m[k := b]
  {
  }

  /** std::map::upper_bound: the number of groups whose start is at or before loc. */
  function CountAtOrBefore<R>(gs: seq<Group<R>>, loc: SystemLocation): (k: nat)
    requires GroupsSorted(gs)
    ensures k <= |gs|
    ensures forall i :: 0 <= i < k ==> AtOrBefore(gs[i].start, loc)
    ensures forall i :: k <= i < |gs| ==> Before(loc, gs[i].start)
  {
    if |gs| == 0 then 0
    else if AtOrBefore(gs[|gs| - 1].start, loc) then |gs|
    else CountAtOrBefore(gs[..|gs| - 1], loc)
  }

  /** getPreviousRepeatGroup: the group with the greatest start at or before loc
      (the first group when every start is after loc). */
  function PreviousRepeatGroup<R>(gs: seq<Group<R>>, loc: SystemLocation): (i: nat)
    requires GroupsSorted(gs) && |gs| > 0
    ensures i < |gs|
    ensures gs[0].start == SystemLocation(0, 0) ==> AtOrBefore(gs[i].start, loc)
    ensures forall j :: i < j < |gs| ==> Before(loc, gs[j].start)
  {
    var k := CountAtOrBefore(gs, loc);
    if k > 0 then k - 1 else 0
  }

  lemma InsertGroupSorted<R>(gs: seq<Group<R>>, k: nat, g: Group<R>)
    requires GroupsSorted(gs) && k <= |gs|
    requires forall i :: 0 <= i < k ==> Before(gs[i].start, g.start)
    requires forall i :: k <= i < |gs| ==> Before(g.start, gs[i].start)
    ensures GroupsSorted(gs[..k] + [g] + gs[k..])
  {
    var r := gs[..k] + [g] + gs[k..];
    assert forall i :: 0 <= i < |r| ==> r[i] == (if i < k then gs[i] else if i == k then g else gs[i - 1]);
  }

  lemma InsertGroupMap<R>(gs: seq<Group<R>>, k: nat, g: Group<R>)
    requires k <= |gs|
    requires forall i :: k <= i < |gs| ==> gs[i].start != g.start
    ensures AsMap(gs[..k] + [g] + gs[k..]) == AsMap(gs)[g.start := g.repeat]
  {
    assert gs == gs[..k] + gs[k..];
    assert forall j :: 0 <= j < |gs[k..]| ==> gs[k..][j] == gs[k + j];
    assert g.start !in StartSet(gs[k..]);
    AsMapMiddle(gs[..k], g, gs[k..]);
    AsMapConcat(gs[..k], gs[k..]);
  }

  /** Inserting a group whose start falls strictly between the starts of gs[..k] and gs[k..]. */
  lemma InsertGroupAt<R>(gs: seq<Group<R>>, k: nat, g: Group<R>)
    requires GroupsSorted(gs) && k <= |gs|
    requires forall i :: 0 <= i < k ==> AtOrBefore(gs[i].start, g.start)
    requires k == 0 || gs[k - 1].start != g.start
    requires forall i :: k <= i < |gs| ==> Before(g.start, gs[i].start)
    ensures GroupsSorted(gs[..k] + [g] + gs[k..])
    ensures StartSet(gs[..k] + [g] + gs[k..]) == StartSet(gs) + {g.start}
    ensures AsMap(gs[..k] + [g] + gs[k..]) == AsMap(gs)[g.start := g.repeat]
  {
    forall i | 0 <= i < k ensures Before(gs[i].start, g.start) {
      if i < k - 1 {
        assert Before(gs[i].start, gs[k - 1].start);
      }
    }
    InsertGroupSorted(gs, k, g);
    InsertGroupMap(gs, k, g);
    AsMapKeys(gs);
    AsMapKeys(gs[..k] + [g] + gs[k..]);
  }

  /** Overwriting the value of the group at index i. */
  lemma ReplaceGroupAt<R>(gs: seq<Group<R>>, i: nat, v: R)
    requires GroupsSorted(gs) && i < |gs|
    ensures GroupsSorted(gs[i := Group(gs[i].start, v)])
    ensures StartSet(gs[i := Group(gs[i].start, v)]) == StartSet(gs)
    ensures AsMap(gs[i := Group(gs[i].start, v)]) == AsMap(gs)[gs[i].start := v]
  {
    var r := gs[i := Group(gs[i].start, v)];
    assert forall j :: 0 <= j < |gs| ==> r[j].start == gs[j].start;
    AsMapUpdate(gs, i, v);
    AsMapKeys(gs);
    AsMapKeys(r);
  }

  /** repeats[location] = Repeat(location): insert, or overwrite the group already there. */
  function AssignGroup<R>(gs: seq<Group<R>>, loc: SystemLocation, v: R): (r: seq<Group<R>>)
    requires GroupsSorted(gs)
    ensures GroupsSorted(r)
    ensures |r| > 0
    ensures StartSet(r) == StartSet(gs) + {loc}
    ensures AsMap(r) == AsMap(gs)[loc := v]
    ensures |gs| > 0 && gs[0].start == SystemLocation(0, 0) ==> r[0].start == SystemLocation(0, 0)
  {
    var k := CountAtOrBefore(gs, loc);
    if k > 0 && gs[k - 1].start == loc then
      ReplaceGroupAt(gs, k - 1, v);
      gs[k - 1 := Group(loc, v)]
    else
      InsertGroupAt(gs, k, Group(loc, v));
      gs[..k] + [Group(loc, v)] + gs[k..]
  }

  // ---------------------------------------------------------------------------
  // The multimap of directions: a sequence sorted by location, equal keys in
  // insertion order
  // ---------------------------------------------------------------------------

  predicate EntriesSorted(ds: seq<DirectionEntry>) {
    forall i, j :: 0 <= i < j < |ds| ==> AtOrBefore(ds[i].location, ds[j].location)
  }

  /** Every entry lies in one of the first n systems. */
  predicate EntriesWithin(ds: seq<DirectionEntry>, n: nat) {
    forall i :: 0 <= i < |ds| ==> ds[i].location.system < n
  }

  /** The number of entries whose key is at or before loc: where multimap::insert puts a new entry. */
  function EntryUpperBound(ds: seq<DirectionEntry>, loc: SystemLocation): (k: nat)
    requires EntriesSorted(ds)
    ensures k <= |ds|
    ensures forall i :: 0 <= i < k ==> AtOrBefore(ds[i].location, loc)
    ensures forall i :: k <= i < |ds| ==> Before(loc, ds[i].location)
  {
    if |ds| == 0 then 0
    else if AtOrBefore(ds[|ds| - 1].location, loc) then |ds|
    else EntryUpperBound(ds[..|ds| - 1], loc)
  }

  /** multimap::lower_bound (the first iterator of equal_range): the first entry whose key
      is at or after loc. */
  function EntryLowerBound(ds: seq<DirectionEntry>, loc: SystemLocation): (k: nat)
    requires EntriesSorted(ds)
    ensures k <= |ds|
    ensures forall i :: 0 <= i < k ==> Before(ds[i].location, loc)
    ensures forall i :: k <= i < |ds| ==> AtOrBefore(loc, ds[i].location)
  {
    if |ds| == 0 then 0
    else if Before(ds[|ds| - 1].location, loc) then |ds|
    else EntryLowerBound(ds[..|ds| - 1], loc)
  }

  /** The direction checkForRepeat consults is the first entry at or after the location,
      since equal_range's first iterator is compared only with end(): a D.C. anchored in
      system 1 is consulted at position 3 of system 0, where no direction is anchored. */
  lemma LaterDirectionIsConsulted()
    ensures var ds := [DirectionEntry(SystemLocation(1, 0), DirectionSymbol(DA_CAPO, 0, 0))];
            EntryLowerBound(ds, SystemLocation(0, 3)) == 0 && ds[0].location != SystemLocation(0, 3)
  {
  }

  /** multimap::insert: the new entry goes after every entry with the same or a smaller key. */
  function InsertDirection(ds: seq<DirectionEntry>, e: DirectionEntry): (r: seq<DirectionEntry>)
    requires EntriesSorted(ds)
    ensures EntriesSorted(r)
    ensures multiset(r) == multiset(ds) + multiset{e}
    ensures forall n: nat :: EntriesWithin(ds, n) && e.location.system < n ==> EntriesWithin(r, n)
  {
    var k := EntryUpperBound(ds, e.location);
    InsertEntryAt(ds, k, e);
    ds[..k] + [e] + ds[k..]
  }

  /** Placing an entry between the entries at or before its key and those after it. */
  lemma InsertEntryAt(ds: seq<DirectionEntry>, k: nat, e: DirectionEntry)
    requires EntriesSorted(ds) && k <= |ds|
    requires forall i :: 0 <= i < k ==> AtOrBefore(ds[i].location, e.location)
    requires forall i :: k <= i < |ds| ==> Before(e.location, ds[i].location)
    ensures EntriesSorted(ds[..k] + [e] + ds[k..])
    ensures multiset(ds[..k] + [e] + ds[k..]) == multiset(ds) + multiset{e}
    ensures forall n: nat :: EntriesWithin(ds, n) && e.location.system < n ==> EntriesWithin(ds[..k] + [e] + ds[k..], n)
  {
    var r := ds[..k] + [e] + ds[k..];
    assert forall i :: 0 <= i < |r| ==> r[i] == (if i < k then ds[i] else if i == k then e else ds[i - 1]);
    InsertEntryMultiset(ds, k, e);
  }

  lemma InsertEntryMultiset(ds: seq<DirectionEntry>, k: nat, e: DirectionEntry)
    requires k <= |ds|
    ensures multiset(ds[..k] + [e] + ds[k..]) == multiset(ds) + multiset{e}
  {
    assert ds == ds[..k] + ds[k..];
  }

  /** Inserting the entries one after another, in order. */
  function InsertAll(ds: seq<DirectionEntry>, es: seq<DirectionEntry>): (r: seq<DirectionEntry>)
    requires EntriesSorted(ds)
    ensures EntriesSorted(r)
    ensures forall n: nat :: EntriesWithin(ds, n) && EntriesWithin(es, n) ==> EntriesWithin(r, n)
  {
    if es == [] then ds
    else
      var es' := es[..|es| - 1];
      assert es == es' + [es[|es| - 1]];
      InsertDirection(InsertAll(ds, es'), es[|es| - 1])
  }

  /** Indexing adds exactly the given entries to the multimap. */
  lemma {:induction false} InsertAllMultiset(ds: seq<DirectionEntry>, es: seq<DirectionEntry>)
    requires EntriesSorted(ds)
    ensures multiset(InsertAll(ds, es)) == multiset(ds) + multiset(es)
  {
    if es != [] {
      var es' := es[..|es| - 1];
      assert es == es' + [es[|es| - 1]];
      InsertAllMultiset(ds, es');
    }
  }

  lemma {:induction false} InsertAllConcat(ds: seq<DirectionEntry>, a: seq<DirectionEntry>, b: seq<DirectionEntry>)
    requires EntriesSorted(ds)
    ensures InsertAll(ds, a + b) == InsertAll(InsertAll(ds, a), b)
  {
    if b == [] {
      assert a + b == a;
    } else {
      var b' := b[..|b| - 1];
      assert (a + b)[..|a + b| - 1] == a + b';
      InsertAllConcat(ds, a, b');
    }
  }

  /** multimap::erase of one entry. */
  function RemoveEntry(ds: seq<DirectionEntry>, k: nat): (r: seq<DirectionEntry>)
    requires EntriesSorted(ds) && k < |ds|
    ensures EntriesSorted(r)
    ensures multiset(r) == multiset(ds) - multiset{ds[k]}
    ensures forall n: nat :: EntriesWithin(ds, n) ==> EntriesWithin(r, n)
  {
    assert ds == ds[..k] + [ds[k]] + ds[k + 1..];
    ds[..k] + ds[k + 1..]
  }

  /** multimap::find on the symbol index: the location first inserted for the type. */
  function FindSymbol(sls: seq<SymbolLocation>, symbolType: bv8): (r: Option<SystemLocation>)
    ensures r.None? <==> forall i :: 0 <= i < |sls| ==> sls[i].symbolType != symbolType
    ensures r.Some? ==> exists i :: 0 <= i < |sls| && sls[i] == SymbolLocation(symbolType, r.value)
                                    && forall j :: 0 <= j < i ==> sls[j].symbolType != symbolType
  {
    if |sls| == 0 then None
    else if sls[0].symbolType == symbolType then Some(sls[0].location)
    else
      var r := FindSymbol(sls[1..], symbolType);
      assert forall i :: 1 <= i < |sls| ==> sls[i] == sls[1..][i - 1];
      r
  }

  // ---------------------------------------------------------------------------
  // What indexing builds
  // ---------------------------------------------------------------------------

  /** The fields of symbol i of a direction, as a direction symbol. */
  function SymbolOf(d: DirectionValue, i: nat): (s: DirectionSymbol)
    requires i < |d.symbols|
    ensures EncodeSymbol(SymbolFields(s.symbolType, s.activeSymbol, s.repeatNumber)) == d.symbols[i]
  {
    var f := SymbolAt(d.symbols, i).value;
    DirectionSymbol(f.symbolType, f.activeSymbol, f.repeatNumber)
  }

  /** The direction entries indexDirections adds for one direction: one copy of
      symbol 0 per symbol the direction holds, because the index passed to GetSymbol
      stays 0 on every pass. */
  function DirectionCopies(systemIndex: nat, d: DirectionValue): (r: seq<DirectionEntry>)
    ensures |r| == |d.symbols|
    ensures forall i :: 0 <= i < |r| ==> r[i] == DirectionEntry(SystemLocation(systemIndex, d.position), SymbolOf(d, 0))
  {
    seq(|d.symbols|, i requires 0 <= i < |d.symbols| =>
      DirectionEntry(SystemLocation(systemIndex, d.position), SymbolOf(d, 0)))
  }

  /** The symbol-index entries added for one direction: the type of symbol 0, once per symbol. */
  function SymbolCopies(systemIndex: nat, d: DirectionValue): (r: seq<SymbolLocation>)
    ensures |r| == |d.symbols|
    ensures forall i :: 0 <= i < |r| ==> r[i] == SymbolLocation(SymbolOf(d, 0).symbolType, SystemLocation(systemIndex, d.position))
  {
    seq(|d.symbols|, i requires 0 <= i < |d.symbols| =>
      SymbolLocation(SymbolOf(d, 0).symbolType, SystemLocation(systemIndex, d.position)))
  }

  /** A direction holding a Coda and then a Fine: the Coda is entered twice and the Fine
      never reaches either multimap. */
  lemma SecondSymbolNotIndexed()
    ensures var d := DirectionValue(4, [EncodeSymbol(SymbolFields(CODA, 0, 0)), EncodeSymbol(SymbolFields(FINE, 0, 0))]);
            && DirectionCopies(0, d) == [DirectionEntry(SystemLocation(0, 4), DirectionSymbol(CODA, 0, 0)),
                                         DirectionEntry(SystemLocation(0, 4), DirectionSymbol(CODA, 0, 0))]
            && SymbolLocation(FINE, SystemLocation(0, 4)) !in SymbolCopies(0, d)
  {
    var d := DirectionValue(4, [EncodeSymbol(SymbolFields(CODA, 0, 0)), EncodeSymbol(SymbolFields(FINE, 0, 0))]);
    assert SymbolAt(d.symbols, 0) == Some(SymbolFields(CODA, 0, 0));
    assert SymbolOf(d, 0) == DirectionSymbol(CODA, 0, 0);
  }

  function SystemDirectionEntries(systemIndex: nat, dirs: seq<DirectionValue>): (r: seq<DirectionEntry>)
    ensures EntriesWithin(r, systemIndex + 1)
  {
    if dirs == [] then []
    else SystemDirectionEntries(systemIndex, dirs[..|dirs| - 1]) + DirectionCopies(systemIndex, dirs[|dirs| - 1])
  }

  function SystemSymbolEntries(systemIndex: nat, dirs: seq<DirectionValue>): seq<SymbolLocation>
  {
    if dirs == [] then []
    else SystemSymbolEntries(systemIndex, dirs[..|dirs| - 1]) + SymbolCopies(systemIndex, dirs[|dirs| - 1])
  }

  /** Total number of symbols held by the directions. */
  function SymbolTotal(dirs: seq<DirectionValue>): nat
  {
    if dirs == [] then 0 else SymbolTotal(dirs[..|dirs| - 1]) + |dirs[|dirs| - 1].symbols|
  }

  /** indexDirections adds exactly as many entries to each multimap as the system's
      directions hold symbols. */
  lemma {:induction false} SystemEntriesCount(systemIndex: nat, dirs: seq<DirectionValue>)
    ensures |SystemDirectionEntries(systemIndex, dirs)| == SymbolTotal(dirs)
    ensures |SystemSymbolEntries(systemIndex, dirs)| == SymbolTotal(dirs)
  {
    if dirs != [] {
      SystemEntriesCount(systemIndex, dirs[..|dirs| - 1]);
    }
  }

  lemma PrefixSnoc<T>(s: seq<T>, n: nat)
    requires n < |s|
    ensures s[..n + 1] == s[..n] + [s[n]]
  {
  }

  lemma AppendPrefix<T>(a: seq<T>, s: seq<T>, n: nat)
    requires n < |s|
    ensures a + s[..n + 1] == (a + s[..n]) + [s[n]]
  {
    assert s[..n + 1] == s[..n] + [s[n]];
  }

  lemma InsertAllSnoc(ds: seq<DirectionEntry>, es: seq<DirectionEntry>, e: DirectionEntry)
    requires EntriesSorted(ds)
    ensures InsertAll(ds, es + [e]) == InsertDirection(InsertAll(ds, es), e)
  {
    assert (es + [e])[..|es|] == es;
  }

  /** One more symbol indexed: both multimaps grow by the next copy. */
  lemma IndexSymbolStep(ds0: seq<DirectionEntry>, sls0: seq<SymbolLocation>, copies: seq<DirectionEntry>,
                        symbolCopies: seq<SymbolLocation>, n: nat)
    requires EntriesSorted(ds0) && n < |copies| && n < |symbolCopies|
    ensures InsertDirection(InsertAll(ds0, copies[..n]), copies[n]) == InsertAll(ds0, copies[..n + 1])
    ensures (sls0 + symbolCopies[..n]) + [symbolCopies[n]] == sls0 + symbolCopies[..n + 1]
  {
    InsertAllSnoc(ds0, copies[..n], copies[n]);
    PrefixSnoc(copies, n);
    AppendPrefix(sls0, symbolCopies, n);
  }

  lemma SystemEntriesSnoc(systemIndex: nat, dirs: seq<DirectionValue>, i: nat)
    requires i < |dirs|
    ensures SystemDirectionEntries(systemIndex, dirs[..i + 1])
            == SystemDirectionEntries(systemIndex, dirs[..i]) + DirectionCopies(systemIndex, dirs[i])
    ensures SystemSymbolEntries(systemIndex, dirs[..i + 1])
            == SystemSymbolEntries(systemIndex, dirs[..i]) + SymbolCopies(systemIndex, dirs[i])
  {
    assert dirs[..i + 1][..i] == dirs[..i];
  }

  /** One more direction indexed: its copies follow the entries of the directions before it. */
  lemma IndexDirectionsStep(ds0: seq<DirectionEntry>, sls0: seq<SymbolLocation>, systemIndex: nat,
                            dirs: seq<DirectionValue>, i: nat)
    requires EntriesSorted(ds0) && i < |dirs|
    ensures InsertAll(InsertAll(ds0, SystemDirectionEntries(systemIndex, dirs[..i])), DirectionCopies(systemIndex, dirs[i]))
            == InsertAll(ds0, SystemDirectionEntries(systemIndex, dirs[..i + 1]))
    ensures (sls0 + SystemSymbolEntries(systemIndex, dirs[..i])) + SymbolCopies(systemIndex, dirs[i])
            == sls0 + SystemSymbolEntries(systemIndex, dirs[..i + 1])
  {
    var es, copies := SystemDirectionEntries(systemIndex, dirs[..i]), DirectionCopies(systemIndex, dirs[i]);
    SystemEntriesSnoc(systemIndex, dirs, i);
    InsertAllConcat(ds0, es, copies);
    AppendAssociates(sls0, SystemSymbolEntries(systemIndex, dirs[..i]), SymbolCopies(systemIndex, dirs[i]));
  }

  lemma AppendAssociates<T>(a: seq<T>, b: seq<T>, c: seq<T>)
    ensures (a + b) + c == a + (b + c)
  {
  }

  /** Direction entries of the first |systems| systems, in scan order. */
  function ScoreDirectionEntries(systems: seq<System>): (r: seq<DirectionEntry>)
    ensures EntriesWithin(r, |systems|)
  {
    if systems == [] then []
    else
      var n := |systems| - 1;
      ScoreDirectionEntries(systems[..n]) + SystemDirectionEntries(n, systems[n].directions)
  }

  function ScoreSymbolEntries(systems: seq<System>): seq<SymbolLocation>
  {
    if systems == [] then []
    else
      var n := |systems| - 1;
      ScoreSymbolEntries(systems[..n]) + SystemSymbolEntries(n, systems[n].directions)
  }

  /** One barline of indexRepeats: a repeat start opens (or replaces) the group at its
      location; otherwise a repeat end is attached to the group with the greatest start. */
  function AddBarline<R>(b: RepeatBehaviour<R>, gs: seq<Group<R>>, systemIndex: nat, bar: Barline): (r: seq<Group<R>>)
    requires GroupsSorted(gs) && |gs| > 0 && gs[0].start == SystemLocation(0, 0)
    ensures GroupsSorted(r) && |r| > 0 && r[0].start == SystemLocation(0, 0)
    ensures bar.isRepeatStart ==>
              var loc := SystemLocation(systemIndex, bar.position);
              StartSet(r) == StartSet(gs) + {loc} && AsMap(r) == AsMap(gs)[loc := b.create(loc)]
    ensures !bar.isRepeatStart && bar.isRepeatEnd ==>
              var last := gs[|gs| - 1];
              && StartSet(r) == StartSet(gs)
              && (forall s :: s in StartSet(gs) ==> AtOrBefore(s, last.start))
              && AsMap(r) == AsMap(gs)[last.start := b.addRepeatEnd(last.repeat, SystemLocation(systemIndex, bar.position), bar.repeatCount)]
    ensures !bar.isRepeatStart && !bar.isRepeatEnd ==> r == gs
  {
    var loc := SystemLocation(systemIndex, bar.position);
    if bar.isRepeatStart then AssignGroup(gs, loc, b.create(loc))
    else if bar.isRepeatEnd then
      var last := gs[|gs| - 1];
      var r := gs[|gs| - 1 := Group(last.start, b.addRepeatEnd(last.repeat, loc, bar.repeatCount))];
      AsMapUpdate(gs, |gs| - 1, b.addRepeatEnd(last.repeat, loc, bar.repeatCount));
      assert StartSet(r) == StartSet(gs) by {
        assert forall i :: 0 <= i < |gs| ==> r[i].start == gs[i].start;
      }
      r
    else gs
  }

  function AddBarlines<R>(b: RepeatBehaviour<R>, gs: seq<Group<R>>, systemIndex: nat, bars: seq<Barline>): (r: seq<Group<R>>)
    requires GroupsSorted(gs) && |gs| > 0 && gs[0].start == SystemLocation(0, 0)
    ensures GroupsSorted(r) && |r| > 0 && r[0].start == SystemLocation(0, 0)
  {
    if bars == [] then gs
    else AddBarline(b, AddBarlines(b, gs, systemIndex, bars[..|bars| - 1]), systemIndex, bars[|bars| - 1])
  }

  /** The groups after the barlines of the first |systems| systems. */
  function AddSystemBarlines<R>(b: RepeatBehaviour<R>, gs: seq<Group<R>>, systems: seq<System>): (r: seq<Group<R>>)
    requires GroupsSorted(gs) && |gs| > 0 && gs[0].start == SystemLocation(0, 0)
    ensures GroupsSorted(r) && |r| > 0 && r[0].start == SystemLocation(0, 0)
  {
    if systems == [] then gs
    else
      var n := |systems| - 1;
      AddBarlines(b, AddSystemBarlines(b, gs, systems[..n]), n, systems[n].barlines)
  }

  /** One alternate ending: attached to the group active at its location. */
  function AddAlternateEnding<R>(b: RepeatBehaviour<R>, gs: seq<Group<R>>, e: AlternateEnding): (r: seq<Group<R>>)
    requires GroupsSorted(gs) && |gs| > 0 && gs[0].start == SystemLocation(0, 0)
    ensures GroupsSorted(r) && |r| > 0 && r[0].start == SystemLocation(0, 0)
    ensures StartSet(r) == StartSet(gs)
    ensures var g := gs[PreviousRepeatGroup(gs, SystemLocation(e.system, e.position))];
            AsMap(r) == AsMap(gs)[g.start := b.addAlternateEnding(g.repeat, e)]
  {
    var i := PreviousRepeatGroup(gs, SystemLocation(e.system, e.position));
    var r := gs[i := Group(gs[i].start, b.addAlternateEnding(gs[i].repeat, e))];
    AsMapUpdate(gs, i, b.addAlternateEnding(gs[i].repeat, e));
    assert forall j :: 0 <= j < |gs| ==> r[j].start == gs[j].start;
    r
  }

  function AddAlternateEndings<R>(b: RepeatBehaviour<R>, gs: seq<Group<R>>, es: seq<AlternateEnding>): (r: seq<Group<R>>)
    requires GroupsSorted(gs) && |gs| > 0 && gs[0].start == SystemLocation(0, 0)
    ensures GroupsSorted(r) && |r| > 0 && r[0].start == SystemLocation(0, 0)
    ensures StartSet(r) == StartSet(gs)
  {
    if es == [] then gs
    else AddAlternateEnding(b, AddAlternateEndings(b, gs, es[..|es| - 1]), es[|es| - 1])
  }

  lemma AddBarlinesSnoc<R>(b: RepeatBehaviour<R>, gs: seq<Group<R>>, systemIndex: nat, bars: seq<Barline>, i: nat)
    requires GroupsSorted(gs) && |gs| > 0 && gs[0].start == SystemLocation(0, 0)
    requires i < |bars|
    ensures AddBarlines(b, gs, systemIndex, bars[..i + 1])
            == AddBarline(b, AddBarlines(b, gs, systemIndex, bars[..i]), systemIndex, bars[i])
  {
    assert bars[..i + 1][..i] == bars[..i];
  }

  lemma AddSystemBarlinesSnoc<R>(b: RepeatBehaviour<R>, gs: seq<Group<R>>, systems: seq<System>, n: nat)
    requires GroupsSorted(gs) && |gs| > 0 && gs[0].start == SystemLocation(0, 0)
    requires n < |systems|
    ensures AddSystemBarlines(b, gs, systems[..n + 1])
            == AddBarlines(b, AddSystemBarlines(b, gs, systems[..n]), n, systems[n].barlines)
  {
    assert systems[..n + 1][..n] == systems[..n];
  }

  lemma AddAlternateEndingsSnoc<R>(b: RepeatBehaviour<R>, gs: seq<Group<R>>, es: seq<AlternateEnding>, i: nat)
    requires GroupsSorted(gs) && |gs| > 0 && gs[0].start == SystemLocation(0, 0)
    requires i < |es|
    ensures AddAlternateEndings(b, gs, es[..i + 1]) == AddAlternateEnding(b, AddAlternateEndings(b, gs, es[..i]), es[i])
  {
    assert es[..i + 1][..i] == es[..i];
  }

  lemma ScoreEntriesSnoc(systems: seq<System>, n: nat)
    requires n < |systems|
    ensures ScoreDirectionEntries(systems[..n + 1])
            == ScoreDirectionEntries(systems[..n]) + SystemDirectionEntries(n, systems[n].directions)
    ensures ScoreSymbolEntries(systems[..n + 1])
            == ScoreSymbolEntries(systems[..n]) + SystemSymbolEntries(n, systems[n].directions)
  {
    assert systems[..n + 1][..n] == systems[..n];
  }

  /** The groups indexRepeats builds: the start of the score, then every barline of
      every system, then every alternate ending. */
  function IndexedRepeats<R>(b: RepeatBehaviour<R>, score: Score): (r: seq<Group<R>>)
    ensures GroupsSorted(r) && |r| > 0 && r[0].start == SystemLocation(0, 0)
  {
    var start := SystemLocation(0, 0);
    AddAlternateEndings(b, AddSystemBarlines(b, [Group(start, b.create(start))], score.systems),
                        score.alternateEndings)
  }

  /** The locations of the repeat-start barlines of the first |systems| systems. */
  function RepeatStarts(systems: seq<System>): set<SystemLocation>
  {
    set s, i | 0 <= s < |systems| && 0 <= i < |systems[s].barlines| && systems[s].barlines[i].isRepeatStart
      :: SystemLocation(s, systems[s].barlines[i].position)
  }

  function BarRepeatStarts(systemIndex: nat, bars: seq<Barline>): set<SystemLocation>
  {
    set i | 0 <= i < |bars| && bars[i].isRepeatStart :: SystemLocation(systemIndex, bars[i].position)
  }

  lemma BarRepeatStartsSnoc(systemIndex: nat, bars: seq<Barline>)
    requires bars != []
    ensures var n := |bars| - 1;
            BarRepeatStarts(systemIndex, bars) == BarRepeatStarts(systemIndex, bars[..n])
              + (if bars[n].isRepeatStart then {SystemLocation(systemIndex, bars[n].position)} else {})
  {
    var n := |bars| - 1;
    forall l | l in BarRepeatStarts(systemIndex, bars)
      ensures l in BarRepeatStarts(systemIndex, bars[..n])
                   + (if bars[n].isRepeatStart then {SystemLocation(systemIndex, bars[n].position)} else {})
    {
      var i :| 0 <= i < |bars| && bars[i].isRepeatStart && l == SystemLocation(systemIndex, bars[i].position);
      if i < n { assert bars[..n][i] == bars[i]; }
    }
    forall l | l in BarRepeatStarts(systemIndex, bars[..n])
      ensures l in BarRepeatStarts(systemIndex, bars)
    {
      var i :| 0 <= i < n && bars[..n][i].isRepeatStart && l == SystemLocation(systemIndex, bars[..n][i].position);
      assert bars[i] == bars[..n][i];
    }
  }

  lemma {:induction false} AddBarlinesStarts<R>(b: RepeatBehaviour<R>, gs: seq<Group<R>>, systemIndex: nat, bars: seq<Barline>)
    requires GroupsSorted(gs) && |gs| > 0 && gs[0].start == SystemLocation(0, 0)
    ensures StartSet(AddBarlines(b, gs, systemIndex, bars)) == StartSet(gs) + BarRepeatStarts(systemIndex, bars)
  {
    if bars != [] {
      var n := |bars| - 1;
      AddBarlinesStarts(b, gs, systemIndex, bars[..n]);
      BarRepeatStartsSnoc(systemIndex, bars);
    }
  }

  lemma RepeatStartsSnoc(systems: seq<System>)
    requires systems != []
    ensures var n := |systems| - 1;
            RepeatStarts(systems) == RepeatStarts(systems[..n]) + BarRepeatStarts(n, systems[n].barlines)
  {
    var n := |systems| - 1;
    var pre := systems[..n];
    forall l | l in RepeatStarts(systems)
      ensures l in RepeatStarts(pre) + BarRepeatStarts(n, systems[n].barlines)
    {
      var s, i :| 0 <= s < |systems| && 0 <= i < |systems[s].barlines| && systems[s].barlines[i].isRepeatStart
                  && l == SystemLocation(s, systems[s].barlines[i].position);
      if s < n { assert pre[s] == systems[s]; }
    }
    forall l | l in RepeatStarts(pre) ensures l in RepeatStarts(systems) {
      var s, i :| 0 <= s < |pre| && 0 <= i < |pre[s].barlines| && pre[s].barlines[i].isRepeatStart
                  && l == SystemLocation(s, pre[s].barlines[i].position);
      assert pre[s] == systems[s];
    }
  }

  lemma {:induction false} AddSystemBarlinesStarts<R>(b: RepeatBehaviour<R>, gs: seq<Group<R>>, systems: seq<System>)
    requires GroupsSorted(gs) && |gs| > 0 && gs[0].start == SystemLocation(0, 0)
    ensures StartSet(AddSystemBarlines(b, gs, systems)) == StartSet(gs) + RepeatStarts(systems)
  {
    if systems != [] {
      var n := |systems| - 1;
      var pre := systems[..n];
      AddSystemBarlinesStarts(b, gs, pre);
      AddBarlinesStarts(b, AddSystemBarlines(b, gs, pre), n, systems[n].barlines);
      RepeatStartsSnoc(systems);
    }
  }

  /** The groups are keyed by exactly the start of the score and the repeat-start barlines. */
  lemma IndexedRepeatsStarts<R>(b: RepeatBehaviour<R>, score: Score)
    ensures StartSet(IndexedRepeats(b, score)) == {SystemLocation(0, 0)} + RepeatStarts(score.systems)
  {
    var start := SystemLocation(0, 0);
    var gs0 := [Group(start, b.create(start))];
    assert StartSet(gs0) == {start} by {
      assert gs0[0].start == start;
    }
    AddSystemBarlinesStarts(b, gs0, score.systems);
  }

  // ---------------------------------------------------------------------------
  // Performing a musical direction
  // ---------------------------------------------------------------------------

  predicate IsDaCapoFamily(t: bv8) {
    t == DA_CAPO || t == DA_CAPO_AL_CODA || t == DA_CAPO_AL_DOUBLE_CODA || t == DA_CAPO_AL_FINE
  }

  predicate IsDalSegnoFamily(t: bv8) {
    t == DAL_SEGNO || t == DAL_SEGNO_AL_CODA || t == DAL_SEGNO_AL_DOUBLE_CODA || t == DAL_SEGNO_AL_FINE
  }

  predicate IsDalSegnoSegnoFamily(t: bv8) {
    t == DAL_SEGNO_SEGNO || t == DAL_SEGNO_SEGNO_AL_CODA || t == DAL_SEGNO_SEGNO_AL_DOUBLE_CODA
    || t == DAL_SEGNO_SEGNO_AL_FINE
  }

  /** The symbol a direction jumps to; 0 (Coda) for every type the switch does not name. */
  function NextSymbol(t: bv8): (r: bv8)
    ensures IsDalSegnoFamily(t) ==> r == SEGNO
    ensures IsDalSegnoSegnoFamily(t) ==> r == SEGNO_SEGNO
    ensures t == TO_DOUBLE_CODA ==> r == DOUBLE_CODA
    ensures !IsDalSegnoFamily(t) && !IsDalSegnoSegnoFamily(t) && t != TO_DOUBLE_CODA ==> r == CODA
  {
    if IsDalSegnoFamily(t) then SEGNO
    else if IsDalSegnoSegnoFamily(t) then SEGNO_SEGNO
    else if t == TO_CODA then CODA
    else if t == TO_DOUBLE_CODA then DOUBLE_CODA
    else 0
  }

  /** The location performMusicalDirection returns. */
  function DirectionTarget(score: Score, sls: seq<SymbolLocation>, t: bv8): (r: SystemLocation)
    requires t == FINE ==> |score.systems| > 0
    ensures t == FINE ==> r == SystemLocation(|score.systems| - 1, score.systems[|score.systems| - 1].positionCount)
    ensures IsDaCapoFamily(t) ==> r == SystemLocation(0, 0)
    ensures t != FINE && !IsDaCapoFamily(t) ==>
              (r == SystemLocation(0, 0) && forall i :: 0 <= i < |sls| ==> sls[i].symbolType != NextSymbol(t))
              || exists i :: 0 <= i < |sls| && sls[i] == SymbolLocation(NextSymbol(t), r)
  {
    if t == FINE then
      var last := |score.systems| - 1;
      SystemLocation(last, score.systems[last].positionCount)
    else if IsDaCapoFamily(t) then SystemLocation(0, 0)
    else
      match FindSymbol(sls, NextSymbol(t))
      case Some(l) => l
      case None => SystemLocation(0, 0)
  }

  /** The active symbol after performMusicalDirection; unchanged for Fine, To Coda and To Double Coda. */
  function ActiveSymbolAfter(t: bv8, active: bv8): (r: bv8)
    ensures IsDaCapoFamily(t) ==> r == ACTIVE_DA_CAPO
    ensures IsDalSegnoFamily(t) ==> r == ACTIVE_DAL_SEGNO
    ensures IsDalSegnoSegnoFamily(t) ==> r == ACTIVE_DAL_SEGNO_SEGNO
    ensures !IsDaCapoFamily(t) && !IsDalSegnoFamily(t) && !IsDalSegnoSegnoFamily(t) ==> r == active
  {
    if IsDaCapoFamily(t) then ACTIVE_DA_CAPO
    else if IsDalSegnoFamily(t) then ACTIVE_DAL_SEGNO
    else if IsDalSegnoSegnoFamily(t) then ACTIVE_DAL_SEGNO_SEGNO
    else active
  }

  /** A jump target that was never indexed sends playback to the start of the score. */
  lemma MissingTargetFallsBack(score: Score, sls: seq<SymbolLocation>, t: bv8)
    requires t != FINE && !IsDaCapoFamily(t)
    requires forall i :: 0 <= i < |sls| ==> sls[i].symbolType != NextSymbol(t)
    ensures DirectionTarget(score, sls, t) == SystemLocation(0, 0)
  {
  }

  /** The jump goes to the first indexed occurrence of the target symbol. */
  lemma JumpGoesToFirstOccurrence(score: Score, sls: seq<SymbolLocation>, t: bv8, i: nat)
    requires t != FINE && !IsDaCapoFamily(t)
    requires i < |sls| && sls[i].symbolType == NextSymbol(t)
    requires forall j :: 0 <= j < i ==> sls[j].symbolType != NextSymbol(t)
    ensures DirectionTarget(score, sls, t) == sls[i].location
  {
    var r := FindSymbol(sls, NextSymbol(t));
    assert r.Some?;
    var i' :| 0 <= i' < |sls| && sls[i'] == SymbolLocation(NextSymbol(t), r.value)
              && forall j :: 0 <= j < i' ==> sls[j].symbolType != NextSymbol(t);
    assert i' == i;
  }

  // ---------------------------------------------------------------------------
  // The controller
  // ---------------------------------------------------------------------------

  class RepeatController<R> {
    const score: Score
    const behaviour: RepeatBehaviour<R>
    /** The ordered map of repeat groups, keyed by start location. */
    var repeats: seq<Group<R>>
    /** The multimap of direction symbols, keyed by location. */
    var directions: seq<DirectionEntry>
    /** The multimap from symbol type to location. */
    var symbolLocations: seq<SymbolLocation>
    var activeSymbol: bv8

    ghost predicate Valid()
      reads this
    {
      && GroupsSorted(repeats) && |repeats| > 0 && repeats[0].start == SystemLocation(0, 0)
      && EntriesSorted(directions) && EntriesWithin(directions, |score.systems|)
    }

    /** Builds the indexes of the score; no symbol is active. */
    constructor (score: Score, behaviour: RepeatBehaviour<R>)
      ensures Valid()
      ensures this.score == score && this.behaviour == behaviour
      ensures activeSymbol == ACTIVE_NONE
      ensures repeats == IndexedRepeats(behaviour, score)
      ensures directions == InsertAll([], ScoreDirectionEntries(score.systems))
      ensures symbolLocations == ScoreSymbolEntries(score.systems)
    {
      this.score := score;
      this.behaviour := behaviour;
      activeSymbol := ACTIVE_NONE;
      repeats := [];
      directions := [];
      symbolLocations := [];
      new;
      IndexRepeats();
    }

    /** indexRepeats: scans every barline and every direction of every system, then
        every alternate ending. */
    method IndexRepeats()
      requires repeats == [] && directions == [] && symbolLocations == []
      modifies this`repeats, this`directions, this`symbolLocations
      ensures Valid()
      ensures repeats == IndexedRepeats(behaviour, score)
      ensures directions == InsertAll([], ScoreDirectionEntries(score.systems))
      ensures symbolLocations == ScoreSymbolEntries(score.systems)
    {
      var scoreStartLocation := SystemLocation(0, 0);
      repeats := AssignGroup(repeats, scoreStartLocation, behaviour.create(scoreStartLocation));
      assert repeats == [Group(scoreStartLocation, behaviour.create(scoreStartLocation))];
      ghost var repeats0 := repeats;

      var currentSystemIndex := 0;
      while currentSystemIndex < |score.systems|
        invariant 0 <= currentSystemIndex <= |score.systems|
        invariant repeats == AddSystemBarlines(behaviour, repeats0, score.systems[..currentSystemIndex])
        invariant directions == InsertAll([], ScoreDirectionEntries(score.systems[..currentSystemIndex]))
        invariant symbolLocations == ScoreSymbolEntries(score.systems[..currentSystemIndex])
      {
        var system := score.systems[currentSystemIndex];
        IndexBarlines(currentSystemIndex, system.barlines);
        AddSystemBarlinesSnoc(behaviour, repeats0, score.systems, currentSystemIndex);
        ghost var entriesBefore := ScoreDirectionEntries(score.systems[..currentSystemIndex]);
        IndexDirections(currentSystemIndex, system);
        InsertAllConcat([], entriesBefore, SystemDirectionEntries(currentSystemIndex, system.directions));
        ScoreEntriesSnoc(score.systems, currentSystemIndex);
        currentSystemIndex := currentSystemIndex + 1;
      }
      assert score.systems[..currentSystemIndex] == score.systems;
      IndexAlternateEndings();
    }

    /** The barline loop of indexRepeats for one system. */
    method IndexBarlines(systemIndex: nat, barlines: seq<Barline>)
      requires GroupsSorted(repeats) && |repeats| > 0 && repeats[0].start == SystemLocation(0, 0)
      modifies this`repeats
      ensures repeats == AddBarlines(behaviour, old(repeats), systemIndex, barlines)
    {
      ghost var before := repeats;
      var i := 0;
      while i < |barlines|
        invariant 0 <= i <= |barlines|
        invariant repeats == AddBarlines(behaviour, before, systemIndex, barlines[..i])
      {
        var currentBar := barlines[i];
        AddBarlinesSnoc(behaviour, before, systemIndex, barlines, i);
        if currentBar.isRepeatStart {
          var location := SystemLocation(systemIndex, currentBar.position);
          repeats := AssignGroup(repeats, location, behaviour.create(location));
        } else if currentBar.isRepeatEnd {
          var last := repeats[|repeats| - 1];
          repeats := repeats[|repeats| - 1 := Group(last.start,
            behaviour.addRepeatEnd(last.repeat, SystemLocation(systemIndex, currentBar.position),
                                   currentBar.repeatCount))];
        }
        i := i + 1;
      }
      assert barlines[..i] == barlines;
    }

    /** The alternate-ending loop of indexRepeats. */
    method IndexAlternateEndings()
      requires GroupsSorted(repeats) && |repeats| > 0 && repeats[0].start == SystemLocation(0, 0)
      modifies this`repeats
      ensures repeats == AddAlternateEndings(behaviour, old(repeats), score.alternateEndings)
    {
      ghost var before := repeats;
      var i := 0;
      while i < |score.alternateEndings|
        invariant 0 <= i <= |score.alternateEndings|
        invariant repeats == AddAlternateEndings(behaviour, before, score.alternateEndings[..i])
      {
        var altEnding := score.alternateEndings[i];
        var altEndingLocation := SystemLocation(altEnding.system, altEnding.position);
        AddAlternateEndingsSnoc(behaviour, before, score.alternateEndings, i);
        var active := PreviousRepeatGroup(repeats, altEndingLocation);
        repeats := repeats[active := Group(repeats[active].start,
                                           behaviour.addAlternateEnding(repeats[active].repeat, altEnding))];
        i := i + 1;
      }
      assert score.alternateEndings[..i] == score.alternateEndings;
    }

    /** indexDirections: for every direction of the system, one entry per symbol it holds,
        each a copy of symbol 0, in both multimaps. */
    method IndexDirections(systemIndex: nat, system: System)
      requires EntriesSorted(directions)
      modifies this`directions, this`symbolLocations
      ensures directions == InsertAll(old(directions), SystemDirectionEntries(systemIndex, system.directions))
      ensures symbolLocations == old(symbolLocations) + SystemSymbolEntries(systemIndex, system.directions)
    {
      ghost var ds0, sls0 := directions, symbolLocations;
      var dirs := system.directions;
      var i := 0;
      while i < |dirs|
        invariant 0 <= i <= |dirs|
        invariant directions == InsertAll(ds0, SystemDirectionEntries(systemIndex, dirs[..i]))
        invariant symbolLocations == sls0 + SystemSymbolEntries(systemIndex, dirs[..i])
      {
        IndexDirectionSymbols(systemIndex, dirs[i]);
        IndexDirectionsStep(ds0, sls0, systemIndex, dirs, i);
        i := i + 1;
      }
      assert dirs[..i] == dirs;
    }

    /** The inner loop of indexDirections: one entry per symbol of the direction, each
        a copy of symbol 0, in both multimaps. */
    method IndexDirectionSymbols(systemIndex: nat, direction: DirectionValue)
      requires EntriesSorted(directions)
      modifies this`directions, this`symbolLocations
      ensures directions == InsertAll(old(directions), DirectionCopies(systemIndex, direction))
      ensures symbolLocations == old(symbolLocations) + SymbolCopies(systemIndex, direction)
    {
      ghost var ds0, sls0 := directions, symbolLocations;
      ghost var copies := DirectionCopies(systemIndex, direction);
      ghost var symbolCopies := SymbolCopies(systemIndex, direction);
      var dirNum := 0;
      assert copies[..0] == [];
      assert sls0 + symbolCopies[..0] == sls0;
      while dirNum < |direction.symbols|
        invariant 0 <= dirNum <= |direction.symbols|
        invariant directions == InsertAll(ds0, copies[..dirNum])
        invariant symbolLocations == sls0 + symbolCopies[..dirNum]
      {
        IndexSymbolCopy(ds0, sls0, systemIndex, direction, dirNum);
        dirNum := dirNum + 1;
      }
      assert copies[..dirNum] == copies;
      assert symbolCopies[..dirNum] == symbolCopies;
    }

    /** One pass of the inner loop of indexDirections: symbol 0 of the direction, entered
        once more in both multimaps. */
    method IndexSymbolCopy(ghost ds0: seq<DirectionEntry>, ghost sls0: seq<SymbolLocation>,
                           systemIndex: nat, direction: DirectionValue, dirNum: nat)
      requires EntriesSorted(ds0) && dirNum < |direction.symbols|
      requires directions == InsertAll(ds0, DirectionCopies(systemIndex, direction)[..dirNum])
      requires symbolLocations == sls0 + SymbolCopies(systemIndex, direction)[..dirNum]
      modifies this`directions, this`symbolLocations
      ensures directions == InsertAll(ds0, DirectionCopies(systemIndex, direction)[..dirNum + 1])
      ensures symbolLocations == sls0 + SymbolCopies(systemIndex, direction)[..dirNum + 1]
    {
      ghost var copies := DirectionCopies(systemIndex, direction);
      ghost var symbolCopies := SymbolCopies(systemIndex, direction);
      var location := SystemLocation(systemIndex, direction.position);
      var index := 0;
      var fields := SymbolAt(direction.symbols, index).value;
      var symbol := DirectionSymbol(fields.symbolType, fields.activeSymbol, fields.repeatNumber);
      assert DirectionEntry(location, symbol) == copies[dirNum];
      assert SymbolLocation(fields.symbolType, location) == symbolCopies[dirNum];
      IndexSymbolStep(ds0, sls0, copies, symbolCopies, dirNum);
      directions := InsertDirection(directions, DirectionEntry(location, symbol));
      symbolLocations := symbolLocations + [SymbolLocation(fields.symbolType, location)];
    }

    /** performMusicalDirection: the location the direction sends playback to; the D.C.,
        D.S. and D.S.S. families also set the active symbol. */
    method PerformMusicalDirection(directionType: bv8) returns (r: SystemLocation)
      requires directionType == FINE ==> |score.systems| > 0
      modifies this`activeSymbol
      ensures r == DirectionTarget(score, symbolLocations, directionType)
      ensures activeSymbol == ActiveSymbolAfter(directionType, old(activeSymbol))
    {
      if directionType == FINE {
        var lastSystemIndex := |score.systems| - 1;
        return SystemLocation(lastSystemIndex, score.systems[lastSystemIndex].positionCount);
      }
      var nextSymbol: bv8 := 0;
      if IsDaCapoFamily(directionType) {
        activeSymbol := ACTIVE_DA_CAPO;
        return SystemLocation(0, 0);
      } else if IsDalSegnoFamily(directionType) {
        activeSymbol := ACTIVE_DAL_SEGNO;
        nextSymbol := SEGNO;
      } else if IsDalSegnoSegnoFamily(directionType) {
        activeSymbol := ACTIVE_DAL_SEGNO_SEGNO;
        nextSymbol := SEGNO_SEGNO;
      } else if directionType == TO_CODA {
        nextSymbol := CODA;
      } else if directionType == TO_DOUBLE_CODA {
        nextSymbol := DOUBLE_CODA;
      }
      var symbolLocation := FindSymbol(symbolLocations, nextSymbol);
      if symbolLocation.Some? {
        r := symbolLocation.value;
      } else {
        // the score lacks the target symbol: fall back to the start of the score
        r := SystemLocation(0, 0);
      }
    }

    /** checkForRepeat: consults the first direction at or after the location and, if no
        direction moved playback, the active repeat group.  `moved` tells whether playback
        must continue at `newLocation` instead of the current location. */
    method CheckForRepeat(currentSystem: nat, currentPos: nat) returns (moved: bool, newLocation: SystemLocation)
      requires Valid()
      modifies this`repeats, this`directions, this`activeSymbol
      ensures Valid()
      ensures var cur := SystemLocation(currentSystem, currentPos);
              var gi := PreviousRepeatGroup(old(repeats), cur);
              var group := old(repeats)[gi];
              var k := EntryLowerBound(old(directions), cur);
              var fires := k < |old(directions)|
                           && behaviour.shouldPerformDirection(old(directions)[k].symbol, old(activeSymbol),
                                                               behaviour.activeRepeat(group.repeat));
              var target := if fires then DirectionTarget(score, symbolLocations, old(directions)[k].symbol.symbolType)
                            else cur;
              var jumped := fires && target != cur;
              && activeSymbol == (if fires then ActiveSymbolAfter(old(directions)[k].symbol.symbolType, old(activeSymbol))
                                  else old(activeSymbol))
              && directions == (if jumped then RemoveEntry(old(directions), k) else old(directions))
              && (jumped ==> newLocation == target
                             && repeats == old(repeats)[gi := Group(group.start, behaviour.reset(group.repeat))])
              && (!jumped ==> newLocation == behaviour.performRepeat(group.repeat, cur).1
                              && repeats == old(repeats)[gi := Group(group.start, behaviour.performRepeat(group.repeat, cur).0)])
              && (moved <==> newLocation != cur)
    {
      var currentLocation := SystemLocation(currentSystem, currentPos);
      var activeRepeat := PreviousRepeatGroup(repeats, currentLocation);
      var fires;
      fires, newLocation := PerformDirectionAt(currentLocation, activeRepeat);

      if newLocation == currentLocation {
        var group := repeats[activeRepeat];
        var step := behaviour.performRepeat(group.repeat, currentLocation);
        ReplaceGroupAt(repeats, activeRepeat, step.0);
        repeats := repeats[activeRepeat := Group(group.start, step.0)];
        newLocation := step.1;
      }

      moved := newLocation != currentLocation;
    }

    /** The direction half of checkForRepeat: the first direction at or after the location
        is performed when the behaviour says so; if it moves playback, the direction is
        consumed and the active group's repeat count starts over. */
    method PerformDirectionAt(cur: SystemLocation, gi: nat) returns (fires: bool, target: SystemLocation)
      requires Valid() && gi < |repeats|
      modifies this`repeats, this`directions, this`activeSymbol
      ensures Valid()
      ensures var k := EntryLowerBound(old(directions), cur);
              var group := old(repeats)[gi];
              && fires == (k < |old(directions)|
                           && behaviour.shouldPerformDirection(old(directions)[k].symbol, old(activeSymbol),
                                                               behaviour.activeRepeat(group.repeat)))
              && target == (if fires then DirectionTarget(score, symbolLocations, old(directions)[k].symbol.symbolType)
                            else cur)
              && activeSymbol == (if fires then ActiveSymbolAfter(old(directions)[k].symbol.symbolType, old(activeSymbol))
                                  else old(activeSymbol))
              && directions == (if fires && target != cur then RemoveEntry(old(directions), k) else old(directions))
              && repeats == (if fires && target != cur
                             then old(repeats)[gi := Group(group.start, behaviour.reset(group.repeat))]
                             else old(repeats))
    {
      target := cur;
      fires := false;
      var first := EntryLowerBound(directions, cur);
      if first < |directions| {
        var direction := directions[first].symbol;
        if behaviour.shouldPerformDirection(direction, activeSymbol, behaviour.activeRepeat(repeats[gi].repeat)) {
          fires := true;
          target := PerformMusicalDirection(direction.symbolType);
          if target != cur {
            directions := RemoveEntry(directions, first);
            var group := repeats[gi];
            ReplaceGroupAt(repeats, gi, behaviour.reset(group.repeat));
            repeats := repeats[gi := Group(group.start, behaviour.reset(group.repeat))];
          }
        }
      }
    }
  }
}
