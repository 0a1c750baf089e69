/**
 * The deterministic starting context (`claim_investigation.py`) and the grounding gate (`claim_investigator.py`): which
 * interfaces a claim may name, whatever the model says.
 */
module Grounding {
  import opened Prelude
  import opened Symbols
  import opened Relevance
  import opened Priority
  import opened Toolbox
  import opened Investigator

  // --- Identities as text --------------------------------------------------------------------------

  function Text(id: Identity): string { id.0 + "::" + id.1 }

  /**
   * Maps and sets keyed by `path::qualified_name` are modelled by the pair itself. Whatever path and name `a` a model
   * makes up, its text is that of an indexed symbol `b`, whose dotted name has no colon, only if it is `b` or its name
   * has one; and a name with a colon is not a valid query.
   */
  lemma TextIdentifies(a: Identity, b: Identity)
    requires ':' !in b.1
    ensures Text(a) == Text(b) && ':' !in a.1 <==> a == b
  {
    if Text(a) == Text(b) && ':' !in a.1 {
      if |a.1| < |b.1| {
        TextShorter(a, b);
      } else if |b.1| < |a.1| {
        TextShorter(b, a);
      } else {
        assert Text(a)[|a.0| + 2..] == a.1 && Text(b)[|b.0| + 2..] == b.1;
        assert Text(a)[..|a.0|] == a.0 && Text(b)[..|b.0|] == b.0;
      }
    }
  }

  lemma TextShorter(a: Identity, b: Identity)
    requires Text(a) == Text(b) && ':' !in b.1
    ensures |a.1| >= |b.1|
  {
    assert Text(a)[|a.0| + 1] == ':';
    forall q | |b.0| + 2 <= q < |Text(b)| ensures Text(b)[q] != ':' {
      assert Text(b)[q] == b.1[q - |b.0| - 2];
    }
  }

  // --- HEAD callers (`find_callers`) ---------------------------------------------------------------

  function Leaf(query: string): string
    ensures Leaf(query) == query || EndsWith(query, "." + Leaf(query))
  {
    if '.' !in query then query
    else
      var i := |BeforeLastDot(query).value|;
      assert query == BeforeLastDot(query).value + "." + query[i + 1..] by { SplitAtLastDot(query); }
      query[i + 1..]
  }

  lemma {:induction false} SplitAtLastDot(s: string)
    requires '.' in s
    ensures BeforeLastDot(s).Some?
    ensures |BeforeLastDot(s).value| < |s|
    ensures s == BeforeLastDot(s).value + "." + s[|BeforeLastDot(s).value| + 1..]
  {
    if s[|s| - 1] != '.' {
      var front := s[..|s| - 1];
      assert '.' in front;
      SplitAtLastDot(front);
      assert s == front + [s[|s| - 1]];
    }
  }

  /** The rank of a call that may target the queried symbol: by import alias, by exact syntax, by leaf name. */
  function CallRank(r: Reference, query: string): Option<nat> {
    if !r.isCall then None
    else if r.expansion.Some? && (r.expansion.value == query || EndsWith(r.expansion.value, "." + query)) then Some(0)
    else if r.expression == query then Some(1)
    else if r.name == Leaf(query) then Some(2)
    else None
  }

  type Ranked = (nat, Reference)

  /** Rank, then path, then line, then match type (`POSSIBLE_ATTRIBUTE_CALL` sorts before `POSSIBLE_NAME_CALL`). */
  predicate RankedBefore(a: Ranked, b: Ranked) {
    var dotted := (x: Ranked) => '.' in x.1.expression;
    || a.0 < b.0
    || (a.0 == b.0 && (|| StrLess(a.1.path, b.1.path)
                       || (a.1.path == b.1.path && (|| a.1.start < b.1.start
                                                    || (a.1.start == b.1.start && a.0 > 0
                                                        && dotted(a) && !dotted(b))))))
  }

  lemma RankedOrder(a: Ranked, b: Ranked, c: Ranked)
    ensures RankedBefore(a, b) ==> !RankedBefore(b, a)
    ensures !RankedBefore(a, b) && !RankedBefore(b, c) ==> !RankedBefore(a, c)
  {
    IdOrder((a.1.path, ""), (b.1.path, ""), (c.1.path, ""));
    IdOrder((c.1.path, ""), (b.1.path, ""), (a.1.path, ""));
    IdOrder((b.1.path, ""), (a.1.path, ""), (c.1.path, ""));
    IdOrder((b.1.path, ""), (c.1.path, ""), (a.1.path, ""));
    IdOrder((a.1.path, ""), (c.1.path, ""), (b.1.path, ""));
  }

  lemma RankedIsKeyOrder()
    ensures KeyOrder(RankedBefore)
  {
    forall a, b, c
      ensures RankedBefore(a, b) ==> !RankedBefore(b, a)
      ensures !RankedBefore(a, b) && !RankedBefore(b, c) ==> !RankedBefore(a, c)
    {
      RankedOrder(a, b, c);
    }
  }

  datatype Location = Location(path: string, start: nat, end: nat, column: nat, expression: string,
      expansion: Option<string>)

  function LocationOf(r: Reference): Location {
    Location(r.path, r.start, r.end, r.column, r.expression, r.expansion)
  }

  ghost predicate SeenAt(ranked: seq<Ranked>, k: Location) { exists x :: x in ranked && LocationOf(x.1) == k }

  ghost predicate CoveredBy(rs: seq<Reference>, k: Location) { exists x :: x in rs && LocationOf(x) == k }

  lemma SeenMore(ranked: seq<Ranked>, x: Ranked, k: Location)
    ensures SeenAt(ranked + [x], k) <==> SeenAt(ranked, k) || LocationOf(x.1) == k
  {
    assert forall y :: y in ranked + [x] <==> y in ranked || y == x;
  }

  method RankCalls(head: Index, query: string) returns (ranked: seq<Ranked>)
    ensures forall x | x in ranked :: x.1 in head.references && CallRank(x.1, query) == Some(x.0)
    ensures forall r | r in head.references && CallRank(r, query).Some? :: SeenAt(ranked, LocationOf(r))
    ensures forall i, j | 0 <= i < j < |ranked| :: LocationOf(ranked[i].1) != LocationOf(ranked[j].1)
  {
    ranked := [];
    var locations: set<Location> := {};
    for i := 0 to |head.references|
      invariant forall x | x in ranked :: x.1 in head.references && CallRank(x.1, query) == Some(x.0)
      invariant forall k :: k in locations <==> SeenAt(ranked, k)
      invariant forall j | 0 <= j < i && CallRank(head.references[j], query).Some? ::
                  LocationOf(head.references[j]) in locations
      invariant forall a, b | 0 <= a < b < |ranked| :: LocationOf(ranked[a].1) != LocationOf(ranked[b].1)
    {
      var r := head.references[i];
      var rank := CallRank(r, query);
      if rank.Some? && LocationOf(r) !in locations {
        ghost var before := ranked;
        assert forall a | 0 <= a < |before| :: SeenAt(before, LocationOf(before[a].1));
        locations := locations + {LocationOf(r)};
        ranked := ranked + [(rank.value, r)];
        forall k ensures k in locations <==> SeenAt(ranked, k) {
          SeenMore(before, (rank.value, r), k);
        }
      }
    }
  }

  /** Where HEAD has calls that may target the query. */
  ghost function CallLocations(head: Index, query: string): set<Location> {
    set r | r in head.references && CallRank(r, query).Some? :: LocationOf(r)
  }

  lemma NoMoreThanLocations(head: Index, query: string, ranked: seq<Ranked>)
    requires forall x | x in ranked :: x.1 in head.references && CallRank(x.1, query) == Some(x.0)
    requires forall i, j | 0 <= i < j < |ranked| :: LocationOf(ranked[i].1) != LocationOf(ranked[j].1)
    ensures |ranked| <= |CallLocations(head, query)|
  {
    var locations := seq(|ranked|, i requires 0 <= i < |ranked| => LocationOf(ranked[i].1));
    DistinctCardinality(locations);
    assert Elements(locations) <= CallLocations(head, query) by {
      forall k | k in Elements(locations) ensures k in CallLocations(head, query) {
        var i :| 0 <= i < |locations| && locations[i] == k;
        assert ranked[i] in ranked;
      }
    }
    SubsetSize(Elements(locations), CallLocations(head, query));
  }

  /** The call sorts no earlier than any of `callers`. */
  ghost predicate NoBetter(query: string, r: Reference, callers: seq<Reference>) {
    && CallRank(r, query).Some?
    && forall k | k in callers && CallRank(k, query).Some? ::
         !RankedBefore((CallRank(r, query).value, r), (CallRank(k, query).value, k))
  }

  /**
   * The call's location is returned, or the call seen first at that location sorts no earlier than what is returned.
   */
  ghost predicate KeptOrNoBetter(head: Index, query: string, r: Reference, callers: seq<Reference>) {
    || CoveredBy(callers, LocationOf(r))
    || exists x :: x in head.references && LocationOf(x) == LocationOf(r) && NoBetter(query, x, callers)
  }

  /**
   * At most `maximum` matching calls, best first: a location is left out only when `maximum` are returned, and never
   * for a call that sorts later.
   */
  method FindCallers(head: Index, query: string, maximum: nat) returns (callers: seq<Reference>)
    ensures |callers| <= maximum
    ensures forall r | r in callers :: r in head.references && CallRank(r, query).Some?
    ensures |callers| < maximum ==>
              forall r | r in head.references && CallRank(r, query).Some? :: CoveredBy(callers, LocationOf(r))
    ensures forall r | r in head.references && CallRank(r, query).Some? :: KeptOrNoBetter(head, query, r, callers)
    ensures |CallLocations(head, query)| < maximum ==> |callers| < maximum
  {
    var sorted := SortCalls(head, query);
    var kept := if maximum < |sorted| then sorted[..maximum] else sorted;
    callers := seq(|kept|, i requires 0 <= i < |kept| => kept[i].1);
    assert forall i | 0 <= i < |callers| :: kept[i] in sorted && callers[i] == kept[i].1;
    CallersAreBest(head, query, sorted, kept, callers);
  }

  /** The matching calls, one for each location, best first. */
  method SortCalls(head: Index, query: string) returns (sorted: seq<Ranked>)
    ensures InOrder(RankedBefore, sorted)
    ensures forall x | x in sorted :: x.1 in head.references && CallRank(x.1, query) == Some(x.0)
    ensures forall r | r in head.references && CallRank(r, query).Some? :: SeenAt(sorted, LocationOf(r))
    ensures |sorted| <= |CallLocations(head, query)|
  {
    var ranked := RankCalls(head, query);
    NoMoreThanLocations(head, query, ranked);
    sorted := StableSort(RankedBefore, ranked);
    SortKeepsCalls(head, query, ranked, sorted);
    RankedIsKeyOrder();
    StableSortSorts(RankedBefore, ranked);
  }

  lemma SortKeepsCalls(head: Index, query: string, ranked: seq<Ranked>, sorted: seq<Ranked>)
    requires sorted == StableSort(RankedBefore, ranked)
    ensures |sorted| == |ranked| && forall x :: x in sorted <==> x in ranked
    ensures forall k :: SeenAt(sorted, k) <==> SeenAt(ranked, k)
  {
    StableSortMembers(RankedBefore, ranked);
    assert |multiset(sorted)| == |sorted| && |multiset(ranked)| == |ranked|;
  }

  lemma CallersAreBest(head: Index, query: string, sorted: seq<Ranked>, kept: seq<Ranked>, callers: seq<Reference>)
    requires InOrder(RankedBefore, sorted) && kept <= sorted
    requires forall x | x in sorted :: x.1 in head.references && CallRank(x.1, query) == Some(x.0)
    requires forall r | r in head.references && CallRank(r, query).Some? :: SeenAt(sorted, LocationOf(r))
    requires |callers| == |kept| && forall i | 0 <= i < |kept| :: callers[i] == kept[i].1
    ensures forall r | r in head.references && CallRank(r, query).Some? :: KeptOrNoBetter(head, query, r, callers)
    ensures |kept| == |sorted| ==>
              forall r | r in head.references && CallRank(r, query).Some? :: CoveredBy(callers, LocationOf(r))
  {
    forall r | r in head.references && CallRank(r, query).Some?
      ensures KeptOrNoBetter(head, query, r, callers)
      ensures |kept| == |sorted| ==> CoveredBy(callers, LocationOf(r))
    {
      var x :| x in sorted && LocationOf(x.1) == LocationOf(r);
      CutKeepsBest(sorted, kept, callers, query, x);
    }
  }

  /** A sorted list cut short leaves out nothing that sorts before what it keeps. */
  lemma CutKeepsBest(sorted: seq<Ranked>, kept: seq<Ranked>, callers: seq<Reference>, query: string, x: Ranked)
    requires InOrder(RankedBefore, sorted) && kept <= sorted && x in sorted
    requires forall y | y in sorted :: CallRank(y.1, query) == Some(y.0)
    requires |callers| == |kept| && forall i | 0 <= i < |kept| :: callers[i] == kept[i].1
    ensures CoveredBy(callers, LocationOf(x.1)) || (|kept| < |sorted| && NoBetter(query, x.1, callers))
  {
    var j :| 0 <= j < |sorted| && sorted[j] == x;
    if j < |kept| {
      assert callers[j] == x.1;
    } else {
      forall k | k in callers && CallRank(k, query).Some?
        ensures !RankedBefore((CallRank(x.1, query).value, x.1), (CallRank(k, query).value, k))
      {
        var i :| 0 <= i < |callers| && callers[i] == k;
        assert kept[i] == sorted[i] && sorted[i] in sorted;
      }
    }
  }

  /** `id` encloses a HEAD call that may target `target`, and is not `target` itself. */
  ghost predicate Calls(head: Index, id: Identity, target: Symbol) {
    exists r :: r in head.references && CallRank(r, target.name).Some? && (r.path, r.scope) == id
                && r.scope != "<module>" && id != IdOf(target)
  }

  /** Calls at one place of a file are in one scope. */
  ghost predicate OneScopePerLocation(head: Index) {
    forall r, s | r in head.references && s in head.references && LocationOf(r) == LocationOf(s) :: r.scope == s.scope
  }

  /** The enclosing symbols of HEAD calls that may target the symbol: all of them, unless there are `maximum` places. */
  method CallersOf(head: Index, target: Symbol, maximum: nat) returns (ids: set<Identity>)
    ensures forall id | id in ids :: Calls(head, id, target)
    ensures OneScopePerLocation(head) && |CallLocations(head, target.name)| < maximum ==>
              forall id | Calls(head, id, target) :: id in ids
  {
    var refs := FindCallers(head, target.name, maximum);
    ids := Enclosing(head, target, refs);
    if OneScopePerLocation(head) && |CallLocations(head, target.name)| < maximum {
      forall id | Calls(head, id, target) ensures id in ids {
        AllCallersFound(head, target, refs, ids, id);
      }
    }
  }

  /** The identities of the symbols that enclose the calls, without modules and the symbol itself. */
  method Enclosing(head: Index, target: Symbol, refs: seq<Reference>) returns (ids: set<Identity>)
    requires forall r | r in refs :: r in head.references && CallRank(r, target.name).Some?
    ensures forall id | id in ids :: Calls(head, id, target)
    ensures forall j | 0 <= j < |refs| && refs[j].scope != "<module>"
        && (refs[j].path, refs[j].scope) != IdOf(target) ::
              (refs[j].path, refs[j].scope) in ids
  {
    ids := {};
    for i := 0 to |refs|
      invariant forall id | id in ids :: Calls(head, id, target)
      invariant forall j | 0 <= j < i && refs[j].scope != "<module>" && (refs[j].path, refs[j].scope) != IdOf(target) ::
                  (refs[j].path, refs[j].scope) in ids
    {
      var r := refs[i];
      if r.scope != "<module>" && !(r.path == target.path && r.scope == target.name) {
        assert r in refs;
        ids := ids + {(r.path, r.scope)};
      }
    }
  }

  lemma AllCallersFound(head: Index, target: Symbol, refs: seq<Reference>, ids: set<Identity>, id: Identity)
    requires OneScopePerLocation(head) && Calls(head, id, target)
    requires forall r | r in refs :: r in head.references
    requires forall r | r in head.references && CallRank(r, target.name).Some? :: CoveredBy(refs, LocationOf(r))
    requires forall j | 0 <= j < |refs| && refs[j].scope != "<module>"
        && (refs[j].path, refs[j].scope) != IdOf(target) ::
               (refs[j].path, refs[j].scope) in ids
    ensures id in ids
  {
    var r :| r in head.references && CallRank(r, target.name).Some? && (r.path, r.scope) == id
             && r.scope != "<module>" && id != IdOf(target);
    assert CoveredBy(refs, LocationOf(r));
    var x :| x in refs && LocationOf(x) == LocationOf(r);
    var j :| 0 <= j < |refs| && refs[j] == x;
  }

  // --- The starting context ------------------------------------------------------------------------

  datatype Rank = ExportedShared | PublicShared | InternalShared | PrivateShared

  /**
   * `rank_observable`: explicit exclusion from `__all__` demotes, unless the symbol is a member of a visible parent.
   */
  function RankObservable(s: Symbol, parent: Option<Symbol>): Rank {
    if !s.isPublic then PrivateShared
    else
      match s.exported
      case Some(true) => ExportedShared
      case None => PublicShared
      case Some(false) =>
        if parent.Some? && parent.value.isPublic && parent.value.exported != Some(false)
        then PublicShared else InternalShared
  }

  function RankOrder(r: Rank): nat {
    match r case ExportedShared => 0 case PublicShared => 1 case InternalShared => 2 case PrivateShared => 3
  }

  datatype Observable = Observable(id: Identity, rank: Rank, changed: bool, reachesNew: bool, reachesChanged: bool)

  predicate ObservableBefore(a: Observable, b: Observable) {
    || RankOrder(a.rank) < RankOrder(b.rank)
    || (RankOrder(a.rank) == RankOrder(b.rank)
        && (if a.changed != b.changed then a.changed else IdLess(a.id, b.id)))
  }

  lemma ObservableOrder(a: Observable, b: Observable, c: Observable)
    ensures ObservableBefore(a, b) ==> !ObservableBefore(b, a)
    ensures !ObservableBefore(a, b) && !ObservableBefore(b, c) ==> !ObservableBefore(a, c)
  {
    IdOrder(a.id, b.id, c.id);
    IdOrder(c.id, b.id, a.id);
    IdOrder(b.id, a.id, c.id);
    IdOrder(b.id, c.id, a.id);
    IdOrder(a.id, c.id, b.id);
  }

  lemma ObservableIsKeyOrder()
    ensures KeyOrder(ObservableBefore)
  {
    forall a, b, c
      ensures ObservableBefore(a, b) ==> !ObservableBefore(b, a)
      ensures !ObservableBefore(a, b) && !ObservableBefore(b, c) ==> !ObservableBefore(a, c)
    {
      ObservableOrder(a, b, c);
    }
  }

  /** The comparison changed or is within the closure, so the planner should offer it. */
  predicate Qualifies(c: Comparison, relevant: set<Identity>) {
    c.presence == PresentOnBoth && c.head.Some? && (c.changed == Some(true) || c.id in relevant)
  }

  /** Or a traced caller of a HEAD-only symbol. */
  predicate Affected(c: Comparison, relevant: set<Identity>, reaching: set<Identity>) {
    Qualifies(c, relevant) || (c.presence == PresentOnBoth && c.head.Some? && c.id in reaching)
  }

  /** The observable for a shared comparison, as far as sorting looks at it. */
  function Offer(head: Index, c: Comparison): Observable
    requires c.head.Some?
  {
    var h := c.head.value;
    var parent := if h.parent.Some? then Find(head.symbols, (h.path, h.parent.value)) else None;
    Observable(c.id, RankObservable(h, parent), c.changed == Some(true), false, false)
  }

  predicate SortsLike(a: Observable, b: Observable) { a.id == b.id && a.rank == b.rank && a.changed == b.changed }

  ghost predicate Offered(head: Index, observables: seq<Observable>, c: Comparison) {
    c.head.Some? && exists o :: o in observables && SortsLike(o, Offer(head, c))
  }

  datatype StartingContext = StartingContext(shared: seq<Observable>, newHead: seq<Identity>)

  datatype ContextBudget =
      ContextBudget(maxShared: nat, maxNewHead: nat, maxTraces: nat, maxCallers: nat, maxResults: nat, hops: nat)

  function Find(symbols: seq<Symbol>, id: Identity): Option<Symbol> { Lookup(symbols, None, None, id) }

  ghost predicate InBoth(base: Index, head: Index, id: Identity) {
    Find(base.symbols, id).Some? && Find(head.symbols, id).Some?
  }

  /** Why a shared interface may anchor a claim. */
  ghost predicate Anchored(base: Index, head: Index, cs: seq<Comparison>, hops: nat, id: Identity) {
    || (exists c :: c in cs && c.id == id && c.changed == Some(true))
    || Reaches(cs, head.references, id, hops)
    || (exists c :: c in cs && c.presence == NewOnHead && c.head.Some? && Calls(head, id, c.head.value))
  }

  ghost predicate Grounded(base: Index, head: Index, cs: seq<Comparison>, hops: nat, id: Identity) {
    InBoth(base, head, id) && Anchored(base, head, cs, hops, id)
  }

  function Prefix<T>(s: seq<T>, n: nat): seq<T> { if n < |s| then s[..n] else s }

  /** Every caller of a traced symbol is found, unless the symbol is called from `maximum` places or more. */
  ghost predicate TracedFully(head: Index, traced: seq<Comparison>, reaching: set<Identity>, maximum: nat) {
    OneScopePerLocation(head) ==>
      forall t, id | t in traced && t.head.Some? && |CallLocations(head, t.head.value.name)| < maximum
                     && Calls(head, id, t.head.value) :: id in reaching
  }

  method TraceCallers(head: Index, ghost cs: seq<Comparison>, added: seq<Comparison>, b: ContextBudget)
    returns (reaching: set<Identity>)
    requires forall c | c in added :: c in cs && c.presence == NewOnHead && c.head.Some?
    ensures forall id | id in reaching ::
              exists c :: c in cs && c.presence == NewOnHead && c.head.Some? && Calls(head, id, c.head.value)
    ensures TracedFully(head, Prefix(added, b.maxTraces), reaching, b.maxCallers)
  {
    reaching := {};
    var n := if b.maxTraces < |added| then b.maxTraces else |added|;
    for i := 0 to n
      invariant forall id | id in reaching ::
                  exists c :: c in cs && c.presence == NewOnHead && c.head.Some? && Calls(head, id, c.head.value)
      invariant TracedFully(head, added[..i], reaching, b.maxCallers)
    {
      assert added[..i + 1] == added[..i] + [added[i]];
      var callers := CallersOf(head, added[i].head.value, b.maxCallers);
      assert added[i] in cs;
      reaching := reaching + callers;
    }
  }

  /** `_rank_shared`. */
  method RankShared(base: Index, head: Index, ghost cs: seq<Comparison>, shared: seq<Comparison>,
                    reaching: set<Identity>, relevant: set<Identity>, hops: nat) returns (ranked: seq<Observable>)
    requires ComparesAll(base, head, None, None, cs)
    requires forall c | c in shared :: c in cs && c.presence == PresentOnBoth
    requires forall a :: a in relevant <==> Reaches(cs, head.references, a, hops)
    requires forall id | id in reaching ::
               exists c :: c in cs && c.presence == NewOnHead && c.head.Some? && Calls(head, id, c.head.value)
    ensures forall o | o in ranked :: Grounded(base, head, cs, hops, o.id)
    ensures forall c | c in shared && Affected(c, relevant, reaching) :: Offered(head, ranked, c)
    ensures InOrder(ObservableBefore, ranked)
  {
    var found: seq<Observable> := [];
    for i := 0 to |shared|
      invariant forall o | o in found :: Grounded(base, head, cs, hops, o.id)
      invariant forall j | 0 <= j < i && Affected(shared[j], relevant, reaching) :: Offered(head, found, shared[j])
    {
      var c := shared[i];
      assert c in shared && Compared(base, head, None, None, c);
      var h := c.head.value;
      var changed := c.changed == Some(true);
      var reachesNew := c.id in reaching;
      var reachesChanged := c.id in relevant && !changed;
      if changed || reachesNew || reachesChanged {
        assert Grounded(base, head, cs, hops, c.id);
        ghost var before := found;
        var parent := if h.parent.Some? then Find(head.symbols, (h.path, h.parent.value)) else None;
        var o := Observable(c.id, RankObservable(h, parent), changed, reachesNew, reachesChanged);
        found := found + [o];
        assert o in found && SortsLike(o, Offer(head, c));
        forall j | 0 <= j <= i && Affected(shared[j], relevant, reaching) ensures Offered(head, found, shared[j]) {
          if j < i {
            OfferedMore(head, before, o, shared[j]);
          }
        }
      }
    }
    ranked := StableSort(ObservableBefore, found);
    StableSortMembers(ObservableBefore, found);
    ObservableIsKeyOrder();
    StableSortSorts(ObservableBefore, found);
    forall c | c in shared && Affected(c, relevant, reaching) ensures Offered(head, ranked, c) {
      assert Offered(head, found, c);
      var o :| o in found && SortsLike(o, Offer(head, c));
      assert o in ranked;
    }
  }

  lemma OfferedMore(head: Index, observables: seq<Observable>, o: Observable, c: Comparison)
    requires Offered(head, observables, c)
    ensures Offered(head, observables + [o], c)
  {
    var x :| x in observables && SortsLike(x, Offer(head, c));
    assert x in observables + [o];
  }

  /** The comparison is offered, or the offer is full of observables that sort no later. */
  ghost predicate OfferedOrFull(head: Index, shared: seq<Observable>, maximum: nat, c: Comparison) {
    || ContextHasIn(shared, c.id)
    || (|shared| == maximum && c.head.Some? && forall o | o in shared :: !ObservableBefore(Offer(head, c), o))
  }

  lemma CutKeepsOffered(head: Index, ranked: seq<Observable>, shared: seq<Observable>, maximum: nat, c: Comparison)
    requires InOrder(ObservableBefore, ranked) && Offered(head, ranked, c)
    requires shared == Prefix(ranked, maximum)
    ensures OfferedOrFull(head, shared, maximum, c)
  {
    var x :| x in ranked && SortsLike(x, Offer(head, c));
    var j :| 0 <= j < |ranked| && ranked[j] == x;
    if j < |shared| {
      assert shared[j].id == c.id;
    } else {
      forall o | o in shared ensures !ObservableBefore(Offer(head, c), o) {
        var i :| 0 <= i < |shared| && shared[i] == o;
        assert ranked[i] == o && !ObservableBefore(ranked[j], ranked[i]);
      }
    }
  }

  /** The HEAD-only symbols that are listed, and the ones whose callers are traced. */
  function Listed(selected: seq<Comparison>, b: ContextBudget): seq<Comparison> {
    Prefix(OfPresence(selected, NewOnHead), b.maxNewHead)
  }

  /** The comparison calls a traced HEAD-only symbol that is not called from too many places. */
  ghost predicate ReachesTraced(head: Index, selected: seq<Comparison>, b: ContextBudget, c: Comparison) {
    && c.presence == PresentOnBoth && c.head.Some? && OneScopePerLocation(head)
    && exists t :: t in Prefix(Listed(selected, b), b.maxTraces) && t.head.Some?
                   && |CallLocations(head, t.head.value.name)| < b.maxCallers && Calls(head, c.id, t.head.value)
  }

  /**
   * `DeterministicInvestigationPlanner.build`. Every shared observable it offers is grounded, the offer is sorted, and
   * of the comparisons within the result limit every one that changed, is in the closure or calls a traced HEAD-only
   * symbol is offered, unless the offer is full of observables that sort no later. The first HEAD-only symbols are
   * listed.
   */
  method Build(base: Index, head: Index, b: ContextBudget)
    returns (context: StartingContext, relevant: set<Identity>, ghost cs: seq<Comparison>)
    ensures ComparesAll(base, head, None, None, cs)
    ensures forall a :: a in relevant <==> Reaches(cs, head.references, a, b.hops)
    ensures |context.shared| <= b.maxShared && InOrder(ObservableBefore, context.shared)
    ensures forall o | o in context.shared :: Grounded(base, head, cs, b.hops, o.id)
    ensures var selected := Take(Interleaved(cs, relevant), b.maxResults);
            && OffersSelected(head, selected, b, relevant, context.shared)
            && |context.newHead| == |Listed(selected, b)|
            && forall i | 0 <= i < |context.newHead| :: context.newHead[i] == Listed(selected, b)[i].id
  {
    var o: Observables;
    o, relevant, cs := Observe(base, head, b);
    ghost var selected := Take(Interleaved(cs, relevant), b.maxResults);
    var added := Prefix(o.added, b.maxNewHead);
    assert added == Listed(selected, b);
    var reaching := TraceCallers(head, cs, added, b);
    var shared := OfferShared(base, head, b, cs, selected, o, relevant, reaching);
    context := StartingContext(shared, seq(|added|, i requires 0 <= i < |added| => added[i].id));
  }

  /** The best-ranked shared observables. */
  method OfferShared(base: Index, head: Index, b: ContextBudget, ghost cs: seq<Comparison>,
                     ghost selected: seq<Comparison>, o: Observables, relevant: set<Identity>,
                     reaching: set<Identity>) returns (shared: seq<Observable>)
    requires ComparesAll(base, head, None, None, cs)
    requires forall c | c in o.shared :: c in cs && c.presence == PresentOnBoth
    requires forall a :: a in relevant <==> Reaches(cs, head.references, a, b.hops)
    requires forall id | id in reaching ::
               exists c :: c in cs && c.presence == NewOnHead && c.head.Some? && Calls(head, id, c.head.value)
    requires SplitsByPresence(o, selected)
    requires TracedFully(head, Prefix(Listed(selected, b), b.maxTraces), reaching, b.maxCallers)
    ensures |shared| <= b.maxShared && InOrder(ObservableBefore, shared)
    ensures forall x | x in shared :: Grounded(base, head, cs, b.hops, x.id)
    ensures OffersSelected(head, selected, b, relevant, shared)
  {
    var ranked := RankShared(base, head, cs, o.shared, reaching, relevant, b.hops);
    shared := Prefix(ranked, b.maxShared);
    PrefixIsGrounded(base, head, cs, b.hops, ranked, shared);
    SelectedAreOffered(head, o, selected, relevant, reaching, b, ranked, shared);
  }

  /**
   * Every selected comparison that changed, is in the closure or calls a traced HEAD-only symbol is offered, unless the
   * offer is full of observables that sort no later.
   */
  ghost predicate OffersSelected(head: Index, selected: seq<Comparison>, b: ContextBudget, relevant: set<Identity>,
                                 shared: seq<Observable>) {
    forall c | c in selected && (Qualifies(c, relevant) || ReachesTraced(head, selected, b, c)) ::
      OfferedOrFull(head, shared, b.maxShared, c)
  }

  /** The observables the context is built from, and the closure over the complete pair of indexes. */
  method Observe(base: Index, head: Index, b: ContextBudget)
    returns (o: Observables, relevant: set<Identity>, ghost cs: seq<Comparison>)
    ensures ComparesAll(base, head, None, None, cs)
    ensures forall a :: a in relevant <==> Reaches(cs, head.references, a, b.hops)
    ensures SplitsByPresence(o, Take(Interleaved(cs, relevant), b.maxResults))
    ensures InSelectionOrder(o, Take(Interleaved(cs, relevant), b.maxResults))
    ensures forall c | c in o.shared :: c in cs && c.presence == PresentOnBoth
    ensures forall c | c in o.added :: c in cs && c.presence == NewOnHead && c.head.Some?
  {
    var r;
    o, cs, r := CompareObservables(base, head, b.hops, b.maxResults);
    SelectionIsCompared(o, cs, r, b.maxResults);
    AddedAreNew(base, head, cs, o, Take(Interleaved(cs, r), b.maxResults), o.added);
    var all := Comparisons(base, head, None, None);
    SameComparisons(base, head, None, None, cs, all);
    relevant := RelevanceIdentities(all, head.references, b.hops);
    SameSet(relevant, r);
  }

  lemma SameSet<T>(a: set<T>, b: set<T>)
    requires forall x :: x in a <==> x in b
    ensures a == b
  {
  }

  lemma AddedAreNew(base: Index, head: Index, cs: seq<Comparison>, o: Observables, selected: seq<Comparison>,
                    added: seq<Comparison>)
    requires ComparesAll(base, head, None, None, cs) && SplitsByPresence(o, selected) && added <= o.added
    requires forall c | c in o.added :: c in cs
    ensures forall c | c in added :: c in cs && c.presence == NewOnHead && c.head.Some?
  {
    forall c | c in added ensures c in cs && c.presence == NewOnHead && c.head.Some? {
      assert c in o.added;
      assert Compared(base, head, None, None, c);
    }
  }

  lemma PrefixIsGrounded(base: Index, head: Index, cs: seq<Comparison>, hops: nat, ranked: seq<Observable>,
                         shared: seq<Observable>)
    requires shared <= ranked && InOrder(ObservableBefore, ranked)
    requires forall o | o in ranked :: Grounded(base, head, cs, hops, o.id)
    ensures InOrder(ObservableBefore, shared) && forall o | o in shared :: Grounded(base, head, cs, hops, o.id)
  {
    assert forall x | x in shared :: x in ranked;
  }

  lemma SelectedAreOffered(head: Index, o: Observables, selected: seq<Comparison>, relevant: set<Identity>,
                           reaching: set<Identity>, b: ContextBudget, ranked: seq<Observable>, shared: seq<Observable>)
    requires SplitsByPresence(o, selected) && InOrder(ObservableBefore, ranked)
    requires TracedFully(head, Prefix(Listed(selected, b), b.maxTraces), reaching, b.maxCallers)
    requires forall c | c in o.shared && Affected(c, relevant, reaching) :: Offered(head, ranked, c)
    requires shared == Prefix(ranked, b.maxShared)
    ensures OffersSelected(head, selected, b, relevant, shared)
  {
    forall c | c in selected && (Qualifies(c, relevant) || ReachesTraced(head, selected, b, c))
      ensures OfferedOrFull(head, shared, b.maxShared, c)
    {
      SharedIsSelected(o, selected, c);
      assert Affected(c, relevant, reaching);
      CutKeepsOffered(head, ranked, shared, b.maxShared, c);
    }
  }

  lemma SharedIsSelected(o: Observables, selected: seq<Comparison>, c: Comparison)
    requires SplitsByPresence(o, selected) && c in selected && c.presence == PresentOnBoth
    ensures c in o.shared
  {
    assert c in multiset(selected);
    assert c in multiset(o.shared) || c in multiset(o.added) || c in multiset(o.removed);
  }

  lemma SelectionIsCompared(o: Observables, cs: seq<Comparison>, relevant: set<Identity>, limit: nat)
    requires SplitsByPresence(o, Take(Interleaved(cs, relevant), limit))
    ensures forall c | c in o.shared || c in o.added :: c in cs
  {
    InterleavingPermutes(cs, relevant);
    var selected := Take(Interleaved(cs, relevant), limit);
    forall c | c in o.shared || c in o.added ensures c in cs {
      assert c in multiset(o.shared) || c in multiset(o.added);
      assert c in multiset(selected);
      assert c in selected;
      assert c in Interleaved(cs, relevant);
      assert c in multiset(Interleaved(cs, relevant));
    }
  }

  /** The comparison list is determined by the indexes: computing it twice gives the same list. */
  lemma SameComparisons(base: Index, head: Index, path: Option<string>, query: Option<string>, a: seq<Comparison>,
      b: seq<Comparison>)
    requires ComparesAll(base, head, path, query, a) && ComparesAll(base, head, path, query, b)
    ensures a == b
  {
    SameMembers(base, head, path, query, a, b);
    SameMembers(base, head, path, query, b, a);
    SortedUnique(a, b);
  }

  lemma SameMembers(base: Index, head: Index, path: Option<string>, query: Option<string>, a: seq<Comparison>,
      b: seq<Comparison>)
    requires ComparesAll(base, head, path, query, a) && ComparesAll(base, head, path, query, b)
    ensures forall c | c in a :: c in b
  {
    forall c | c in a ensures c in b {
      assert Compared(base, head, path, query, c);
      LookupFinds(base.symbols, path, query, c.id);
      LookupFinds(head.symbols, path, query, c.id);
      var left, right := Lookup(base.symbols, path, query, c.id), Lookup(head.symbols, path, query, c.id);
      var s := if left.Some? then left.value else right.value;
      assert Symbols.Selected(s, path, query) && (s in base.symbols || s in head.symbols) && IdOf(s) == c.id;
      var d :| d in b && d.id == IdOf(s);
      assert Compared(base, head, path, query, d);
    }
  }

  lemma LastAgrees(a: seq<Comparison>, b: seq<Comparison>)
    requires a != [] && b != [] && Sorted(a) && Sorted(b)
    requires forall c :: c in a <==> c in b
    ensures a[|a| - 1] == b[|b| - 1]
  {
    var x, y := a[|a| - 1], b[|b| - 1];
    assert x in a && y in b;
    var m :| 0 <= m < |b| && b[m] == x;
    var n :| 0 <= n < |a| && a[n] == y;
    IdOrder(x.id, y.id, x.id);
  }

  lemma {:induction false} SortedUnique(a: seq<Comparison>, b: seq<Comparison>)
    requires Sorted(a) && Sorted(b)
    requires forall c :: c in a <==> c in b
    ensures a == b
  {
    assert b != [] ==> b[0] in b;
    if a != [] {
      assert a[0] in b;
      LastAgrees(a, b);
      var x, y := a[..|a| - 1], b[..|b| - 1];
      forall c ensures c in x <==> c in y {
        LastIsAlone(a, c);
        LastIsAlone(b, c);
      }
      SortedUnique(x, y);
      assert a == x + [a[|a| - 1]] && b == y + [b[|b| - 1]];
    }
  }

  lemma LastIsAlone(a: seq<Comparison>, c: Comparison)
    requires a != [] && Sorted(a)
    ensures c in a[..|a| - 1] <==> c in a && c != a[|a| - 1]
  {
    if c in a[..|a| - 1] {
      var i :| 0 <= i < |a| - 1 && a[i] == c;
      IdOrder(a[i].id, a[|a| - 1].id, a[i].id);
    }
  }

  // --- The gate ------------------------------------------------------------------------------------

  datatype GateError = HeadOnly | NeverSeen | NotQueryable | NotInIndexes | NotShared | Irrelevant

  predicate ContextHasIn(shared: seq<Observable>, id: Identity) {
    exists i :: 0 <= i < |shared| && shared[i].id == id
  }

  predicate ContextHas(context: StartingContext, id: Identity) { ContextHasIn(context.shared, id) }

  function HeadOnlyIn(context: StartingContext): set<Identity> { set x | x in context.newHead }

  /** The text of `id` is the text of some member; sets of identities are sets of texts in the source. */
  predicate Named(ids: set<Identity>, id: Identity) { exists x :: x in ids && Text(x) == Text(id) }

  /** A bounded dotted identifier; which strings these are is left to `dotted`, but none has a colon. */
  type Dotted = string -> bool

  ghost predicate ColonFree(dotted: Dotted) { forall q :: dotted(q) ==> ':' !in q }

  /** The module of a symbol is a function of its path. */
  ghost predicate OneModulePerPath(base: Index, head: Index) {
    forall s, t | (s in base.symbols || s in head.symbols) && (t in base.symbols || t in head.symbols) ::
      s.path == t.path ==> s.home == t.home
  }

  /**
   * What an interface outside the starting context must satisfy, in terms of the indexes and the tool history alone.
   */
  ghost predicate Admissible(cs: seq<Comparison>, newHead: set<Identity>, relevant: set<Identity>, seen: set<Identity>,
                             dotted: Dotted, id: Identity) {
    && !Named(newHead, id) && Named(seen, id) && dotted(id.1)
    && exists c :: c in cs && c.id == id && Qualifies(c, relevant)
  }

  /**
   * `_normalize` and `_admit_discovered` for a claim that names `id`: it is admitted if and only if the starting
   * context offers it, or a tool returned it and the indexes prove again that it is shared and affected.
   */
  method Admit(base: Index, head: Index, context: StartingContext, relevant: set<Identity>, seen: set<Identity>,
               id: Identity, dotted: Dotted, hops: nat, ghost cs: seq<Comparison>) returns (e: Option<GateError>)
    requires ComparesAll(base, head, None, None, cs)
    requires forall a :: a in relevant <==> Reaches(cs, head.references, a, hops)
    requires forall o | o in context.shared :: Grounded(base, head, cs, hops, o.id)
    ensures e.None? ==> Grounded(base, head, cs, hops, id)
    ensures e.None? ==> ContextHas(context, id) || Admissible(cs, HeadOnlyIn(context), relevant, seen, dotted, id)
    ensures OneModulePerPath(base, head) ==>
              (e.None? <==> ContextHas(context, id) || Admissible(cs, HeadOnlyIn(context), relevant, seen, dotted, id))
  {
    if ContextHas(context, id) {
      assert forall o | o in context.shared :: Grounded(base, head, cs, hops, o.id);
      return None;
    }
    if Named(HeadOnlyIn(context), id) {
      return Some(HeadOnly);
    }
    if !Named(seen, id) {
      return Some(NeverSeen);
    }
    if !dotted(id.1) {
      return Some(NotQueryable);
    }
    var found := Comparisons(base, head, Some(id.0), Some(id.1));
    forall c | c in cs && c.id == id ensures c in found {
      ExactQueryFinds(base, head, cs, found, c);
    }
    if OneModulePerPath(base, head) {
      ExactQueryIsShort(base, head, id, found);
    }
    var bounded := if 4 < |found| then found[..4] else found;
    var i := 0;
    while i < |bounded| && bounded[i].id != id
      invariant 0 <= i <= |bounded|
      invariant forall j | 0 <= j < i :: bounded[j].id != id
    {
      i := i + 1;
    }
    if i == |bounded| {
      return Some(NotInIndexes);
    }
    var c := bounded[i];
    assert c in found;
    ExactQueryAgrees(base, head, cs, c);
    forall d | d in cs && d.id == id ensures d == c {
      assert Compared(base, head, None, None, c) && Compared(base, head, None, None, d);
    }
    if c.presence != PresentOnBoth {
      return Some(NotShared);
    }
    if c.changed != Some(true) && id !in relevant {
      return Some(Irrelevant);
    }
    assert Compared(base, head, None, None, c);
    return None;
  }

  /** Comparing one exact path and name includes the comparison of exactly that symbol. */
  lemma ExactQueryFinds(base: Index, head: Index, cs: seq<Comparison>, found: seq<Comparison>, c: Comparison)
    requires ComparesAll(base, head, None, None, cs) && c in cs
    requires ComparesAll(base, head, Some(c.id.0), Some(c.id.1), found)
    ensures c in found
  {
    assert Compared(base, head, None, None, c);
    LookupFinds(base.symbols, None, None, c.id);
    LookupFinds(head.symbols, None, None, c.id);
    SameLookup(base.symbols, c.id);
    SameLookup(head.symbols, c.id);
    var left, right := Find(base.symbols, c.id), Find(head.symbols, c.id);
    var s := if left.Some? then left.value else right.value;
    assert Symbols.Selected(s, Some(c.id.0), Some(c.id.1));
    var d :| d in found && d.id == IdOf(s);
    assert Compared(base, head, Some(c.id.0), Some(c.id.1), d);
  }

  /** What remains of a query after a module prefix, if it can be one. */
  function AfterModule(home: string, query: string): string {
    if |home| + 1 <= |query| then query[|home| + 1..] else query
  }

  lemma QueryNames(s: Symbol, path: string, query: string)
    requires Symbols.Selected(s, Some(path), Some(query))
    ensures IdOf(s) == (path, query) || IdOf(s) == (path, AfterModule(s.home, query))
  {
    if s.name != query {
      assert query[|s.home| + 1..] == s.name;
    }
  }

  /** An exact query matches at most two symbols of a path: the one of that name, and one after the module's name. */
  lemma ExactQueryIsShort(base: Index, head: Index, id: Identity, found: seq<Comparison>)
    requires OneModulePerPath(base, head) && ComparesAll(base, head, Some(id.0), Some(id.1), found)
    ensures |found| <= 2
  {
    if found != [] {
      var s := SymbolBehind(base, head, id, found, 0);
      var other := (id.0, AfterModule(s.home, id.1));
      var ids := seq(|found|, i requires 0 <= i < |found| => found[i].id);
      forall i | 0 <= i < |found| ensures ids[i] == id || ids[i] == other {
        var t := SymbolBehind(base, head, id, found, i);
        QueryNames(t, id.0, id.1);
      }
      forall i, j | 0 <= i < j < |ids| ensures ids[i] != ids[j] {
        IdOrder(ids[i], ids[j], ids[i]);
      }
      DistinctCardinality(ids);
      assert Elements(ids) <= {id, other};
      SubsetSize(Elements(ids), {id, other});
    }
  }

  lemma SymbolBehind(base: Index, head: Index, id: Identity, found: seq<Comparison>, i: nat) returns (s: Symbol)
    requires ComparesAll(base, head, Some(id.0), Some(id.1), found) && i < |found|
    ensures (s in base.symbols || s in head.symbols) && IdOf(s) == found[i].id
        && Symbols.Selected(s, Some(id.0), Some(id.1))
  {
    var c := found[i];
    assert c in found && Compared(base, head, Some(id.0), Some(id.1), c);
    LookupFinds(base.symbols, Some(id.0), Some(id.1), c.id);
    LookupFinds(head.symbols, Some(id.0), Some(id.1), c.id);
    var left, right := Lookup(base.symbols, Some(id.0), Some(id.1), c.id),
        Lookup(head.symbols, Some(id.0), Some(id.1), c.id);
    s := if left.Some? then left.value else right.value;
  }

  /** Comparing one exact path and name finds the same comparison as comparing everything. */
  lemma ExactQueryAgrees(base: Index, head: Index, cs: seq<Comparison>, c: Comparison)
    requires ComparesAll(base, head, None, None, cs)
    requires Compared(base, head, Some(c.id.0), Some(c.id.1), c)
    ensures c in cs
    ensures c.presence == PresentOnBoth ==> InBoth(base, head, c.id)
  {
    SameLookup(base.symbols, c.id);
    SameLookup(head.symbols, c.id);
    LookupFinds(base.symbols, None, None, c.id);
    LookupFinds(head.symbols, None, None, c.id);
    var left, right := Find(base.symbols, c.id), Find(head.symbols, c.id);
    var s := if left.Some? then left.value else right.value;
    assert Symbols.Selected(s, None, None) && (s in base.symbols || s in head.symbols) && IdOf(s) == c.id;
    var d :| d in cs && d.id == IdOf(s);
    assert Compared(base, head, None, None, d);
  }

  lemma {:induction false} SameLookup(symbols: seq<Symbol>, id: Identity)
    ensures Lookup(symbols, Some(id.0), Some(id.1), id) == Find(symbols, id)
  {
    if symbols != [] {
      SameLookup(symbols[..|symbols| - 1], id);
    }
  }

  datatype Selection = Rejected | Abstained | Chosen(interface: Identity)

  /**
   * A whole claim investigation. For every model, every answer of the tools and every pair of indexes, a selected
   * interface exists on both revisions and is changed, or within the relevance closure, or a traced caller of a
   * HEAD-only symbol; and if the starting context did not offer it, an executed and answered tool call of this run
   * returned it.
   */
  method SelectClaim(base: Index, head: Index, cb: ContextBudget, tb: Budget, model: Model, dotted: Dotted)
    returns (s: Selection, context: StartingContext, relevant: set<Identity>, ghost cs: seq<Comparison>)
    requires BudgetOk(tb) && ColonFree(dotted)
    ensures ComparesAll(base, head, None, None, cs)
    ensures forall a :: a in relevant <==> Reaches(cs, head.references, a, cb.hops)
    ensures s.Chosen? ==> Grounded(base, head, cs, cb.hops, s.interface)
    ensures s.Chosen? && !ContextHas(context, s.interface) ==>
              exists x :: Returned(tb, model, x) && Text(x) == Text(s.interface) && (':' !in x.1 ==> x == s.interface)
    ensures s.Chosen? ==> model(Run(tb, model).modelCalls) == Conclude(Select(s.interface))
    ensures OneModulePerPath(base, head) ==>
              forall id :: s == Chosen(id) <==>
                && model(Run(tb, model).modelCalls) == Conclude(Select(id))
                && (|| ContextHas(context, id)
                    || Admissible(cs, HeadOnlyIn(context), relevant, Run(tb, model).seen, dotted, id))
    ensures s == Abstained <==> model(Run(tb, model).modelCalls) == Conclude(Abstain)
  {
    context, relevant, cs := Build(base, head, cb);
    var ending := RunLoop(tb, model);
    ConcludesWithLastReply(tb, model);
    if ending.result.Failed? {
      return Rejected, context, relevant, cs;
    }
    match ending.result.verdict
    case Abstain =>
      s := Abstained;
    case Select(id) =>
      var refused := Admit(base, head, context, relevant, ending.seen, id, dotted, cb.hops, cs);
      if refused.Some? {
        s := Rejected;
      } else {
        if !ContextHas(context, id) {
          var x :| x in ending.seen && Text(x) == Text(id);
          DiscoveredExactly(tb, model, x);
          if ':' !in x.1 {
            TextIdentifies(id, x);
          }
        }
        s := Chosen(id);
      }
  }

  // --- What the ranks mean ---------------------------------------------------------------------------------

  /** The rank of a call against a dotted query, from what the call and the query look like. */
  lemma CallRankMeans(r: Reference, query: string)
    ensures !r.isCall ==> CallRank(r, query).None?
    ensures CallRank(r, query) == Some(0) <==>
            r.isCall && exists x :: r.expansion == Some(x) && (x == query || exists p: string :: x == p + ("." + query))
    ensures CallRank(r, query) == Some(1) ==> r.isCall && r.expression == query
    ensures r.isCall && r.expression == query ==> CallRank(r, query) in {Some(0), Some(1)}
    ensures CallRank(r, query).Some? ==> CallRank(r, query).value <= 2
  {
    if r.expansion.Some? {
      var x, t := r.expansion.value, "." + query;
      if EndsWith(x, t) {
        assert x == x[..|x| - |t|] + t;
      }
      forall p: string | x == p + t ensures EndsWith(x, t) {
        assert x[|x| - |t|..] == t;
      }
    }
  }

  lemma LeafMeans(p: string, m: string)
    requires '.' !in m
    ensures Leaf(p + "." + m) == m && Leaf(m) == m
  {
    BeforeLastDotIs(p, m);
    assert (p + "." + m)[|p| + 1..] == m;
  }

  /** A call by another expression ranks last exactly if it has the query's last name. */
  lemma LeafCallsRankLast(r: Reference, p: string, m: string)
    requires '.' !in m && r.isCall && CallRank(r, p + "." + m) !in {Some(0), Some(1)}
    ensures CallRank(r, p + "." + m) == Some(2) <==> r.name == m
  {
    LeafMeans(p, m);
  }

  /**
   * Private symbols rank last and symbols in `__all__` first; one that its module's `__all__` leaves out ranks as
   * public only as a member of a public parent that is not itself left out.
   */
  lemma RankMeans(s: Symbol, parent: Option<Symbol>)
    ensures RankObservable(s, parent) == PrivateShared <==> !s.isPublic
    ensures RankObservable(s, parent) == ExportedShared <==> s.isPublic && s.exported == Some(true)
    ensures RankObservable(s, parent) == InternalShared <==>
            && s.isPublic && s.exported == Some(false)
            && !(parent.Some? && parent.value.isPublic && parent.value.exported != Some(false))
    ensures forall t, q :: RankObservable(s, parent) == ExportedShared && RankObservable(t, q) != ExportedShared ==>
              RankOrder(RankObservable(s, parent)) < RankOrder(RankObservable(t, q))
    ensures forall t, q :: RankObservable(s, parent) == PrivateShared && RankObservable(t, q) != PrivateShared ==>
              RankOrder(RankObservable(s, parent)) > RankOrder(RankObservable(t, q))
    ensures forall t, q :: RankObservable(s, parent) == PublicShared && RankObservable(t, q) == InternalShared ==>
              RankOrder(RankObservable(s, parent)) < RankOrder(RankObservable(t, q))
  {
  }
}
