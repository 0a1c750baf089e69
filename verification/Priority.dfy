/**
 * Relevance-first, bounded selection of observables: `_prioritized_observable_comparisons` and `compare_observables`.
 */
module Priority {
  import opened Prelude
  import opened Symbols
  import opened Relevance

  // --- Group order (`_observable_priority_key`) -----------------------------------------------------

  function PublicRank(c: Comparison): nat {
    var s := if c.head.Some? then c.head else c.base;
    if s.None? then 2 else if s.value.isPublic then 0 else 1
  }

  function ExportRank(c: Comparison): nat {
    var s := if c.head.Some? then c.head else c.base;
    if s.Some? && s.value.exported == Some(true) then 0 else 1
  }

  /** Whether `a` sorts strictly before `b`. */
  predicate Before(a: Comparison, b: Comparison) {
    || PublicRank(a) < PublicRank(b)
    || (PublicRank(a) == PublicRank(b) &&
        (|| ExportRank(a) < ExportRank(b)
         || (ExportRank(a) == ExportRank(b) && IdLess(a.id, b.id))))
  }

  lemma BeforeIsOrder(a: Comparison, b: Comparison, c: Comparison)
    ensures !(Before(a, b) && Before(b, a))
    ensures Before(a, b) && Before(b, c) ==> Before(a, c)
    ensures !Before(a, b) && !Before(b, c) ==> !Before(a, c)
  {
    IdOrder(a.id, b.id, c.id);
    IdOrder(c.id, b.id, a.id);
    IdOrder(b.id, a.id, c.id);
    IdOrder(b.id, c.id, a.id);
    IdOrder(a.id, c.id, b.id);
  }

  lemma BeforeIsKeyOrder()
    ensures KeyOrder(Before)
  {
    forall a, b, c
      ensures Before(a, b) ==> !Before(b, a)
      ensures !Before(a, b) && !Before(b, c) ==> !Before(a, c)
    {
      BeforeIsOrder(a, b, c);
    }
  }

  function SortGroup(cs: seq<Comparison>): seq<Comparison> { StableSort(Before, cs) }

  lemma GroupsAreSorted(cs: seq<Comparison>)
    ensures InOrder(Before, SortGroup(cs))
  {
    BeforeIsKeyOrder();
    StableSortSorts(Before, cs);
  }

  /** The symbol a comparison is ranked by: as it is on HEAD, or on BASE when it was removed. */
  ghost predicate RankedBy(c: Comparison, s: Symbol) {
    c.head == Some(s) || (c.head.None? && c.base == Some(s))
  }

  /**
   * In a sorted group public symbols come before private ones; among these, symbols in `__all__` before others; and
   * among these, smaller identities first.
   */
  lemma GroupOrderMeans(cs: seq<Comparison>, i: nat, j: nat, s: Symbol, t: Symbol)
    requires i < j < |SortGroup(cs)| && RankedBy(SortGroup(cs)[i], s) && RankedBy(SortGroup(cs)[j], t)
    ensures t.isPublic ==> s.isPublic
    ensures t.isPublic == s.isPublic && t.exported == Some(true) ==> s.exported == Some(true)
    ensures t.isPublic == s.isPublic && (t.exported == Some(true) <==> s.exported == Some(true)) ==>
              !IdLess(SortGroup(cs)[j].id, SortGroup(cs)[i].id)
  {
    GroupsAreSorted(cs);
  }

  // --- Classification ------------------------------------------------------------------------------

  datatype Class = Changed | Added | Removed | Relevant | Unrelated

  function ClassOf(c: Comparison, relevant: set<Identity>): Class {
    match c.presence
    case NewOnHead => Added
    case RemovedFromHead => Removed
    case PresentOnBoth =>
      if c.changed == Some(true) then Changed else if c.id in relevant then Relevant else Unrelated
  }

  function Only(cs: seq<Comparison>, relevant: set<Identity>, k: Class): (out: seq<Comparison>)
    ensures forall c | c in out :: ClassOf(c, relevant) == k
  {
    if cs == [] then []
    else
      var front, last := cs[..|cs| - 1], cs[|cs| - 1];
      Only(front, relevant, k) + (if ClassOf(last, relevant) == k then [last] else [])
  }

  /** The sorted group of one class. */
  function Group(cs: seq<Comparison>, relevant: set<Identity>, k: Class): seq<Comparison> {
    SortGroup(Only(cs, relevant, k))
  }

  lemma {:induction false} OnlyMultiset(cs: seq<Comparison>, relevant: set<Identity>, k: Class)
    ensures forall c :: multiset(Only(cs, relevant, k))[c] == if ClassOf(c, relevant) == k then multiset(cs)[c] else 0
  {
    if cs != [] {
      var front, last := cs[..|cs| - 1], cs[|cs| - 1];
      OnlyMultiset(front, relevant, k);
      assert cs == front + [last];
    }
  }

  // --- Round robin ---------------------------------------------------------------------------------

  /** The four high-signal groups, in the order they take turns. */
  datatype Groups = Groups(changed: seq<Comparison>, added: seq<Comparison>, removed: seq<Comparison>,
      relevant: seq<Comparison>)

  function At(g: seq<Comparison>, k: nat): seq<Comparison> { if k < |g| then [g[k]] else [] }

  function Round(gs: Groups, k: nat): seq<Comparison> {
    At(gs.changed, k) + At(gs.added, k) + At(gs.removed, k) + At(gs.relevant, k)
  }

  /** The items emitted by the first `k` rounds. */
  function Rounds(gs: Groups, k: nat): seq<Comparison> {
    if k == 0 then [] else Rounds(gs, k - 1) + Round(gs, k - 1)
  }

  function Longest(gs: Groups): nat {
    Max(Max(|gs.changed|, |gs.added|), Max(|gs.removed|, |gs.relevant|))
  }

  function Take(g: seq<Comparison>, k: nat): seq<Comparison> { if k < |g| then g[..k] else g }

  function Taken(gs: Groups, k: nat): multiset<Comparison> {
    multiset(Take(gs.changed, k)) + multiset(Take(gs.added, k)) +
    multiset(Take(gs.removed, k)) + multiset(Take(gs.relevant, k))
  }

  /** How often `c` is among the first `k` items of a group. */
  function CountTaken(g: seq<Comparison>, k: nat, c: Comparison): nat { multiset(Take(g, k))[c] }

  lemma TakeMore(g: seq<Comparison>, k: nat, c: Comparison)
    ensures CountTaken(g, k + 1, c) == CountTaken(g, k, c) + multiset(At(g, k))[c]
  {
    assert Take(g, k + 1) == Take(g, k) + At(g, k);
  }

  lemma CountAppend(a: seq<Comparison>, b: seq<Comparison>, c: Comparison)
    ensures multiset(a + b)[c] == multiset(a)[c] + multiset(b)[c]
  {
  }

  lemma RoundCount(gs: Groups, k: nat, c: Comparison)
    ensures multiset(Round(gs, k))[c] ==
            multiset(At(gs.changed, k))[c] + multiset(At(gs.added, k))[c] +
            multiset(At(gs.removed, k))[c] + multiset(At(gs.relevant, k))[c]
  {
    var x, y, z, t := At(gs.changed, k), At(gs.added, k), At(gs.removed, k), At(gs.relevant, k);
    CountAppend(x + y + z, t, c);
    CountAppend(x + y, z, c);
    CountAppend(x, y, c);
  }

  /** How often `c` is among the first `k` items of the four groups. */
  function CountAll(gs: Groups, k: nat, c: Comparison): nat {
    CountTaken(gs.changed, k, c) + CountTaken(gs.added, k, c) +
    CountTaken(gs.removed, k, c) + CountTaken(gs.relevant, k, c)
  }

  lemma CountAllMore(gs: Groups, k: nat, c: Comparison)
    ensures CountAll(gs, k + 1, c) == CountAll(gs, k, c) + multiset(Round(gs, k))[c]
  {
    TakeMore(gs.changed, k, c);
    TakeMore(gs.added, k, c);
    TakeMore(gs.removed, k, c);
    TakeMore(gs.relevant, k, c);
    RoundCount(gs, k, c);
  }

  lemma RoundsMore(gs: Groups, k: nat, c: Comparison)
    ensures Rounds(gs, k + 1) == Rounds(gs, k) + Round(gs, k)
    ensures multiset(Rounds(gs, k + 1))[c] == multiset(Rounds(gs, k))[c] + multiset(Round(gs, k))[c]
  {
    CountAppend(Rounds(gs, k), Round(gs, k), c);
  }

  lemma TakeNone(g: seq<Comparison>, c: Comparison)
    ensures CountTaken(g, 0, c) == 0
  {
    assert Take(g, 0) == [];
  }

  function Emitted(gs: Groups, k: nat, c: Comparison): nat { multiset(Rounds(gs, k))[c] }

  lemma NothingEmitted(gs: Groups, c: Comparison)
    ensures Emitted(gs, 0, c) == CountAll(gs, 0, c)
  {
    TakeNone(gs.changed, c);
    TakeNone(gs.added, c);
    TakeNone(gs.removed, c);
    TakeNone(gs.relevant, c);
  }

  lemma EmittedMore(gs: Groups, k: nat, c: Comparison)
    requires Emitted(gs, k, c) == CountAll(gs, k, c)
    ensures Emitted(gs, k + 1, c) == CountAll(gs, k + 1, c)
  {
    RoundsMore(gs, k, c);
    CountAllMore(gs, k, c);
  }

  lemma RoundsCount(gs: Groups, k: nat, c: Comparison)
    ensures Emitted(gs, k, c) == CountAll(gs, k, c)
  {
    NothingEmitted(gs, c);
    for j := 0 to k
      invariant Emitted(gs, j, c) == CountAll(gs, j, c)
    {
      EmittedMore(gs, j, c);
    }
  }

  lemma RoundsTake(gs: Groups, k: nat)
    ensures multiset(Rounds(gs, k)) == Taken(gs, k)
  {
    forall c ensures multiset(Rounds(gs, k))[c] == Taken(gs, k)[c] {
      RoundsCount(gs, k, c);
    }
  }

  lemma {:induction false} RoundsAreShort(gs: Groups, k: nat)
    ensures |Rounds(gs, k)| <= 4 * k
  {
    if k > 0 {
      RoundsAreShort(gs, k - 1);
    }
  }

  lemma {:induction false} RoundsArePrefixes(gs: Groups, j: nat, k: nat)
    requires j <= k
    ensures Rounds(gs, j) <= Rounds(gs, k)
  {
    if j < k {
      RoundsArePrefixes(gs, j, k - 1);
    }
  }

  function Grouped(cs: seq<Comparison>, relevant: set<Identity>): Groups {
    Groups(Group(cs, relevant, Changed), Group(cs, relevant, Added), Group(cs, relevant, Removed),
        Group(cs, relevant, Relevant))
  }

  /** The prioritized list: the interleaved high-signal groups, then everything unrelated. */
  function Interleaved(cs: seq<Comparison>, relevant: set<Identity>): seq<Comparison> {
    var gs := Grouped(cs, relevant);
    Rounds(gs, Longest(gs)) + Group(cs, relevant, Unrelated)
  }

  /** `_prioritized_observable_comparisons`, with the source's loops. */
  method Prioritize(cs: seq<Comparison>, refs: seq<Reference>, hops: nat)
    returns (out: seq<Comparison>, relevant: set<Identity>)
    ensures forall a :: a in relevant <==> Reaches(cs, refs, a, hops)
    ensures out == Interleaved(cs, relevant)
  {
    relevant := RelevanceIdentities(cs, refs, hops);
    var g0: seq<Comparison>, g1: seq<Comparison>, g2: seq<Comparison>, g3: seq<Comparison>, rest: seq<Comparison> :=
        [], [], [], [], [];
    for i := 0 to |cs|
      invariant g0 == Only(cs[..i], relevant, Changed) && g1 == Only(cs[..i], relevant, Added)
      invariant g2 == Only(cs[..i], relevant, Removed) && g3 == Only(cs[..i], relevant, Relevant)
      invariant rest == Only(cs[..i], relevant, Unrelated)
    {
      var c := cs[i];
      assert cs[..i + 1][..i] == cs[..i];
      if c.presence == NewOnHead {
        g1 := g1 + [c];
      } else if c.presence == RemovedFromHead {
        g2 := g2 + [c];
      } else if c.changed == Some(true) {
        g0 := g0 + [c];
      } else if c.id in relevant {
        g3 := g3 + [c];
      } else {
        rest := rest + [c];
      }
    }
    assert cs[..|cs|] == cs;
    out := RoundRobin(Groups(SortGroup(g0), SortGroup(g1), SortGroup(g2), SortGroup(g3)));
    out := out + SortGroup(rest);
  }

  method RoundRobin(gs: Groups) returns (out: seq<Comparison>)
    ensures out == Rounds(gs, Longest(gs))
  {
    out := [];
    var offset := 0;
    while offset < |gs.changed| || offset < |gs.added| || offset < |gs.removed| || offset < |gs.relevant|
      invariant 0 <= offset <= Longest(gs)
      invariant out == Rounds(gs, offset)
      decreases Longest(gs) - offset
    {
      ghost var before := out;
      if offset < |gs.changed| {
        out := out + [gs.changed[offset]];
      }
      assert out == before + At(gs.changed, offset);
      if offset < |gs.added| {
        out := out + [gs.added[offset]];
      }
      assert out == before + (At(gs.changed, offset) + At(gs.added, offset));
      if offset < |gs.removed| {
        out := out + [gs.removed[offset]];
      }
      assert out == before + (At(gs.changed, offset) + At(gs.added, offset) + At(gs.removed, offset));
      if offset < |gs.relevant| {
        out := out + [gs.relevant[offset]];
      }
      assert out == before + Round(gs, offset);
      offset := offset + 1;
    }
  }

  // --- What the order guarantees -------------------------------------------------------------------

  lemma AllTaken(gs: Groups)
    ensures Taken(gs, Longest(gs))
        == multiset(gs.changed) + multiset(gs.added) + multiset(gs.removed) + multiset(gs.relevant)
  {
  }

  lemma SortedGroupCounts(cs: seq<Comparison>, relevant: set<Identity>, k: Class)
    ensures forall c :: multiset(Group(cs, relevant, k))[c] == if ClassOf(c, relevant) == k then multiset(cs)[c] else 0
  {
    OnlyMultiset(cs, relevant, k);
  }

  lemma GroupsCount(cs: seq<Comparison>, relevant: set<Identity>, c: Comparison)
    ensures var gs := Grouped(cs, relevant);
            Taken(gs, Longest(gs))[c] == if ClassOf(c, relevant) == Unrelated then 0 else multiset(cs)[c]
  {
    AllTaken(Grouped(cs, relevant));
    SortedGroupCounts(cs, relevant, Changed);
    SortedGroupCounts(cs, relevant, Added);
    SortedGroupCounts(cs, relevant, Removed);
    SortedGroupCounts(cs, relevant, Relevant);
  }

  lemma InterleavedCount(cs: seq<Comparison>, relevant: set<Identity>, c: Comparison)
    ensures multiset(Interleaved(cs, relevant))[c] == multiset(cs)[c]
  {
    var gs := Grouped(cs, relevant);
    var front, tail := Rounds(gs, Longest(gs)), Group(cs, relevant, Unrelated);
    RoundsTake(gs, Longest(gs));
    GroupsCount(cs, relevant, c);
    SortedGroupCounts(cs, relevant, Unrelated);
    CountAppend(front, tail, c);
  }

  /** Nothing is lost, invented or repeated. */
  lemma InterleavingPermutes(cs: seq<Comparison>, relevant: set<Identity>)
    ensures multiset(Interleaved(cs, relevant)) == multiset(cs)
  {
    forall c ensures multiset(Interleaved(cs, relevant))[c] == multiset(cs)[c] {
      InterleavedCount(cs, relevant, c);
    }
  }

  lemma FrontIsHighSignal(cs: seq<Comparison>, relevant: set<Identity>, c: Comparison)
    requires c in Rounds(Grouped(cs, relevant), Longest(Grouped(cs, relevant)))
    ensures ClassOf(c, relevant) != Unrelated
  {
    var gs := Grouped(cs, relevant);
    RoundsTake(gs, Longest(gs));
    assert c in multiset(Rounds(gs, Longest(gs)));
    GroupsCount(cs, relevant, c);
  }

  lemma GroupClass(cs: seq<Comparison>, relevant: set<Identity>, k: Class, c: Comparison)
    requires c in Group(cs, relevant, k)
    ensures ClassOf(c, relevant) == k
  {
    assert c in multiset(Group(cs, relevant, k));
    SortedGroupCounts(cs, relevant, k);
  }

  ghost predicate UnrelatedAt(out: seq<Comparison>, relevant: set<Identity>, i: nat) {
    i < |out| && ClassOf(out[i], relevant) == Unrelated
  }

  lemma TailOnly(front: seq<Comparison>, tail: seq<Comparison>, relevant: set<Identity>, i: nat, j: nat)
    requires forall c | c in front :: ClassOf(c, relevant) != Unrelated
    requires forall c | c in tail :: ClassOf(c, relevant) == Unrelated
    requires i < j < |front + tail| && UnrelatedAt(front + tail, relevant, i)
    ensures UnrelatedAt(front + tail, relevant, j)
  {
    forall m | 0 <= m < |front| ensures !UnrelatedAt(front + tail, relevant, m) {
      assert (front + tail)[m] in front;
    }
    assert (front + tail)[j] in tail;
  }

  /** Unrelated observables come only after every item of the four high-signal groups. */
  lemma UnrelatedComeLast(cs: seq<Comparison>, relevant: set<Identity>, i: nat, j: nat)
    requires i < j < |Interleaved(cs, relevant)| && UnrelatedAt(Interleaved(cs, relevant), relevant, i)
    ensures UnrelatedAt(Interleaved(cs, relevant), relevant, j)
  {
    var gs := Grouped(cs, relevant);
    var front, tail := Rounds(gs, Longest(gs)), Group(cs, relevant, Unrelated);
    forall c | c in front ensures ClassOf(c, relevant) != Unrelated {
      FrontIsHighSignal(cs, relevant, c);
    }
    forall c | c in tail ensures ClassOf(c, relevant) == Unrelated {
      GroupClass(cs, relevant, Unrelated, c);
    }
    TailOnly(front, tail, relevant, i, j);
  }

  function Pick(gs: Groups, k: Class): seq<Comparison>
    requires k != Unrelated
  {
    match k
    case Changed => gs.changed
    case Added => gs.added
    case Removed => gs.removed
    case Relevant => gs.relevant
  }

  lemma PickTaken(gs: Groups, k: Class, n: nat)
    requires k != Unrelated
    ensures multiset(Take(Pick(gs, k), n)) <= Taken(gs, n)
    ensures Take(Pick(gs, k), n) == Take(Pick(gs, k), Min(n, Longest(gs)))
  {
  }

  lemma PrefixMultiset(early: seq<Comparison>, out: seq<Comparison>, n: nat)
    requires early <= out && |early| <= n <= |out|
    ensures multiset(early) <= multiset(out[..n])
  {
    assert out[..n] == early + out[|early|..n];
  }

  /** Every prefix of length `n` holds the best min(size, n div 4) items of the group of a high-signal class. */
  lemma FairPrefix(cs: seq<Comparison>, relevant: set<Identity>, n: nat, k: Class)
    requires n <= |Interleaved(cs, relevant)| && k != Unrelated
    ensures multiset(Take(Group(cs, relevant, k), n / 4)) <= multiset(Interleaved(cs, relevant)[..n])
  {
    var gs := Grouped(cs, relevant);
    var r := Min(n / 4, Longest(gs));
    RoundsTake(gs, r);
    RoundsAreShort(gs, r);
    RoundsArePrefixes(gs, r, Longest(gs));
    PickTaken(gs, k, n / 4);
    PickTaken(gs, k, r);
    PrefixMultiset(Rounds(gs, r), Interleaved(cs, relevant), n);
  }

  // --- The bounded partition -----------------------------------------------------------------------

  function Count(cs: seq<Comparison>, relevant: set<Identity>, k: Class): nat { |Only(cs, relevant, k)| }

  lemma MultisetSize(a: multiset<Comparison>, b: multiset<Comparison>)
    requires a <= b
    ensures |a| <= |b|
  {
    assert b == a + (b - a);
  }

  lemma CountOfSome(part: seq<Comparison>, whole: seq<Comparison>, relevant: set<Identity>, k: Class)
    requires multiset(part) <= multiset(whole)
    requires forall c | c in part :: ClassOf(c, relevant) == k
    ensures |part| <= Count(whole, relevant, k)
  {
    OnlyMultiset(whole, relevant, k);
    assert multiset(part) <= multiset(Only(whole, relevant, k)) by {
      forall c ensures multiset(part)[c] <= multiset(Only(whole, relevant, k))[c] {
        if c in multiset(part) {
          assert c in part;
        }
      }
    }
    MultisetSize(multiset(part), multiset(Only(whole, relevant, k)));
  }

  datatype Observables =
      Observables(shared: seq<Comparison>, added: seq<Comparison>, removed: seq<Comparison>, truncated: bool)

  ghost predicate SplitsByPresence(o: Observables, selected: seq<Comparison>) {
    && multiset(selected) == multiset(o.shared) + multiset(o.added) + multiset(o.removed)
    && (forall c | c in o.shared :: c.presence == PresentOnBoth)
    && (forall c | c in o.added :: c.presence == NewOnHead)
    && (forall c | c in o.removed :: c.presence == RemovedFromHead)
  }

  /** The comparisons with that presence, in order. */
  function OfPresence(cs: seq<Comparison>, p: Presence): seq<Comparison> {
    if cs == [] then []
    else
      var last := cs[|cs| - 1];
      OfPresence(cs[..|cs| - 1], p) + (if last.presence == p then [last] else [])
  }

  ghost predicate InSelectionOrder(o: Observables, selected: seq<Comparison>) {
    && o.shared == OfPresence(selected, PresentOnBoth)
    && o.added == OfPresence(selected, NewOnHead)
    && o.removed == OfPresence(selected, RemovedFromHead)
  }

  function AddTo(o: Observables, c: Comparison): Observables {
    match c.presence
    case PresentOnBoth => o.(shared := o.shared + [c])
    case NewOnHead => o.(added := o.added + [c])
    case RemovedFromHead => o.(removed := o.removed + [c])
  }

  lemma PresenceMore(cs: seq<Comparison>, c: Comparison, p: Presence)
    ensures OfPresence(cs + [c], p) == OfPresence(cs, p) + (if c.presence == p then [c] else [])
  {
    assert (cs + [c])[..|cs|] == cs;
  }

  lemma AddKeepsOrder(o: Observables, selected: seq<Comparison>, c: Comparison)
    requires InSelectionOrder(o, selected)
    ensures InSelectionOrder(AddTo(o, c), selected + [c])
  {
    PresenceMore(selected, c, PresentOnBoth);
    PresenceMore(selected, c, NewOnHead);
    PresenceMore(selected, c, RemovedFromHead);
  }

  lemma {:induction false} PresenceCount(cs: seq<Comparison>, p: Presence, c: Comparison)
    ensures multiset(OfPresence(cs, p))[c] == if c.presence == p then multiset(cs)[c] else 0
  {
    if cs != [] {
      var front, last := cs[..|cs| - 1], cs[|cs| - 1];
      PresenceCount(front, p, c);
      assert cs == front + [last];
      CountAppend(front, [last], c);
      CountAppend(OfPresence(front, p), if last.presence == p then [last] else [], c);
    }
  }

  lemma PresenceMembers(cs: seq<Comparison>, p: Presence)
    ensures forall c | c in OfPresence(cs, p) :: c.presence == p
  {
    forall c | c in OfPresence(cs, p) ensures c.presence == p {
      PresenceCount(cs, p, c);
      assert c in multiset(OfPresence(cs, p));
    }
  }

  /** Splitting by presence in order loses, invents and repeats nothing. */
  lemma OrderSplits(o: Observables, selected: seq<Comparison>)
    requires InSelectionOrder(o, selected)
    ensures SplitsByPresence(o, selected)
  {
    PresenceMembers(selected, PresentOnBoth);
    PresenceMembers(selected, NewOnHead);
    PresenceMembers(selected, RemovedFromHead);
    forall c ensures multiset(selected)[c] == (multiset(o.shared) + multiset(o.added) + multiset(o.removed))[c] {
      PresenceCount(selected, PresentOnBoth, c);
      PresenceCount(selected, NewOnHead, c);
      PresenceCount(selected, RemovedFromHead, c);
    }
  }

  method SplitSelection(selected: seq<Comparison>, truncated: bool) returns (o: Observables)
    ensures SplitsByPresence(o, selected) && InSelectionOrder(o, selected) && o.truncated == truncated
  {
    o := Observables([], [], [], truncated);
    for i := 0 to |selected|
      invariant InSelectionOrder(o, selected[..i]) && o.truncated == truncated
    {
      AddKeepsOrder(o, selected[..i], selected[i]);
      assert selected[..i + 1] == selected[..i] + [selected[i]];
      o := AddTo(o, selected[i]);
    }
    assert selected[..|selected|] == selected;
    OrderSplits(o, selected);
  }

  /** `compare_observables`: the first `limit` prioritized comparisons, split by presence. */
  method CompareObservables(base: Index, head: Index, hops: nat, limit: nat)
    returns (o: Observables, cs: seq<Comparison>, relevant: set<Identity>)
    ensures ComparesAll(base, head, None, None, cs)
    ensures forall a :: a in relevant <==> Reaches(cs, head.references, a, hops)
    ensures o.truncated <==> |cs| > limit
    ensures SplitsByPresence(o, Take(Interleaved(cs, relevant), limit))
    ensures InSelectionOrder(o, Take(Interleaved(cs, relevant), limit))
  {
    cs := Comparisons(base, head, None, None);
    var prioritized;
    prioritized, relevant := Prioritize(cs, head.references, hops);
    o := SplitSelection(Take(prioritized, limit), |cs| > limit);
  }

  lemma GroupSize(cs: seq<Comparison>, relevant: set<Identity>, k: Class)
    ensures |Group(cs, relevant, k)| == Count(cs, relevant, k)
  {
    var g := Group(cs, relevant, k);
    assert |multiset(g)| == |g| && |multiset(Only(cs, relevant, k))| == |Only(cs, relevant, k)|;
  }

  lemma CutIsFair(cs: seq<Comparison>, relevant: set<Identity>, limit: nat, k: Class)
    requires k != Unrelated && limit < |Interleaved(cs, relevant)|
    ensures Count(Interleaved(cs, relevant)[..limit], relevant, k) >= Min(Count(cs, relevant, k), limit / 4)
  {
    FairPrefix(cs, relevant, limit, k);
    GroupSize(cs, relevant, k);
    KeptOfClass(cs, relevant, k, limit / 4, Interleaved(cs, relevant)[..limit]);
  }

  /** Truncation cannot crowd a change kind out: `limit` results keep at least min(size, limit div 4) of each. */
  lemma TruncationIsFair(cs: seq<Comparison>, relevant: set<Identity>, limit: nat, k: Class)
    requires k != Unrelated
    ensures Count(Take(Interleaved(cs, relevant), limit), relevant, k) >= Min(Count(cs, relevant, k), limit / 4)
  {
    if limit < |Interleaved(cs, relevant)| {
      CutIsFair(cs, relevant, limit, k);
    } else {
      EverythingKept(cs, relevant, k);
    }
  }

  lemma EverythingKept(cs: seq<Comparison>, relevant: set<Identity>, k: Class)
    ensures Count(Interleaved(cs, relevant), relevant, k) >= Count(cs, relevant, k)
  {
    GroupSize(cs, relevant, k);
    InterleavingPermutes(cs, relevant);
    SortedGroupCounts(cs, relevant, k);
    KeptOfClass(cs, relevant, k, Count(cs, relevant, k), Interleaved(cs, relevant));
  }

  lemma KeptOfClass(cs: seq<Comparison>, relevant: set<Identity>, k: Class, n: nat, kept: seq<Comparison>)
    requires multiset(Take(Group(cs, relevant, k), n)) <= multiset(kept)
    ensures Count(kept, relevant, k) >= |Take(Group(cs, relevant, k), n)|
  {
    var part := Take(Group(cs, relevant, k), n);
    forall c | c in part ensures ClassOf(c, relevant) == k {
      GroupClass(cs, relevant, k, c);
    }
    CountOfSome(part, kept, relevant, k);
  }
}
