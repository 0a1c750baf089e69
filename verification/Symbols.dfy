/** Indexed symbols, references and cross-revision comparisons (`repository_index.py`, `investigation_tools.py`). */
module Symbols {
  import opened Prelude

  datatype Kind = FunctionKind | AsyncFunction | MethodKind | AsyncMethod | ClassKind | Property | ModuleValue

  type Identity = (string, string)

  datatype Symbol = Symbol(
    path: string,
    home: string,
    name: string,
    kind: Kind,
    start: nat,
    end: nat,
    parent: Option<string>,
    isPublic: bool,
    exported: Option<bool>,
    sha: string,
    definitions: nat,
    kinds: seq<Kind>)

  datatype Reference = Reference(
    path: string,
    scope: string,
    isCall: bool,
    name: string,
    expression: string,
    expansion: Option<string>,
    start: nat,
    end: nat,
    column: nat)

  /** One immutable revision's index; `home` of a symbol is its dotted module. */
  datatype Index = Index(symbols: seq<Symbol>, references: seq<Reference>)

  datatype Presence = PresentOnBoth | NewOnHead | RemovedFromHead

  datatype Comparison =
      Comparison(id: Identity, presence: Presence, base: Option<Symbol>, head: Option<Symbol>, changed: Option<bool>)

  function IdOf(s: Symbol): Identity { (s.path, s.name) }

  // --- Python string and tuple order ---------------------------------------------------------------

  predicate StrLess(a: string, b: string) {
    b != [] && (a == [] || a[0] < b[0] || (a[0] == b[0] && StrLess(a[1..], b[1..])))
  }

  predicate IdLess(a: Identity, b: Identity) {
    StrLess(a.0, b.0) || (a.0 == b.0 && StrLess(a.1, b.1))
  }

  lemma {:induction false} StrTrichotomy(a: string, b: string)
    ensures StrLess(a, b) || a == b || StrLess(b, a)
    ensures !(StrLess(a, b) && StrLess(b, a)) && !StrLess(a, a)
    decreases |a|
  {
    if a != [] && b != [] && a[0] == b[0] {
      StrTrichotomy(a[1..], b[1..]);
      assert a == [a[0]] + a[1..] && b == [b[0]] + b[1..];
    }
    if a != [] {
      StrTrichotomy(a[1..], a[1..]);
    }
  }

  lemma {:induction false} StrTransitive(a: string, b: string, c: string)
    requires StrLess(a, b) && StrLess(b, c)
    ensures StrLess(a, c)
    decreases |a|
  {
    if a != [] && a[0] == b[0] && b[0] == c[0] {
      StrTransitive(a[1..], b[1..], c[1..]);
    }
  }

  lemma IdOrder(a: Identity, b: Identity, c: Identity)
    ensures IdLess(a, b) || a == b || IdLess(b, a)
    ensures !(IdLess(a, b) && IdLess(b, a)) && !IdLess(a, a)
    ensures IdLess(a, b) && IdLess(b, c) ==> IdLess(a, c)
  {
    StrTrichotomy(a.0, b.0);
    StrTrichotomy(a.1, b.1);
    StrTrichotomy(b.0, c.0);
    StrTrichotomy(a.0, a.0);
    StrTrichotomy(a.1, a.1);
    if StrLess(a.0, b.0) && StrLess(b.0, c.0) { StrTransitive(a.0, b.0, c.0); }
    if StrLess(a.1, b.1) && StrLess(b.1, c.1) { StrTransitive(a.1, b.1, c.1); }
  }

  // --- Comparing the two indexes -------------------------------------------------------------------

  predicate SymbolMatches(s: Symbol, query: string) {
    query == s.name || query == s.home + "." + s.name
  }

  predicate Selected(s: Symbol, path: Option<string>, query: Option<string>) {
    (path.None? || s.path == path.value) && (query.None? || SymbolMatches(s, query.value))
  }

  /** The symbol a dictionary built over `symbols` holds for `id`: the last selected one with that key. */
  function Lookup(symbols: seq<Symbol>, path: Option<string>, query: Option<string>, id: Identity): Option<Symbol> {
    if symbols == [] then None
    else
      var last := symbols[|symbols| - 1];
      if IdOf(last) == id && Selected(last, path, query) then Some(last)
      else Lookup(symbols[..|symbols| - 1], path, query, id)
  }

  lemma {:induction false} LookupFinds(symbols: seq<Symbol>, path: Option<string>, query: Option<string>, id: Identity)
    ensures var r := Lookup(symbols, path, query, id);
            && (r.Some? ==> r.value in symbols && IdOf(r.value) == id && Selected(r.value, path, query))
            && (r.None? <==> forall s | s in symbols :: !(IdOf(s) == id && Selected(s, path, query)))
  {
    if symbols != [] {
      var front := symbols[..|symbols| - 1];
      LookupFinds(front, path, query, id);
      assert forall s :: s in symbols <==> s in front || s == symbols[|symbols| - 1];
    }
  }

  function Compare(id: Identity, base: Option<Symbol>, head: Option<Symbol>): Comparison
    requires base.Some? || head.Some?
  {
    if base.Some? && head.Some? then
      var b, h := base.value, head.value;
      Comparison(id, PresentOnBoth, base, head,
                 Some(b.sha != h.sha || b.kind != h.kind || b.kinds != h.kinds || b.definitions != h.definitions))
    else if head.Some? then Comparison(id, NewOnHead, base, head, None)
    else Comparison(id, RemovedFromHead, base, head, None)
  }

  ghost predicate Sorted(cs: seq<Comparison>) {
    forall i, j :: 0 <= i < j < |cs| ==> IdLess(cs[i].id, cs[j].id)
  }

  ghost predicate Compared(base: Index, head: Index, path: Option<string>, query: Option<string>, c: Comparison) {
    var b, h := Lookup(base.symbols, path, query, c.id), Lookup(head.symbols, path, query, c.id);
    (b.Some? || h.Some?) && c == Compare(c.id, b, h)
  }

  /** The comparison list is exactly one entry per identity of either index, in identity order. */
  ghost predicate ComparesAll(base: Index, head: Index, path: Option<string>, query: Option<string>,
      cs: seq<Comparison>) {
    && Sorted(cs)
    && (forall c | c in cs :: Compared(base, head, path, query, c))
    && (forall s | (s in base.symbols || s in head.symbols) && Selected(s, path, query) ::
          exists c :: c in cs && c.id == IdOf(s))
  }

  ghost predicate Holds(m: map<Identity, Symbol>, symbols: seq<Symbol>, path: Option<string>, query: Option<string>,
      id: Identity) {
    Lookup(symbols, path, query, id) == if id in m then Some(m[id]) else None
  }

  /** The dictionary comprehension over one index. */
  method BuildSelection(symbols: seq<Symbol>, path: Option<string>, query: Option<string>)
    returns (m: map<Identity, Symbol>)
    ensures forall id :: Holds(m, symbols, path, query, id)
  {
    m := map[];
    for i := 0 to |symbols|
      invariant forall id :: Holds(m, symbols[..i], path, query, id)
    {
      var s := symbols[i];
      assert symbols[..i + 1][..i] == symbols[..i];
      ghost var before, next := m, symbols[..i + 1];
      if Selected(s, path, query) {
        m := m[IdOf(s) := s];
      }
      forall id ensures Holds(m, next, path, query, id) {
        assert Holds(before, symbols[..i], path, query, id);
      }
    }
    assert symbols[..|symbols|] == symbols;
  }

  /** `sorted(set(base) | set(head))`: each key is put at its place among the ones already sorted. */
  method SortIdentities(ids: set<Identity>) returns (keys: seq<Identity>)
    ensures forall i, j :: 0 <= i < j < |keys| ==> IdLess(keys[i], keys[j])
    ensures forall k :: k in keys <==> k in ids
  {
    keys := [];
    var rest := ids;
    while rest != {}
      invariant rest <= ids
      invariant forall i, j :: 0 <= i < j < |keys| ==> IdLess(keys[i], keys[j])
      invariant forall k :: k in keys <==> k in ids - rest
      decreases rest
    {
      var k :| k in rest;
      rest := rest - {k};
      var at := 0;
      while at < |keys| && IdLess(keys[at], k)
        invariant 0 <= at <= |keys|
        invariant forall i :: 0 <= i < at ==> IdLess(keys[i], k)
      {
        at := at + 1;
      }
      InsertStaysSorted(keys, at, k);
      assert forall x :: x in keys[..at] + [k] + keys[at..] <==> x in keys || x == k by {
        assert keys == keys[..at] + keys[at..];
      }
      keys := keys[..at] + [k] + keys[at..];
    }
  }

  lemma InsertStaysSorted(keys: seq<Identity>, at: nat, k: Identity)
    requires at <= |keys| && k !in keys
    requires forall i, j :: 0 <= i < j < |keys| ==> IdLess(keys[i], keys[j])
    requires forall i :: 0 <= i < at ==> IdLess(keys[i], k)
    requires at < |keys| ==> !IdLess(keys[at], k)
    ensures var out := keys[..at] + [k] + keys[at..];
            forall i, j :: 0 <= i < j < |out| ==> IdLess(out[i], out[j])
  {
    var out := keys[..at] + [k] + keys[at..];
    forall j | at <= j < |keys| ensures IdLess(k, keys[j]) {
      IdOrder(keys[at], k, k);
      IdOrder(k, keys[at], keys[j]);
    }
  }

  lemma CompareIsCompared(base: Index, head: Index, path: Option<string>, query: Option<string>, k: Identity)
    requires HasSymbol(base, head, path, query, k)
    ensures var c := Compare(k, Lookup(base.symbols, path, query, k), Lookup(head.symbols, path, query, k));
            c.id == k && Compared(base, head, path, query, c)
  {
  }

  /** `_comparisons`. */
  method Comparisons(base: Index, head: Index, path: Option<string>, query: Option<string>)
      returns (cs: seq<Comparison>)
    ensures ComparesAll(base, head, path, query, cs)
  {
    var b := BuildSelection(base.symbols, path, query);
    var h := BuildSelection(head.symbols, path, query);
    var keys := SortIdentities(b.Keys + h.Keys);
    cs := [];
    KeysAreSymbols(base, head, path, query, b, h, keys);
    for i := 0 to |keys|
      invariant |cs| == i
      invariant forall j | 0 <= j < i :: cs[j].id == keys[j] && Compared(base, head, path, query, cs[j])
    {
      var k := keys[i];
      var left: Option<Symbol> := if k in b then Some(b[k]) else None;
      var right: Option<Symbol> := if k in h then Some(h[k]) else None;
      assert k in keys;
      assert Holds(b, base.symbols, path, query, k) && Holds(h, head.symbols, path, query, k);
      assert left == Lookup(base.symbols, path, query, k);
      assert right == Lookup(head.symbols, path, query, k);
      var c := Compare(k, left, right);
      CompareIsCompared(base, head, path, query, k);
      cs := cs + [c];
    }
    EveryKeyCompared(base, head, path, query, keys, cs);
  }

  lemma KeysAreSymbols(base: Index, head: Index, path: Option<string>, query: Option<string>,
                       b: map<Identity, Symbol>, h: map<Identity, Symbol>, keys: seq<Identity>)
    requires forall id :: Holds(b, base.symbols, path, query, id)
    requires forall id :: Holds(h, head.symbols, path, query, id)
    requires forall k :: k in keys <==> k in b.Keys + h.Keys
    ensures forall k :: k in keys <==> HasSymbol(base, head, path, query, k)
  {
    forall k ensures k in keys <==> HasSymbol(base, head, path, query, k) {
      assert Holds(b, base.symbols, path, query, k) && Holds(h, head.symbols, path, query, k);
    }
  }

  ghost predicate HasSymbol(base: Index, head: Index, path: Option<string>, query: Option<string>, k: Identity) {
    Lookup(base.symbols, path, query, k).Some? || Lookup(head.symbols, path, query, k).Some?
  }

  lemma EveryKeyCompared(base: Index, head: Index, path: Option<string>, query: Option<string>,
                         keys: seq<Identity>, cs: seq<Comparison>)
    requires forall k :: k in keys <==> HasSymbol(base, head, path, query, k)
    requires |cs| == |keys| && forall j | 0 <= j < |keys| :: cs[j].id == keys[j]
    ensures forall s | (s in base.symbols || s in head.symbols) && Selected(s, path, query) ::
              exists c :: c in cs && c.id == IdOf(s)
  {
    forall s | (s in base.symbols || s in head.symbols) && Selected(s, path, query)
      ensures exists c :: c in cs && c.id == IdOf(s)
    {
      LookupFinds(base.symbols, path, query, IdOf(s));
      LookupFinds(head.symbols, path, query, IdOf(s));
      assert HasSymbol(base, head, path, query, IdOf(s));
      var i :| 0 <= i < |keys| && keys[i] == IdOf(s);
      assert cs[i] in cs;
    }
  }

  // --- What a comparison says about the two indexes ----------------------------------------------------

  /** One side of a comparison: a symbol of that identity, exactly if the index has one. */
  ghost predicate SideOf(symbols: seq<Symbol>, id: Identity, side: Option<Symbol>) {
    && (side.Some? ==> side.value in symbols && IdOf(side.value) == id)
    && (side.None? ==> forall s | s in symbols :: IdOf(s) != id)
  }

  /**
   * Every comparison names a symbol of either index and says on which it exists; a shared symbol is unchanged exactly
   * if its source, its kind, the kinds of all its definitions and their number agree.
   */
  lemma ComparisonMeans(base: Index, head: Index, cs: seq<Comparison>, c: Comparison)
    requires ComparesAll(base, head, None, None, cs) && c in cs
    ensures SideOf(base.symbols, c.id, c.base) && SideOf(head.symbols, c.id, c.head)
    ensures match c.presence
            case PresentOnBoth => c.base.Some? && c.head.Some?
            case NewOnHead => c.base.None? && c.head.Some?
            case RemovedFromHead => c.base.Some? && c.head.None?
    ensures c.changed.Some? <==> c.presence == PresentOnBoth
    ensures c.presence == PresentOnBoth ==>
              (c.changed == Some(false) <==>
                && c.base.value.sha == c.head.value.sha && c.base.value.kind == c.head.value.kind
                && c.base.value.kinds == c.head.value.kinds && c.base.value.definitions == c.head.value.definitions)
  {
    assert Compared(base, head, None, None, c);
    LookupFinds(base.symbols, None, None, c.id);
    LookupFinds(head.symbols, None, None, c.id);
  }

  /**
   * A query finds a symbol of the path under its own name and under its module's name, and no symbol of another name.
   */
  lemma FoundUnderBothNames(base: Index, head: Index, cs: seq<Comparison>, s: Symbol, query: string)
    requires ComparesAll(base, head, Some(s.path), Some(query), cs) && (s in base.symbols || s in head.symbols)
    ensures query == s.name || query == s.home + "." + s.name ==> exists c :: c in cs && c.id == IdOf(s)
    ensures (forall t | (t in base.symbols || t in head.symbols) && IdOf(t) == IdOf(s) ::
               query != t.name && query != t.home + "." + t.name) ==>
              forall c | c in cs :: c.id != IdOf(s)
  {
    forall c | c in cs && c.id == IdOf(s)
      ensures exists t :: (t in base.symbols || t in head.symbols) && IdOf(t) == IdOf(s)
                          && (query == t.name || query == t.home + "." + t.name)
    {
      assert Compared(base, head, Some(s.path), Some(query), c);
      LookupFinds(base.symbols, Some(s.path), Some(query), c.id);
      LookupFinds(head.symbols, Some(s.path), Some(query), c.id);
    }
  }
}
