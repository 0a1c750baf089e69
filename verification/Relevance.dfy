/** The bounded caller closure of `_relevance_identities`, against a definition without any index. */
module Relevance {
  import opened Prelude
  import opened Symbols

  // --- Python string helpers -----------------------------------------------------------------------

  /** The part before the last dot, if there is one (`rpartition`). */
  function BeforeLastDot(s: string): (r: Option<string>)
    ensures r.None? <==> '.' !in s
  {
    if s == [] then None
    else if s[|s| - 1] == '.' then Some(s[..|s| - 1])
    else BeforeLastDot(s[..|s| - 1])
  }

  /** `_same_file_reference_name`. */
  function SameFileName(s: Symbol, r: Reference): Option<string> {
    match BeforeLastDot(r.expression)
    case None => Some(r.name)
    case Some(receiver) =>
      if receiver != "self" && receiver != "cls" then None
      else
        var parent := if s.kind == ClassKind then s.name
                      else match BeforeLastDot(s.name) case Some(p) => p case None => s.name;
        Some(parent + "." + r.name)
  }

  /** The dotted names under which a HEAD symbol can be imported. */
  function Expansions(t: Symbol): set<string> {
    {t.home + "." + t.name} +
    (if "src/" <= t.path && "src." <= t.home then {t.home[4..] + "." + t.name} else {})
  }

  // --- The definition ------------------------------------------------------------------------------

  predicate IsSeed(c: Comparison) {
    c.presence == NewOnHead || (c.presence == PresentOnBoth && c.changed == Some(true))
  }

  predicate IsShared(c: Comparison) { c.presence == PresentOnBoth && c.head.Some? }

  predicate Inside(s: Symbol, r: Reference) { r.path == s.path && s.start <= r.start <= s.end }

  /** A reference resolves to a target: by its import expansion if it has one, else by a same-file name. */
  predicate ResolvesTo(s: Symbol, r: Reference, t: Symbol) {
    match r.expansion
    case Some(x) => x in Expansions(t)
    case None => t.path == s.path && SameFileName(s, r) == Some(t.name)
  }

  /** Some reference inside the definition of shared `c` resolves to HEAD target `d`. */
  ghost predicate DependsOn(refs: seq<Reference>, c: Comparison, d: Comparison) {
    && IsShared(c) && d.head.Some?
    && exists r :: r in refs && Inside(c.head.value, r) && ResolvesTo(c.head.value, r, d.head.value)
  }

  /** The naive dependency graph, quantifying over every symbol, reference and target. */
  ghost predicate Edge(cs: seq<Comparison>, refs: seq<Reference>, a: Identity, b: Identity) {
    exists c, d :: c in cs && d in cs && c.id == a && d.id == b && DependsOn(refs, c, d)
  }

  ghost predicate Seed(cs: seq<Comparison>, a: Identity) {
    exists c :: c in cs && c.id == a && IsSeed(c)
  }

  /** `a` is a seed or reaches one along at most `n` edges. */
  ghost predicate Reaches(cs: seq<Comparison>, refs: seq<Reference>, a: Identity, n: nat)
    decreases n
  {
    Seed(cs, a) || (n > 0 && exists b :: Edge(cs, refs, a, b) && Reaches(cs, refs, b, n - 1))
  }

  // --- What the names mean ---------------------------------------------------------------------------

  lemma {:induction false} BeforeLastDotIs(p: string, m: string)
    requires '.' !in m
    ensures BeforeLastDot(p + "." + m) == Some(p)
  {
    var s := p + "." + m;
    if m == "" {
      assert s[|s| - 1] == '.' && s[..|s| - 1] == p;
    } else {
      assert s[|s| - 1] == m[|m| - 1] && s[..|s| - 1] == p + "." + m[..|m| - 1];
      BeforeLastDotIs(p, m[..|m| - 1]);
    }
  }

  /** An expression without a dot refers to the module-level definition of its name. */
  lemma BareNameResolves(s: Symbol, r: Reference)
    requires '.' !in r.expression
    ensures SameFileName(s, r) == Some(r.name)
  {
  }

  /**
   * `self.x` and `cls.x` in a method or attribute `p.m` refer to `p.x`; in a class `C`, or in a plain name, to `C.x`.
   */
  lemma SelfResolves(s: Symbol, r: Reference, x: string)
    requires (r.expression == "self" + "." + x || r.expression == "cls" + "." + x) && r.name == x && '.' !in x
    ensures s.kind == ClassKind || '.' !in s.name ==> SameFileName(s, r) == Some(s.name + "." + x)
    ensures forall p: string, m: string {:trigger p + "." + m} |
              s.kind != ClassKind && s.name == p + "." + m && '.' !in m :: SameFileName(s, r) == Some(p + "." + x)
  {
    BeforeLastDotIs(if r.expression == "self" + "." + x then "self" else "cls", x);
    forall p: string, m: string {:trigger p + "." + m} | s.kind != ClassKind && s.name == p + "." + m && '.' !in m
      ensures SameFileName(s, r) == Some(p + "." + x)
    {
      BeforeLastDotIs(p, m);
    }
  }

  /** Attributes of any other receiver refer to nothing in the file. */
  lemma OtherReceiverResolvesToNothing(s: Symbol, r: Reference, receiver: string, x: string)
    requires r.expression == receiver + "." + x && '.' !in x && receiver != "self" && receiver != "cls"
    ensures SameFileName(s, r).None?
  {
    BeforeLastDotIs(receiver, x);
  }

  /** A symbol is imported under its module's name, or under the part after `src.` when it lives below `src/`. */
  lemma ImportedUnder(t: Symbol, x: string)
    ensures x in Expansions(t) <==>
            || x == t.home + "." + t.name
            || ("src/" <= t.path && exists rest: string :: t.home == "src." + rest && x == rest + "." + t.name)
  {
    if "src." <= t.home {
      assert t.home == "src." + t.home[4..];
    }
    forall rest: string | t.home == "src." + rest ensures rest == t.home[4..] {
    }
  }

  /** A symbol whose lines contain no reference of its file depends on nothing. */
  lemma NothingInsideDependsOnNothing(cs: seq<Comparison>, refs: seq<Reference>, c: Comparison, b: Identity)
    requires forall d | d in cs && d.id == c.id :: d == c
    requires c.head.Some? ==>
               forall r | r in refs :: r.path != c.head.value.path || r.start < c.head.value.start
                                       || r.start > c.head.value.end
    ensures !Edge(cs, refs, c.id, b)
  {
  }

  lemma OneHop(cs: seq<Comparison>, refs: seq<Reference>, c: Comparison, d: Comparison, hops: nat)
    requires c in cs && d in cs && DependsOn(refs, c, d) && IsSeed(d) && hops >= 1
    ensures Reaches(cs, refs, c.id, hops)
  {
    assert Seed(cs, d.id) && Edge(cs, refs, c.id, d.id);
    assert Reaches(cs, refs, d.id, hops - 1);
  }

  /** A shared method that refers to a changed or new sibling through `self` or `cls` is relevant from one hop on. */
  lemma SiblingIsRelevant(cs: seq<Comparison>, refs: seq<Reference>, c: Comparison, d: Comparison, r: Reference,
                          p: string, m: string, x: string, hops: nat)
    requires c in cs && d in cs && r in refs && hops >= 1
    requires c.presence == PresentOnBoth && c.head.Some? && d.head.Some?
    requires d.presence == NewOnHead || (d.presence == PresentOnBoth && d.changed == Some(true))
    requires c.head.value.kind != ClassKind && c.head.value.name == p + "." + m && '.' !in m
    requires d.head.value.path == c.head.value.path && d.head.value.name == p + "." + x && '.' !in x
    requires r.path == c.head.value.path && c.head.value.start <= r.start <= c.head.value.end && r.expansion.None?
    requires (r.expression == "self" + "." + x || r.expression == "cls" + "." + x) && r.name == x
    ensures Reaches(cs, refs, c.id, hops)
  {
    SelfResolves(c.head.value, r, x);
    OneHop(cs, refs, c, d, hops);
  }

  /** So is a shared symbol that calls a changed or new module-level one of its file by its bare name. */
  lemma BareCallerIsRelevant(cs: seq<Comparison>, refs: seq<Reference>, c: Comparison, d: Comparison, r: Reference,
                             hops: nat)
    requires c in cs && d in cs && r in refs && hops >= 1
    requires c.presence == PresentOnBoth && c.head.Some? && d.head.Some?
    requires d.presence == NewOnHead || (d.presence == PresentOnBoth && d.changed == Some(true))
    requires r.path == c.head.value.path && c.head.value.start <= r.start <= c.head.value.end && r.expansion.None?
    requires '.' !in r.expression && d.head.value.path == r.path && d.head.value.name == r.name
    ensures Reaches(cs, refs, c.id, hops)
  {
    OneHop(cs, refs, c, d, hops);
  }

  /** And one that refers to a changed or new symbol of any file through its import. */
  lemma ImporterIsRelevant(cs: seq<Comparison>, refs: seq<Reference>, c: Comparison, d: Comparison, r: Reference,
                           hops: nat)
    requires c in cs && d in cs && r in refs && hops >= 1
    requires c.presence == PresentOnBoth && c.head.Some? && d.head.Some?
    requires d.presence == NewOnHead || (d.presence == PresentOnBoth && d.changed == Some(true))
    requires r.path == c.head.value.path && c.head.value.start <= r.start <= c.head.value.end
    requires r.expansion == Some(d.head.value.home + "." + d.head.value.name)
    ensures Reaches(cs, refs, c.id, hops)
  {
    OneHop(cs, refs, c, d, hops);
  }

  // --- The source's three lookup tables ------------------------------------------------------------

  function Get<K, V>(m: map<K, set<V>>, k: K): set<V> { if k in m then m[k] else {} }

  function Add<K, V>(m: map<K, set<V>>, k: K, v: V): map<K, set<V>> { m[k := Get(m, k) + {v}] }

  function GetSeq<K, V>(m: map<K, seq<V>>, k: K): seq<V> { if k in m then m[k] else [] }

  ghost predicate ExpandsTo(cs: seq<Comparison>, x: string, b: Identity) {
    exists d :: d in cs && d.head.Some? && d.id == b && x in Expansions(d.head.value)
  }

  ghost predicate NamedTo(cs: seq<Comparison>, key: (string, string), b: Identity) {
    exists d :: d in cs && d.head.Some? && d.id == b && (d.head.value.path, d.head.value.name) == key
  }

  ghost predicate ByExpansionOk(m: map<string, set<Identity>>, cs: seq<Comparison>, x: string, b: Identity) {
    b in Get(m, x) <==> ExpandsTo(cs, x, b)
  }

  ghost predicate ByNameOk(m: map<(string, string), set<Identity>>, cs: seq<Comparison>, key: (string, string),
      b: Identity) {
    b in Get(m, key) <==> NamedTo(cs, key, b)
  }

  ghost predicate ByPathOk(m: map<string, seq<Reference>>, refs: seq<Reference>, p: string, r: Reference) {
    r in GetSeq(m, p) <==> r in refs && r.path == p
  }

  lemma ExpandsToAppend(cs: seq<Comparison>, c: Comparison, x: string, b: Identity)
    ensures ExpandsTo(cs + [c], x, b) <==>
            ExpandsTo(cs, x, b) || (c.head.Some? && c.id == b && x in Expansions(c.head.value))
  {
    assert forall d :: d in cs + [c] <==> d in cs || d == c;
  }

  lemma NamedToAppend(cs: seq<Comparison>, c: Comparison, key: (string, string), b: Identity)
    ensures NamedTo(cs + [c], key, b) <==>
            NamedTo(cs, key, b) || (c.head.Some? && c.id == b && (c.head.value.path, c.head.value.name) == key)
  {
    assert forall d :: d in cs + [c] <==> d in cs || d == c;
  }

  method IndexTargets(cs: seq<Comparison>)
    returns (byExpansion: map<string, set<Identity>>, byName: map<(string, string), set<Identity>>)
    ensures forall x, b :: ByExpansionOk(byExpansion, cs, x, b)
    ensures forall key, b :: ByNameOk(byName, cs, key, b)
  {
    byExpansion, byName := map[], map[];
    for i := 0 to |cs|
      invariant forall x, b :: ByExpansionOk(byExpansion, cs[..i], x, b)
      invariant forall key, b :: ByNameOk(byName, cs[..i], key, b)
    {
      var c := cs[i];
      ghost var front, next, oldExpansion, oldName := cs[..i], cs[..i + 1], byExpansion, byName;
      assert next == front + [c];
      if c.head.Some? {
        var t := c.head.value;
        byExpansion := Add(byExpansion, t.home + "." + t.name, c.id);
        if "src/" <= t.path && "src." <= t.home {
          byExpansion := Add(byExpansion, t.home[4..] + "." + t.name, c.id);
        }
        byName := Add(byName, (t.path, t.name), c.id);
      }
      forall x, b ensures ByExpansionOk(byExpansion, next, x, b) {
        assert ByExpansionOk(oldExpansion, front, x, b);
        ExpandsToAppend(front, c, x, b);
      }
      forall key, b ensures ByNameOk(byName, next, key, b) {
        assert ByNameOk(oldName, front, key, b);
        NamedToAppend(front, c, key, b);
      }
    }
    assert cs[..|cs|] == cs;
  }

  method IndexReferences(refs: seq<Reference>) returns (byPath: map<string, seq<Reference>>)
    ensures forall p, r :: ByPathOk(byPath, refs, p, r)
  {
    byPath := map[];
    for i := 0 to |refs|
      invariant forall p, r :: ByPathOk(byPath, refs[..i], p, r)
    {
      var r := refs[i];
      ghost var front, next, before := refs[..i], refs[..i + 1], byPath;
      assert next == front + [r];
      byPath := byPath[r.path := GetSeq(byPath, r.path) + [r]];
      forall p, q ensures ByPathOk(byPath, next, p, q) {
        assert ByPathOk(before, front, p, q);
      }
    }
    assert refs[..|refs|] == refs;
  }

  /** What one shared definition depends on, according to the references `refs`. */
  ghost predicate Targets(cs: seq<Comparison>, refs: seq<Reference>, c: Comparison, b: Identity) {
    exists d :: d in cs && d.id == b && DependsOn(refs, c, d)
  }

  ghost predicate TargetOk(deps: set<Identity>, cs: seq<Comparison>, refs: seq<Reference>, c: Comparison, b: Identity) {
    b in deps <==> Targets(cs, refs, c, b)
  }

  /** The targets one reference contributes, looked up in the tables. */
  lemma OneReference(cs: seq<Comparison>, s: Symbol, r: Reference, b: Identity,
                     byExpansion: map<string, set<Identity>>, byName: map<(string, string), set<Identity>>)
    requires forall x, q :: ByExpansionOk(byExpansion, cs, x, q)
    requires forall key, q :: ByNameOk(byName, cs, key, q)
    ensures (exists d :: d in cs && d.id == b && d.head.Some? && ResolvesTo(s, r, d.head.value)) <==>
            match r.expansion
            case Some(x) => b in Get(byExpansion, x)
            case None => SameFileName(s, r).Some? && b in Get(byName, (s.path, SameFileName(s, r).value))
  {
    if r.expansion.Some? {
      assert ByExpansionOk(byExpansion, cs, r.expansion.value, b);
    } else if SameFileName(s, r).Some? {
      assert ByNameOk(byName, cs, (s.path, SameFileName(s, r).value), b);
    }
  }

  lemma TargetsAppend(cs: seq<Comparison>, refs: seq<Reference>, r: Reference, c: Comparison, b: Identity)
    requires IsShared(c)
    ensures Targets(cs, refs + [r], c, b) <==>
            || Targets(cs, refs, c, b)
            || (Inside(c.head.value, r)
                && exists d :: d in cs && d.id == b && d.head.Some? && ResolvesTo(c.head.value, r, d.head.value))
  {
    forall d ensures DependsOn(refs + [r], c, d) <==>
        DependsOn(refs, c, d) || (d.head.Some? && Inside(c.head.value, r) && ResolvesTo(c.head.value, r, d.head.value))
    {
      assert forall q :: q in refs + [r] <==> q in refs || q == r;
    }
  }

  /** References of other files are outside the definition, so the per-file list is enough. */
  lemma SameFileEnough(cs: seq<Comparison>, refs: seq<Reference>, local: seq<Reference>, c: Comparison, b: Identity)
    requires IsShared(c) && forall r :: r in local <==> r in refs && r.path == c.head.value.path
    ensures Targets(cs, refs, c, b) <==> Targets(cs, local, c, b)
  {
    forall d ensures DependsOn(refs, c, d) <==> DependsOn(local, c, d) {
    }
  }

  method DependenciesOf(cs: seq<Comparison>, ghost refs: seq<Reference>, c: Comparison,
                        byExpansion: map<string, set<Identity>>, byName: map<(string, string), set<Identity>>,
                        byPath: map<string, seq<Reference>>) returns (deps: set<Identity>)
    requires IsShared(c)
    requires forall x, q :: ByExpansionOk(byExpansion, cs, x, q)
    requires forall key, q :: ByNameOk(byName, cs, key, q)
    requires forall p, r :: ByPathOk(byPath, refs, p, r)
    ensures forall b :: TargetOk(deps, cs, refs, c, b)
  {
    var s := c.head.value;
    var local := GetSeq(byPath, s.path);
    deps := {};
    for i := 0 to |local|
      invariant forall b :: TargetOk(deps, cs, local[..i], c, b)
    {
      var r := local[i];
      ghost var front, next, before := local[..i], local[..i + 1], deps;
      assert next == front + [r];
      assert ByPathOk(byPath, refs, s.path, r);
      if s.start <= r.start <= s.end {
        if r.expansion.Some? {
          deps := deps + Get(byExpansion, r.expansion.value);
        } else {
          var name := SameFileName(s, r);
          if name.Some? {
            deps := deps + Get(byName, (s.path, name.value));
          }
        }
      }
      forall b ensures TargetOk(deps, cs, next, c, b) {
        assert TargetOk(before, cs, front, c, b);
        TargetsAppend(cs, front, r, c, b);
        OneReference(cs, s, r, b, byExpansion, byName);
      }
    }
    assert local[..|local|] == local;
    forall b ensures TargetOk(deps, cs, refs, c, b) {
      forall r ensures r in local <==> r in refs && r.path == s.path {
        assert ByPathOk(byPath, refs, s.path, r);
      }
      SameFileEnough(cs, refs, local, c, b);
      assert TargetOk(deps, cs, local, c, b);
    }
  }

  // --- The graph and its closure -------------------------------------------------------------------

  /** Edges contributed by the first comparisons `done` of `cs`. */
  ghost predicate EdgeFrom(done: seq<Comparison>, cs: seq<Comparison>, refs: seq<Reference>, a: Identity, b: Identity) {
    exists c :: c in done && c.id == a && Targets(cs, refs, c, b)
  }

  ghost predicate GraphOk(g: map<Identity, set<Identity>>, done: seq<Comparison>, cs: seq<Comparison>,
      refs: seq<Reference>, a: Identity, b: Identity) {
    b in Get(g, a) <==> EdgeFrom(done, cs, refs, a, b)
  }

  /** The dependency graph built through the three tables is the naive one. */
  method DependencyGraph(cs: seq<Comparison>, refs: seq<Reference>) returns (g: map<Identity, set<Identity>>)
    ensures forall a, b :: b in Get(g, a) <==> Edge(cs, refs, a, b)
  {
    var byExpansion, byName := IndexTargets(cs);
    var byPath := IndexReferences(refs);
    g := map[];
    for i := 0 to |cs|
      invariant forall a, b :: GraphOk(g, cs[..i], cs, refs, a, b)
    {
      var c := cs[i];
      ghost var front, next, before := cs[..i], cs[..i + 1], g;
      assert next == front + [c];
      if IsShared(c) {
        var deps := DependenciesOf(cs, refs, c, byExpansion, byName, byPath);
        g := g[c.id := Get(g, c.id) + deps];
        forall a, b ensures GraphOk(g, next, cs, refs, a, b) {
          assert GraphOk(before, front, cs, refs, a, b) && TargetOk(deps, cs, refs, c, b);
          EdgeFromAppend(front, c, cs, refs, a, b);
        }
      } else {
        forall a, b ensures GraphOk(g, next, cs, refs, a, b) {
          assert GraphOk(before, front, cs, refs, a, b);
          EdgeFromAppend(front, c, cs, refs, a, b);
        }
      }
    }
    assert cs[..|cs|] == cs;
    forall a, b ensures b in Get(g, a) <==> Edge(cs, refs, a, b) {
      assert GraphOk(g, cs, cs, refs, a, b);
      EdgeFromAll(cs, refs, a, b);
    }
  }

  lemma EdgeFromAppend(done: seq<Comparison>, c: Comparison, cs: seq<Comparison>, refs: seq<Reference>, a: Identity,
      b: Identity)
    ensures EdgeFrom(done + [c], cs, refs, a, b) <==>
            EdgeFrom(done, cs, refs, a, b) || (c.id == a && Targets(cs, refs, c, b))
  {
    assert forall d :: d in done + [c] <==> d in done || d == c;
  }

  lemma EdgeFromAll(cs: seq<Comparison>, refs: seq<Reference>, a: Identity, b: Identity)
    ensures EdgeFrom(cs, cs, refs, a, b) <==> Edge(cs, refs, a, b)
  {
    if EdgeFrom(cs, cs, refs, a, b) {
      var c :| c in cs && c.id == a && Targets(cs, refs, c, b);
      var d :| d in cs && d.id == b && DependsOn(refs, c, d);
      assert Edge(cs, refs, a, b);
    }
    if Edge(cs, refs, a, b) {
      var c, d :| c in cs && d in cs && c.id == a && d.id == b && DependsOn(refs, c, d);
      assert Targets(cs, refs, c, b);
    }
  }

  method Seeds(cs: seq<Comparison>) returns (seeds: set<Identity>)
    ensures forall a :: a in seeds <==> Seed(cs, a)
  {
    seeds := set c | c in cs && IsSeed(c) :: c.id;
  }

  /** One hop adds exactly the identities with an edge into the set so far. */
  lemma OneMoreHop(cs: seq<Comparison>, refs: seq<Reference>, relevant: set<Identity>, k: nat, a: Identity)
    requires forall x :: x in relevant <==> Reaches(cs, refs, x, k)
    ensures Reaches(cs, refs, a, k + 1) <==> a in relevant || exists b :: b in relevant && Edge(cs, refs, a, b)
  {
    if Reaches(cs, refs, a, k) {
      ReachesGrows(cs, refs, a, k);
    }
  }

  lemma {:induction false} ReachesGrows(cs: seq<Comparison>, refs: seq<Reference>, a: Identity, n: nat)
    requires Reaches(cs, refs, a, n)
    ensures Reaches(cs, refs, a, n + 1)
    decreases n
  {
    if !Seed(cs, a) {
      var b :| Edge(cs, refs, a, b) && Reaches(cs, refs, b, n - 1);
      ReachesGrows(cs, refs, b, n - 1);
    }
  }

  /** Once a hop adds nothing, no later hop would: the early exit loses no identity. */
  lemma {:induction false} FixpointIsFinal(cs: seq<Comparison>, refs: seq<Reference>, relevant: set<Identity>,
      k: nat, n: nat, a: Identity)
    requires forall x :: x in relevant <==> Reaches(cs, refs, x, k)
    requires forall x, b :: b in relevant && Edge(cs, refs, x, b) ==> x in relevant
    requires k <= n
    ensures Reaches(cs, refs, a, n) ==> a in relevant
    decreases n
  {
    if Reaches(cs, refs, a, n) && n > k && !Seed(cs, a) {
      var b :| Edge(cs, refs, a, b) && Reaches(cs, refs, b, n - 1);
      FixpointIsFinal(cs, refs, relevant, k, n - 1, b);
    } else if n > k && Seed(cs, a) {
      assert Reaches(cs, refs, a, k);
    }
  }

  lemma {:induction false} ReachesUpTo(cs: seq<Comparison>, refs: seq<Reference>, a: Identity, k: nat, n: nat)
    requires Reaches(cs, refs, a, k) && k <= n
    ensures Reaches(cs, refs, a, n)
    decreases n - k
  {
    if k < n {
      ReachesGrows(cs, refs, a, k);
      ReachesUpTo(cs, refs, a, k + 1, n);
    }
  }

  /**
   * `_relevance_identities`: an identity is returned if and only if it is a changed or new symbol, or reaches one along
   * at most `hops` dependency edges.
   */
  method RelevanceIdentities(cs: seq<Comparison>, refs: seq<Reference>, hops: nat) returns (relevant: set<Identity>)
    ensures forall a :: a in relevant <==> Reaches(cs, refs, a, hops)
  {
    relevant := Seeds(cs);
    var g := DependencyGraph(cs, refs);
    for k := 0 to hops
      invariant forall a :: a in relevant <==> Reaches(cs, refs, a, k)
    {
      var reached := set a | a in g && g[a] * relevant != {};
      var additions := reached - relevant;
      forall a ensures a in reached <==> exists b :: b in relevant && Edge(cs, refs, a, b) {
        if a in reached {
          var b :| b in g[a] * relevant;
          assert b in Get(g, a);
        }
        if b :| b in relevant && Edge(cs, refs, a, b) {
          assert b in Get(g, a);
          assert b in g[a] * relevant;
        }
      }
      if additions == {} {
        assert forall x :: x in reached && x !in relevant ==> x in additions;
        forall a ensures a in relevant <==> Reaches(cs, refs, a, hops) {
          FixpointIsFinal(cs, refs, relevant, k, hops, a);
          if a in relevant {
            ReachesUpTo(cs, refs, a, k, hops);
          }
        }
        return;
      }
      ghost var before := relevant;
      relevant := relevant + additions;
      forall a ensures a in relevant <==> Reaches(cs, refs, a, k + 1) {
        OneMoreHop(cs, refs, before, k, a);
      }
    }
  }
}
