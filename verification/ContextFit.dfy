/** Fitting a retrieved context to its JSON budget (`context_retrieval.py`). */
module ContextFit {
  import opened Prelude

  const MARKER := "\n... [deterministically truncated by PatchProof]"
  const DIFF_FLOOR := 2_000

  /** The parts of a pull-request context that fitting may drop; `rest` stands for all the others. */
  datatype Context = Context(diff: string, snippets: seq<string>, files: seq<string>, truncated: bool, rest: string)

  /** `_truncate`. */
  function Truncate(value: string, maximum: nat): (r: (string, bool))
    ensures |r.0| == Min(|value|, maximum)
    ensures r.1 <==> |value| > maximum
    ensures !r.1 ==> r.0 == value
  {
    if |value| <= maximum then (value, false)
    else if maximum <= |MARKER| then (MARKER[..maximum], true)
    else (value[..maximum - |MARKER|] + MARKER, true)
  }

  /** One round of the loop, or None when nothing is left to drop. */
  function Shrink(c: Context): Option<Context> {
    if |c.diff| > DIFF_FLOOR then
      Some(c.(diff := Truncate(c.diff, Max(DIFF_FLOOR, |c.diff| - 2_000)).0, truncated := true))
    else if c.snippets != [] then Some(c.(snippets := c.snippets[..|c.snippets| - 1], truncated := true))
    else if |c.files| > 1 then Some(c.(files := c.files[..|c.files| - 1], truncated := true))
    else None
  }

  /** Every round drops something, so there are finitely many. */
  function Size(c: Context): nat { |c.diff| + |c.snippets| + |c.files| }

  lemma ShrinkDrops(c: Context)
    ensures Shrink(c).Some? ==> Size(Shrink(c).value) < Size(c)
  {
  }

  /** The context after `n` rounds; None when a round had nothing to drop. */
  function Rounds(c: Context, n: nat): Option<Context> {
    if n == 0 then Some(c)
    else
      match Rounds(c, n - 1)
      case None => None
      case Some(d) => Shrink(d)
  }

  /** How any round relates to the original. */
  ghost predicate ShrunkFrom(c: Context, d: Context) {
    && d.snippets <= c.snippets
    && d.files <= c.files
    && (c.files != [] ==> d.files != [])
    && d.rest == c.rest
    && MarkedPrefix(c.diff, d.diff)
    && (d.diff == c.diff || |d.diff| >= DIFF_FLOOR)
    && (d == c || d.truncated)
    && (d != c ==> Size(d) < Size(c))
  }

  /** The diff of some round: the original, or a prefix of it and exactly one marker. */
  ghost predicate MarkedPrefix(original: string, diff: string) {
    diff == original || exists k :: 0 <= k < |original| && diff == original[..k] + MARKER
  }

  /** Truncating a marked prefix again cuts the old marker off with the text before it. */
  lemma TruncateAgain(original: string, diff: string)
    requires MarkedPrefix(original, diff) && |diff| > DIFF_FLOOR
    ensures MarkedPrefix(original, Truncate(diff, Max(DIFF_FLOOR, |diff| - 2_000)).0)
  {
    var maximum := Max(DIFF_FLOOR, |diff| - 2_000);
    var cut := maximum - |MARKER|;
    if diff != original {
      var k :| 0 <= k < |original| && diff == original[..k] + MARKER;
      assert cut <= k;
      assert diff[..cut] == original[..cut];
    }
    assert Truncate(diff, maximum).0 == original[..cut] + MARKER;
  }

  /** However many rounds ran, what is left of the diff is one original prefix and one marker. */
  lemma ShrinkKeepsShape(c: Context, d: Context)
    requires ShrunkFrom(c, d) && Shrink(d).Some?
    ensures ShrunkFrom(c, Shrink(d).value)
  {
    ShrinkDrops(d);
    if |d.diff| > DIFF_FLOOR {
      TruncateAgain(c.diff, d.diff);
    }
  }

  lemma {:induction false} RoundsKeepShape(c: Context, n: nat)
    ensures Rounds(c, n).Some? ==> ShrunkFrom(c, Rounds(c, n).value)
  {
    if n > 0 {
      RoundsKeepShape(c, n - 1);
      if Rounds(c, n - 1).Some? && Shrink(Rounds(c, n - 1).value).Some? {
        ShrinkKeepsShape(c, Rounds(c, n - 1).value);
      }
    }
  }

  /** Nothing more can be dropped: the diff is at its floor, there are no snippets and at most one file. */
  predicate Minimal(c: Context) { |c.diff| <= DIFF_FLOOR && c.snippets == [] && |c.files| <= 1 }

  /**
   * `_fit_json_budget`, for any serializer length. It stops at the first round that fits; it fails only when even the
   * minimum context is too long; and what it returns is the original with trailing parts dropped, flagged as such.
   */
  method FitJsonBudget(context: Context, budget: nat, json: Context -> nat)
      returns (r: Option<Context>, ghost rounds: nat)
    ensures Rounds(context, rounds).Some?
    ensures forall i | 0 <= i < rounds :: Rounds(context, i).Some? && json(Rounds(context, i).value) > budget
    ensures r.Some? ==> Rounds(context, rounds) == r && json(r.value) <= budget && ShrunkFrom(context, r.value)
    ensures r.None? ==> Minimal(Rounds(context, rounds).value) && json(Rounds(context, rounds).value) > budget
    ensures r.Some? && json(context) <= budget ==> r.value == context
  {
    var candidate := context;
    rounds := 0;
    while json(candidate) > budget
      invariant Rounds(context, rounds) == Some(candidate)
      invariant ShrunkFrom(context, candidate)
      invariant forall i | 0 <= i < rounds :: Rounds(context, i).Some? && json(Rounds(context, i).value) > budget
      decreases Size(candidate)
    {
      if Shrink(candidate).Some? {
        ShrinkKeepsShape(context, candidate);
        ShrinkDrops(candidate);
      }
      if |candidate.diff| > DIFF_FLOOR {
        var bounded := Truncate(candidate.diff, Max(DIFF_FLOOR, |candidate.diff| - 2_000));
        candidate := candidate.(diff := bounded.0);
      } else if candidate.snippets != [] {
        candidate := candidate.(snippets := candidate.snippets[..|candidate.snippets| - 1]);
      } else if |candidate.files| > 1 {
        candidate := candidate.(files := candidate.files[..|candidate.files| - 1]);
      } else {
        return None, rounds;
      }
      candidate := candidate.(truncated := true);
      rounds := rounds + 1;
    }
    return Some(candidate), rounds;
  }

  /** One round shortens a long diff by up to two thousand characters; then drops a snippet; then all files but one. */
  lemma ShrinkMeans(c: Context)
    ensures |c.diff| > 2_000 ==>
              && Shrink(c).Some? && |Shrink(c).value.diff| == Max(2_000, |c.diff| - 2_000)
              && Shrink(c).value.snippets == c.snippets && Shrink(c).value.files == c.files
    ensures |c.diff| <= 2_000 && c.snippets != [] ==>
              && Shrink(c).Some? && Shrink(c).value.diff == c.diff && Shrink(c).value.files == c.files
              && Shrink(c).value.snippets + [c.snippets[|c.snippets| - 1]] == c.snippets
    ensures |c.diff| <= 2_000 && c.snippets == [] && |c.files| > 1 ==>
              && Shrink(c).Some? && Shrink(c).value.diff == c.diff && Shrink(c).value.snippets == []
              && Shrink(c).value.files + [c.files[|c.files| - 1]] == c.files
    ensures Minimal(c) <==> Shrink(c).None?
    ensures Shrink(c).Some? ==> Shrink(c).value.truncated && Shrink(c).value.rest == c.rest
  {
  }
}
