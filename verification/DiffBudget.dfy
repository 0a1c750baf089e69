/** Cutting the per-file diffs of a pull request to their budgets (`context_retrieval.py`, `_bounded_diff`). */
module DiffBudget {
  import opened Prelude
  import opened ContextFit

  /** `max_diff_chars` and `max_diff_chars_per_file`. */
  datatype Limits = Limits(total: nat, perFile: nat)

  predicate LimitsOk(l: Limits) { 0 < l.perFile <= l.total }

  datatype Cut = Cut(shown: seq<string>, truncated: bool)

  /** What is shown of the sections when `remaining` characters are left. */
  function CutFrom(sections: seq<string>, remaining: nat, perFile: nat): Cut {
    if sections == [] then Cut([], false)
    else if remaining <= |MARKER| then Cut([], true)
    else if sections[0] == "" then CutFrom(sections[1..], remaining, perFile)
    else
      var (bounded, cut) := Truncate(sections[0], Min(perFile, remaining));
      var rest := CutFrom(sections[1..], remaining - |bounded|, perFile);
      Cut([bounded] + rest.shown, cut || rest.truncated)
  }

  function Join(parts: seq<string>): string {
    if parts == [] then ""
    else if |parts| == 1 then parts[0]
    else parts[0] + "\n" + Join(parts[1..])
  }

  /** `_bounded_diff`, on the sections in priority order. */
  method BoundedDiff(sections: seq<string>, l: Limits) returns (diff: string, truncated: bool)
    ensures diff == Join(CutFrom(sections, l.total, l.perFile).shown)
    ensures truncated == CutFrom(sections, l.total, l.perFile).truncated
  {
    var shown: seq<string> := [];
    var remaining: nat := l.total;
    truncated := false;
    ghost var whole := CutFrom(sections, l.total, l.perFile);
    assert sections[0..] == sections;
    for i := 0 to |sections|
      invariant var rest := CutFrom(sections[i..], remaining, l.perFile);
                whole.shown == shown + rest.shown && whole.truncated == (truncated || rest.truncated)
    {
      assert sections[i..][1..] == sections[i + 1..];
      if remaining <= |MARKER| {
        truncated := true;
        assert shown + [] == shown;
        return Join(shown), truncated;
      }
      if sections[i] == "" {
        continue;
      }
      var bounded := Truncate(sections[i], Min(l.perFile, remaining));
      shown := shown + [bounded.0];
      remaining := remaining - |bounded.0|;
      truncated := truncated || bounded.1;
    }
    assert shown + [] == shown;
    return Join(shown), truncated;
  }

  // --- Nothing is lost silently ----------------------------------------------------------------------

  function Sum(parts: seq<string>): nat { if parts == [] then 0 else |parts[0]| + Sum(parts[1..]) }

  function NonEmpty(parts: seq<string>): seq<string> {
    if parts == [] then []
    else (if parts[0] == "" then [] else [parts[0]]) + NonEmpty(parts[1..])
  }

  /** A part is what truncation leaves of a section. */
  ghost predicate IsCut(part: string, section: string) { exists n: nat :: part == Truncate(section, n).0 }

  /** A cut part is the whole section, a prefix of it and the marker, or, in less room than that, the marker's start. */
  lemma CutMeans(part: string, section: string)
    ensures IsCut(part, section) ==>
              || part == section
              || (exists k :: 0 <= k < |section| && part == section[..k] + MARKER)
              || (part <= MARKER && |part| < |section|)
  {
    if n: nat :| part == Truncate(section, n).0 {
      if |MARKER| < n < |section| {
        assert part == section[..n - |MARKER|] + MARKER;
      }
    }
  }

  /**
   * Part by part, what is shown is the non-empty sections in order, each whole or cut; only a tail of them is missing.
   */
  lemma {:induction false} ShownFollowsSections(sections: seq<string>, remaining: nat, perFile: nat)
    ensures var shown := CutFrom(sections, remaining, perFile).shown;
            && |shown| <= |NonEmpty(sections)|
            && forall i :: 0 <= i < |shown| ==> IsCut(shown[i], NonEmpty(sections)[i])
  {
    if sections != [] && remaining > |MARKER| {
      var bounded := Truncate(sections[0], Min(perFile, remaining)).0;
      ShownFollowsSections(sections[1..], remaining - |bounded|, perFile);
      if sections[0] != "" {
        assert NonEmpty(sections) == [sections[0]] + NonEmpty(sections[1..]);
        assert IsCut(bounded, sections[0]);
      }
    }
  }

  /** Section `i` is reached with more than a marker's worth of budget left, and fits both limits whole. */
  ghost predicate FitsAt(sections: seq<string>, remaining: int, perFile: nat, i: nat)
    requires i < |sections|
  {
    && remaining - Sum(sections[..i]) > |MARKER|
    && |sections[i]| <= perFile
    && |sections[i]| <= remaining - Sum(sections[..i])
  }

  lemma FitsAtTail(sections: seq<string>, remaining: int, perFile: nat, i: nat)
    requires 0 < i < |sections|
    ensures FitsAt(sections, remaining, perFile, i) <==>
        FitsAt(sections[1..], remaining - |sections[0]|, perFile, i - 1)
  {
    assert sections[..i][1..] == sections[1..][..i - 1];
  }

  /** The truncation flag is clear exactly when every section fits as a whole, and then all of them are shown. */
  lemma {:induction false} UnflaggedExactlyWhenWhole(sections: seq<string>, remaining: nat, perFile: nat)
    requires perFile > 0
    ensures !CutFrom(sections, remaining, perFile).truncated
       <==> forall i: nat | i < |sections| :: FitsAt(sections, remaining, perFile, i)
    ensures !CutFrom(sections, remaining, perFile).truncated
        ==> CutFrom(sections, remaining, perFile).shown == NonEmpty(sections)
  {
    if sections != [] {
      var head, tail := sections[0], sections[1..];
      assert FitsAt(sections, remaining, perFile, 0) <==> remaining > |MARKER| && |head| <= Min(perFile, remaining);
      forall i | 0 < i < |sections|
        ensures FitsAt(sections, remaining, perFile, i) <==> FitsAt(tail, remaining - |head|, perFile, i - 1)
      {
        FitsAtTail(sections, remaining, perFile, i);
      }
      if FitsAt(sections, remaining, perFile, 0) {
        UnflaggedExactlyWhenWhole(tail, remaining - |head|, perFile);
        AllShift(sections, tail, remaining, remaining - |head|, perFile);
      }
    }
  }

  lemma AllShift(sections: seq<string>, tail: seq<string>, remaining: nat, left: nat, perFile: nat)
    requires sections != [] && tail == sections[1..] && left == remaining - |sections[0]|
    requires FitsAt(sections, remaining, perFile, 0)
    ensures (forall i: nat | i < |sections| :: FitsAt(sections, remaining, perFile, i))
       <==> (forall j: nat | j < |tail| :: FitsAt(tail, left, perFile, j))
  {
    if forall i: nat | i < |sections| :: FitsAt(sections, remaining, perFile, i) {
      forall j: nat | j < |tail| ensures FitsAt(tail, left, perFile, j) {
        FitsAtTail(sections, remaining, perFile, j + 1);
      }
    }
    if forall j: nat | j < |tail| :: FitsAt(tail, left, perFile, j) {
      forall i: nat | i < |sections| ensures FitsAt(sections, remaining, perFile, i) {
        if i > 0 {
          FitsAtTail(sections, remaining, perFile, i);
        }
      }
    }
  }

  // --- How long the diff can be ------------------------------------------------------------------------

  /** The line breaks between sections are not charged to the budget. */
  lemma {:induction false} JoinLength(parts: seq<string>)
    ensures |Join(parts)| == Sum(parts) + (if parts == [] then 0 else |parts| - 1)
  {
    if |parts| > 1 {
      JoinLength(parts[1..]);
    } else if |parts| == 1 {
      assert parts[1..] == [];
    }
  }

  /** Every section that is not empty starts with the same header, as each `git diff` section starts with its own. */
  ghost predicate Printable(sections: seq<string>, header: string) {
    forall s | s in sections && s != "" :: header <= s
  }

  /** What is spent when the last section follows `s` characters and uses all it may. */
  function Spend(l: Limits, s: int): int { s + Min(l.perFile, l.total - s) }

  /** The most characters `n` sections can hold: n * perFile. */
  function Capacity(n: nat, perFile: nat): nat { if n == 0 then 0 else perFile + Capacity(n - 1, perFile) }

  lemma {:induction false} CapacityIsProduct(n: nat, perFile: nat)
    ensures Capacity(n, perFile) == n * perFile
  {
    if n > 0 {
      CapacityIsProduct(n - 1, perFile);
    }
  }

  lemma {:induction false} CapacityGrows(m: nat, n: nat, p: nat, q: nat)
    requires m <= n && p <= q
    ensures Capacity(m, p) <= Capacity(n, q)
    decreases m + n
  {
    if m < n {
      CapacityGrows(m, n - 1, p, q);
    } else if n > 0 {
      CapacityGrows(m - 1, n - 1, p, q);
    }
  }

  /** How many sections of `q` characters fit in `x`: x / q, rounded down. */
  function HowMany(x: nat, q: nat): nat
    requires q > 0
  {
    if x < q then 0 else 1 + HowMany(x - q, q)
  }

  lemma {:induction false} CapacityDivides(n: nat, q: nat, x: nat)
    requires q > 0
    ensures Capacity(n, q) <= x <==> n <= HowMany(x, q)
    decreases n
  {
    if n > 0 && x >= q {
      CapacityDivides(n - 1, q, x - q);
    }
  }

  /** The fewest characters a section with a header of `m` characters shows, unless it is the last. */
  function Least(l: Limits, m: nat): nat { Min(m, l.perFile) }

  /** The most sections that can be shown of `files` changed files, with headers of `m` characters. */
  function MostShown(l: Limits, files: nat, m: nat): nat
    requires LimitsOk(l) && m > 0
  {
    if l.total <= |MARKER| then 0 else Min(files, HowMany(l.total - |MARKER| - 1, Least(l, m)) + 1)
  }

  /** The length of the longest diff that `files` changed files can produce, with headers of `m` characters. */
  function Longest(l: Limits, files: nat, m: nat): int
    requires LimitsOk(l) && m > 0
  {
    var k := MostShown(l, files, m);
    if k == 0 then 0 else Spend(l, Min(l.total - |MARKER| - 1, Capacity(k - 1, l.perFile))) + k - 1
  }

  /** The sections before the last one leave more than a marker of budget; the last one uses at most all of it. */
  ghost predicate Budgeted(shown: seq<string>, remaining: int, perFile: nat, least: nat) {
    shown != [] ==>
      var before := shown[..|shown| - 1];
      && Capacity(|before|, least) <= Sum(before) <= Capacity(|before|, perFile)
      && Sum(before) < remaining - |MARKER|
      && Sum(shown) <= Sum(before) + Min(perFile, remaining - Sum(before))
  }

  lemma OneMoreBudgeted(b: string, rest: seq<string>, remaining: nat, perFile: nat, least: nat)
    requires 0 < |b| <= Min(perFile, remaining) && remaining > |MARKER|
    requires rest != [] ==> |b| >= least
    requires Budgeted(rest, remaining - |b|, perFile, least)
    ensures Budgeted([b] + rest, remaining, perFile, least)
  {
    var shown := [b] + rest;
    assert shown[1..] == rest;
    if rest == [] {
      assert shown[..|shown| - 1] == [];
    } else {
      var before := shown[..|shown| - 1];
      assert before[0] == b && before[1..] == rest[..|rest| - 1];
    }
  }

  lemma {:induction false} ShownIsBudgeted(sections: seq<string>, remaining: nat, perFile: nat, header: string)
    requires perFile > 0 && Printable(sections, header)
    ensures |CutFrom(sections, remaining, perFile).shown| <= |sections|
    ensures Budgeted(CutFrom(sections, remaining, perFile).shown, remaining, perFile, Min(|header|, perFile))
  {
    if sections != [] && remaining > |MARKER| {
      var tail := sections[1..];
      assert forall s | s in tail :: s in sections;
      if sections[0] == "" {
        ShownIsBudgeted(tail, remaining, perFile, header);
      } else {
        assert header <= sections[0] by { assert sections[0] in sections; }
        var b := Truncate(sections[0], Min(perFile, remaining)).0;
        ShownIsBudgeted(tail, remaining - |b|, perFile, header);
        OneMoreBudgeted(b, CutFrom(tail, remaining - |b|, perFile).shown, remaining, perFile, Min(|header|, perFile));
      }
    }
  }

  lemma ShownAtMost(shown: seq<string>, l: Limits, files: nat, m: nat)
    requires LimitsOk(l) && m > 0 && |shown| <= files && shown != [] && Budgeted(shown, l.total, l.perFile, Least(l, m))
    ensures |shown| <= MostShown(l, files, m)
  {
    CapacityDivides(|shown| - 1, Least(l, m), l.total - |MARKER| - 1);
  }

  lemma BudgetedIsShort(shown: seq<string>, l: Limits, files: nat, m: nat)
    requires LimitsOk(l) && m > 0 && |shown| <= files && Budgeted(shown, l.total, l.perFile, Least(l, m))
    ensures |Join(shown)| <= Longest(l, files, m)
  {
    JoinLength(shown);
    if shown != [] {
      ShownAtMost(shown, l, files, m);
      CapacityGrows(|shown| - 1, MostShown(l, files, m) - 1, l.perFile, l.perFile);
    }
  }

  lemma NoLongerThan(sections: seq<string>, l: Limits, files: nat, header: string)
    requires LimitsOk(l) && header != "" && |sections| <= files && Printable(sections, header)
    ensures |Join(CutFrom(sections, l.total, l.perFile).shown)| <= Longest(l, files, |header|)
  {
    ShownIsBudgeted(sections, l.total, l.perFile, header);
    BudgetedIsShort(CutFrom(sections, l.total, l.perFile).shown, l, files, |header|);
  }

  // The longest diff is attained by spreading the early characters over as many sections as possible.

  /** A section with the header, of `n` characters or as many as the header has. */
  function Section(header: string, n: nat): (s: string)
    ensures header <= s && |s| == Max(|header|, n)
  {
    if n <= |header| then header else header + seq(n - |header|, _ => 'x')
  }

  lemma CutUnfolds(sections: seq<string>, remaining: nat, perFile: nat)
    requires sections != [] && sections[0] != "" && remaining > |MARKER|
    ensures var b := Truncate(sections[0], Min(perFile, remaining)).0;
            CutFrom(sections, remaining, perFile).shown ==
            [b] + CutFrom(sections[1..], remaining - |b|, perFile).shown
  {
  }

  lemma FirstAdds(first: string, n: nat, rest: seq<string>, remaining: nat, perFile: nat)
    requires first != "" && remaining > |MARKER| && n == Min(|first|, Min(perFile, remaining))
    ensures var shown := CutFrom([first] + rest, remaining, perFile).shown;
            var more := CutFrom(rest, remaining - n, perFile).shown;
            |shown| == |more| + 1 && Sum(shown) == n + Sum(more)
  {
    var sections := [first] + rest;
    assert sections[0] == first && sections[1..] == rest;
    CutUnfolds(sections, remaining, perFile);
    var b := Truncate(first, Min(perFile, remaining)).0;
    var more := CutFrom(rest, remaining - n, perFile).shown;
    assert |b| == n && ([b] + more)[1..] == more;
  }

  lemma OneMoreShown(header: string, n: nat, rest: seq<string>, remaining: nat, perFile: nat)
    requires 0 < n <= Min(perFile, remaining) && remaining > |MARKER| && header != ""
    requires n >= |header| || n == Min(perFile, remaining)
    ensures var shown := CutFrom([Section(header, n)] + rest, remaining, perFile).shown;
            var more := CutFrom(rest, remaining - n, perFile).shown;
            |shown| == |more| + 1 && Sum(shown) == n + Sum(more)
  {
    FirstAdds(Section(header, n), n, rest, remaining, perFile);
  }

  /** `n` more sections can show `s` characters in all and leave the last one with exactly `last`. */
  predicate Spreadable(m: nat, n: nat, s: nat, last: nat, remaining: nat, perFile: nat) {
    && 0 < m && 0 < perFile
    && Capacity(n, Min(m, perFile)) <= s <= Capacity(n, perFile) && s < remaining - |MARKER|
    && last == Min(perFile, remaining - s)
  }

  /** The first section can leave enough for the others, and not too much. */
  lemma SpreadFirst(m: nat, n: nat, s: nat, last: nat, remaining: nat, perFile: nat) returns (first: nat)
    requires n > 0 && Spreadable(m, n, s, last, remaining, perFile)
    ensures Min(m, perFile) <= first <= perFile && first <= s
    ensures Spreadable(m, n - 1, s - first, last, remaining - first, perFile)
  {
    CapacityGrows(n - 1, n - 1, Min(m, perFile), perFile);
    first := Min(perFile, s - Capacity(n - 1, Min(m, perFile)));
  }

  lemma OneMorePrintable(header: string, n: nat, rest: seq<string>)
    requires Printable(rest, header)
    ensures Printable([Section(header, n)] + rest, header)
  {
    forall s | s in [Section(header, n)] + rest && s != "" ensures header <= s {
      assert s == Section(header, n) || s in rest;
    }
  }

  lemma {:induction false} SpreadShown(header: string, n: nat, s: nat, last: nat, remaining: nat, perFile: nat)
    returns (sections: seq<string>)
    requires Spreadable(|header|, n, s, last, remaining, perFile)
    ensures |sections| == n + 1 && Printable(sections, header)
    ensures var shown := CutFrom(sections, remaining, perFile).shown; |shown| == n + 1 && Sum(shown) == s + last
  {
    var first, rest := last, [];
    if n > 0 {
      first := SpreadFirst(|header|, n, s, last, remaining, perFile);
      rest := SpreadShown(header, n - 1, s - first, last, remaining - first, perFile);
    }
    sections := [Section(header, first)] + rest;
    OneMorePrintable(header, first, rest);
    OneMoreShown(header, first, rest, remaining, perFile);
  }

  lemma LongestSpreads(l: Limits, files: nat, m: nat) returns (n: nat, s: nat, last: nat)
    requires LimitsOk(l) && m > 0 && MostShown(l, files, m) > 0
    ensures n + 1 <= files && Spreadable(m, n, s, last, l.total, l.perFile)
    ensures Longest(l, files, m) == s + last + n
  {
    n := MostShown(l, files, m) - 1;
    CapacityDivides(n, Least(l, m), l.total - |MARKER| - 1);
    CapacityGrows(n, n, Least(l, m), l.perFile);
    s := Min(l.total - |MARKER| - 1, Capacity(n, l.perFile));
    last := Min(l.perFile, l.total - s);
  }

  lemma LongestAttained(l: Limits, files: nat, header: string) returns (sections: seq<string>)
    requires LimitsOk(l) && header != ""
    ensures |sections| <= files && Printable(sections, header)
    ensures |Join(CutFrom(sections, l.total, l.perFile).shown)| == Longest(l, files, |header|)
  {
    sections := [];
    if MostShown(l, files, |header|) > 0 {
      var n, s, last := LongestSpreads(l, files, |header|);
      sections := SpreadShown(header, n, s, last, l.total, l.perFile);
      JoinLength(CutFrom(sections, l.total, l.perFile).shown);
    }
  }

  /**
   * For every header that sections may start with: the total budget is kept by every pull request of at most `files`
   * files exactly when the longest possible diff fits. It is not a hard limit otherwise: the joined sections exceed it
   * by up to their line breaks.
   */
  lemma TotalIsKeptExactly(l: Limits, files: nat, header: string)
    requires LimitsOk(l) && header != ""
    ensures (forall sections: seq<string> :: |sections| <= files && Printable(sections, header) ==>
               |Join(CutFrom(sections, l.total, l.perFile).shown)| <= l.total)
       <==> Longest(l, files, |header|) <= l.total
  {
    if Longest(l, files, |header|) <= l.total {
      forall sections: seq<string> | |sections| <= files && Printable(sections, header)
        ensures |Join(CutFrom(sections, l.total, l.perFile).shown)| <= l.total
      {
        NoLongerThan(sections, l, files, header);
      }
    } else {
      var sections := LongestAttained(l, files, header);
      assert |Join(CutFrom(sections, l.total, l.perFile).shown)| > l.total;
    }
  }

  const DEFAULT := Limits(14_000, 3_000)
  const MAX_CHANGED_FILES := 80

  /**
   * With the default budget, and any header of at most 176 characters, some pull request's diff has 14 079 characters.
   */
  lemma DefaultBudgetOverflows(header: string) returns (sections: seq<string>)
    requires 1 <= |header| <= 176
    ensures |sections| <= MAX_CHANGED_FILES && Printable(sections, header)
    ensures |Join(CutFrom(sections, DEFAULT.total, DEFAULT.perFile).shown)| == 14_079 > DEFAULT.total
  {
    sections := LongestAttained(DEFAULT, MAX_CHANGED_FILES, header);
    CapacityIsProduct(79, 3_000);
    CapacityIsProduct(79, |header|);
    CapacityDivides(79, |header|, DEFAULT.total - |MARKER| - 1);
    assert MostShown(DEFAULT, MAX_CHANGED_FILES, |header|) == 80;
  }
}
