/** `format_github_check`: the check payload rebuilt from a stored evidence report. */
module CheckFormat {
  import opened Workflow
  import opened EvidenceWorkflow

  datatype Conclusion = Success | Failure | Neutral

  /** The external id is the durable idempotency key; the prose of the check is left out of the model. */
  datatype Payload = Payload(head: string, conclusion: Conclusion, external: RunId)

  function Format(r: Report): Payload {
    Payload(r.head,
            match r.outcome
            case ClaimSupported => Success
            case PotentialRegression => Failure
            case _ => Neutral,
            r.run)
  }

  // ---------------------------------------------------------------------------------------------
  // Fencing of quoted text
  // ---------------------------------------------------------------------------------------------

  const TICK := '`'
  const FENCE := "```"
  const SPACED := "` ` `"

  /** Replace every fence, from the left and without overlap. */
  function Spaced(s: string): string {
    if s == [] then []
    else if |s| >= 3 && s[..3] == FENCE then SPACED + Spaced(s[3..])
    else [s[0]] + Spaced(s[1..])
  }

  /** `_fenced`. */
  function Fenced(s: string): string { if Spaced(s) == [] then "(empty)" else Spaced(s) }

  /** The length of the run of ticks the string starts with. */
  function Lead(s: string): (k: nat)
    ensures k <= |s| && (k < |s| ==> s[k] != TICK)
  {
    if s != [] && s[0] == TICK then 1 + Lead(s[1..]) else 0
  }

  predicate HasFence(s: string) { s != [] && (Lead(s) >= 3 || HasFence(s[1..])) }

  predicate BadRun(k: nat) { k >= 5 && k % 3 == 2 }

  /** Some maximal run of ticks has length 5, 8, 11, and so on. */
  predicate HasBadRun(s: string)
    decreases |s|
  {
    s != [] && var k := Lead(s);
    if k == 0 then HasBadRun(s[1..]) else BadRun(k) || HasBadRun(s[k..])
  }

  lemma {:induction false} FenceShows(s: string)
    ensures HasFence(s) <==> exists i :: 0 <= i <= |s| - 3 && s[i] == s[i + 1] == s[i + 2] == TICK
  {
    if s != [] {
      FenceShows(s[1..]);
      if |s| >= 3 {
        assert Lead(s) >= 3 <==> s[0] == s[1] == s[2] == TICK by {
          assert Lead(s[1..]) >= 2 <==> s[1] == s[2] == TICK by {
            assert Lead(s[1..][1..]) >= 1 <==> s[2] == TICK;
          }
        }
      }
      if i :| 0 <= i <= |s| - 3 && s[i] == s[i + 1] == s[i + 2] == TICK {
        if i > 0 {
          assert s[1..][i - 1] == s[1..][i] == s[1..][i + 1] == TICK;
        }
      }
      if i :| 0 <= i <= |s[1..]| - 3 && s[1..][i] == s[1..][i + 1] == s[1..][i + 2] == TICK {
        assert s[i + 1] == s[i + 2] == s[i + 3] == TICK;
      }
    }
  }

  lemma FenceAfter(c: char, s: string)
    ensures Lead([c] + s) == if c == TICK then 1 + Lead(s) else 0
    ensures HasFence([c] + s) <==> Lead([c] + s) >= 3 || HasFence(s)
  {
    assert ([c] + s)[1..] == s;
  }

  lemma FenceAfterSpaced(s: string)
    ensures Lead(SPACED + s) == 1
    ensures HasFence(SPACED + s) <==> Lead(s) >= 2 || HasFence(s)
  {
    assert SPACED + s == [TICK] + ([' '] + ([TICK] + ([' '] + ([TICK] + s))));
    FenceAfter(TICK, s);
    FenceAfter(' ', [TICK] + s);
    FenceAfter(TICK, [' '] + ([TICK] + s));
    FenceAfter(' ', [TICK] + ([' '] + ([TICK] + s)));
    FenceAfter(TICK, [' '] + ([TICK] + ([' '] + ([TICK] + s))));
  }

  lemma FenceAhead(s: string)
    requires |s| >= 3
    ensures s[..3] == FENCE <==> Lead(s) >= 3
    ensures Lead(s) >= 3 ==> Lead(s[3..]) == Lead(s) - 3
  {
    assert s[1..][1..] == s[2..] && s[2..][1..] == s[3..];
    if Lead(s) < 3 {
      assert s[..3][Lead(s)] != TICK && FENCE[Lead(s)] == TICK;
    } else {
      assert s[0] == s[1] == s[2] == TICK;
    }
  }

  /** What replacing does to the run of ticks a string starts with. */
  ghost predicate RunIsSpaced(s: string) {
    var k := Lead(s);
    && Lead(Spaced(s)) == (if k >= 3 then 1 else k)
    && (HasFence(Spaced(s)) <==> BadRun(k) || HasFence(Spaced(s[k..])))
  }

  lemma SpacedAhead(s: string)
    requires Lead(s) >= 3
    ensures Spaced(s) == SPACED + Spaced(s[3..])
  {
    FenceAhead(s);
  }

  lemma LongRun(k: nat)
    requires k >= 3
    ensures BadRun(k) <==> k == 5 || BadRun(k - 3)
  {
  }

  lemma LongRunSpaced(s: string)
    requires Lead(s) >= 3 && RunIsSpaced(s[3..])
    ensures RunIsSpaced(s)
  {
    var k, rest := Lead(s), s[3..];
    FenceAhead(s);
    SpacedAhead(s);
    FenceAfterSpaced(Spaced(rest));
    LongRun(k);
    assert rest[k - 3..] == s[k..];
  }

  lemma ShortRunSpaced(s: string)
    requires 0 < Lead(s) < 3 && RunIsSpaced(s[1..])
    ensures RunIsSpaced(s)
  {
    var k := Lead(s);
    if |s| >= 3 {
      FenceAhead(s);
    }
    assert s[1..][k - 1..] == s[k..];
    assert Spaced(s) == [s[0]] + Spaced(s[1..]);
    FenceAfter(s[0], Spaced(s[1..]));
  }

  lemma NoRunSpaced(s: string)
    requires Lead(s) == 0
    ensures RunIsSpaced(s)
  {
    assert s[Lead(s)..] == s;
    if s != [] {
      assert Spaced(s) == [s[0]] + Spaced(s[1..]);
      FenceAfter(s[0], Spaced(s[1..]));
    }
  }

  lemma {:induction false} RunSpaced(s: string)
    ensures RunIsSpaced(s)
  {
    if Lead(s) >= 3 {
      RunSpaced(s[3..]);
      LongRunSpaced(s);
    } else if Lead(s) > 0 {
      RunSpaced(s[1..]);
      ShortRunSpaced(s);
    } else {
      NoRunSpaced(s);
    }
  }

  /**
   * Quoted text is free of fences exactly when no maximal run of ticks in it has length 5, 8, 11, ...: the tick that
   * closes a spaced fence joins the two ticks left over.
   */
  lemma FencingIsCompleteExactly(s: string)
    ensures HasFence(Fenced(s)) <==> HasBadRun(s)
  {
    SpacingIsCompleteExactly(s);
    if Spaced(s) == [] {
      FenceShows("(empty)");
    }
  }

  lemma {:induction false} SpacingIsCompleteExactly(s: string)
    ensures HasFence(Spaced(s)) <==> HasBadRun(s)
    decreases |s|
  {
    var k := Lead(s);
    if s != [] && k == 0 {
      FenceAfter(s[0], Spaced(s[1..]));
      SpacingIsCompleteExactly(s[1..]);
    } else if s != [] {
      RunSpaced(s);
      SpacingIsCompleteExactly(s[k..]);
    }
  }

  // ---------------------------------------------------------------------------------------------
  // What the check says
  // ---------------------------------------------------------------------------------------------

  /**
   * The check is about the report's commit and run; it succeeds, fails or stays neutral by the claim's outcome alone.
   */
  lemma FormatMeans(r: Report)
    ensures Format(r).head == r.head && Format(r).external == r.run
    ensures Format(r).conclusion == Success <==> r.outcome == ClaimSupported
    ensures Format(r).conclusion == Failure <==> r.outcome == PotentialRegression
    ensures Format(r).conclusion == Neutral <==> r.outcome in {ClaimNotSupported, InsufficientEvidence}
  {
  }
}
