/** The NUL-separated change list of `git diff --name-status -z` (`context_retrieval.py`), with bytes as characters. */
module NameStatus {
  import opened Prelude

  const NUL := '\0'

  datatype ChangeStatus = Added | Modified | Deleted | Renamed | Copied | TypeChanged | Unmerged | Unknown

  datatype ChangedFile =
      ChangedFile(path: string, previous: Option<string>, status: ChangeStatus, isPython: bool, isTest: bool)

  datatype ParseError = IncompleteRename | IncompleteRecord | NotAscii | BadPath

  /** `bytes.split` on one byte. */
  function Split(s: string, c: char): (r: seq<string>)
    ensures |r| >= 1
  {
    if s == [] then [""]
    else
      var rest := Split(s[1..], c);
      if s[0] == c then [""] + rest else [[s[0]] + rest[0]] + rest[1..]
  }

  function StripNuls(s: string): string {
    if s != [] && s[|s| - 1] == NUL then StripNuls(s[..|s| - 1]) else s
  }

  function Tokens(output: string): seq<string> {
    if output == [] then [] else Split(StripNuls(output), NUL)
  }

  /** `_validate_repository_path`: a normalized relative POSIX path without control separators. */
  predicate ValidPath(p: string) {
    && p != []
    && '\\' !in p && NUL !in p && '\n' !in p && '\r' !in p
    && (p == "." || forall part | part in Split(p, '/') :: part !in {"", ".", ".."})
  }

  predicate IsTestPath(p: string) {
    var parts := if p == "." then [] else Split(p, '/');
    var name := if parts == [] then "" else parts[|parts| - 1];
    "tests" in parts || "test_" <= name || EndsWith(name, "_test.py")
  }

  /** `_normalize_status`: the first letter decides. */
  function NormalizeStatus(token: string): ChangeStatus {
    if token == [] then Unknown
    else
      match token[0]
      case 'A' => Added
      case 'M' => Modified
      case 'D' => Deleted
      case 'R' => Renamed
      case 'C' => Copied
      case 'T' => TypeChanged
      case 'U' => Unmerged
      case _ => Unknown
  }

  predicate TakesTwo(s: ChangeStatus) { s.Renamed? || s.Copied? }

  predicate IsAscii(s: string) { forall i | 0 <= i < |s| :: s[i] < 128 as char }

  function FileOf(token: string, previous: Option<string>, path: string): ChangedFile {
    ChangedFile(path, previous, NormalizeStatus(token), EndsWith(path, ".py"), IsTestPath(path))
  }

  /** The record that starts at the front of `tokens`, and how many tokens it takes. */
  function ParseOne(tokens: seq<string>): Result<(ChangedFile, nat), ParseError>
    requires tokens != []
  {
    if !IsAscii(tokens[0]) then Err(NotAscii)
    else if TakesTwo(NormalizeStatus(tokens[0])) then
      if |tokens| < 3 then Err(IncompleteRename)
      else if !ValidPath(tokens[1]) || !ValidPath(tokens[2]) then Err(BadPath)
      else Ok((FileOf(tokens[0], Some(tokens[1]), tokens[2]), 3))
    else if |tokens| < 2 then Err(IncompleteRecord)
    else if !ValidPath(tokens[1]) then Err(BadPath)
    else Ok((FileOf(tokens[0], None, tokens[1]), 2))
  }

  function ParseAll(tokens: seq<string>): Result<seq<ChangedFile>, ParseError>
    decreases |tokens|
  {
    if tokens == [] then Ok([])
    else
      match ParseOne(tokens)
      case Err(e) => Err(e)
      case Ok((file, taken)) =>
        if taken > |tokens| || taken == 0 then Err(IncompleteRecord)
        else
          match ParseAll(tokens[taken..])
          case Err(e) => Err(e)
          case Ok(rest) => Ok([file] + rest)
  }

  function Prepend(files: seq<ChangedFile>, r: Result<seq<ChangedFile>, ParseError>)
      : Result<seq<ChangedFile>, ParseError> {
    if r.Ok? then Ok(files + r.value) else r
  }

  /** The token loop of `_changed_files`. */
  method ChangedFiles(output: string) returns (r: Result<seq<ChangedFile>, ParseError>)
    ensures r == ParseAll(Tokens(output))
  {
    var tokens := Tokens(output);
    var files: seq<ChangedFile> := [];
    var index := 0;
    assert tokens[0..] == tokens;
    assert forall rest: seq<ChangedFile> :: files + rest == rest;
    while index < |tokens|
      invariant 0 <= index <= |tokens|
      invariant ParseAll(tokens) == Prepend(files, ParseAll(tokens[index..]))
    {
      ghost var here := index;
      var token := tokens[index];
      index := index + 1;
      if !IsAscii(token) {
        return Err(NotAscii);
      }
      var status := NormalizeStatus(token);
      var previous: Option<string> := None;
      var path: string;
      if TakesTwo(status) {
        if index + 1 >= |tokens| {
          return Err(IncompleteRename);
        }
        if !ValidPath(tokens[index]) || !ValidPath(tokens[index + 1]) {
          return Err(BadPath);
        }
        previous := Some(tokens[index]);
        path := tokens[index + 1];
        index := index + 2;
      } else {
        if index >= |tokens| {
          return Err(IncompleteRecord);
        }
        if !ValidPath(tokens[index]) {
          return Err(BadPath);
        }
        path := tokens[index];
        index := index + 1;
      }
      ghost var before := files;
      files := files + [FileOf(token, previous, path)];
      OneRecord(tokens, here, before, FileOf(token, previous, path), index);
    }
    assert tokens[index..] == [];
    assert files + [] == files;
    r := Ok(files);
  }

  lemma OneRecord(tokens: seq<string>, here: nat, files: seq<ChangedFile>, file: ChangedFile, next: nat)
    requires here < next <= |tokens|
    requires ParseOne(tokens[here..]) == Ok((file, next - here))
    ensures Prepend(files, ParseAll(tokens[here..])) == Prepend(files + [file], ParseAll(tokens[next..]))
  {
    assert tokens[here..][next - here..] == tokens[next..];
    var rest := ParseAll(tokens[next..]);
    if rest.Ok? {
      assert files + ([file] + rest.value) == (files + [file]) + rest.value;
    }
  }

  // --- The printer ---------------------------------------------------------------------------------

  datatype Change = Change(token: string, previous: Option<string>, path: string)

  /** A change record as Git writes one: rename and copy carry two paths, everything else one. */
  predicate ChangeOk(c: Change) {
    && c.token != [] && NUL !in c.token && IsAscii(c.token)
    && ValidPath(c.path)
    && (TakesTwo(NormalizeStatus(c.token)) <==> c.previous.Some?)
    && (c.previous.Some? ==> ValidPath(c.previous.value))
  }

  function FieldsOf(c: Change): seq<string> {
    if c.previous.Some? then [c.token, c.previous.value, c.path] else [c.token, c.path]
  }

  function Fields(cs: seq<Change>): seq<string> {
    if cs == [] then [] else FieldsOf(cs[0]) + Fields(cs[1..])
  }

  function Files(cs: seq<Change>): seq<ChangedFile> {
    if cs == [] then [] else [FileOf(cs[0].token, cs[0].previous, cs[0].path)] + Files(cs[1..])
  }

  /** Every field is terminated by a NUL. */
  function Terminated(tokens: seq<string>): string {
    if tokens == [] then [] else tokens[0] + [NUL] + Terminated(tokens[1..])
  }

  function Print(cs: seq<Change>): string { Terminated(Fields(cs)) }

  ghost predicate Plain(tokens: seq<string>) { forall t | t in tokens :: t != [] && NUL !in t }

  /** The tokens with a NUL only between them. */
  function Separated(tokens: seq<string>): string
    requires tokens != []
  {
    if |tokens| == 1 then tokens[0] else tokens[0] + [NUL] + Separated(tokens[1..])
  }

  lemma {:induction false} SplitToken(t: string, rest: string)
    requires NUL !in t
    ensures Split(t + [NUL] + rest, NUL) == [t] + Split(rest, NUL)
  {
    if t == [] {
      assert (t + [NUL] + rest)[1..] == rest;
    } else {
      assert (t + [NUL] + rest)[1..] == t[1..] + [NUL] + rest;
      SplitToken(t[1..], rest);
      assert [t[0]] + t[1..] == t;
    }
  }

  lemma {:induction false} SplitPlain(t: string)
    requires NUL !in t
    ensures Split(t, NUL) == [t]
  {
    if t != [] {
      SplitPlain(t[1..]);
      assert [t[0]] + t[1..] == t;
    }
  }

  lemma {:induction false} SplitSeparated(tokens: seq<string>)
    requires tokens != [] && Plain(tokens)
    ensures Split(Separated(tokens), NUL) == tokens
  {
    if |tokens| == 1 {
      SplitPlain(tokens[0]);
    } else {
      assert forall t :: t in tokens[1..] ==> t in tokens;
      SplitSeparated(tokens[1..]);
      SplitToken(tokens[0], Separated(tokens[1..]));
    }
  }

  lemma {:induction false} TerminatedIsSeparated(tokens: seq<string>)
    requires tokens != [] && Plain(tokens)
    ensures Terminated(tokens) == Separated(tokens) + [NUL]
    ensures var s := Separated(tokens); s != [] && s[|s| - 1] != NUL
  {
    if |tokens| == 1 {
      assert Terminated(tokens[1..]) == [];
      assert tokens[0] in tokens;
    } else {
      assert forall t :: t in tokens[1..] ==> t in tokens;
      TerminatedIsSeparated(tokens[1..]);
    }
  }

  lemma TokensOfTerminated(tokens: seq<string>)
    requires Plain(tokens)
    ensures Tokens(Terminated(tokens)) == tokens
  {
    if tokens != [] {
      TerminatedIsSeparated(tokens);
      SplitSeparated(tokens);
      var s := Separated(tokens);
      assert (s + [NUL])[..|s|] == s;
      assert StripNuls(s + [NUL]) == StripNuls(s) == s;
    }
  }

  lemma {:induction false} FieldsArePlain(cs: seq<Change>)
    requires forall c | c in cs :: ChangeOk(c)
    ensures Plain(Fields(cs))
  {
    if cs != [] {
      assert ChangeOk(cs[0]);
      FieldsArePlain(cs[1..]);
    }
  }

  lemma {:induction false} ParseInvertsFields(cs: seq<Change>)
    requires forall c | c in cs :: ChangeOk(c)
    ensures ParseAll(Fields(cs)) == Ok(Files(cs))
  {
    if cs != [] {
      ParseInvertsFields(cs[1..]);
      assert ChangeOk(cs[0]);
      assert Fields(cs)[|FieldsOf(cs[0])|..] == Fields(cs[1..]);
    }
  }

  /** Parsing inverts printing, and consumes every token, for every list of well-formed records. */
  lemma ParseInvertsPrint(cs: seq<Change>)
    requires forall c | c in cs :: ChangeOk(c)
    ensures ParseAll(Tokens(Print(cs))) == Ok(Files(cs))
  {
    FieldsArePlain(cs);
    TokensOfTerminated(Fields(cs));
    ParseInvertsFields(cs);
  }

  /** The output cut after `k` tokens ends exactly at the end of some record. */
  ghost predicate AtBoundary(cs: seq<Change>, k: nat) {
    exists j :: 0 <= j <= |cs| && |Fields(cs[..j])| == k
  }

  lemma {:induction false} BoundaryShifts(cs: seq<Change>, k: nat)
    requires cs != [] && k >= |FieldsOf(cs[0])|
    ensures AtBoundary(cs, k) <==> AtBoundary(cs[1..], k - |FieldsOf(cs[0])|)
  {
    var n := |FieldsOf(cs[0])|;
    forall j | 1 <= j <= |cs| ensures |Fields(cs[..j])| == n + |Fields(cs[1..][..j - 1])| {
      assert cs[..j][1..] == cs[1..][..j - 1];
    }
    if AtBoundary(cs, k) {
      var j :| 0 <= j <= |cs| && |Fields(cs[..j])| == k;
      assert j >= 1;
      assert |Fields(cs[1..][..j - 1])| == k - n;
    }
    if AtBoundary(cs[1..], k - n) {
      var j :| 0 <= j <= |cs[1..]| && |Fields(cs[1..][..j])| == k - n;
      assert |Fields(cs[..j + 1])| == k;
    }
  }

  /** Output cut after any number of tokens is accepted exactly when the cut falls between two records. */
  lemma {:induction false} CutShortIsRejected(cs: seq<Change>, k: nat)
    requires forall c | c in cs :: ChangeOk(c)
    requires k <= |Fields(cs)|
    ensures ParseAll(Fields(cs)[..k]).Ok? <==> AtBoundary(cs, k)
    decreases |cs|
  {
    var cut := Fields(cs)[..k];
    if k == 0 {
      assert Fields(cs[..0]) == [];
    } else {
      assert ChangeOk(cs[0]);
      var n := |FieldsOf(cs[0])|;
      assert cut[0] == cs[0].token;
      if k < n {
        forall j | 0 <= j <= |cs| ensures |Fields(cs[..j])| != k {
          if j >= 1 {
            assert cs[..j][0] == cs[0];
          }
        }
      } else {
        assert Fields(cs)[n..] == Fields(cs[1..]);
        assert cut[n..] == Fields(cs[1..])[..k - n];
        BoundaryShifts(cs, k);
        CutShortIsRejected(cs[1..], k - n);
      }
    }
  }

  // --- What a record says --------------------------------------------------------------------------------

  /** The first letter of the status token decides, and any other letter is unknown. */
  lemma StatusMeans(letter: char, score: string)
    ensures var s := NormalizeStatus([letter] + score);
            && (s.Added? <==> letter == 'A') && (s.Modified? <==> letter == 'M') && (s.Deleted? <==> letter == 'D')
            && (s.Renamed? <==> letter == 'R') && (s.Copied? <==> letter == 'C') && (s.TypeChanged? <==> letter == 'T')
            && (s.Unmerged? <==> letter == 'U') && (s.Unknown? <==> letter !in "AMDRCTU")
  {
  }

  /** The parts put together again. */
  function Joined(parts: seq<string>, c: char): string {
    if parts == [] then "" else if |parts| == 1 then parts[0] else parts[0] + [c] + Joined(parts[1..], c)
  }

  /** The parts join to the string, and none has the separator in it. */
  ghost predicate PartsOf(parts: seq<string>, s: string, c: char) {
    parts != [] && Joined(parts, c) == s && forall i | 0 <= i < |parts| :: c !in parts[i]
  }

  lemma SeparatorParts(rest: seq<string>, s: string, c: char)
    requires PartsOf(rest, s, c)
    ensures PartsOf([""] + rest, [c] + s, c)
  {
    assert ([""] + rest)[1..] == rest;
  }

  lemma LetterParts(rest: seq<string>, s: string, c: char, x: char)
    requires PartsOf(rest, s, c) && x != c
    ensures PartsOf([[x] + rest[0]] + rest[1..], [x] + s, c)
  {
    var parts := [[x] + rest[0]] + rest[1..];
    assert parts[1..] == rest[1..];
    assert Joined(parts, c) == [x] + Joined(rest, c);
  }

  /** Splitting cuts at every separator and nowhere else. */
  lemma {:induction false} SplitMeans(s: string, c: char)
    ensures PartsOf(Split(s, c), s, c)
  {
    if s != [] {
      SplitMeans(s[1..], c);
      assert s == [s[0]] + s[1..];
      if s[0] == c {
        SeparatorParts(Split(s[1..], c), s[1..], c);
      } else {
        LetterParts(Split(s[1..], c), s[1..], c, s[0]);
      }
    }
  }

  /** The last part of a path, by its characters. */
  lemma {:induction false} LastPart(dir: string, name: string, c: char)
    requires c !in name
    ensures Split(dir + [c] + name, c) == Split(dir, c) + [name]
    ensures Split(name, c) == [name]
    decreases |dir| + |name|
  {
    SplitPlainPart(name, c);
    if dir == [] {
      assert dir + [c] + name == [c] + name && ([c] + name)[1..] == name;
      assert Split([c] + name, c) == [""] + Split(name, c);
    } else {
      var all := dir + [c] + name;
      assert all[0] == dir[0] && all[1..] == dir[1..] + [c] + name;
      LastPart(dir[1..], name, c);
      var rest := Split(dir[1..], c);
      assert (rest + [name])[0] == rest[0] && (rest + [name])[1..] == rest[1..] + [name];
    }
  }

  lemma {:induction false} SplitPlainPart(name: string, c: char)
    requires c !in name
    ensures Split(name, c) == [name]
  {
    if name != [] {
      SplitPlainPart(name[1..], c);
      assert [name[0]] + name[1..] == name && [name[1..]][1..] == [];
    }
  }

  /**
   * A parsed record carries the path it was printed with, its status by letter, and whether the path is Python and a
   * test: in a directory or under the name `tests`, or with a name that starts with `test_` or ends with `_test.py`.
   */
  lemma RecordMeans(token: string, previous: Option<string>, dir: string, name: string)
    requires '/' !in name && dir + "/" + name != "."
    ensures var f := FileOf(token, previous, dir + "/" + name);
            && f.path == dir + "/" + name && f.previous == previous && f.status == NormalizeStatus(token)
            && (f.isPython <==> EndsWith(dir + "/" + name, ".py"))
            && (f.isTest <==>
                "tests" in Split(dir, '/') || name == "tests" || "test_" <= name || EndsWith(name, "_test.py"))
  {
    LastPart(dir, name, '/');
    assert dir + "/" + name == dir + ['/'] + name;
  }

  /** Only valid paths are returned, and a previous one exactly for renames and copies. */
  lemma {:induction false} ParsedIsValid(tokens: seq<string>)
    requires ParseAll(tokens).Ok?
    ensures forall f | f in ParseAll(tokens).value ::
              && ValidPath(f.path) && (f.previous.Some? <==> f.status.Renamed? || f.status.Copied?)
              && (f.previous.Some? ==> ValidPath(f.previous.value))
    decreases |tokens|
  {
    if tokens != [] {
      var one := ParseOne(tokens).value;
      ParsedIsValid(tokens[one.1..]);
    }
  }
}
