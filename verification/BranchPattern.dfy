/**
 * The branch-pattern algebra: an AFK branch pattern renders an issue number into
 * a claim branch, a claim branch parses back, and a pattern is configured beside
 * a manual prefix only when no branch could belong to both.
 */
module BranchPattern {
  import opened Text
  import opened Decimal

  const N_TOKEN := "<N>"

  predicate IsRefSafe(c: char) {
    'a' <= c <= 'z' || 'A' <= c <= 'Z' || '0' <= c <= '9' || c == '.' || c == '_' || c == '/' || c == '-'
  }

  /** strings.Replace(pattern, "<N>", text, 1). */
  function ReplaceToken(pattern: string, text: string): string {
    match Cut(pattern, N_TOKEN)
    case NotFound => pattern
    case Found(before, after) => before + text + after
  }

  function PatternPrefix(pattern: string): string {
    match Cut(pattern, N_TOKEN)
    case NotFound => pattern
    case Found(before, _) => before
  }

  function PatternSuffix(pattern: string): string {
    match Cut(pattern, N_TOKEN)
    case NotFound => ""
    case Found(_, after) => after
  }

  function RenderBranch(pattern: string, n: nat): string {
    ReplaceToken(pattern, Itoa(n))
  }

  function ParseBranch(pattern: string, ref: string): Option<nat> {
    match Cut(pattern, N_TOKEN)
    case NotFound => None
    case Found(prefix, suffix) =>
      if |ref| < |prefix| + |suffix| || !(prefix <= ref) || !HasSuffix(ref, suffix) then None
      else
        match Atoi(ref[|prefix|..|ref| - |suffix|])
        case None => None
        case Some(n) =>
          if n < 1 || RenderBranch(pattern, n) != ref then None else Some(n)
  }

  /** A number is claimed by a branch exactly when the branch is its rendering. */
  lemma ParseInvertsRender(pattern: string, ref: string, n: nat)
    requires Cut(pattern, N_TOKEN).Found?
    ensures ParseBranch(pattern, ref) == Some(n) <==> 1 <= n <= MAX_INT64 && ref == RenderBranch(pattern, n)
  {
    if 1 <= n <= MAX_INT64 && ref == RenderBranch(pattern, n) {
      var Found(prefix, suffix) := Cut(pattern, N_TOKEN);
      assert ref[|prefix|..|ref| - |suffix|] == Itoa(n);
      assert ref[|ref| - |suffix|..] == suffix;
      AtoiOfItoa(n);
    }
  }

  /** Different issues render to different branches. */
  lemma RenderInjective(pattern: string, m: nat, n: nat)
    requires Cut(pattern, N_TOKEN).Found?
    requires RenderBranch(pattern, m) == RenderBranch(pattern, n)
    ensures m == n
  {
    var Found(prefix, suffix) := Cut(pattern, N_TOKEN);
    var a, b := RenderBranch(pattern, m), RenderBranch(pattern, n);
    assert a[|prefix|..|a| - |suffix|] == Itoa(m);
    assert b[|prefix|..|b| - |suffix|] == Itoa(n);
    ValueOfItoa(m);
    ValueOfItoa(n);
  }

  // ----- the overlap decision -----

  /** Issue number n renders to a branch that starts with the manual prefix. */
  predicate RendersUnder(pattern: string, manualPrefix: string, n: nat) {
    n >= 1 && manualPrefix <= RenderBranch(pattern, n)
  }

  /** Some issue number renders to a branch that starts with the manual prefix. */
  ghost predicate Overlaps(pattern: string, manualPrefix: string) {
    exists n :: RendersUnder(pattern, manualPrefix, n)
  }

  /** rest is the whole text of a number followed by a beginning of the suffix, split at j. */
  predicate SplitsAt(rest: string, suffix: string, j: nat) {
    1 <= j <= |rest| && (forall k | 0 <= k < j :: IsDigit(rest[k])) && rest[j..] <= suffix
  }

  /** rest begins the text of some number followed by suffix. */
  ghost predicate BeginsNumber(rest: string, suffix: string) {
    rest == "" || (rest[0] != '0' && exists j: nat :: SplitsAt(rest, suffix, j))
  }

  /** Two prefixes of one string are comparable. */
  lemma PrefixesComparable(a: string, b: string, s: string)
    requires a <= s && b <= s
    ensures a <= b || b <= a
  {
    if |a| <= |b| {
      assert b[..|a|] == s[..|a|];
    } else {
      assert a[..|b|] == s[..|b|];
    }
  }

  lemma PrefixUnderCommon(a: string, b: string, c: string)
    ensures a + b <= a + c <==> b <= c
  {
    assert (a + c)[|a|..] == c && (a + b)[|a|..] == b;
    if a + b <= a + c {
      assert c[..|b|] == (a + c)[..|a + b|][|a|..];
    }
  }

  /** A beginning of a rendered number splits, at a number no larger than the rendered one. */
  lemma SplitOfRendering(rest: string, suffix: string, n: nat) returns (j: nat)
    requires n >= 1 && rest != "" && rest <= Itoa(n) + suffix
    ensures rest[0] != '0' && SplitsAt(rest, suffix, j) && Value(rest[..j]) <= n
  {
    var s := Itoa(n);
    ValueOfItoa(n);
    assert rest[0] == (s + suffix)[0] == s[0];
    if |rest| <= |s| {
      j := |rest|;
      assert rest == (s + suffix)[..j] == s[..j];
      ValueOfPrefix(s, j);
      assert rest[..j] == rest;
    } else {
      j := |s|;
      assert rest == (s + suffix)[..|rest|];
      assert rest[..j] == s;
      assert rest[j..] == suffix[..|rest| - j];
    }
  }

  /** A split names the number itself. */
  lemma SplitBeginsItsNumber(rest: string, suffix: string, j: nat)
    requires SplitsAt(rest, suffix, j) && rest[0] != '0'
    ensures Value(rest[..j]) >= 1 && rest <= Itoa(Value(rest[..j])) + suffix
  {
    var digits := rest[..j];
    assert AllDigits(digits) && digits[0] == rest[0];
    ItoaOfValue(digits);
    PrefixUnderCommon(digits, rest[j..], suffix);
    assert rest == digits + rest[j..];
  }

  lemma SplitRenders(pattern: string, rest: string, j: nat)
    requires Cut(pattern, N_TOKEN).Found?
    requires SplitsAt(rest, PatternSuffix(pattern), j) && rest[0] != '0'
    ensures RendersUnder(pattern, PatternPrefix(pattern) + rest, Value(rest[..j]))
  {
    var prefix, suffix, n := PatternPrefix(pattern), PatternSuffix(pattern), Value(rest[..j]);
    SplitBeginsItsNumber(rest, suffix, j);
    PrefixUnderCommon(prefix, rest, Itoa(n) + suffix);
    assert RenderBranch(pattern, n) == prefix + (Itoa(n) + suffix);
  }

  lemma RestOfPrefix(prefix: string, manualPrefix: string, text: string)
    requires manualPrefix <= prefix + text && !(manualPrefix <= prefix)
    ensures prefix < manualPrefix && manualPrefix[|prefix|..] <= text
  {
    PrefixesComparable(prefix, manualPrefix, prefix + text);
    assert manualPrefix == prefix + manualPrefix[|prefix|..];
    PrefixUnderCommon(prefix, manualPrefix[|prefix|..], text);
  }

  lemma RenderingSplits(pattern: string, manualPrefix: string, n: nat) returns (j: nat)
    requires Cut(pattern, N_TOKEN).Found?
    requires RendersUnder(pattern, manualPrefix, n) && !(manualPrefix <= PatternPrefix(pattern))
    ensures PatternPrefix(pattern) <= manualPrefix
    ensures var rest := manualPrefix[|PatternPrefix(pattern)|..];
            rest[0] != '0' && SplitsAt(rest, PatternSuffix(pattern), j) && Value(rest[..j]) <= n
  {
    var prefix, text := PatternPrefix(pattern), Itoa(n) + PatternSuffix(pattern);
    assert RenderBranch(pattern, n) == prefix + text;
    RestOfPrefix(prefix, manualPrefix, text);
    j := SplitOfRendering(manualPrefix[|prefix|..], PatternSuffix(pattern), n);
  }

  /** A prefix within the pattern's literal beginning lies under every rendering. */
  lemma ShortPrefixOverlaps(pattern: string, manualPrefix: string)
    requires Cut(pattern, N_TOKEN).Found? && manualPrefix <= PatternPrefix(pattern)
    ensures RendersUnder(pattern, manualPrefix, 1)
  {
    var prefix, suffix := PatternPrefix(pattern), PatternSuffix(pattern);
    PrefixUnderCommon(manualPrefix, prefix[|manualPrefix|..], prefix[|manualPrefix|..] + (Itoa(1) + suffix));
    assert RenderBranch(pattern, 1) == manualPrefix + (prefix[|manualPrefix|..] + (Itoa(1) + suffix));
  }

  /** The existential over all issue numbers, reduced to the two texts. */
  lemma OverlapsByText(pattern: string, manualPrefix: string)
    requires Cut(pattern, N_TOKEN).Found?
    ensures var prefix := PatternPrefix(pattern);
            Overlaps(pattern, manualPrefix)
            <==> manualPrefix <= prefix
                 || (prefix <= manualPrefix && BeginsNumber(manualPrefix[|prefix|..], PatternSuffix(pattern)))
  {
    var prefix, suffix := PatternPrefix(pattern), PatternSuffix(pattern);
    if manualPrefix <= prefix {
      ShortPrefixOverlaps(pattern, manualPrefix);
    } else if Overlaps(pattern, manualPrefix) {
      var n :| RendersUnder(pattern, manualPrefix, n);
      var j := RenderingSplits(pattern, manualPrefix, n);
    } else if prefix <= manualPrefix {
      var rest := manualPrefix[|prefix|..];
      assert manualPrefix == prefix + rest;
      if BeginsNumber(rest, suffix) {
        var j :| SplitsAt(rest, suffix, j);
        SplitRenders(pattern, rest, j);
      }
    }
  }

  /** The length of the leading digit run. */
  method DigitRun(rest: string) returns (i: nat)
    ensures i <= |rest| && forall k | 0 <= k < i :: IsDigit(rest[k])
    ensures i < |rest| ==> !IsDigit(rest[i])
  {
    i := 0;
    while i < |rest| && IsDigit(rest[i])
      invariant i <= |rest| && forall k | 0 <= k < i :: IsDigit(rest[k])
    {
      i := i + 1;
    }
  }

  method RestOverlaps(rest: string, suffix: string) returns (r: bool)
    requires rest != ""
    ensures r <==> BeginsNumber(rest, suffix)
  {
    var i := DigitRun(rest);
    if i == 0 || rest[0] == '0' {
      return false;
    }
    if i == |rest| {
      assert SplitsAt(rest, suffix, i);
      return true;
    }
    var j := 1;
    while j <= i
      invariant 1 <= j <= i + 1
      invariant forall k | 1 <= k < j :: !SplitsAt(rest, suffix, k)
    {
      if rest[j..] <= suffix {
        assert SplitsAt(rest, suffix, j);
        return true;
      }
      j := j + 1;
    }
    return false;
  }

  method PatternsOverlap(pattern: string, manualPrefix: string) returns (r: bool)
    requires Cut(pattern, N_TOKEN).Found?
    ensures r <==> Overlaps(pattern, manualPrefix)
  {
    OverlapsByText(pattern, manualPrefix);
    var prefix, suffix := PatternPrefix(pattern), PatternSuffix(pattern);
    if manualPrefix <= prefix {
      return true;
    }
    if !(prefix <= manualPrefix) {
      return false;
    }
    r := RestOverlaps(manualPrefix[|prefix|..], suffix);
  }

  // ----- machine integers -----

  /** Issue numbers are machine integers: the overlap over those alone. */
  ghost predicate MachineOverlaps(pattern: string, manualPrefix: string) {
    exists n: nat :: n <= MAX_INT64 && RendersUnder(pattern, manualPrefix, n)
  }

  /** The text splits into a machine integer's digits and a beginning of the suffix. */
  ghost predicate BeginsMachineNumber(rest: string, suffix: string) {
    rest != "" && rest[0] != '0' && exists j: nat :: SplitsAt(rest, suffix, j) && Value(rest[..j]) <= MAX_INT64
  }

  lemma MachineRenderingSplits(pattern: string, manualPrefix: string, n: nat)
    requires Cut(pattern, N_TOKEN).Found? && n <= MAX_INT64
    requires RendersUnder(pattern, manualPrefix, n) && !(manualPrefix <= PatternPrefix(pattern))
    ensures PatternPrefix(pattern) <= manualPrefix
    ensures BeginsMachineNumber(manualPrefix[|PatternPrefix(pattern)|..], PatternSuffix(pattern))
  {
    var j := RenderingSplits(pattern, manualPrefix, n);
  }

  lemma MachineSplitRenders(pattern: string, rest: string)
    requires Cut(pattern, N_TOKEN).Found? && BeginsMachineNumber(rest, PatternSuffix(pattern))
    ensures MachineOverlaps(pattern, PatternPrefix(pattern) + rest)
  {
    var j: nat :| SplitsAt(rest, PatternSuffix(pattern), j) && Value(rest[..j]) <= MAX_INT64;
    SplitRenders(pattern, rest, j);
  }

  /** Over machine integers the decision is exact once the number it splits off is one. */
  lemma MachineOverlapsByText(pattern: string, manualPrefix: string)
    requires Cut(pattern, N_TOKEN).Found?
    ensures var prefix, suffix := PatternPrefix(pattern), PatternSuffix(pattern);
            MachineOverlaps(pattern, manualPrefix)
            <==> manualPrefix <= prefix
                 || (prefix < manualPrefix && BeginsMachineNumber(manualPrefix[|prefix|..], suffix))
  {
    var prefix, suffix := PatternPrefix(pattern), PatternSuffix(pattern);
    if manualPrefix <= prefix {
      ShortPrefixOverlaps(pattern, manualPrefix);
    } else if MachineOverlaps(pattern, manualPrefix) {
      var n: nat :| n <= MAX_INT64 && RendersUnder(pattern, manualPrefix, n);
      MachineRenderingSplits(pattern, manualPrefix, n);
    } else if prefix < manualPrefix && BeginsMachineNumber(manualPrefix[|prefix|..], suffix) {
      assert manualPrefix == prefix + manualPrefix[|prefix|..];
      MachineSplitRenders(pattern, manualPrefix[|prefix|..]);
    }
  }

  /** A branch that reads both as a claim and as a manual branch. */
  predicate Ambiguous(pattern: string, manualPrefix: string, branch: string) {
    ParseBranch(pattern, branch).Some? && manualPrefix <= branch
  }

  /** Over machine integers, overlapping is precisely having a branch of both kinds. */
  lemma AmbiguityIsMachineOverlap(pattern: string, manualPrefix: string)
    requires Cut(pattern, N_TOKEN).Found?
    ensures MachineOverlaps(pattern, manualPrefix) <==> exists branch :: Ambiguous(pattern, manualPrefix, branch)
  {
    if MachineOverlaps(pattern, manualPrefix) {
      var n: nat :| n <= MAX_INT64 && RendersUnder(pattern, manualPrefix, n);
      ParseInvertsRender(pattern, RenderBranch(pattern, n), n);
      assert Ambiguous(pattern, manualPrefix, RenderBranch(pattern, n));
    }
    forall branch | Ambiguous(pattern, manualPrefix, branch) ensures MachineOverlaps(pattern, manualPrefix) {
      var n := ParseBranch(pattern, branch).value;
      ParseInvertsRender(pattern, branch, n);
      assert RendersUnder(pattern, manualPrefix, n);
    }
  }

  /**
   * Beyond the machine integers the decision still answers true: a manual prefix that
   * spells a claim of an impossibly large issue is refused though nothing can render it.
   */
  lemma OverlapBeyondMachineIntegers(pattern: string, n: nat)
    requires Cut(pattern, N_TOKEN).Found? && PatternSuffix(pattern) == "" && n > MAX_INT64
    ensures Overlaps(pattern, RenderBranch(pattern, n))
    ensures !MachineOverlaps(pattern, RenderBranch(pattern, n))
  {
    var prefix, manualPrefix := PatternPrefix(pattern), RenderBranch(pattern, n);
    assert RendersUnder(pattern, manualPrefix, n);
    if MachineOverlaps(pattern, manualPrefix) {
      var m: nat :| m <= MAX_INT64 && RendersUnder(pattern, manualPrefix, m);
      assert Itoa(n) <= Itoa(m) by {
        PrefixUnderCommon(prefix, Itoa(n), Itoa(m));
        assert RenderBranch(pattern, m) == prefix + Itoa(m);
        assert manualPrefix == prefix + Itoa(n);
      }
      ValueOfPrefix(Itoa(m), |Itoa(n)|);
      assert Itoa(m)[..|Itoa(n)|] == Itoa(n);
      ValueOfItoa(m);
      ValueOfItoa(n);
    }
  }

  // ----- configuration -----

  datatype PatternError =
    | TokenNotOnce
    | BadChar(c: char)
    | EdgeSlash
    | DotDot
    | EmptyPrefix
    | PrefixBadChar(c: char)
    | PrefixLeadingSlash
    | PrefixDotDot
    | Overlap

  const LOWER_LETTERS := "abcdefghijklmnopqrstuvwxyz"
  const UPPER_LETTERS := "ABCDEFGHIJKLMNOPQRSTUVWXYZ"
  const DIGITS := "0123456789"

  /** The text lists every character from the first on. */
  predicate IsRun(text: string, first: char) {
    forall k | 0 <= k < |text| :: text[k] as int == first as int + k
  }

  lemma InRun(text: string, first: char, c: char)
    requires IsRun(text, first)
    ensures c in text <==> first as int <= c as int < first as int + |text|
  {
    if first as int <= c as int < first as int + |text| {
      assert text[c as int - first as int] == c;
    }
  }

  /** The ref-safe alphabet: letters, digits, dot, underscore, slash and dash. */
  lemma SafeAlphabet(c: char)
    ensures IsRefSafe(c) <==> c in LOWER_LETTERS || c in UPPER_LETTERS || c in DIGITS || c in "._/-"
  {
    InRun(LOWER_LETTERS, 'a', c);
    InRun(UPPER_LETTERS, 'A', c);
    InRun(DIGITS, '0', c);
  }

  /** c is unsafe and everything before one of its occurrences is safe. */
  ghost predicate IsFirstBad(s: string, c: char) {
    exists i | 0 <= i < |s| :: s[i] == c && !IsRefSafe(s[i]) && forall j | 0 <= j < i :: IsRefSafe(s[j])
  }

  function FirstBad(s: string): (r: Option<char>)
    ensures r.None? <==> All(s, IsRefSafe)
    ensures r.Some? ==> IsFirstBad(s, r.value)
  {
    if s == "" then None
    else if !IsRefSafe(s[0]) then Some(s[0])
    else
      var r := FirstBad(s[1..]);
      assert r.Some? ==> IsFirstBad(s, r.value) by {
        if r.Some? {
          var i :| 0 <= i < |s| - 1 && s[1..][i] == r.value && !IsRefSafe(r.value)
                   && forall j | 0 <= j < i :: IsRefSafe(s[1..][j]);
          assert s[i + 1] == r.value;
          assert forall j | 0 < j < i + 1 :: s[j] == s[1..][j - 1];
        }
      }
      r
  }

  method FirstBadRefChar(s: string) returns (r: Option<char>)
    ensures r == FirstBad(s)
    ensures r.None? <==> All(s, IsRefSafe)
    ensures r.Some? ==> IsFirstBad(s, r.value)
  {
    var i := 0;
    while i < |s|
      invariant i <= |s|
      invariant FirstBad(s) == FirstBad(s[i..])
    {
      if !IsRefSafe(s[i]) {
        return Some(s[i]);
      }
      i := i + 1;
    }
    return None;
  }

  ghost predicate ValidPattern(pattern: string) {
    && Count(pattern, N_TOKEN) == 1
    && All(ReplaceToken(pattern, ""), IsRefSafe)
    && !("/" <= pattern) && !HasSuffix(pattern, "/")
    && !Contains(pattern, "..")
  }

  ghost predicate ValidManualPrefix(prefix: string) {
    prefix != "" && All(prefix, IsRefSafe) && !("/" <= prefix) && !Contains(prefix, "..")
  }

  method ValidatePattern(pattern: string) returns (err: Option<PatternError>)
    ensures err.None? <==> ValidPattern(pattern)
    ensures err.Some? && err.value.BadChar? ==> FirstBad(ReplaceToken(pattern, "")) == Some(err.value.c)
  {
    if Count(pattern, N_TOKEN) != 1 {
      return Some(TokenNotOnce);
    }
    var bad := FirstBadRefChar(ReplaceToken(pattern, ""));
    if bad.Some? {
      return Some(BadChar(bad.value));
    }
    if "/" <= pattern || HasSuffix(pattern, "/") {
      return Some(EdgeSlash);
    }
    if Contains(pattern, "..") {
      return Some(DotDot);
    }
    return None;
  }

  method ValidateManualPrefix(prefix: string) returns (err: Option<PatternError>)
    ensures err.None? <==> ValidManualPrefix(prefix)
    ensures err.Some? && err.value.PrefixBadChar? ==> FirstBad(prefix) == Some(err.value.c)
  {
    if prefix == "" {
      return Some(EmptyPrefix);
    }
    var bad := FirstBadRefChar(prefix);
    if bad.Some? {
      return Some(PrefixBadChar(bad.value));
    }
    if "/" <= prefix {
      return Some(PrefixLeadingSlash);
    }
    if Contains(prefix, "..") {
      return Some(PrefixDotDot);
    }
    return None;
  }

  method ValidatePatternPair(pattern: string, manualPrefix: string) returns (err: Option<PatternError>)
    ensures err.None? <==>
            ValidPattern(pattern) && ValidManualPrefix(manualPrefix) && !Overlaps(pattern, manualPrefix)
    ensures err.None? ==> forall branch :: !Ambiguous(pattern, manualPrefix, branch)
  {
    err := ValidatePattern(pattern);
    if err.Some? {
      return;
    }
    err := ValidateManualPrefix(manualPrefix);
    if err.Some? {
      return;
    }
    CountPositiveMeansFound(pattern, N_TOKEN);
    var overlap := PatternsOverlap(pattern, manualPrefix);
    AmbiguityIsMachineOverlap(pattern, manualPrefix);
    return if overlap then Some(Overlap) else None;
  }
}
