/**
 * Parsing a five-field cron expression into bitmasks, against the grammar read as a
 * language: which texts each field accepts and which values each of them selects.
 */
module CronParse {
  import opened Arith
  import opened Text
  import opened Decimal
  import opened Calendar
  import opened Cron

  const MAX_UINT32 := 0xffff_ffff

  datatype Result<+T> = Ok(value: T) | Err(error: CronError)

  datatype CronError =
    | FieldCount(n: nat)
    | EmptyElement(field: string)
    | MalformedStep(field: string)
    | InvalidStep(field: string)
    | StepZero(field: string)
    | StepOnValue(field: string)
    | EmptyValue(field: string)
    | OutOfRange(field: string)
    | UnknownName(field: string)
    | InvalidValue(field: string)
    | Descending(field: string, suggestion: string)

  datatype Names = Numeric | Months | Weekdays

  datatype FieldSpec = FieldSpec(name: string, min: nat, max: nat, names: Names)

  const MINUTE := FieldSpec("minute", 0, 59, Numeric)
  const HOUR_OF_DAY := FieldSpec("hour", 0, 23, Numeric)
  const DAY_OF_MONTH := FieldSpec("day-of-month", 1, 31, Numeric)
  const MONTH := FieldSpec("month", 1, 12, Months)
  const DAY_OF_WEEK := FieldSpec("day-of-week", 0, 7, Weekdays)

  predicate IsFieldSpec(s: FieldSpec) {
    s == MINUTE || s == HOUR_OF_DAY || s == DAY_OF_MONTH || s == MONTH || s == DAY_OF_WEEK
  }

  // ----- words -----

  /** unicode.ToLower, on the characters whose lower case is an ASCII letter. */
  function LowerChar(c: char): char {
    if 'A' <= c <= 'Z' then (c as int + 32) as char
    else if c == '\U{130}' then 'i'
    else if c == '\U{212a}' then 'k'
    else c
  }

  function Lower(s: string): (r: string)
    ensures |r| == |s| && forall i | 0 <= i < |s| :: r[i] == LowerChar(s[i])
  {
    if s == "" then "" else [LowerChar(s[0])] + Lower(s[1..])
  }

  const MONTH_NAMES: seq<string> :=
    ["jan", "feb", "mar", "apr", "may", "jun", "jul", "aug", "sep", "oct", "nov", "dec"]
  const WEEKDAY_NAMES: seq<string> := ["sun", "mon", "tue", "wed", "thu", "fri", "sat"]

  /** The position of a word in a list of names. */
  function Position(names: seq<string>, word: string): (r: Option<nat>)
    ensures r.Some? ==> r.value < |names| && names[r.value] == word
    ensures r.None? ==> word !in names
  {
    if names == [] then None
    else if names[0] == word then Some(0)
    else match Position(names[1..], word)
         case None => None
         case Some(k) => Some(k + 1)
  }

  predicate IsLowerWord(w: string) {
    |w| == 3 && 'a' <= w[0] <= 'z' && 'a' <= w[1] <= 'z' && 'a' <= w[2] <= 'z'
  }

  lemma NamesAreWords()
    ensures forall k | 0 <= k < |MONTH_NAMES| :: IsLowerWord(MONTH_NAMES[k])
    ensures forall k | 0 <= k < |WEEKDAY_NAMES| :: IsLowerWord(WEEKDAY_NAMES[k])
  {
  }

  function Lookup(names: Names, token: string): Option<nat> {
    match names
    case Numeric => None
    case Months => (match Position(MONTH_NAMES, Lower(token)) case None => None case Some(k) => Some(k + 1))
    case Weekdays => Position(WEEKDAY_NAMES, Lower(token))
  }

  lemma LowerLetter(c: char)
    requires 'a' <= LowerChar(c) <= 'z'
    ensures !IsDigit(c) && c != '-' && c != '/'
  {
  }

  /** A token that spells a name is a three-letter word: no digit, dash or slash. */
  lemma NameIsAWord(names: Names, token: string)
    requires Lookup(names, token).Some?
    ensures |token| == 3 && !IsDigit(token[0]) && '-' !in token && '/' !in token
  {
    NamesAreWords();
    var word := Lower(token);
    assert IsLowerWord(word);
    forall i | 0 <= i < |token| ensures !IsDigit(token[i]) && token[i] != '-' && token[i] != '/' {
      assert word[i] == LowerChar(token[i]);
      LowerLetter(token[i]);
    }
  }

  predicate IsLetter(c: char) { 'a' <= c <= 'z' || 'A' <= c <= 'Z' }

  // ----- the parser -----

  function ParseDigits(s: string): (r: Option<nat>) {
    if AllDigits(s) && Value(s) <= MAX_UINT32 then Some(Value(s)) else None
  }

  function TokenValue(s: FieldSpec, token: string): Result<nat> {
    if token == "" then Err(EmptyValue(s.name))
    else match ParseDigits(token)
         case Some(n) => if n < s.min || n > s.max then Err(OutOfRange(s.name)) else Ok(n)
         case None =>
           if AllDigits(token) then Err(OutOfRange(s.name))
           else if s.names.Numeric? then Err(InvalidValue(s.name))
           else match Lookup(s.names, token)
                case Some(v) => Ok(v)
                case None => if All(token, IsLetter) then Err(UnknownName(s.name)) else Err(InvalidValue(s.name))
  }

  datatype Progression = Progression(lo: nat, hi: nat, step: nat)

  function ParseItem(s: FieldSpec, item: string): Result<Progression> {
    if item == "" then Err(EmptyElement(s.name))
    else match Cut(item, "/")
         case NotFound => ParseSpan(s, item, 1)
         case Found(span, stepText) =>
           if stepText == "" || '/' in stepText then Err(MalformedStep(s.name))
           else match ParseDigits(stepText)
                case None => Err(InvalidStep(s.name))
                case Some(n) =>
                  if n == 0 then Err(StepZero(s.name))
                  else if span != "*" && '-' !in span then Err(StepOnValue(s.name))
                  else ParseSpan(s, span, n)
  }

  function ParseSpan(s: FieldSpec, span: string, step: nat): Result<Progression> {
    if span == "*" then Ok(Progression(s.min, s.max, step))
    else match Cut(span, "-")
         case Found(before, after) =>
           if before == "" then ParseSingle(s, span, step)
           else
             var lo := TokenValue(s, before);
             if lo.Err? then Err(lo.error)
             else
               var hi := TokenValue(s, after);
               if hi.Err? then Err(hi.error)
               else if lo.value > hi.value then Err(Descending(s.name, Unwrapped(s, lo.value, hi.value)))
               else Ok(Progression(lo.value, hi.value, step))
         case NotFound => ParseSingle(s, span, step)
  }

  function ParseSingle(s: FieldSpec, span: string, step: nat): Result<Progression> {
    match TokenValue(s, span)
    case Err(e) => Err(e)
    case Ok(v) => Ok(Progression(v, v, step))
  }

  /** The ascending spelling suggested for a wrapping range. */
  function Unwrapped(s: FieldSpec, lo: nat, hi: nat): string {
    if s.max == 7 && hi == 0 then Itoa(lo) + "-7"
    else
      var head := if lo == s.max then Itoa(lo) else Itoa(lo) + "-" + Itoa(s.max);
      var tail := if hi == s.min then Itoa(hi) else Itoa(s.min) + "-" + Itoa(hi);
      head + "," + tail
  }

  // ----- the grammar -----

  /** token spells value v of the field. */
  predicate IsValue(s: FieldSpec, token: string, v: nat) {
    (AllDigits(token) && Value(token) == v && s.min <= v <= s.max) || Lookup(s.names, token) == Some(v)
  }

  /** text is an ascending range a-b, its dash at position k. */
  predicate IsRangeAt(s: FieldSpec, text: string, lo: nat, hi: nat, k: nat) {
    k < |text| && text[k] == '-' && IsValue(s, text[..k], lo) && IsValue(s, text[k + 1..], hi) && lo <= hi
  }

  /** text is "*" or an ascending range. */
  ghost predicate IsSpan(s: FieldSpec, text: string, lo: nat, hi: nat) {
    (text == "*" && lo == s.min && hi == s.max) || exists k: nat :: IsRangeAt(s, text, lo, hi, k)
  }

  /** text is a span, a slash at position k, and a step. */
  ghost predicate IsSteppedAt(s: FieldSpec, text: string, p: Progression, k: nat) {
    && k < |text| && text[k] == '/'
    && IsSpan(s, text[..k], p.lo, p.hi)
    && AllDigits(text[k + 1..]) && Value(text[k + 1..]) == p.step && 1 <= p.step <= MAX_UINT32
  }

  /** One element of a field's list and the progression it denotes. */
  ghost predicate IsItem(s: FieldSpec, text: string, p: Progression) {
    || (p.step == 1 && (IsSpan(s, text, p.lo, p.hi) || (IsValue(s, text, p.lo) && p.hi == p.lo)))
    || exists k: nat :: IsSteppedAt(s, text, p, k)
  }

  predicate InProgression(p: Progression, v: nat) {
    p.step >= 1 && p.lo <= v <= p.hi && (v - p.lo) % p.step == 0
  }

  // ----- parser and grammar agree -----

  lemma CutAtChar(s: string, c: char)
    ensures Cut(s, [c]).NotFound? <==> c !in s
    ensures var r := Cut(s, [c]);
            r.Found? ==> c !in r.before && |r.before| < |s| && s[|r.before|] == c
                         && s[..|r.before|] == r.before && s[|r.before| + 1..] == r.after
  {
    if [c] <= s {
    } else if s != "" {
      CutAtChar(s[1..], c);
    }
  }

  lemma TokenValueIsGrammar(s: FieldSpec, token: string, v: nat)
    requires IsFieldSpec(s)
    ensures TokenValue(s, token) == Ok(v) <==> IsValue(s, token, v)
  {
    if Lookup(s.names, token).Some? {
      NameIsAWord(s.names, token);
    }
  }

  /** Values contain neither a dash nor a slash nor a star. */
  lemma ValueIsPlain(s: FieldSpec, token: string, v: nat)
    requires IsValue(s, token, v)
    ensures token != "" && token != "*" && '-' !in token && '/' !in token
  {
    if !AllDigits(token) {
      NameIsAWord(s.names, token);
    }
  }

  lemma SpanHasNoSlash(s: FieldSpec, text: string, lo: nat, hi: nat)
    requires IsSpan(s, text, lo, hi)
    ensures '/' !in text && (text == "*" || '-' in text)
  {
    if text != "*" {
      var k: nat :| IsRangeAt(s, text, lo, hi, k);
      ValueIsPlain(s, text[..k], lo);
      ValueIsPlain(s, text[k + 1..], hi);
      forall i | 0 <= i < |text| ensures text[i] != '/' {
        assert i < k ==> text[i] == text[..k][i];
        assert i > k ==> text[i] == text[k + 1..][i - k - 1];
      }
    }
  }

  lemma RangeCutsAtItsDash(s: FieldSpec, text: string, lo: nat, hi: nat, k: nat)
    requires IsRangeAt(s, text, lo, hi, k)
    ensures k > 0 && Cut(text, "-") == Found(text[..k], text[k + 1..])
  {
    CutAtChar(text, '-');
    ValueIsPlain(s, text[..k], lo);
    forall i | 0 <= i < k ensures text[i] != '-' {
      assert text[i] == text[..k][i];
    }
  }

  /** A range is what the first dash cuts into two values. */
  lemma RangeByCut(s: FieldSpec, text: string, lo: nat, hi: nat)
    ensures (exists k: nat :: IsRangeAt(s, text, lo, hi, k)) <==>
            var r := Cut(text, "-"); r.Found? && IsValue(s, r.before, lo) && IsValue(s, r.after, hi) && lo <= hi
  {
    CutAtChar(text, '-');
    if k: nat :| IsRangeAt(s, text, lo, hi, k) {
      RangeCutsAtItsDash(s, text, lo, hi, k);
    }
    var r := Cut(text, "-");
    if r.Found? && IsValue(s, r.before, lo) && IsValue(s, r.after, hi) && lo <= hi {
      assert IsRangeAt(s, text, lo, hi, |r.before|);
    }
  }

  lemma ParseSpanIsGrammar(s: FieldSpec, text: string, step: nat, p: Progression)
    requires IsFieldSpec(s)
    ensures ParseSpan(s, text, step) == Ok(p) <==>
            p.step == step && (IsSpan(s, text, p.lo, p.hi) || (IsValue(s, text, p.lo) && p.hi == p.lo))
  {
    TokenValueIsGrammar(s, text, p.lo);
    if IsValue(s, text, p.lo) {
      ValueIsPlain(s, text, p.lo);
    }
    RangeByCut(s, text, p.lo, p.hi);
    CutAtChar(text, '-');
    var r := Cut(text, "-");
    if r.Found? && IsValue(s, r.before, p.lo) {
      ValueIsPlain(s, r.before, p.lo);
    }
    if text != "*" && r.Found? && r.before != "" {
      ParseRangeIsGrammar(s, text, step, p);
    }
  }

  /** A text with a dash inside is read as the range its first dash cuts. */
  lemma ParseRangeIsGrammar(s: FieldSpec, text: string, step: nat, p: Progression)
    requires IsFieldSpec(s) && text != "*" && Cut(text, "-").Found? && Cut(text, "-").before != ""
    ensures var r := Cut(text, "-");
            ParseSpan(s, text, step) == Ok(p) <==>
            p.step == step && IsValue(s, r.before, p.lo) && IsValue(s, r.after, p.hi) && p.lo <= p.hi
  {
    var r := Cut(text, "-");
    TokenValueIsGrammar(s, r.before, p.lo);
    TokenValueIsGrammar(s, r.after, p.hi);
  }

  lemma SteppedCutsAtItsSlash(s: FieldSpec, text: string, p: Progression, k: nat)
    requires IsSteppedAt(s, text, p, k)
    ensures Cut(text, "/") == Found(text[..k], text[k + 1..]) && '/' !in text[k + 1..]
  {
    CutAtChar(text, '/');
    SpanHasNoSlash(s, text[..k], p.lo, p.hi);
    forall i | 0 <= i < k ensures text[i] != '/' {
      assert text[i] == text[..k][i];
    }
    var stepText := text[k + 1..];
    assert forall i | 0 <= i < |stepText| :: IsDigit(stepText[i]);
  }

  /** A stepped item is what the first slash cuts into a span and a step. */
  lemma SteppedByCut(s: FieldSpec, text: string, p: Progression)
    ensures (exists k: nat :: IsSteppedAt(s, text, p, k)) <==>
            var r := Cut(text, "/");
            r.Found? && IsSpan(s, r.before, p.lo, p.hi)
            && AllDigits(r.after) && Value(r.after) == p.step && 1 <= p.step <= MAX_UINT32
  {
    CutAtChar(text, '/');
    if k: nat :| IsSteppedAt(s, text, p, k) {
      SteppedCutsAtItsSlash(s, text, p, k);
    }
    var r := Cut(text, "/");
    if r.Found? && IsSpan(s, r.before, p.lo, p.hi)
       && AllDigits(r.after) && Value(r.after) == p.step && 1 <= p.step <= MAX_UINT32 {
      assert IsSteppedAt(s, text, p, |r.before|);
    }
  }

  lemma DigitsHaveNoSlash(text: string)
    requires AllDigits(text)
    ensures '/' !in text
  {
    assert forall i | 0 <= i < |text| :: IsDigit(text[i]);
  }

  /** Past the slash the parser wants a positive step over a span. */
  lemma ParseSteppedIsGrammar(s: FieldSpec, item: string, p: Progression)
    requires IsFieldSpec(s) && Cut(item, "/").Found?
    ensures var r := Cut(item, "/");
            ParseItem(s, item) == Ok(p) <==>
            IsSpan(s, r.before, p.lo, p.hi)
            && AllDigits(r.after) && Value(r.after) == p.step && 1 <= p.step <= MAX_UINT32
  {
    var r := Cut(item, "/");
    if AllDigits(r.after) {
      DigitsHaveNoSlash(r.after);
      ParseSpanIsGrammar(s, r.before, Value(r.after), p);
    }
    PlainOrSpan(s, r.before, p.lo, p.hi);
  }

  /** Values have neither dash nor slash; spans have no slash, and have a dash unless they are the star. */
  lemma PlainOrSpan(s: FieldSpec, text: string, lo: nat, hi: nat)
    ensures IsValue(s, text, lo) ==> '-' !in text && '/' !in text && text != "*"
    ensures IsSpan(s, text, lo, hi) ==> '/' !in text && (text == "*" || '-' in text)
  {
    if IsValue(s, text, lo) {
      ValueIsPlain(s, text, lo);
    }
    if IsSpan(s, text, lo, hi) {
      SpanHasNoSlash(s, text, lo, hi);
    }
  }

  /** The parser accepts exactly the grammar's items, with the progression the grammar gives them. */
  lemma ParseItemIsGrammar(s: FieldSpec, item: string, p: Progression)
    requires IsFieldSpec(s)
    ensures ParseItem(s, item) == Ok(p) <==> IsItem(s, item, p)
  {
    CutAtChar(item, '/');
    SteppedByCut(s, item, p);
    PlainOrSpan(s, item, p.lo, p.hi);
    if Cut(item, "/").NotFound? {
      ParseSpanIsGrammar(s, item, 1, p);
    } else {
      ParseSteppedIsGrammar(s, item, p);
    }
  }

  /** What the grammar promises of an item's bounds. */
  lemma ItemBounds(s: FieldSpec, item: string, p: Progression)
    requires IsFieldSpec(s) && IsItem(s, item, p)
    ensures s.min <= p.lo <= p.hi <= s.max && p.step >= 1
  {
    if k: nat :| IsSteppedAt(s, item, p, k) {
      SpanBounds(s, item[..k], p.lo, p.hi);
    } else if IsSpan(s, item, p.lo, p.hi) {
      SpanBounds(s, item, p.lo, p.hi);
    }
  }

  lemma SpanBounds(s: FieldSpec, text: string, lo: nat, hi: nat)
    requires IsFieldSpec(s) && IsSpan(s, text, lo, hi)
    ensures s.min <= lo <= hi <= s.max
  {
  }

  // ----- fields -----

  /** strings.Split on a single character: never empty. */
  function Split(s: string, c: char): (parts: seq<string>)
    ensures parts != []
  {
    if s == "" then [""]
    else if s[0] == c then [""] + Split(s[1..], c)
    else var rest := Split(s[1..], c); [[s[0]] + rest[0]] + rest[1..]
  }

  /** Value v is selected by some element of a field's text. */
  ghost predicate FieldSelects(s: FieldSpec, field: string, v: nat) {
    exists i: nat, p: Progression :: SelectedBy(s, Split(field, ','), i, p, v)
  }

  ghost predicate SelectedBy(s: FieldSpec, items: seq<string>, i: nat, p: Progression, v: nat) {
    i < |items| && IsItem(s, items[i], p) && InProgression(p, v)
  }

  /** Every element of a field's text is an item of the grammar. */
  ghost predicate WellFormedField(s: FieldSpec, field: string) {
    forall i | 0 <= i < |Split(field, ',')| :: HasProgression(s, Split(field, ',')[i])
  }

  ghost predicate HasProgression(s: FieldSpec, item: string) {
    exists p :: IsItem(s, item, p)
  }

  const EMPTY_WORD: Mask := seq(64, _ => false)

  /** One of the first n items selects v. */
  ghost predicate SelectedAmong(s: FieldSpec, items: seq<string>, n: nat, v: nat) {
    exists i: nat, p: Progression :: i < n && SelectedBy(s, items, i, p, v)
  }

  /** The mask after the first n items: exactly the values they select. */
  ghost predicate MaskOf(mask: Mask, s: FieldSpec, items: seq<string>, n: nat) {
    |mask| == 64 && forall v | 0 <= v < 64 :: mask[v] <==> SelectedAmong(s, items, n, v)
  }

  /** p is the one progression the grammar gives the item. */
  ghost predicate IsOnlyItem(s: FieldSpec, item: string, p: Progression) {
    forall q :: IsItem(s, item, q) <==> q == p
  }

  lemma SelectedOneMore(s: FieldSpec, items: seq<string>, n: nat, p: Progression, v: nat)
    requires n < |items| && IsOnlyItem(s, items[n], p)
    ensures SelectedAmong(s, items, n + 1, v) <==> SelectedAmong(s, items, n, v) || InProgression(p, v)
  {
    assert IsItem(s, items[n], p);
    if InProgression(p, v) {
      assert SelectedBy(s, items, n, p, v);
    }
    if SelectedAmong(s, items, n, v) {
      var i: nat, q: Progression :| i < n && SelectedBy(s, items, i, q, v);
      assert i < n + 1 && SelectedBy(s, items, i, q, v);
    }
    if SelectedAmong(s, items, n + 1, v) {
      var i: nat, q: Progression :| i < n + 1 && SelectedBy(s, items, i, q, v);
      assert IsItem(s, items[i], q);
    }
  }

  lemma MaskOfOneMore(before: Mask, after: Mask, s: FieldSpec, items: seq<string>, n: nat, p: Progression)
    requires n < |items| && MaskOf(before, s, items, n) && IsOnlyItem(s, items[n], p)
    requires |after| == 64 && forall v | 0 <= v < 64 :: after[v] <==> before[v] || InProgression(p, v)
    ensures MaskOf(after, s, items, n + 1)
  {
    forall v | 0 <= v < 64 ensures after[v] <==> SelectedAmong(s, items, n + 1, v) {
      SelectedOneMore(s, items, n, p, v);
    }
  }

  /** parseItem, by what the grammar says of its item. */
  method ReadItem(s: FieldSpec, item: string) returns (r: Result<Progression>)
    requires IsFieldSpec(s)
    ensures r.Ok? <==> HasProgression(s, item)
    ensures r.Ok? ==> IsOnlyItem(s, item, r.value) && r.value.step >= 1 && r.value.lo <= r.value.hi <= s.max
  {
    r := ParseItem(s, item);
    forall q ensures ParseItem(s, item) == Ok(q) <==> IsItem(s, item, q) {
      ParseItemIsGrammar(s, item, q);
    }
    if r.Ok? {
      ItemBounds(s, item, r.value);
      assert IsItem(s, item, r.value);
    }
  }

  /** fieldSpec.parse: one field's text into its bitmask. */
  method ParseField(s: FieldSpec, field: string) returns (r: Result<Mask>)
    requires IsFieldSpec(s)
    ensures r.Ok? <==> WellFormedField(s, field)
    ensures r.Ok? ==> |r.value| == 64 && forall v | 0 <= v < 64 :: r.value[v] <==> FieldSelects(s, field, v)
  {
    var bits := EMPTY_WORD;
    var items := Split(field, ',');
    var k := 0;
    while k < |items|
      invariant 0 <= k <= |items|
      invariant forall i | 0 <= i < k :: HasProgression(s, items[i])
      invariant MaskOf(bits, s, items, k)
    {
      var item := ReadItem(s, items[k]);
      if item.Err? {
        assert !HasProgression(s, Split(field, ',')[k]);
        return Err(item.error);
      }
      ghost var before := bits;
      bits := SetProgression(bits, item.value);
      MaskOfOneMore(before, bits, s, items, k, item.value);
      k := k + 1;
    }
    MaskOfAll(bits, s, field);
    return Ok(bits);
  }

  lemma MaskOfAll(mask: Mask, s: FieldSpec, field: string)
    requires MaskOf(mask, s, Split(field, ','), |Split(field, ',')|)
    ensures |mask| == 64 && forall v | 0 <= v < 64 :: mask[v] <==> FieldSelects(s, field, v)
  {
    var items := Split(field, ',');
    forall v | 0 <= v < 64 ensures mask[v] <==> FieldSelects(s, field, v) {
      if FieldSelects(s, field, v) {
        var i: nat, p: Progression :| SelectedBy(s, items, i, p, v);
        assert i < |items| && SelectedBy(s, items, i, p, v);
      }
    }
  }

  /** The inner loop of fieldSpec.parse: set every step-th bit of a range. */
  method SetProgression(mask: Mask, p: Progression) returns (r: Mask)
    requires |mask| == 64 && p.hi < 64 && p.step >= 1
    ensures |r| == 64 && forall v | 0 <= v < 64 :: r[v] <==> mask[v] || InProgression(p, v)
  {
    r := mask;
    var v := p.lo;
    ghost var n := 0;
    while v <= p.hi
      invariant v == p.lo + n * p.step
      invariant |r| == 64
      invariant forall u | 0 <= u < 64 :: r[u] <==> mask[u] || (u < v && InProgression(p, u))
      decreases p.hi + 1 - v
    {
      ProgressionStep(p, n);
      r := r[v := true];
      v := v + p.step;
      n := n + 1;
    }
  }

  /** The multiples of the step are exactly the progression. */
  lemma ProgressionStep(p: Progression, n: nat)
    requires p.step >= 1
    ensures var v := p.lo + n * p.step;
            && (v <= p.hi ==> InProgression(p, v))
            && forall u | v < u < v + p.step :: !InProgression(p, u)
  {
    var v := p.lo + n * p.step;
    DivModUnique(v - p.lo, p.step, n, 0);
    forall u | v < u < v + p.step ensures !InProgression(p, u) {
      DivModUnique(u - p.lo, p.step, n, u - v);
    }
  }

  // ----- whole expressions -----

  /** strings.Fields: the maximal runs of non-space characters. */
  function Fields(s: string): (parts: seq<string>)
    ensures forall i | 0 <= i < |parts| :: parts[i] != ""
  {
    if s == "" then []
    else if IsSpace(s[0]) then Fields(s[1..])
    else if |s| == 1 || IsSpace(s[1]) then [[s[0]]] + Fields(s[1..])
    else
      var rest := Fields(s[1..]);
      if rest == [] then [[s[0]]] else [[s[0]] + rest[0]] + rest[1..]
  }

  /** The text is five well-formed fields. */
  ghost predicate WellFormed(text: string) {
    var f := Fields(text);
    && |f| == 5
    && WellFormedField(MINUTE, f[0])
    && WellFormedField(HOUR_OF_DAY, f[1])
    && WellFormedField(DAY_OF_MONTH, f[2])
    && WellFormedField(MONTH, f[3])
    && WellFormedField(DAY_OF_WEEK, f[4])
  }

  /** A weekday is selected under its own number, Sunday also as 7. */
  ghost predicate SelectsWeekday(field: string, wd: nat) {
    FieldSelects(DAY_OF_WEEK, field, wd) || (wd == 0 && FieldSelects(DAY_OF_WEEK, field, 7))
  }

  /** The days the two day fields select together: the vixie-cron OR when both are restricted. */
  ghost predicate SelectsDay(domField: string, dowField: string, dayOfMonth: nat, wd: nat) {
    var byDate, byWeekday := FieldSelects(DAY_OF_MONTH, domField, dayOfMonth), SelectsWeekday(dowField, wd);
    if domField != "*" && dowField != "*" then byDate || byWeekday
    else if domField != "*" then byDate
    else if dowField != "*" then byWeekday
    else true
  }

  /** What the text says of wall-clock minute w, read off the grammar alone. */
  ghost predicate Denotes(text: string, w: int)
    requires WellFormed(text)
  {
    var f, date := Fields(text), Civil(w / MINUTES_PER_DAY);
    && FieldSelects(MINUTE, f[0], w % 60)
    && FieldSelects(HOUR_OF_DAY, f[1], w % MINUTES_PER_DAY / 60)
    && FieldSelects(MONTH, f[3], date.m)
    && SelectsDay(f[2], f[4], date.d, Weekday(w / MINUTES_PER_DAY))
  }

  /** uint32(x), uint16(x), uint8(x): the low bits of a word. */
  function Truncate(mask: Mask, width: nat): Mask
    requires width <= |mask|
  {
    mask[..width]
  }

  /** Sunday's second spelling, bit 7, folded onto bit 0. */
  function FoldSunday(mask: Mask): Mask
    requires |mask| == 64
  {
    if mask[7] then mask[7 := false][0 := true] else mask
  }

  /** A 64-bit field mask holds exactly what the field's text selects. */
  ghost predicate Holds(mask: Mask, s: FieldSpec, field: string) {
    |mask| == 64 && forall v | 0 <= v < 64 :: mask[v] <==> FieldSelects(s, field, v)
  }

  /** The expression Parse assembles from the five field masks. */
  function Assemble(minute: Mask, hour: Mask, dom: Mask, month: Mask, dow: Mask, domField: string,
                    dowField: string): Expr
    requires |minute| == |hour| == |dom| == |month| == |dow| == 64
  {
    Expr(minute, Truncate(hour, 32), Truncate(dom, 32), Truncate(month, 16), Truncate(FoldSunday(dow), 8),
         domField != "*", dowField != "*")
  }

  /** The narrow words and the folded Sunday lose nothing: the masks mean what the text says. */
  lemma AssembledMeansText(text: string, minute: Mask, hour: Mask, dom: Mask, month: Mask, dow: Mask, w: int)
    requires WellFormed(text)
    requires var f := Fields(text);
             Holds(minute, MINUTE, f[0]) && Holds(hour, HOUR_OF_DAY, f[1]) && Holds(dom, DAY_OF_MONTH, f[2])
             && Holds(month, MONTH, f[3]) && Holds(dow, DAY_OF_WEEK, f[4])
    ensures var f := Fields(text);
            Assemble(minute, hour, dom, month, dow, f[2], f[4]).MatchesMinute(w) <==> Denotes(text, w)
  {
    var f := Fields(text);
    var e := Assemble(minute, hour, dom, month, dow, f[2], f[4]);
    var date, wd := Civil(w / MINUTES_PER_DAY), Weekday(w / MINUTES_PER_DAY);
    assert Bit(e.minute, w % 60) <==> FieldSelects(MINUTE, f[0], w % 60);
    var h := w % MINUTES_PER_DAY / 60;
    assert Bit(e.hour, h) <==> FieldSelects(HOUR_OF_DAY, f[1], h);
    assert Bit(e.dom, date.d) <==> FieldSelects(DAY_OF_MONTH, f[2], date.d);
    assert Bit(e.month, date.m) <==> FieldSelects(MONTH, f[3], date.m);
    assert Bit(e.dow, wd) <==> SelectsWeekday(f[4], wd);
  }

  method Parse(text: string) returns (r: Result<Expr>)
    ensures r.Ok? <==> WellFormed(text)
    ensures r.Ok? ==> forall w :: r.value.MatchesMinute(w) <==> Denotes(text, w)
    ensures |Fields(text)| != 5 ==> r == Err(FieldCount(|Fields(text)|))
  {
    var f := Fields(text);
    if |f| != 5 {
      return Err(FieldCount(|f|));
    }
    var minute := ParseField(MINUTE, f[0]);
    if minute.Err? {
      return Err(minute.error);
    }
    var hour := ParseField(HOUR_OF_DAY, f[1]);
    if hour.Err? {
      return Err(hour.error);
    }
    var dom := ParseField(DAY_OF_MONTH, f[2]);
    if dom.Err? {
      return Err(dom.error);
    }
    var month := ParseField(MONTH, f[3]);
    if month.Err? {
      return Err(month.error);
    }
    var dow := ParseField(DAY_OF_WEEK, f[4]);
    if dow.Err? {
      return Err(dow.error);
    }
    r := Ok(Assemble(minute.value, hour.value, dom.value, month.value, dow.value, f[2], f[4]));
    forall w ensures r.value.MatchesMinute(w) <==> Denotes(text, w) {
      AssembledMeansText(text, minute.value, hour.value, dom.value, month.value, dow.value, w);
    }
  }

  // ----- what the fields range over -----

  /** What a field reads off wall-clock minute w. */
  function Reading(s: FieldSpec, w: int): int
    requires IsFieldSpec(s)
  {
    if s == MINUTE then w % 60
    else if s == HOUR_OF_DAY then w % MINUTES_PER_DAY / 60
    else if s == DAY_OF_MONTH then Civil(w / MINUTES_PER_DAY).d
    else if s == MONTH then Civil(w / MINUTES_PER_DAY).m
    else Weekday(w / MINUTES_PER_DAY)
  }

  lemma SomeMinuteReads(s: FieldSpec, v: nat) returns (w: int)
    requires IsFieldSpec(s) && s.min <= v <= s.max && !(s == DAY_OF_WEEK && v == 7)
    ensures Reading(s, w) == v
  {
    if s == MINUTE {
      w := v;
    } else if s == HOUR_OF_DAY {
      w := v * 60;
    } else {
      var x := if s == DAY_OF_MONTH then Date(1, 1, v) else if s == MONTH then Date(1, v, 1) else Date(1, 1, 7 + v);
      w := MidnightOf(x);
    }
  }

  lemma MidnightOf(x: Date) returns (w: int)
    requires ValidDate(x)
    ensures Civil(w / MINUTES_PER_DAY) == x
    ensures x.y == 1 && x.m == 1 ==> Weekday(w / MINUTES_PER_DAY) == x.d % 7
  {
    w := DayIndex(x) * MINUTES_PER_DAY;
    assert w / MINUTES_PER_DAY == DayIndex(x);
    CivilOfIndex(x);
  }

  /** A field admits exactly the values some minute of the clock shows, and 7 as a second Sunday. */
  lemma BoundsAreTheClocks(s: FieldSpec, v: nat)
    requires IsFieldSpec(s)
    ensures s.min <= v <= s.max <==> (exists w :: Reading(s, w) == v) || (s == DAY_OF_WEEK && v == 7)
  {
    if s.min <= v <= s.max && !(s == DAY_OF_WEEK && v == 7) {
      var w := SomeMinuteReads(s, v);
    }
  }

  lemma {:induction false} LowerWord(w: string)
    requires forall i | 0 <= i < |w| :: 'a' <= w[i] <= 'z'
    ensures Lower(w) == w
  {
  }

  /** One ASCII letter, in either case, or one and the same character. */
  predicate SameLetter(c: char, d: char) {
    || c == d
    || ('A' <= c <= 'Z' && d as int == c as int + 32)
    || ('A' <= d <= 'Z' && c as int == d as int + 32)
  }

  lemma SameLetterLowers(c: char, d: char)
    requires SameLetter(c, d)
    ensures LowerChar(c) == LowerChar(d)
  {
  }

  /** Names are read in any mix of upper and lower case. */
  lemma NamesIgnoreCase(names: Names, a: string, b: string)
    requires |a| == |b| && forall i | 0 <= i < |a| :: SameLetter(a[i], b[i])
    ensures Lookup(names, a) == Lookup(names, b)
  {
    forall i | 0 <= i < |a| ensures Lower(a)[i] == Lower(b)[i] {
      SameLetterLowers(a[i], b[i]);
    }
    assert Lower(a) == Lower(b);
  }

  lemma NamesDiffer()
    ensures forall i, j | 0 <= i < j < 12 :: MONTH_NAMES[i] != MONTH_NAMES[j]
    ensures forall i, j | 0 <= i < j < 7 :: WEEKDAY_NAMES[i] != WEEKDAY_NAMES[j]
  {
  }

  lemma {:induction false} PositionOfName(names: seq<string>, k: nat)
    requires k < |names| && forall i | 0 <= i < k :: names[i] != names[k]
    ensures Position(names, names[k]) == Some(k)
  {
    if k > 0 {
      PositionOfName(names[1..], k - 1);
    }
  }

  lemma MonthName(word: string, k: nat)
    requires k < 12 && MONTH_NAMES[k] == word
    ensures Lookup(Months, word) == Some(k + 1)
  {
    NamesAreWords();
    NamesDiffer();
    LowerWord(word);
    PositionOfName(MONTH_NAMES, k);
  }

  lemma WeekdayName(word: string, k: nat)
    requires k < 7 && WEEKDAY_NAMES[k] == word
    ensures Lookup(Weekdays, word) == Some(k)
  {
    NamesAreWords();
    NamesDiffer();
    LowerWord(word);
    PositionOfName(WEEKDAY_NAMES, k);
  }

  /** The months by name are 1 to 12. */
  lemma MonthsAreOneToTwelve()
    ensures var months := ["jan", "feb", "mar", "apr", "may", "jun", "jul", "aug", "sep", "oct", "nov", "dec"];
            forall k | 0 <= k < 12 :: Lookup(Months, months[k]) == Some(k + 1)
  {
    forall k | 0 <= k < 12 ensures Lookup(Months, MONTH_NAMES[k]) == Some(k + 1) {
      MonthName(MONTH_NAMES[k], k);
    }
  }

  /** The weekdays by name are 0 to 6, from Sunday. */
  lemma WeekdaysAreZeroToSix()
    ensures var weekdays := ["sun", "mon", "tue", "wed", "thu", "fri", "sat"];
            forall k | 0 <= k < 7 :: Lookup(Weekdays, weekdays[k]) == Some(k)
  {
    forall k | 0 <= k < 7 ensures Lookup(Weekdays, WEEKDAY_NAMES[k]) == Some(k) {
      WeekdayName(WEEKDAY_NAMES[k], k);
    }
  }

  /** What is wrong with a token that is no value: it is empty, a number out of bounds, a word that is no name. */
  lemma TokenErrors(s: FieldSpec, token: string)
    requires IsFieldSpec(s) && TokenValue(s, token).Err?
    ensures var error := TokenValue(s, token).error;
            var letters := forall i | 0 <= i < |token| :: 'a' <= token[i] <= 'z' || 'A' <= token[i] <= 'Z';
            && (error == EmptyValue(s.name) <==> token == "")
            && (error == OutOfRange(s.name) <==> AllDigits(token))
            && (error == UnknownName(s.name) <==> token != "" && letters && (s == MONTH || s == DAY_OF_WEEK))
            && (error == InvalidValue(s.name) <==>
                token != "" && !AllDigits(token) && !(letters && (s == MONTH || s == DAY_OF_WEEK)))
  {
  }

  lemma CutFirst(span: string, step: string)
    requires '/' !in span
    ensures Cut(span + "/" + step, "/") == Found(span, step)
  {
    var item := span + "/" + step;
    CutAtChar(item, '/');
    assert item[|span|] == '/' && item[..|span|] == span && item[|span| + 1..] == step;
  }

  predicate IsStepError(e: CronError) {
    e.MalformedStep? || e.InvalidStep? || e.StepZero? || e.StepOnValue?
  }

  lemma SpansHaveNoStepErrors(s: FieldSpec, span: string, step: nat)
    ensures ParseSpan(s, span, step).Err? ==> !IsStepError(ParseSpan(s, span, step).error)
  {
    forall token | TokenValue(s, token).Err? ensures !IsStepError(TokenValue(s, token).error) {
    }
  }

  /** What is wrong with a step: it is missing or doubled, no number, zero, or put on a single value. */
  lemma StepErrors(s: FieldSpec, span: string, step: string)
    requires IsFieldSpec(s) && '/' !in span
    ensures var r := ParseItem(s, span + "/" + step);
            && (r == Err(MalformedStep(s.name)) <==> step == "" || '/' in step)
            && (step != "" && '/' !in step ==>
                && (r == Err(InvalidStep(s.name)) <==> !AllDigits(step) || Value(step) > 4_294_967_295)
                && (r == Err(StepZero(s.name)) <==> AllDigits(step) && Value(step) == 0)
                && (r == Err(StepOnValue(s.name)) <==>
                    AllDigits(step) && 0 < Value(step) <= 4_294_967_295 && span != "*" && '-' !in span))
  {
    CutFirst(span, step);
    if AllDigits(step) {
      SpansHaveNoStepErrors(s, span, Value(step));
    }
  }

  // ----- weekly schedules -----

  predicate NoSpace(s: string) {
    forall i | 0 <= i < |s| :: !IsSpace(s[i])
  }

  lemma {:induction false} FieldsOfWord(a: string)
    requires a != "" && NoSpace(a)
    ensures Fields(a) == [a]
  {
    if |a| > 1 {
      FieldsOfWord(a[1..]);
      assert [a[0]] + a[1..] == a;
    } else {
      assert a == [a[0]];
    }
  }

  lemma {:induction false} FieldsOfTwo(a: string, rest: string)
    requires a != "" && NoSpace(a)
    ensures Fields(a + " " + rest) == [a] + Fields(rest)
  {
    var s := a + " " + rest;
    if |a| == 1 {
      assert s[1..] == " " + rest && s[1..][1..] == rest;
      assert a == [s[0]];
    } else {
      FieldsOfTwo(a[1..], rest);
      assert s[1..] == a[1..] + " " + rest;
      assert [a[0]] + a[1..] == a;
    }
  }

  /** strings.Fields undoes strings.Join with a space. */
  lemma {:induction false} FieldsOfJoined(parts: seq<string>)
    requires forall i | 0 <= i < |parts| :: parts[i] != "" && NoSpace(parts[i])
    ensures Fields(Join(parts, " ")) == parts
  {
    if |parts| == 1 {
      FieldsOfWord(parts[0]);
    } else if |parts| > 1 {
      FieldsOfJoined(parts[1..]);
      FieldsOfTwo(parts[0], Join(parts[1..], " "));
    }
  }

  lemma NumberFieldSelects(s: FieldSpec, n: nat, v: nat)
    requires IsFieldSpec(s) && s.min <= n <= s.max
    ensures WellFormedField(s, Itoa(n)) && (FieldSelects(s, Itoa(n), v) <==> v == n)
  {
    NumberIsValue(s, n);
    NumberHasNoComma(n);
    SplitPlain(Itoa(n), ',');
    OneItemSelects(s, Itoa(n), Progression(n, n, 1), v);
  }

  lemma StarFieldSelects(s: FieldSpec, v: nat)
    requires IsFieldSpec(s)
    ensures WellFormedField(s, "*") && (FieldSelects(s, "*", v) <==> s.min <= v <= s.max)
  {
    SplitPlain("*", ',');
    OneItemSelects(s, "*", Progression(s.min, s.max, 1), v);
  }

  /** A cadence of one minute, one hour and one weekday. */
  function Weekly(minute: nat, hour: nat, wd: nat): string {
    Join([Itoa(minute), Itoa(hour), "*", "*", Itoa(wd)], " ")
  }

  lemma FieldsOfWeekly(minute: nat, hour: nat, wd: nat)
    ensures Fields(Weekly(minute, hour, wd)) == [Itoa(minute), Itoa(hour), "*", "*", Itoa(wd)]
  {
    var parts := [Itoa(minute), Itoa(hour), "*", "*", Itoa(wd)];
    forall i | 0 <= i < |parts| ensures parts[i] != "" && NoSpace(parts[i]) {
      assert parts[i] == "*" || AllDigits(parts[i]);
    }
    FieldsOfJoined(parts);
  }

  /** The field selects n alone. */
  ghost predicate SelectsOnly(s: FieldSpec, field: string, n: nat) {
    WellFormedField(s, field) && forall v: nat :: FieldSelects(s, field, v) <==> v == n
  }

  lemma NumberSelectsOnly(s: FieldSpec, n: nat)
    requires IsFieldSpec(s) && s.min <= n <= s.max
    ensures SelectsOnly(s, Itoa(n), n) && Itoa(n) != "*"
  {
    NumberFieldSelects(s, n, n);
    forall v: nat ensures FieldSelects(s, Itoa(n), v) <==> v == n {
      NumberFieldSelects(s, n, v);
    }
    assert IsDigit(Itoa(n)[0]);
  }

  lemma FiresWeekly(text: string, a: string, b: string, c: string, minute: nat, hour: nat, wd: nat, w: int)
    requires Fields(text) == [a, b, "*", "*", c] && c != "*" && wd <= 7
    requires WellFormedField(MINUTE, a) && WellFormedField(HOUR_OF_DAY, b) && WellFormedField(DAY_OF_WEEK, c)
    requires FieldSelects(MINUTE, a, w % 60) <==> w % 60 == minute
    requires var h := w % MINUTES_PER_DAY / 60; FieldSelects(HOUR_OF_DAY, b, h) <==> h == hour
    requires var day := w / MINUTES_PER_DAY;
             SelectsWeekday(c, Weekday(day)) <==> (day - EPOCH_DAY + 4 - wd) % 7 == 0
    ensures WellFormed(text)
    ensures Denotes(text, w) <==>
            && w % 60 == minute && w % MINUTES_PER_DAY / 60 == hour
            && (w / MINUTES_PER_DAY - EPOCH_DAY + 4 - wd) % 7 == 0
  {
    StarFieldSelects(DAY_OF_MONTH, 0);
    StarFieldSelects(MONTH, Civil(w / MINUTES_PER_DAY).m);
    DenotesWeekly(text, a, b, c, w);
  }

  /**
   * A weekly cadence fires at its time of day on the days a whole number of weeks from its weekday
   * in the week of Thursday, 1 January 1970, and at no other minute.
   */
  lemma WeeklyFiresEverySevenDays(minute: nat, hour: nat, wd: nat, w: int)
    requires minute < 60 && hour < 24 && wd <= 7
    ensures WellFormed(Weekly(minute, hour, wd))
    ensures Denotes(Weekly(minute, hour, wd), w) <==>
            && w % MINUTES_PER_DAY == hour * 60 + minute
            && (w / MINUTES_PER_DAY - EPOCH_DAY + 4 - wd) % 7 == 0
  {
    FieldsOfWeekly(minute, hour, wd);
    NumberSelectsOnly(MINUTE, minute);
    NumberSelectsOnly(HOUR_OF_DAY, hour);
    NumberSelectsOnly(DAY_OF_WEEK, wd);
    WeekdayFieldSelects(Itoa(wd), wd, w / MINUTES_PER_DAY);
    FiresWeekly(Weekly(minute, hour, wd), Itoa(minute), Itoa(hour), Itoa(wd), minute, hour, wd, w);
    TimeOfDay(w, hour, minute);
  }

  lemma DenotesWeekly(text: string, minute: string, hour: string, wd: string, w: int)
    requires Fields(text) == [minute, hour, "*", "*", wd] && wd != "*"
    requires WellFormedField(MINUTE, minute) && WellFormedField(HOUR_OF_DAY, hour) && WellFormedField(DAY_OF_WEEK, wd)
    requires WellFormedField(DAY_OF_MONTH, "*") && WellFormedField(MONTH, "*")
    requires FieldSelects(MONTH, "*", Civil(w / MINUTES_PER_DAY).m)
    ensures WellFormed(text)
    ensures Denotes(text, w) <==>
            && FieldSelects(MINUTE, minute, w % 60)
            && FieldSelects(HOUR_OF_DAY, hour, w % MINUTES_PER_DAY / 60)
            && SelectsWeekday(wd, Weekday(w / MINUTES_PER_DAY))
  {
  }

  lemma TimeOfDay(w: int, hour: nat, minute: nat)
    requires minute < 60 && hour < 24
    ensures w % MINUTES_PER_DAY == hour * 60 + minute <==> w % 60 == minute && w % MINUTES_PER_DAY / 60 == hour
  {
    var m := w % MINUTES_PER_DAY;
    assert m % 60 == w % 60;
  }

  lemma WeekdayFieldSelects(field: string, wd: nat, day: int)
    requires wd <= 7 && SelectsOnly(DAY_OF_WEEK, field, wd)
    ensures SelectsWeekday(field, Weekday(day)) <==> (day - EPOCH_DAY + 4 - wd) % 7 == 0
  {
    WeekdayCountsFromTheEpoch(day);
    SameWeekday(day - EPOCH_DAY + 4, wd);
  }

  lemma SameWeekday(n: int, wd: nat)
    requires wd <= 7
    ensures n % 7 == wd || (n % 7 == 0 && wd == 7) <==> (n - wd) % 7 == 0
  {
  }

  // ----- the wrap-free spelling -----

  lemma NumberIsValue(s: FieldSpec, n: nat)
    requires s.min <= n <= s.max
    ensures IsValue(s, Itoa(n), n)
  {
    ValueOfItoa(n);
  }

  lemma RangeTextIsItem(s: FieldSpec, lo: nat, hi: nat)
    requires s.min <= lo <= hi <= s.max
    ensures IsItem(s, Itoa(lo) + "-" + Itoa(hi), Progression(lo, hi, 1))
  {
    NumberIsValue(s, lo);
    NumberIsValue(s, hi);
    var text := Itoa(lo) + "-" + Itoa(hi);
    assert text[..|Itoa(lo)|] == Itoa(lo) && text[|Itoa(lo)| + 1..] == Itoa(hi);
    assert IsRangeAt(s, text, lo, hi, |Itoa(lo)|);
  }

  /** An item denotes one progression only. */
  lemma ItemIsUnambiguous(s: FieldSpec, item: string, p: Progression, q: Progression)
    requires IsFieldSpec(s) && IsItem(s, item, p) && IsItem(s, item, q)
    ensures p == q
  {
    ParseItemIsGrammar(s, item, p);
    ParseItemIsGrammar(s, item, q);
  }

  lemma {:induction false} SplitPlain(s: string, c: char)
    requires c !in s
    ensures Split(s, c) == [s]
  {
    if s != "" {
      SplitPlain(s[1..], c);
      assert [s[0]] + s[1..] == s;
    }
  }

  lemma {:induction false} SplitJoined(a: string, b: string, c: char)
    requires c !in a
    ensures Split(a + [c] + b, c) == [a] + Split(b, c)
  {
    var s := a + [c] + b;
    if a == "" {
      assert s[1..] == b;
    } else {
      assert s[1..] == a[1..] + [c] + b;
      SplitJoined(a[1..], b, c);
      assert [s[0]] + a[1..] == a;
    }
  }

  lemma NumberHasNoComma(n: nat)
    ensures ',' !in Itoa(n)
  {
    assert forall i | 0 <= i < |Itoa(n)| :: IsDigit(Itoa(n)[i]);
  }

  /** The text of one part of a suggestion: a range, or the bare number when it is one value wide. */
  function PartText(lo: nat, hi: nat): string {
    if lo == hi then Itoa(lo) else Itoa(lo) + "-" + Itoa(hi)
  }

  lemma PartIsItem(s: FieldSpec, lo: nat, hi: nat)
    requires s.min <= lo <= hi <= s.max
    ensures IsItem(s, PartText(lo, hi), Progression(lo, hi, 1)) && ',' !in PartText(lo, hi)
  {
    NumberIsValue(s, lo);
    RangeTextIsItem(s, lo, hi);
    NumberHasNoComma(lo);
    NumberHasNoComma(hi);
  }

  lemma OneItemSelects(s: FieldSpec, field: string, p: Progression, v: nat)
    requires IsFieldSpec(s) && Split(field, ',') == [field] && IsItem(s, field, p)
    ensures WellFormedField(s, field) && (FieldSelects(s, field, v) <==> InProgression(p, v))
  {
    if InProgression(p, v) {
      assert SelectedBy(s, Split(field, ','), 0, p, v);
    }
    if i: nat, q: Progression :| SelectedBy(s, Split(field, ','), i, q, v) {
      ItemIsUnambiguous(s, field, p, q);
    }
    assert HasProgression(s, Split(field, ',')[0]);
  }

  lemma TwoItemsSelect(s: FieldSpec, field: string, a: string, b: string, p: Progression, q: Progression, v: nat)
    requires IsFieldSpec(s) && Split(field, ',') == [a, b] && IsItem(s, a, p) && IsItem(s, b, q)
    ensures WellFormedField(s, field) && (FieldSelects(s, field, v) <==> InProgression(p, v) || InProgression(q, v))
  {
    var items := Split(field, ',');
    if InProgression(p, v) {
      assert SelectedBy(s, items, 0, p, v);
    }
    if InProgression(q, v) {
      assert SelectedBy(s, items, 1, q, v);
    }
    if i: nat, r: Progression :| SelectedBy(s, items, i, r, v) {
      ItemIsUnambiguous(s, items[i], r, if i == 0 then p else q);
    }
    assert HasProgression(s, items[0]) && HasProgression(s, items[1]);
  }

  /** A step-less descending range is refused, with the suggestion for its bounds. */
  lemma WrappingRangeIsRefused(s: FieldSpec, a: string, b: string, lo: nat, hi: nat)
    requires IsFieldSpec(s) && IsValue(s, a, lo) && IsValue(s, b, hi) && lo > hi
    ensures ParseItem(s, a + "-" + b) == Err(Descending(s.name, Unwrapped(s, lo, hi)))
  {
    var item := a + "-" + b;
    ValueIsPlain(s, a, lo);
    ValueIsPlain(s, b, hi);
    TokenValueIsGrammar(s, a, lo);
    TokenValueIsGrammar(s, b, hi);
    CutAtChar(item, '/');
    CutAtChar(item, '-');
    var front := Cut(item, "-").before;
    assert item[|a|] == '-';
    assert forall i | 0 <= i < |a| :: item[i] == a[i];
    assert |front| == |a| && front == a;
    assert item[|a| + 1..] == b;
  }

  /** v is in the range lo..hi read around the end of the field. */
  predicate InWrap(s: FieldSpec, lo: nat, hi: nat, v: nat) {
    s.min <= v <= s.max && (lo <= v || v <= hi)
  }

  /** Outside day-of-week the suggestion parses and selects exactly the wrapped range. */
  lemma SuggestionSelectsTheWrap(s: FieldSpec, lo: nat, hi: nat, v: nat)
    requires IsFieldSpec(s) && s.min <= hi < lo <= s.max && !(s.max == 7 && hi == 0)
    ensures WellFormedField(s, Unwrapped(s, lo, hi))
    ensures FieldSelects(s, Unwrapped(s, lo, hi), v) <==> InWrap(s, lo, hi, v)
  {
    var head, tail := PartText(lo, s.max), PartText(s.min, hi);
    PartIsItem(s, lo, s.max);
    PartIsItem(s, s.min, hi);
    assert Unwrapped(s, lo, hi) == head + "," + tail;
    SplitJoined(head, tail, ',');
    SplitPlain(tail, ',');
    TwoItemsSelect(s, Unwrapped(s, lo, hi), head, tail, Progression(lo, s.max, 1), Progression(s.min, hi, 1), v);
  }

  /** A wrapping weekday range's suggestion selects exactly the wrapped weekdays, Sunday at both ends. */
  lemma SuggestionSelectsTheWrappedWeekdays(lo: nat, hi: nat, wd: nat)
    requires hi < lo <= 7 && wd < 7
    ensures WellFormedField(DAY_OF_WEEK, Unwrapped(DAY_OF_WEEK, lo, hi))
    ensures SelectsWeekday(Unwrapped(DAY_OF_WEEK, lo, hi), wd) <==> lo <= wd || wd <= hi
  {
    if hi == 0 {
      var field := Unwrapped(DAY_OF_WEEK, lo, hi);
      assert Itoa(7) == "7" && field == Itoa(lo) + "-" + Itoa(7);
      RangeTextIsItem(DAY_OF_WEEK, lo, 7);
      NumberHasNoComma(lo);
      SplitPlain(field, ',');
      OneItemSelects(DAY_OF_WEEK, field, Progression(lo, 7, 1), wd);
      OneItemSelects(DAY_OF_WEEK, field, Progression(lo, 7, 1), 7);
    } else {
      SuggestionSelectsTheWrap(DAY_OF_WEEK, lo, hi, wd);
      SuggestionSelectsTheWrap(DAY_OF_WEEK, lo, hi, 7);
    }
  }
}
