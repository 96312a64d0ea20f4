/** String helpers with the meaning of Go's `strings` package, over characters. */
module Text {

  datatype Option<+T> = None | Some(value: T)

  /** Every element of s satisfies the character class p. */
  predicate All(s: string, p: char -> bool) {
    forall i | 0 <= i < |s| :: p(s[i])
  }

  predicate HasSuffix(s: string, suffix: string) {
    |suffix| <= |s| && s[|s| - |suffix|..] == suffix
  }

  predicate Contains(s: string, sub: string) {
    exists i | 0 <= i <= |s| :: sub <= s[i..]
  }

  /** The result of cutting a string around the first occurrence of a separator. */
  datatype CutResult = NotFound | Found(before: string, after: string)

  /** strings.Cut: split s around the first occurrence of sep. */
  function Cut(s: string, sep: string): (r: CutResult)
    ensures r.Found? ==> s == r.before + sep + r.after
  {
    if sep <= s then Found("", s[|sep|..])
    else if s == "" then NotFound
    else
      match Cut(s[1..], sep)
      case NotFound => NotFound
      case Found(before, after) => Found([s[0]] + before, after)
  }

  /** strings.Count for a non-empty sub: the number of non-overlapping occurrences. */
  function Count(s: string, sub: string): nat
    requires sub != ""
    decreases |s|
  {
    if sub <= s then 1 + Count(s[|sub|..], sub)
    else if s == "" then 0
    else Count(s[1..], sub)
  }

  lemma CountPositiveMeansFound(s: string, sub: string)
    requires sub != ""
    ensures Count(s, sub) > 0 <==> Cut(s, sub).Found?
  {
  }

  /** unicode.IsSpace, the class both strings.Fields and strings.TrimSpace use. */
  predicate IsSpace(c: char) {
    c == ' ' || '\U{9}' <= c <= '\U{d}' || c == '\U{85}' || c == '\U{a0}'
    || c == '\U{1680}' || '\U{2000}' <= c <= '\U{200a}'
    || c == '\U{2028}' || c == '\U{2029}' || c == '\U{202f}' || c == '\U{205f}' || c == '\U{3000}'
  }

  function TrimLeft(s: string): (r: string)
    ensures r == "" || !IsSpace(r[0])
    ensures HasSuffix(s, r) && All(s[..|s| - |r|], IsSpace)
  {
    if s != "" && IsSpace(s[0]) then TrimLeft(s[1..]) else s
  }

  function TrimRight(s: string): (r: string)
    ensures r == "" || !IsSpace(r[|r| - 1])
    ensures r <= s && All(s[|r|..], IsSpace)
  {
    if s != "" && IsSpace(s[|s| - 1]) then
      var r := TrimRight(s[..|s| - 1]);
      assert s[|r|..] == s[..|s| - 1][|r|..] + [s[|s| - 1]];
      r
    else s
  }

  lemma TrimRightKeepsInk(s: string, i: nat)
    requires i < |s| && !IsSpace(s[i])
    ensures i < |TrimRight(s)|
  {
  }

  /** strings.TrimSpace. */
  function TrimSpace(s: string): string {
    TrimRight(TrimLeft(s))
  }

  /** Trimming leaves nothing exactly when there was nothing but space. */
  lemma TrimSpaceEmpty(s: string)
    ensures TrimSpace(s) == "" <==> All(s, IsSpace)
  {
    var t := TrimLeft(s);
    if t != "" {
      assert t[0] == s[|s| - |t|];
      TrimRightKeepsInk(t, 0);
    } else {
      assert s[..|s|] == s;
    }
  }

  /** strings.Join. */
  function Join(parts: seq<string>, sep: string): string {
    if parts == [] then ""
    else if |parts| == 1 then parts[0]
    else parts[0] + sep + Join(parts[1..], sep)
  }

  lemma {:induction false} JoinEmpty(parts: seq<string>, sep: string)
    requires forall i | 0 <= i < |parts| :: parts[i] != ""
    ensures Join(parts, sep) == "" <==> parts == []
  {
  }
}
