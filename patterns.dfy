// The fragment of Python's `re` used by the tegrastats parser: patterns made
// of literal text and one-or-more runs of a character class, found with
// `re.search` (leftmost match) and `re.findall` (successive non-overlapping
// leftmost matches, returning the groups).
//
// Every run in those patterns is followed either by the end of the pattern
// or by a literal whose first character lies outside the run's class, so the
// regular-expression engine can only succeed with the longest run; matching
// runs greedily without backtracking therefore finds exactly its matches.
module Patterns {
  import opened Wrappers
  import opened Text

  /** `\d`, `\w`, `[\d.]` and `[\d%@,]` over ASCII. */
  datatype CharClass = Digit | Word | DigitOrDot | CpuField

  predicate InClass(c: char, k: CharClass)
  {
    match k
    case Digit => IsDigit(c)
    case Word => IsDigit(c) || ('a' <= c <= 'z') || ('A' <= c <= 'Z') || c == '_'
    case DigitOrDot => IsDigit(c) || c == '.'
    case CpuField => IsDigit(c) || c == '%' || c == '@' || c == ','
  }

  /** A literal, or a capturing group `(k+)`. */
  datatype Tok = Lit(text: string) | Run(cls: CharClass)

  /** A pattern whose every match consumes at least one character. */
  predicate Consuming(p: seq<Tok>)
  {
    |p| > 0 && (p[0].Run? || |p[0].text| > 0)
  }

  /** The length of the longest run of class `k` starting at `i`. */
  function RunLength(s: string, i: nat, k: CharClass): (n: nat)
    requires i <= |s|
    ensures i + n <= |s|
    ensures forall j | i <= j < i + n :: InClass(s[j], k)
    ensures i + n == |s| || !InClass(s[i + n], k)
    decreases |s| - i
  {
    if i < |s| && InClass(s[i], k) then 1 + RunLength(s, i + 1, k) else 0
  }

  /** Matching `p` anchored at `i`: the end of the match and the captured groups. */
  function MatchFrom(s: string, i: nat, p: seq<Tok>): (r: Option<(nat, seq<string>)>)
    requires i <= |s|
    ensures r.Some? ==> i <= r.value.0 <= |s|
    ensures r.Some? && Consuming(p) ==> i < r.value.0
    decreases |p|
  {
    if p == [] then Some((i, []))
    else
      match p[0]
      case Lit(t) =>
        if OccursAt(s, t, i) then MatchFrom(s, i + |t|, p[1..]) else None
      case Run(k) =>
        var n := RunLength(s, i, k);
        if n == 0 then None
        else
          match MatchFrom(s, i + n, p[1..])
          case None => None
          case Some(m) => Some((m.0, [s[i..i + n]] + m.1))
  }

  datatype Found = Found(start: nat, end: nat, groups: seq<string>)

  /** `re.search(p, s[from:])`: the leftmost match at or after `from`. */
  function Search(s: string, p: seq<Tok>, from: nat): (r: Option<Found>)
    requires from <= |s|
    ensures r.Some? ==> from <= r.value.start <= r.value.end <= |s|
    ensures r.Some? && Consuming(p) ==> r.value.start < r.value.end
    decreases |s| - from
  {
    match MatchFrom(s, from, p)
    case Some(m) => Some(Found(from, m.0, m.1))
    case None => if from == |s| then None else Search(s, p, from + 1)
  }

  /** `re.findall(p, s[from:])`: the groups of each successive match. */
  function FindAll(s: string, p: seq<Tok>, from: nat): seq<seq<string>>
    requires from <= |s|
    requires Consuming(p)
    decreases |s| - from
  {
    match Search(s, p, from)
    case None => []
    case Some(f) => [f.groups] + FindAll(s, p, f.end)
  }

  /**
   * `Search` finds a match at the position it reports and none before it,
   * and reports nothing only when no position from `from` on matches.
   */
  lemma {:induction false} SearchIsLeftmost(s: string, p: seq<Tok>, from: nat)
    requires from <= |s|
    ensures Search(s, p, from).Some? ==>
      && MatchFrom(s, Search(s, p, from).value.start, p).Some?
      && (forall j | from <= j < Search(s, p, from).value.start :: MatchFrom(s, j, p).None?)
    ensures Search(s, p, from).None? ==> forall j | from <= j <= |s| :: MatchFrom(s, j, p).None?
    decreases |s| - from
  {
    if MatchFrom(s, from, p).None? && from < |s| {
      SearchIsLeftmost(s, p, from + 1);
    }
  }

  /** Each match of a literal-led pattern begins with that literal. */
  lemma MatchStartsWithLiteral(s: string, p: seq<Tok>, from: nat)
    requires from <= |s| && |p| > 0 && p[0].Lit?
    requires Search(s, p, from).Some?
    ensures OccursAt(s, p[0].text, Search(s, p, from).value.start)
  {
    SearchIsLeftmost(s, p, from);
  }

  /** The groups of `(\d+)`-style patterns are digit strings: `int(g)` reads them. */
  function GroupValue(groups: seq<string>, k: nat): nat
  {
    if k < |groups| then DigitsValue(groups[k]) else 0
  }
}
