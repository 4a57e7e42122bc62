/** Python's operations on texts and byte strings, as far as the text assemblers, the SQL scanner and
    the artifact codec use them. */
module Texts {
  import opened Wrappers

  /** `str.isspace` for one character; also what `strip` removes. */
  predicate Space(c: char) {
    var n := c as int;
    9 <= n <= 13 || 28 <= n <= 32 || n == 0x85 || n == 0xa0 || n == 0x1680 || 0x2000 <= n <= 0x200a ||
    n == 0x2028 || n == 0x2029 || n == 0x202f || n == 0x205f || n == 0x3000
  }

  /** The characters `splitlines` breaks at. */
  predicate LineBreak(c: char) {
    var n := c as int;
    10 <= n <= 13 || 28 <= n <= 30 || n == 0x85 || n == 0x2028 || n == 0x2029
  }

  predicate Blank(s: string) {
    forall i :: 0 <= i < |s| ==> Space(s[i])
  }

  predicate At<T(==)>(s: seq<T>, p: int, pattern: seq<T>) {
    0 <= p && p + |pattern| <= |s| && s[p..p + |pattern|] == pattern
  }

  /** `str.find`: the first occurrence at or after `from`. */
  function Find<T(==)>(s: seq<T>, pattern: seq<T>, from: nat): (found: Option<nat>)
    ensures found.Some? ==> from <= found.value && At(s, found.value, pattern)
    ensures found.Some? ==> forall i :: from <= i < found.value ==> !At(s, i, pattern)
    ensures found.None? ==> forall i :: from <= i ==> !At(s, i, pattern)
    decreases |s| - from
  {
    if At(s, from, pattern) then Some(from)
    else if from >= |s| then None
    else Find(s, pattern, from + 1)
  }

  /** `str.count`: occurrences that do not overlap, counted from the left. */
  function CountOf(s: string, pattern: string, from: nat): nat
    requires pattern != ""
    decreases |s| - from
  {
    var found := Find(s, pattern, from);
    if found.None? then 0 else 1 + CountOf(s, pattern, found.value + |pattern|)
  }

  function TrimRight(s: string): string {
    if s != "" && Space(s[|s| - 1]) then TrimRight(s[..|s| - 1]) else s
  }

  function TrimLeft(s: string): string {
    if s != "" && Space(s[0]) then TrimLeft(s[1..]) else s
  }

  predicate EndsWith(s: string, c: char) {
    s != "" && s[|s| - 1] == c
  }

  /** The spaces a line begins with. */
  function IndentOf(s: string): string {
    if s != "" && s[0] == ' ' then " " + IndentOf(s[1..]) else ""
  }

  function BreakAt(s: string): (i: nat)
    ensures i <= |s| && (i < |s| ==> LineBreak(s[i]))
  {
    if s == "" || LineBreak(s[0]) then 0 else 1 + BreakAt(s[1..])
  }

  /** `splitlines` of a text without carriage returns. */
  function SplitLines(s: string): seq<string> {
    if s == "" then []
    else
      var i := BreakAt(s);
      [s[..i]] + if i < |s| then SplitLines(s[i + 1..]) else []
  }

  function Utf8Length(s: string): nat {
    if s == "" then 0
    else
      var n := s[|s| - 1] as int;
      Utf8Length(s[..|s| - 1]) + if n < 0x80 then 1 else if n < 0x800 then 2 else if n < 0x10000 then 3 else 4
  }

  function Concat(parts: seq<string>): string {
    if parts == [] then "" else Concat(parts[..|parts| - 1]) + parts[|parts| - 1]
  }
}
