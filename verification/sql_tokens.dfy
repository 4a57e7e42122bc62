/** Which token starts where in a pool statement, said of the characters of the statement. */
module SqlTokens {
  import opened Wrappers
  import opened Texts
  import opened SqlScanner

  /** What the characters at `p` can open. */
  datatype Opening = Quotation | LineComment | BlockComment | DollarString(length: nat) | Nothing

  predicate Begins(s: string, p: nat, start: string) {
    p + |start| <= |s| && forall k :: 0 <= k < |start| ==> s[p + k] == start[k]
  }

  /** `$$`, or an identifier between two dollar signs. */
  predicate IsTag(s: string, p: nat, length: nat) {
    2 <= length && p + length <= |s| && s[p] == '$' && s[p + length - 1] == '$' &&
    (length > 2 ==> Letter(s[p + 1])) && forall k :: p < k < p + length - 1 ==> Word(s[k])
  }

  ghost predicate Opens(s: string, p: nat, opening: Opening)
    requires p < |s|
  {
    match opening
    case Quotation => s[p] == '\'' || s[p] == '\"'
    case LineComment => Begins(s, p, "--")
    case BlockComment => Begins(s, p, "/*")
    case DollarString(length) => IsTag(s, p, length)
    case Nothing =>
      s[p] != '\'' && s[p] != '\"' && !Begins(s, p, "--") && !Begins(s, p, "/*") &&
      forall length: nat :: !IsTag(s, p, length)
  }

  lemma BeginsIsAt(s: string, p: nat, start: string)
    ensures Begins(s, p, start) <==> At(s, p, start)
    ensures Begins(s, p, start) ==> p + |start| <= |s| && (start != "" ==> s[p] == start[0])
  {
    if At(s, p, start) {
      forall k | 0 <= k < |start| ensures s[p + k] == start[k] { assert s[p..p + |start|][k] == start[k]; }
    }
    if Begins(s, p, start) {
      assert s[p..p + |start|] == start;
      if start != "" { assert s[p + 0] == start[0]; }
    }
  }

  lemma TagEnds(s: string, p: nat, length: nat)
    requires IsTag(s, p, length) && length > 2
    ensures WordEnd(s, p + 1) == p + length - 1
  {
    DollarIsNoWord();
    var end := WordEnd(s, p + 1);
    assert !Word(s[p + length - 1]) && s[p + length - 1] == '$';
  }

  /** The tag is the one the scanner measures. */
  lemma TagExactly(s: string, p: nat, length: nat)
    requires p < |s|
    ensures IsTag(s, p, length) <==> length > 0 && TagLength(s, p) == length
  {
    hide WordEnd;
    DollarIsNoWord();
    if IsTag(s, p, length) && length > 2 { TagEnds(s, p, length); }
  }

  lemma DollarIsNoWord()
    ensures !Word('$') && !Letter('$')
  {
  }

  /** Where each kind of region ends. */
  ghost predicate EndsAt(s: string, p: nat, opening: Opening, end: nat)
    requires p < end <= |s|
  {
    match opening
    case Quotation => p + 2 <= end && Doubled(s[p + 1..end - 1], s[p]) && s[end - 1] == s[p] && (end < |s| ==> s[end] != s[p])
    case LineComment => (forall k :: p <= k < end - 1 ==> s[k] != '\n') && (s[end - 1] == '\n' || end == |s|)
    case BlockComment => p + 4 <= end && FirstAt(s, "*/", p + 2, end - 2)
    case DollarString(length) =>
      length >= 1 && p + 2 * length <= end && FirstAt(s, s[p..p + length], p + length, end - length)
    case Nothing => false
  }

  lemma QuotationEnds(s: string, p: nat, end: nat)
    requires p < end <= |s| && Opens(s, p, Quotation)
    ensures ExtentAt(s, p) == Ends(end) <==> EndsAt(s, p, Quotation, end)
  {
    hide QuoteEnd, Doubled;
    QuoteEndBounds(s, s[p], p + 1);
    if p + 1 < end { QuotationIs(s, s[p], p + 1, end); }
  }

  /** Every region ends where its kind ends, and nothing else is a region. */
  lemma RegionExactly(s: string, p: nat, opening: Opening, end: nat)
    requires p < end <= |s| && Opens(s, p, opening)
    ensures ExtentAt(s, p) == Ends(end) <==> EndsAt(s, p, opening, end)
    ensures ExtentAt(s, p).NoRegion? <==> opening.Nothing?
  {
    hide QuoteEnd, Doubled, At, FirstAt, TagLength, Find, IsTag, Begins;
    BeginsIsAt(s, p, "--");
    BeginsIsAt(s, p, "/*");
    QuoteEndBounds(s, s[p], p + 1);
    TagExactly(s, p, TagLength(s, p));
    match opening
    case Quotation => QuotationEnds(s, p, end);
    case LineComment => LineCommentIs(s, p, end); OpensNoQuote(s, p, "--");
    case BlockComment => BlockCommentIs(s, p, end); OpensNoQuote(s, p, "/*");
    case DollarString(length) => TagExactly(s, p, length); DollarOpens(s, p, length); DollarStringIs(s, p, end);
    case Nothing =>
  }

  lemma OpensNoQuote(s: string, p: nat, start: string)
    requires p < |s| && start != "" && Begins(s, p, start) && !IsQuote(start[0])
    ensures !IsQuote(s[p])
  {
    BeginsIsAt(s, p, start);
  }

  lemma DollarOpens(s: string, p: nat, length: nat)
    requires p < |s| && IsTag(s, p, length)
    ensures s[p] == '$' && !IsQuote(s[p]) && !At(s, p, "--") && !At(s, p, "/*")
  {
    BeginsIsAt(s, p, "--");
    BeginsIsAt(s, p, "/*");
  }

  /** In code: a rowid of the aliased table where it stands alone, a placeholder at every question mark, a second
      statement after a semicolon unless nothing but white space follows, and otherwise the character. */
  lemma CodeTokenExactly(s: string, p: nat)
    requires p < |s| && Opens(s, p, Nothing)
    ensures TokenAt(s, p) ==
      if Begins(s, p, "t.rowid") && (p > 0 ==> !Word(s[p - 1])) && (p + 7 < |s| ==> !Word(s[p + 7])) then Ok(Rowid)
      else if s[p] == '?' then Ok(Param)
      else if s[p] == ';' && (exists k :: p < k < |s| && !Space(s[k])) then Err(MultipleStatements)
      else Ok(Code(s[p]))
  {
    hide At, IsTag, Begins, Space;
    RegionExactly(s, p, Nothing, p + 1);
    BeginsIsAt(s, p, "t.rowid");
    BlankRest(s, p);
  }

  lemma BlankRest(s: string, p: nat)
    requires p < |s|
    ensures Blank(s[p + 1..]) <==> !exists k :: p < k < |s| && !Space(s[k])
  {
    hide Space;
    forall k | p < k < |s| ensures s[k] == s[p + 1..][k - p - 1] {
    }
  }
}
