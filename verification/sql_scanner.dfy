/** The qmark-to-driver translation of pool statements (app/postgres_authority.py,
    `compile_pool_sql`, after its OR IGNORE rewrite): the scanner, the lexical structure it sees, and
    what the driver reads back from its output. */
module SqlScanner {
  import opened Wrappers
  import opened Texts

  datatype SqlError = StatementInvalid | MultipleStatements | ParameterCountInvalid

  datatype Token = Region(text: string) | Rowid | Param | Code(c: char)

  const ROWID := "t.rowid"
  const FIFO := "t.__pool_fifo"

  predicate Letter(c: char) {
    'a' <= c <= 'z' || 'A' <= c <= 'Z' || c == '_'
  }

  predicate Word(c: char) {
    Letter(c) || '0' <= c <= '9'
  }

  predicate IsQuote(c: char) {
    c == '\'' || c == '\"'
  }

  // ---- regions the scanner copies without looking inside

  /** What starts at a position: no region, a region that ends before `end`, or one that never ends. */
  datatype Extent = NoRegion | Ends(end: nat) | Unterminated

  function ToExtent(found: Option<nat>, length: nat): Extent {
    if found.None? then Unterminated else Ends(found.value + length)
  }

  /** The end of a quotation whose contents go on at `i`; a doubled quote stands for itself. */
  function QuoteEnd(s: string, quote: char, i: nat): Extent
    decreases |s| - i
  {
    if i >= |s| then Unterminated
    else if s[i] != quote then QuoteEnd(s, quote, i + 1)
    else if i + 1 < |s| && s[i + 1] == quote then QuoteEnd(s, quote, i + 2)
    else Ends(i + 1)
  }

  function WordEnd(s: string, i: nat): (end: nat)
    requires i <= |s|
    ensures i <= end <= |s|
    ensures forall k :: i <= k < end ==> Word(s[k])
    ensures end < |s| ==> !Word(s[end])
    decreases |s| - i
  {
    if i < |s| && Word(s[i]) then WordEnd(s, i + 1) else i
  }

  /** The length of `$$` or `$tag$` at `p`, or 0. */
  function TagLength(s: string, p: nat): (length: nat)
    requires p < |s|
    ensures length == 0 || (2 <= length && p + length <= |s| && s[p] == '$' && s[p + length - 1] == '$')
    ensures length > 2 ==> Letter(s[p + 1]) && forall k :: p < k < p + length - 1 ==> Word(s[k])
  {
    if s[p] != '$' || p + 1 >= |s| then 0
    else if s[p + 1] == '$' then 2
    else if !Letter(s[p + 1]) then 0
    else
      var end := WordEnd(s, p + 1);
      if end < |s| && s[end] == '$' then end + 1 - p else 0
  }

  function ExtentAt(s: string, p: nat): Extent
    requires p < |s|
  {
    if IsQuote(s[p]) then QuoteEnd(s, s[p], p + 1)
    else if At(s, p, "--") then
      var found := Find(s, "\n", p);
      if found.None? then Ends(|s|) else Ends(found.value + 1)
    else if At(s, p, "/*") then ToExtent(Find(s, "*/", p + 2), 2)
    else
      var length := TagLength(s, p);
      if length == 0 then NoRegion else ToExtent(Find(s, s[p..p + length], p + length), length)
  }

  predicate IsRowid(s: string, p: nat) {
    At(s, p, ROWID) && (p == 0 || !Word(s[p - 1])) && (p + 7 == |s| || !Word(s[p + 7]))
  }

  /** The text a token stands for in the statement. */
  function TextOf(t: Token): string {
    match t
    case Region(text) => text
    case Rowid => ROWID
    case Param => "?"
    case Code(c) => [c]
  }

  lemma {:induction false} QuoteEndBounds(s: string, quote: char, i: nat)
    requires i <= |s|
    ensures var e := QuoteEnd(s, quote, i);
      (e.Ends? ==> i < e.end <= |s| && s[e.end - 1] == quote && (e.end < |s| ==> s[e.end] != quote)) && !e.NoRegion?
    decreases |s| - i
  {
    if i < |s| && s[i] != quote {
      QuoteEndBounds(s, quote, i + 1);
    } else if i + 1 < |s| && s[i] == quote && s[i + 1] == quote {
      QuoteEndBounds(s, quote, i + 2);
    }
  }

  lemma ExtentBounds(s: string, p: nat)
    requires p < |s|
    ensures ExtentAt(s, p).Ends? ==> p < ExtentAt(s, p).end <= |s|
  {
    QuoteEndBounds(s, s[p], p + 1);
  }

  /** The one token at `p`, or the error that ends the scan there. */
  function TokenAt(s: string, p: nat): (t: Result<Token, SqlError>)
    requires p < |s|
    ensures t.Ok? ==> TextOf(t.value) != "" && At(s, p, TextOf(t.value))
  {
    ExtentBounds(s, p);
    var extent := ExtentAt(s, p);
    if extent.Unterminated? then Err(StatementInvalid)
    else if extent.Ends? then Ok(Region(s[p..extent.end]))
    else if IsRowid(s, p) then Ok(Rowid)
    else if s[p] == '?' then Ok(Param)
    else if s[p] == ';' && !Blank(s[p + 1..]) then Err(MultipleStatements)
    else Ok(Code(s[p]))
  }

  /** The tokens of the statement from `p` on. */
  function Tokens(s: string, p: nat): Result<seq<Token>, SqlError>
    requires p <= |s|
    decreases |s| - p
  {
    if p == |s| then Ok([])
    else
      var t := TokenAt(s, p);
      if t.Err? then Err(t.error)
      else
        var rest := Tokens(s, p + |TextOf(t.value)|);
        if rest.Err? then rest else Ok([t.value] + rest.value)
  }

  function Params(ts: seq<Token>): nat {
    if ts == [] then 0 else (if ts[0].Param? then 1 else 0) + Params(ts[1..])
  }

  // ---- the output

  function Escape(text: string): string {
    if text == "" then ""
    else (if text[0] == '%' then "%%" else [text[0]]) + Escape(text[1..])
  }

  function Emit(t: Token, escape: bool): string {
    match t
    case Region(text) => if escape then Escape(text) else text
    case Rowid => FIFO
    case Param => "%s"
    case Code(c) => if c == '%' && escape then "%%" else [c]
  }

  function EmitAll(ts: seq<Token>, escape: bool): string {
    if ts == [] then "" else Emit(ts[0], escape) + EmitAll(ts[1..], escape)
  }

  lemma {:induction false} EmitOneMore(ts: seq<Token>, t: Token, escape: bool)
    ensures EmitAll(ts + [t], escape) == EmitAll(ts, escape) + Emit(t, escape)
    ensures Params(ts + [t]) == Params(ts) + (if t.Param? then 1 else 0)
    decreases |ts|
  {
    if ts == [] {
      assert [t][1..] == [];
    } else {
      assert (ts + [t])[1..] == ts[1..] + [t];
      EmitOneMore(ts[1..], t, escape);
    }
  }

  /** Prepending what has been scanned to what is still to come. */
  function Prepend(done: seq<Token>, rest: Result<seq<Token>, SqlError>): Result<seq<Token>, SqlError> {
    if rest.Err? then rest else Ok(done + rest.value)
  }

  /** The outcome the whole scan must have. */
  function Compiled(s: string, n: nat): Result<string, SqlError> {
    if Blank(s) then Err(StatementInvalid)
    else
      var ts := Tokens(s, 0);
      if ts.Err? then Err(ts.error)
      else if Params(ts.value) != n then Err(ParameterCountInvalid)
      else Ok(EmitAll(ts.value, n > 0))
  }

  method EscapePercent(text: string) returns (r: string)
    ensures r == Escape(text)
  {
    r := "";
    var i := |text|;
    while i > 0
      invariant 0 <= i <= |text|
      invariant r == Escape(text[i..])
    {
      i := i - 1;
      assert text[i..][1..] == text[i + 1..];
      r := (if text[i] == '%' then "%%" else [text[i]]) + r;
    }
  }

  /** The scanning loop over one quotation. */
  method ScanQuote(s: string, p: nat) returns (extent: Extent)
    requires p < |s|
    ensures extent == QuoteEnd(s, s[p], p + 1)
  {
    var quote, end := s[p], p + 1;
    while end < |s|
      invariant p < end <= |s|
      invariant QuoteEnd(s, quote, end) == QuoteEnd(s, quote, p + 1)
    {
      if s[end] == quote {
        if end + 1 < |s| && s[end + 1] == quote {
          end := end + 2;
          continue;
        }
        return Ends(end + 1);
      }
      end := end + 1;
    }
    extent := Unterminated;
  }

  method ScanRegion(s: string, p: nat) returns (extent: Extent)
    requires p < |s|
    ensures extent == ExtentAt(s, p)
  {
    extent := NoRegion;
    if IsQuote(s[p]) {
      extent := ScanQuote(s, p);
    } else if At(s, p, "--") {
      var found := Find(s, "\n", p);
      extent := Ends(if found.None? then |s| else found.value + 1);
    } else if At(s, p, "/*") {
      extent := ToExtent(Find(s, "*/", p + 2), 2);
    } else if s[p] == '$' {
      var length := TagLength(s, p);
      if length > 0 { extent := ToExtent(Find(s, s[p..p + length], p + length), length); }
    }
  }

  lemma PrependNothing(rest: Result<seq<Token>, SqlError>)
    ensures Prepend([], rest) == rest
  {
    if rest.Ok? { assert [] + rest.value == rest.value; }
  }

  lemma TokensStep(s: string, p: nat, done: seq<Token>)
    requires p < |s|
    ensures var t := TokenAt(s, p);
      Prepend(done, Tokens(s, p)) ==
        if t.Err? then Err(t.error) else Prepend(done + [t.value], Tokens(s, p + |TextOf(t.value)|))
  {
    hide TokenAt;
    var t := TokenAt(s, p);
    if t.Ok? && Tokens(s, p + |TextOf(t.value)|).Ok? {
      var rest := Tokens(s, p + |TextOf(t.value)|).value;
      assert done + ([t.value] + rest) == done + [t.value] + rest;
    }
  }

  lemma ScanStarts(s: string, escape: bool)
    ensures Prepend([], Tokens(s, 0)) == Tokens(s, 0) && EmitAll([], escape) == "" && Params([]) == 0
  {
    PrependNothing(Tokens(s, 0));
  }

  lemma ScanEnds(s: string, done: seq<Token>)
    ensures Prepend(done, Tokens(s, |s|)) == Ok(done)
  {
    assert done + [] == done;
  }

  /** `compile_pool_sql`: one pass that advances `position`, counts placeholders and appends to `output`. */
  method CompilePoolSql(s: string, n: nat) returns (r: Result<string, SqlError>)
    ensures r == Compiled(s, n)
  {
    hide ExtentAt, Blank, Escape, Tokens, EmitAll, Params;
    if Blank(s) { return Err(StatementInvalid); }
    var output, position, count := "", 0, 0;
    ghost var done: seq<Token> := [];
    ScanStarts(s, n > 0);
    while position < |s|
      invariant position <= |s|
      invariant Prepend(done, Tokens(s, position)) == Tokens(s, 0)
      invariant output == EmitAll(done, n > 0) && count == Params(done)
      decreases |s| - position
    {
      TokensStep(s, position, done);
      ExtentBounds(s, position);
      ghost var t := TokenAt(s, position);
      if t.Ok? { EmitOneMore(done, t.value, n > 0); }
      var extent := ScanRegion(s, position);
      if extent.Unterminated? { return Err(StatementInvalid); }
      if extent.Ends? {
        var fragment := s[position..extent.end];
        var escaped := EscapePercent(fragment);
        output := output + if n > 0 then escaped else fragment;
        position := extent.end;
      } else if IsRowid(s, position) {
        output := output + FIFO;
        position := position + 7;
      } else {
        if s[position] == '?' {
          output := output + "%s";
          count := count + 1;
        } else if s[position] == '%' {
          output := output + if n > 0 then "%%" else "%";
        } else {
          if s[position] == ';' && !Blank(s[position + 1..]) { return Err(MultipleStatements); }
          output := output + [s[position]];
        }
        position := position + 1;
      }
      done := done + [t.value];
    }
    ScanEnds(s, done);
    if count != n { return Err(ParameterCountInvalid); }
    r := Ok(output);
  }

  // ---- what the driver reads

  datatype Item = Literal(c: char) | Placeholder

  /** The driver's rule for a statement with parameters: `%%` is a percent sign, `%s` takes the next
      parameter, and a percent sign before anything else is an error. */
  function Read(s: string): Option<seq<Item>> {
    if s == "" then Some([])
    else if s[0] != '%' then Cons(Literal(s[0]), Read(s[1..]))
    else if |s| == 1 then None
    else if s[1] == '%' then Cons(Literal('%'), Read(s[2..]))
    else if s[1] == 's' then Cons(Placeholder, Read(s[2..]))
    else None
  }

  function Cons(item: Item, rest: Option<seq<Item>>): Option<seq<Item>> {
    if rest.None? then None else Some([item] + rest.value)
  }

  function Literals(text: string): seq<Item> {
    if text == "" then [] else [Literal(text[0])] + Literals(text[1..])
  }

  /** What a token means to the database: a placeholder, or its text, with `t.rowid` renamed. */
  function Meaning(t: Token): seq<Item> {
    match t
    case Region(text) => Literals(text)
    case Rowid => Literals(FIFO)
    case Param => [Placeholder]
    case Code(c) => [Literal(c)]
  }

  function MeaningAll(ts: seq<Token>): seq<Item> {
    if ts == [] then [] else Meaning(ts[0]) + MeaningAll(ts[1..])
  }

  function TextAll(ts: seq<Token>): string {
    if ts == [] then "" else TextOf(ts[0]) + TextAll(ts[1..])
  }

  function Join(items: seq<Item>, rest: Option<seq<Item>>): Option<seq<Item>> {
    if rest.None? then None else Some(items + rest.value)
  }

  lemma ReadChar(c: char, rest: string)
    ensures Read((if c == '%' then "%%" else [c]) + rest) == Cons(Literal(c), Read(rest))
  {
    var s := (if c == '%' then "%%" else [c]) + rest;
    if c == '%' { assert s[2..] == rest; } else { assert s[1..] == rest; }
  }

  lemma ReadParam(rest: string)
    ensures Read("%s" + rest) == Cons(Placeholder, Read(rest))
  {
    assert ("%s" + rest)[2..] == rest;
  }

  lemma {:induction false} ReadEscaped(text: string, rest: string)
    ensures Read(Escape(text) + rest) == Join(Literals(text), Read(rest))
    decreases |text|
  {
    if text == "" {
      assert Escape(text) + rest == rest;
      if Read(rest).Some? { assert [] + Read(rest).value == Read(rest).value; }
    } else {
      var first := if text[0] == '%' then "%%" else [text[0]];
      assert Escape(text) + rest == first + (Escape(text[1..]) + rest);
      ReadChar(text[0], Escape(text[1..]) + rest);
      ReadEscaped(text[1..], rest);
      if Read(rest).Some? {
        assert [Literal(text[0])] + (Literals(text[1..]) + Read(rest).value) == Literals(text) + Read(rest).value;
      }
    }
  }

  lemma FifoHasNoPercent()
    ensures Escape(FIFO) == FIFO
  {
    NoPercentIsItself(FIFO);
  }

  lemma {:induction false} NoPercentIsItself(text: string)
    requires '%' !in text
    ensures Escape(text) == text
    decreases |text|
  {
    if text != "" { NoPercentIsItself(text[1..]); }
  }

  lemma ReadToken(t: Token, rest: string)
    ensures Read(Emit(t, true) + rest) == Join(Meaning(t), Read(rest))
  {
    match t
    case Region(text) => ReadEscaped(text, rest);
    case Rowid => FifoHasNoPercent(); ReadEscaped(FIFO, rest);
    case Param => ReadParam(rest);
    case Code(c) => ReadChar(c, rest);
  }

  lemma {:induction false} ReadAll(ts: seq<Token>)
    ensures Read(EmitAll(ts, true)) == Some(MeaningAll(ts))
    decreases |ts|
  {
    if ts != [] {
      ReadToken(ts[0], EmitAll(ts[1..], true));
      ReadAll(ts[1..]);
    }
  }

  lemma {:induction false} TokensCover(s: string, p: nat)
    requires p <= |s|
    ensures Tokens(s, p).Ok? ==> TextAll(Tokens(s, p).value) == s[p..]
    decreases |s| - p
  {
    hide TokenAt;
    if p < |s| && Tokens(s, p).Ok? {
      var t := TokenAt(s, p).value;
      TokensCover(s, p + |TextOf(t)|);
      var rest := Tokens(s, p + |TextOf(t)|).value;
      assert ([t] + rest)[1..] == rest;
    }
  }

  function Placeholders(items: seq<Item>): nat {
    if items == [] then 0 else (if items[0].Placeholder? then 1 else 0) + Placeholders(items[1..])
  }

  lemma {:induction false} PlaceholdersJoin(a: seq<Item>, b: seq<Item>)
    ensures Placeholders(a + b) == Placeholders(a) + Placeholders(b)
    decreases |a|
  {
    if a == [] {
      assert a + b == b;
    } else {
      assert (a + b)[1..] == a[1..] + b;
      PlaceholdersJoin(a[1..], b);
    }
  }

  lemma {:induction false} LiteralsHaveNone(text: string)
    ensures Placeholders(Literals(text)) == 0
    decreases |text|
  {
    if text != "" { LiteralsHaveNone(text[1..]); }
  }

  lemma {:induction false} PlaceholdersAreParams(ts: seq<Token>)
    ensures Placeholders(MeaningAll(ts)) == Params(ts)
    decreases |ts|
  {
    if ts != [] {
      PlaceholdersJoin(Meaning(ts[0]), MeaningAll(ts[1..]));
      LiteralsHaveNone(if ts[0].Region? then ts[0].text else FIFO);
      PlaceholdersAreParams(ts[1..]);
    }
  }

  /** The translation is faithful: what the driver reads from an accepted statement with parameters is
      token for token the statement itself, with exactly `n` placeholders, at the question marks that
      stand in code, with every region verbatim and only code-position `t.rowid` renamed. */
  lemma TranslationIsFaithful(s: string, n: nat, out: string)
    requires n > 0 && Compiled(s, n) == Ok(out)
    ensures exists ts ::
      Tokens(s, 0) == Ok(ts) && TextAll(ts) == s && Read(out) == Some(MeaningAll(ts)) && Placeholders(MeaningAll(ts)) == n
  {
    var ts := Tokens(s, 0).value;
    TokensCover(s, 0);
    ReadAll(ts);
    PlaceholdersAreParams(ts);
  }

  /** The text of a token with code-position `t.rowid` renamed. */
  function Renamed(t: Token): string {
    if t.Rowid? then FIFO else TextOf(t)
  }

  function RenamedAll(ts: seq<Token>): string {
    if ts == [] then "" else Renamed(ts[0]) + RenamedAll(ts[1..])
  }

  lemma {:induction false} NothingEscaped(ts: seq<Token>)
    requires Params(ts) == 0
    ensures EmitAll(ts, false) == RenamedAll(ts)
    decreases |ts|
  {
    if ts != [] { NothingEscaped(ts[1..]); }
  }

  /** Without parameters the driver does not interpret percent signs, and none is doubled: the output is
      the statement itself with code-position `t.rowid` renamed. */
  lemma UnparameterizedIsVerbatim(s: string, out: string)
    requires Compiled(s, 0) == Ok(out)
    ensures exists ts :: Tokens(s, 0) == Ok(ts) && TextAll(ts) == s && out == RenamedAll(ts)
  {
    TokensCover(s, 0);
    NothingEscaped(Tokens(s, 0).value);
  }

  // ---- the regions, described without the scanner

  /** A string of characters other than the quote and of doubled quotes. */
  predicate Doubled(text: string, quote: char) {
    text == "" ||
    (text[0] != quote && Doubled(text[1..], quote)) ||
    (|text| >= 2 && text[0] == quote && text[1] == quote && Doubled(text[2..], quote))
  }

  /** A quotation ends at its first quote that is not doubled, and nowhere else. */
  lemma {:induction false} QuotationIs(s: string, quote: char, i: nat, end: nat)
    requires i < end <= |s|
    ensures QuoteEnd(s, quote, i) == Ends(end) <==>
      Doubled(s[i..end - 1], quote) && s[end - 1] == quote && (end < |s| ==> s[end] != quote)
    decreases |s| - i
  {
    QuoteEndBounds(s, quote, i);
    if s[i] != quote {
      if end == i + 1 {
        assert s[end - 1] != quote;
      } else {
        QuotationIs(s, quote, i + 1, end);
        assert s[i..end - 1][1..] == s[i + 1..end - 1];
      }
    } else if i + 1 < |s| && s[i + 1] == quote {
      if end == i + 1 {
      } else if end == i + 2 {
        assert s[i..end - 1] == [quote];
        assert [quote][1..] == "";
        QuoteEndBounds(s, quote, i + 2);
      } else {
        QuotationIs(s, quote, i + 2, end);
        assert s[i..end - 1][2..] == s[i + 2..end - 1];
      }
    } else if end > i + 1 {
      assert s[i..end - 1][0] == quote;
      if end > i + 2 { assert s[i..end - 1][1] == s[i + 1]; }
    }
  }

  predicate FirstAt(s: string, pattern: string, from: nat, i: nat) {
    from <= i && At(s, i, pattern) && forall k :: from <= k < i ==> !At(s, k, pattern)
  }

  lemma FindIsFirst(s: string, pattern: string, from: nat, i: nat)
    ensures Find(s, pattern, from) == Some(i) <==> FirstAt(s, pattern, from, i)
  {
  }

  /** A line comment runs to the first newline or to the end of the statement. */
  lemma LineCommentIs(s: string, p: nat, end: nat)
    requires p < end <= |s| && At(s, p, "--")
    ensures ExtentAt(s, p) == Ends(end) <==>
      (forall k :: p <= k < end - 1 ==> s[k] != '\n') && (s[end - 1] == '\n' || end == |s|)
  {
    hide At, QuoteEnd, TagLength;
    NotAQuote(s, p, "--");
    forall k | p <= k < |s| ensures At(s, k, "\n") <==> s[k] == '\n' { OneChar(s, k, '\n'); }
    var found := Find(s, "\n", p);
    if found.Some? {
      assert At(s, found.value, "\n");
      OneChar(s, found.value, '\n');
    }
  }

  lemma OneChar(s: string, k: nat, c: char)
    ensures At(s, k, [c]) <==> k < |s| && s[k] == c
  {
    if k < |s| { assert s[k..k + 1] == [s[k]]; }
  }

  lemma NotAQuote(s: string, p: nat, pattern: string)
    requires p < |s| && pattern != "" && At(s, p, pattern) && !IsQuote(pattern[0])
    ensures !IsQuote(s[p])
  {
    assert s[p] == s[p..p + |pattern|][0];
  }

  /** A block comment runs to the first closing mark after its opening. */
  lemma BlockCommentIs(s: string, p: nat, end: nat)
    requires p < end <= |s| && At(s, p, "/*")
    ensures ExtentAt(s, p) == Ends(end) <==> p + 4 <= end && FirstAt(s, "*/", p + 2, end - 2)
  {
    NotAQuote(s, p, "/*");
    assert s[p] == s[p..p + 2][0] == '/';
    if end >= 2 { FindIsFirst(s, "*/", p + 2, end - 2); }
  }

  lemma StartsOtherwise(s: string, p: nat, pattern: string)
    requires p < |s| && pattern != "" && s[p] != pattern[0]
    ensures !At(s, p, pattern)
  {
    if p + |pattern| <= |s| { assert s[p..p + |pattern|][0] == s[p]; }
  }

  /** A dollar string runs to the next occurrence of its own tag. */
  lemma DollarStringIs(s: string, p: nat, end: nat)
    requires p < end <= |s| && TagLength(s, p) > 0
    ensures var length := TagLength(s, p);
      ExtentAt(s, p) == Ends(end) <==>
        p + 2 * length <= end && FirstAt(s, s[p..p + length], p + length, end - length)
  {
    hide FirstAt, At, WordEnd, QuoteEnd;
    var length := TagLength(s, p);
    StartsOtherwise(s, p, "--");
    StartsOtherwise(s, p, "/*");
    if end >= length { FindIsFirst(s, s[p..p + length], p + length, end - length); }
  }
}
