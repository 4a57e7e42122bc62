/** What accepted anchored revisions do to the lines, said of the texts of the edits: which edits can be
    accepted, and what each puts in front of its line or in its place. */
module AnchoredLines {
  import opened Wrappers
  import opened Texts
  import opened AnchoredPatch

  // ---- lines

  /** The last character that is not white space is a colon. */
  ghost predicate EndsInColon(s: string) {
    exists k :: 0 <= k < |s| && s[k] == ':' && forall j :: k < j < |s| ==> Space(s[j])
  }

  lemma {:induction false} OpenerExactly(s: string)
    ensures Opener(s) <==> EndsInColon(s)
    decreases |s|
  {
    var n := |s| - 1;
    if s != "" && Space(s[n]) {
      OpenerExactly(s[..n]);
      if EndsInColon(s) {
        var k :| 0 <= k < |s| && s[k] == ':' && forall j :: k < j < |s| ==> Space(s[j]);
        assert s[..n][k] == ':';
      }
    } else if s != "" && s[n] == ':' {
      assert EndsInColon(s);
    }
  }

  ghost predicate GoesOnAt(s: string, start: string, k: nat) {
    k + |start| <= |s| && (forall j :: 0 <= j < k ==> Space(s[j])) && s[k..k + |start|] == start
  }

  /** After white space, if any, the line goes on with these characters. */
  ghost predicate BeginsWith(s: string, start: string) {
    exists k: nat :: GoesOnAt(s, start, k)
  }

  lemma {:induction false} TrimIs(s: string) returns (k: nat)
    ensures k <= |s| && TrimLeft(s) == s[k..] && (forall j :: 0 <= j < k ==> Space(s[j])) && (k < |s| ==> !Space(s[k]))
    decreases |s|
  {
    k := 0;
    if s != "" && Space(s[0]) {
      var k' := TrimIs(s[1..]);
      k := k' + 1;
      assert s[1..][k'..] == s[k..];
      assert forall j :: 1 <= j < k ==> s[j] == s[1..][j - 1];
    }
  }

  lemma {:induction false} TrimmedExactly(s: string, start: string)
    requires start != "" && !Space(start[0])
    ensures At(TrimLeft(s), 0, start) <==> BeginsWith(s, start)
  {
    hide Space;
    var k := TrimIs(s);
    assert k + |start| <= |s| ==> s[k..][0..|start|] == s[k..k + |start|];
    forall n: nat | GoesOnAt(s, start, n) ensures n == k {
      assert s[n..n + |start|][0] == start[0];
    }
    if At(TrimLeft(s), 0, start) { assert GoesOnAt(s, start, k); }
  }

  /** The spaces a line begins with, all of them. */
  ghost predicate IsIndent(line: string, indent: string) {
    |indent| <= |line| && (forall k :: 0 <= k < |indent| ==> indent[k] == ' ' && line[k] == ' ') &&
    (|indent| < |line| ==> line[|indent|] != ' ')
  }

  lemma {:induction false} IndentIs(line: string)
    ensures IsIndent(line, IndentOf(line))
    decreases |line|
  {
    if line != "" && line[0] == ' ' { IndentIs(line[1..]); }
  }

  // ---- the lines of a text

  /** Lines and the characters they were broken at, put together again; the last line need not be ended. */
  function Rejoin(lines: seq<string>, breaks: string): string
    requires |lines| - 1 <= |breaks| <= |lines|
  {
    if lines == [] then ""
    else if breaks == "" then lines[0]
    else lines[0] + [breaks[0]] + Rejoin(lines[1..], breaks[1..])
  }

  ghost predicate Joins(text: string, lines: seq<string>, breaks: string) {
    |lines| - 1 <= |breaks| <= |lines| && (forall k :: 0 <= k < |breaks| ==> LineBreak(breaks[k])) &&
    (|breaks| < |lines| ==> lines[|lines| - 1] != "") && text == Rejoin(lines, breaks)
  }

  /** The lines of a text are its parts between line breaks; only an empty rest is no line. */
  ghost predicate AreLines(text: string, lines: seq<string>) {
    (forall i, k :: 0 <= i < |lines| && 0 <= k < |lines[i]| ==> !LineBreak(lines[i][k])) &&
    exists breaks: string :: Joins(text, lines, breaks)
  }

  lemma {:induction false} BreakIsFirst(s: string)
    ensures forall k :: 0 <= k < BreakAt(s) ==> !LineBreak(s[k])
    decreases |s|
  {
    if s != "" && !LineBreak(s[0]) { BreakIsFirst(s[1..]); }
  }

  lemma {:induction false} SplitLinesAre(text: string)
    ensures AreLines(text, SplitLines(text))
    decreases |text|
  {
    if text == "" {
      assert Joins("", [], "");
    } else {
      var i := BreakAt(text);
      BreakIsFirst(text);
      var first := text[..i];
      if i < |text| {
        SplitLinesAre(text[i + 1..]);
        MoreLines(text, i, SplitLines(text[i + 1..]));
      } else {
        assert SplitLines(text) == [first] && first == text;
        assert Joins(text, [text], "");
      }
    }
  }

  lemma {:induction false} MoreLines(text: string, i: nat, rest: seq<string>)
    requires i < |text| && LineBreak(text[i]) && (forall k :: 0 <= k < i ==> !LineBreak(text[k]))
    requires AreLines(text[i + 1..], rest)
    ensures AreLines(text, [text[..i]] + rest)
  {
    hide LineBreak;
    var breaks: string :| Joins(text[i + 1..], rest, breaks);
    OneMoreJoin(text, i, rest, breaks);
  }

  lemma {:induction false} OneMoreJoin(text: string, i: nat, rest: seq<string>, breaks: string)
    requires i < |text| && LineBreak(text[i]) && Joins(text[i + 1..], rest, breaks)
    ensures Joins(text, [text[..i]] + rest, [text[i]] + breaks)
  {
    hide LineBreak;
    var lines, more := [text[..i]] + rest, [text[i]] + breaks;
    assert lines[1..] == rest && more[1..] == breaks;
    assert text == text[..i] + [text[i]] + text[i + 1..];
  }

  // ---- what an edit may be

  ghost predicate NoneOf(s: string, forbidden: string) {
    forall k :: 0 <= k < |s| ==> s[k] !in forbidden
  }

  /** The line of the edit: not the signature, and not blank. */
  ghost predicate Named(lines: seq<string>, e: Edit, i: nat) {
    e.anchor == Some(i) && 1 <= i < |lines| && exists k :: 0 <= k < |lines[i]| && !Space(lines[i][k])
  }

  /** An edit that can be accepted on its own. */
  ghost predicate Acceptable(mode: Mode, lines: seq<string>, e: Edit, i: nat) {
    Named(lines, e, i) &&
    match e
    case Replace(_, text) =>
      |text| <= 6000 && NoneOf(text, ['\r', '\t', 0 as char]) && (text != "" ==> !Space(text[0])) &&
      (EndsInColon(lines[i]) ==> SplitLines(text) != [] && EndsInColon(SplitLines(text)[|SplitLines(text)| - 1]))
    case Guard(_, condition, value) =>
      1 <= |condition| <= 2000 && 1 <= |value| <= 2000 &&
      NoneOf(condition, ['\r', '\n', '\t', 0 as char, '[', ']']) && NoneOf(value, ['\r', '\n', '\t', 0 as char, '[', ']']) &&
      ((BeginsWith(lines[i], "if ") && EndsInColon(lines[i])) || (mode.Split? && i in mode.statements)) &&
      (mode.Split? ==> mode.condition(condition).Some? && mode.literal(value).Some?)
  }

  lemma {:induction false} FirstLine(text: string)
    requires text != ""
    ensures SplitLines(text) != [] && (SplitLines(text)[0] == "" || Space(SplitLines(text)[0][0]) <==> Space(text[0]))
  {
    BreakIsFirst(text);
    if LineBreak(text[0]) { assert Space(text[0]); }
  }

  lemma {:induction false} ReplacementExactly(mode: Mode, lines: seq<string>, e: Edit, i: nat)
    requires e.Replace? && Named(lines, e, i)
    ensures Acceptable(mode, lines, e, i) <==> ReplacementPiece(lines, i, e.text).Ok? && |e.text| <= MAX_TEXT
  {
    hide Opener, EndsInColon, Space, LineBreak;
    var text := e.text;
    OpenerExactly(lines[i]);
    if text != "" {
      FirstLine(text);
      OpenerExactly(SplitLines(text)[|SplitLines(text)| - 1]);
    }
    assert Contains(text, '\r') || Contains(text, '\t') || Contains(text, 0 as char) <==> !NoneOf(text, ['\r', '\t', 0 as char]);
  }

  lemma {:induction false} ForbiddenExactly(s: string)
    ensures (exists k :: 0 <= k < |s| && Forbidden(s[k])) <==> !NoneOf(s, ['\r', '\n', '\t', 0 as char, '[', ']'])
  {
  }

  lemma {:induction false} GuardExactly(mode: Mode, lines: seq<string>, e: Edit, i: nat)
    requires e.Guard? && Named(lines, e, i)
    ensures Acceptable(mode, lines, e, i) <==> GuardPiece(mode, lines, i, e.condition, e.value).Ok? && SchemaError(e).None?
  {
    hide Opener, EndsInColon, Forbidden, NoneOf, BeginsWith, TrimLeft, At;
    OpenerExactly(lines[i]);
    TrimmedExactly(lines[i], "if ");
    ForbiddenExactly(e.condition);
    ForbiddenExactly(e.value);
  }

  /** An edit is accepted, when it is alone on its line, exactly if it is acceptable. */
  lemma {:induction false} AcceptableExactly(mode: Mode, lines: seq<string>, e: Edit)
    ensures PieceOf(mode, lines, e).Ok? <==> exists i: nat :: Acceptable(mode, lines, e, i)
    ensures PieceOf(mode, lines, e).Ok? ==> Acceptable(mode, lines, e, PieceOf(mode, lines, e).value.line)
  {
    hide ReplacementPiece, GuardPiece;
    if e.anchor.Some? && Anchored(lines, e.anchor.value) {
      var i := e.anchor.value;
      assert Named(lines, e, i);
      if e.Replace? { ReplacementExactly(mode, lines, e, i); } else { GuardExactly(mode, lines, e, i); }
    }
    forall i: nat | Acceptable(mode, lines, e, i) ensures e.anchor == Some(i) && Anchored(lines, i) {
      assert Named(lines, e, i);
    }
  }

  // ---- what an accepted edit writes

  /** Every line, indented and ended. */
  ghost predicate Indented(body: string, indent: string, added: seq<string>) {
    exists parts: seq<string> ::
      |parts| == |added| && body == Concat(parts) && forall k :: 0 <= k < |added| ==> parts[k] == indent + added[k] + "\n"
  }

  lemma {:induction false} IndentIsIndented(indent: string, added: seq<string>) returns (parts: seq<string>)
    ensures |parts| == |added| && Indent(indent, added) == Concat(parts)
    ensures forall k :: 0 <= k < |added| ==> parts[k] == indent + added[k] + "\n"
    decreases |added|
  {
    if added == [] {
      parts := [];
    } else {
      var n := |added| - 1;
      var before := IndentIsIndented(indent, added[..n]);
      parts := before + [indent + added[n] + "\n"];
      assert parts[..n] == before;
      assert Indent(indent, added[..n]) + indent + added[n] + "\n" == Indent(indent, added[..n]) + (indent + added[n] + "\n");
    }
  }

  /** The lines of the new text, as deep as the line they replace. */
  ghost predicate ReplacesBy(line: string, text: string, body: string) {
    exists indent: string, added: seq<string> :: IsIndent(line, indent) && AreLines(text, added) && Indented(body, indent, added)
  }

  /** A conditional return in front of the line, as deep as it. */
  ghost predicate GuardsBy(line: string, condition: string, value: string, guard: string) {
    exists indent: string :: IsIndent(line, indent) &&
      guard == indent + "if " + condition + ":\n" + indent + "    return " + value + "\n"
  }

  /** What the host's parser makes of the texts of a guard, where it is asked. */
  ghost predicate Says(mode: Mode, e: Edit, condition: string, value: string)
    requires e.Guard?
  {
    match mode
    case Plain => condition == e.condition && value == e.value
    case Split(_, c, v) => c(e.condition) == Some(condition) && v(e.value) == Some(value)
  }

  ghost predicate Writes(mode: Mode, line: string, e: Edit, text: string) {
    match e
    case Replace(_, new_) => ReplacesBy(line, new_, text)
    case Guard(_, _, _) =>
      exists condition: string, value: string :: Says(mode, e, condition, value) && GuardsBy(line, condition, value, text)
  }

  lemma {:induction false} ReplacementWrites(line: string, text: string)
    ensures ReplacesBy(line, text, ReplacementFor(line, text))
  {
    hide AreLines, IsIndent;
    IndentIs(line);
    SplitLinesAre(text);
    var parts := IndentIsIndented(IndentOf(line), SplitLines(text));
    assert Indented(ReplacementFor(line, text), IndentOf(line), SplitLines(text));
  }

  lemma {:induction false} GuardWrites(line: string, condition: string, value: string)
    ensures GuardsBy(line, condition, value, GuardFor(line, condition, value))
  {
    hide IsIndent;
    IndentIs(line);
  }

  lemma {:induction false} PieceWrites(mode: Mode, lines: seq<string>, e: Edit)
    requires PieceOf(mode, lines, e).Ok?
    ensures var piece := PieceOf(mode, lines, e).value; Writes(mode, lines[piece.line], e, piece.text)
  {
    hide ReplacesBy, GuardsBy, ReplacementFor, GuardFor, Forbidden, IfHeader, Opener, SplitLines;
    var i := e.anchor.value;
    match e
    case Replace(_, text) => ReplacementWrites(lines[i], text);
    case Guard(_, condition, value) =>
      var c := if mode.Plain? then condition else mode.condition(condition).value;
      var v := if mode.Plain? then value else mode.literal(value).value;
      GuardWrites(lines[i], c, v);
      assert Says(mode, e, c, v);
  }

  // ---- the whole text

  ghost predicate Has(edits: seq<Edit>, i: nat, replacing: bool) {
    exists e :: e in edits && e.anchor == Some(i) && e.Replace? == replacing
  }

  /** The text is what some edit of this kind at this line writes; without any it is `otherwise`. */
  ghost predicate Part(mode: Mode, lines: seq<string>, edits: seq<Edit>, i: nat, replacing: bool, text: string, otherwise: string)
    requires i < |lines|
  {
    if Has(edits, i, replacing) then
      exists e :: e in edits && e.anchor == Some(i) && e.Replace? == replacing && Writes(mode, lines[i], e, text)
    else text == otherwise
  }

  ghost predicate WrittenLine(mode: Mode, lines: seq<string>, edits: seq<Edit>, i: nat, line: string)
    requires i < |lines|
  {
    exists guard: string, body: string :: line == guard + body &&
      Part(mode, lines, edits, i, false, guard, "") && Part(mode, lines, edits, i, true, body, lines[i])
  }

  lemma {:induction false} GivenIsPart(mode: Mode, lines: seq<string>, edits: seq<Edit>, i: nat, replacing: bool, text: string,
                                       otherwise: string)
    requires i < |lines| && Consistent(mode, lines, edits)
    requires var piece := if replacing then Replacement(i, text) else Prefix(i, text);
      Gives(mode, lines, edits, piece) || (text == otherwise && !Has(edits, i, replacing))
    ensures Part(mode, lines, edits, i, replacing, text, otherwise)
  {
    hide PieceOf, Writes;
    var piece := if replacing then Replacement(i, text) else Prefix(i, text);
    if Gives(mode, lines, edits, piece) {
      var e :| e in edits && PieceOf(mode, lines, e) == Ok(piece);
      PieceWrites(mode, lines, e);
      assert e.anchor == Some(i) && e.Replace? == replacing;
    }
  }

  lemma {:induction false} NoneGiven(mode: Mode, lines: seq<string>, edits: seq<Edit>, i: nat, replacing: bool)
    requires Consistent(mode, lines, edits)
    ensures Has(edits, i, replacing) ==>
      exists t :: Gives(mode, lines, edits, if replacing then Replacement(i, t) else Prefix(i, t))
  {
    hide PieceOf;
    if Has(edits, i, replacing) {
      var e :| e in edits && e.anchor == Some(i) && e.Replace? == replacing;
      var k :| 0 <= k < |edits| && edits[k] == e;
      var piece := PieceOf(mode, lines, e).value;
      assert Gives(mode, lines, edits, piece);
      assert piece == if replacing then Replacement(i, piece.text) else Prefix(i, piece.text);
    }
  }

  lemma {:induction false} LineIsWritten(mode: Mode, lines: seq<string>, edits: seq<Edit>, i: nat, line: string)
    requires i < |lines| && Consistent(mode, lines, edits) && IsLine(mode, lines, edits, i, line)
    ensures WrittenLine(mode, lines, edits, i, line)
  {
    hide PieceOf, Gives, Consistent, Part, Has;
    var guard: string, body: string :| line == guard + body &&
      (if exists t :: Gives(mode, lines, edits, Prefix(i, t))
       then Gives(mode, lines, edits, Prefix(i, guard)) else guard == "") &&
      (if exists t :: Gives(mode, lines, edits, Replacement(i, t))
       then Gives(mode, lines, edits, Replacement(i, body)) else body == lines[i]);
    NoneGiven(mode, lines, edits, i, false);
    NoneGiven(mode, lines, edits, i, true);
    GivenIsPart(mode, lines, edits, i, false, guard, "");
    GivenIsPart(mode, lines, edits, i, true, body, lines[i]);
  }

  /** The accepted text, line by line: in front of each line what its guard writes, and in its place what its
      replacement writes, or else the line. */
  lemma {:induction false} AssembledAsWritten(mode: Mode, lines: seq<string>, edits: seq<Edit>, text: string)
    returns (after: seq<string>)
    requires Assembled(mode, lines, edits) == Ok(text)
    ensures |after| == |lines| && text == Concat(after)
    ensures forall i :: 0 <= i < |lines| ==> WrittenLine(mode, lines, edits, i, after[i])
  {
    hide PieceOf, IsLine, Collect, CatalogRefusal, Consistent, WrittenLine;
    after := AssembledLineByLine(mode, lines, edits, text);
    CollectsExactly(mode, lines, edits);
    forall i | 0 <= i < |lines| ensures WrittenLine(mode, lines, edits, i, after[i]) {
      LineIsWritten(mode, lines, edits, i, after[i]);
    }
  }

  /** The edits of an accepted reply, exactly: each is acceptable, no line is replaced or guarded twice, and only
      with statements split is one line both. */
  lemma {:induction false} CollectedExactly(mode: Mode, lines: seq<string>, edits: seq<Edit>)
    ensures Collect(mode, lines, edits).Ok? <==>
      (forall e :: e in edits ==> exists i: nat :: Acceptable(mode, lines, e, i)) &&
      (forall j, k :: 0 <= j < |edits| && 0 <= k < |edits| && j != k ==> Compatible(mode, edits[j], edits[k]))
  {
    hide PieceOf, Acceptable, Compatible;
    CollectsExactly(mode, lines, edits);
    forall e ensures PieceOf(mode, lines, e).Ok? <==> exists i: nat :: Acceptable(mode, lines, e, i) {
      AcceptableExactly(mode, lines, e);
    }
    forall k | 0 <= k < |edits| ensures edits[k] in edits {
    }
  }

  // ---- acceptance

  /** A source whose lines can be named: a one-line signature, and below it nothing that is less deep than four
      spaces, blank lines aside. */
  ghost predicate Catalogued(lines: seq<string>) {
    1 <= Utf8Length(Concat(lines)) <= 20000 && 2 <= |lines| <= 350 &&
    |lines[0]| >= 4 && lines[0][..4] == "def " && EndsInColon(lines[0]) &&
    forall i :: 1 <= i < |lines| ==>
      (forall k :: 0 <= k < |lines[i]| ==> Space(lines[i][k])) || (|lines[i]| >= 4 && lines[i][..4] == "    ")
  }

  lemma {:induction false} CatalogExactly(lines: seq<string>)
    ensures CatalogRefusal(lines).None? <==> Catalogued(lines)
  {
    hide Utf8Length, Concat, Opener, EndsInColon, Space;
    if |lines| >= 2 {
      OpenerExactly(lines[0]);
      FourCharacters(lines[0], "def ");
      forall i | 1 <= i < |lines| ensures At(lines[i], 0, "    ") <==> |lines[i]| >= 4 && lines[i][..4] == "    " {
        FourCharacters(lines[i], "    ");
      }
    }
  }

  lemma {:induction false} FourCharacters(s: string, start: string)
    requires |start| == 4
    ensures At(s, 0, start) <==> |s| >= 4 && s[..4] == start
  {
    if |s| >= 4 { assert s[0..0 + 4] == s[..4]; }
  }

  /** The lines after the edits, as they were written. */
  ghost predicate Written(mode: Mode, lines: seq<string>, edits: seq<Edit>, after: seq<string>) {
    |after| == |lines| && forall i :: 0 <= i < |lines| ==> WrittenLine(mode, lines, edits, i, after[i])
  }

  /** A reply is accepted exactly if the source can be catalogued, there are one to six edits, they can be collected,
      and what they write differs from the source and is not too large. */
  lemma {:induction false} AcceptedExactly(mode: Mode, lines: seq<string>, edits: seq<Edit>) returns (after: seq<string>)
    ensures Assembled(mode, lines, edits).Ok? <==>
      Catalogued(lines) && 1 <= |edits| <= 6 && Collect(mode, lines, edits).Ok? && Concat(after) != Concat(lines) &&
      Utf8Length(Concat(after)) <= 20000
    ensures Catalogued(lines) && Collect(mode, lines, edits).Ok? ==> Written(mode, lines, edits, after)
    ensures Assembled(mode, lines, edits).Ok? ==> Assembled(mode, lines, edits).value == Concat(after)
  {
    hide PieceOf, IsLine, Collect, CatalogRefusal, Consistent, WrittenLine, Catalogued, Utf8Length, Concat, Holds;
    CatalogExactly(lines);
    after := [];
    if Collect(mode, lines, edits).Ok? {
      CollectsExactly(mode, lines, edits);
      var plan := Collect(mode, lines, edits).value;
      after := LinesAfter(lines, plan, |lines|);
      forall i | 0 <= i < |lines| ensures WrittenLine(mode, lines, edits, i, after[i]) {
        HeldLine(mode, lines, edits, plan, i);
        LineIsWritten(mode, lines, edits, i, after[i]);
      }
    }
  }
}
