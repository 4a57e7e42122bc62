/** Line-anchored revisions (app/structured_anchors.py, `line_catalog` and `assemble_anchors`).
    The source is its list of lines, each with its line end.  Parsing and rewriting of guard
    expressions in the model-split mode belong to the host language and come in as functions. */
module AnchoredPatch {
  import opened Wrappers
  import opened Texts
  import Permutations

  /** An anchor is the index its text names, or None when no catalog has that text. */
  datatype Edit =
    | Replace(anchor: Option<nat>, text: string)
    | Guard(anchor: Option<nat>, condition: string, value: string)

  /** `model_split`: which lines start statements, and what the host's parser makes of a guard's texts. */
  datatype Mode = Plain | Split(statements: set<nat>, condition: string -> Option<string>, literal: string -> Option<string>)

  datatype PatchError =
    | RevisionSize | AnchorSource | RevisionSchema | EditSchema | UnknownAnchor | AnchorDuplicate
    | GuardNotAllowed | Indentation | BlockHeader | CandidateRepeated

  const MAX_SOURCE := 20000
  const MAX_LINES := 350
  const MAX_EDITS := 6
  const MAX_TEXT := 6000
  const MAX_EXPRESSION := 2000

  // ---- the catalog

  /** A line whose text, without trailing white space, ends in a colon. */
  predicate Opener(line: string) {
    EndsWith(TrimRight(line), ':')
  }

  predicate IfHeader(line: string) {
    At(TrimLeft(line), 0, "if ") && Opener(line)
  }

  function CatalogRefusal(lines: seq<string>): Option<PatchError> {
    if Utf8Length(Concat(lines)) < 1 || Utf8Length(Concat(lines)) > MAX_SOURCE then Some(RevisionSize)
    else if |lines| < 2 || |lines| > MAX_LINES then Some(AnchorSource)
    else if !At(lines[0], 0, "def ") || !Opener(lines[0]) then Some(AnchorSource)
    else if exists i :: 1 <= i < |lines| && !Blank(lines[i]) && !At(lines[i], 0, "    ") then Some(AnchorSource)
    else None
  }

  /** The lines that have an anchor: all but the signature and the blank ones. */
  predicate Anchored(lines: seq<string>, i: nat) {
    1 <= i < |lines| && !Blank(lines[i])
  }

  // ---- one edit

  function Indent(indent: string, added: seq<string>): string {
    if added == [] then "" else Indent(indent, added[..|added| - 1]) + indent + added[|added| - 1] + "\n"
  }

  function ReplacementFor(line: string, text: string): string {
    Indent(IndentOf(line), SplitLines(text))
  }

  function GuardFor(line: string, condition: string, value: string): string {
    IndentOf(line) + "if " + condition + ":\n" + IndentOf(line) + "    return " + value + "\n"
  }

  predicate Forbidden(c: char) {
    c == '\r' || c == '\n' || c == '\t' || c == 0 as char || c == '[' || c == ']'
  }

  predicate Contains(s: string, c: char) {
    exists i :: 0 <= i < |s| && s[i] == c
  }

  /** What an accepted edit puts at its line. */
  datatype Piece = Replacement(line: nat, text: string) | Prefix(line: nat, text: string)

  function ReplacementPiece(lines: seq<string>, i: nat, text: string): (r: Result<Piece, PatchError>)
    requires i < |lines|
    ensures r.Ok? ==> r.value == Replacement(i, ReplacementFor(lines[i], text))
  {
    var added := SplitLines(text);
    if Contains(text, '\r') || Contains(text, '\t') || Contains(text, 0 as char) then Err(Indentation)
    else if added != [] && (added[0] == "" || Space(added[0][0])) then Err(Indentation)
    else if Opener(lines[i]) && (added == [] || !Opener(added[|added| - 1])) then Err(BlockHeader)
    else Ok(Replacement(i, ReplacementFor(lines[i], text)))
  }

  function GuardPiece(mode: Mode, lines: seq<string>, i: nat, condition: string, value: string): (r: Result<Piece, PatchError>)
    requires i < |lines|
    ensures r.Ok? ==> r.value.Prefix? && r.value.line == i
  {
    if !IfHeader(lines[i]) && !(mode.Split? && i in mode.statements) then Err(GuardNotAllowed)
    else if (exists k :: 0 <= k < |condition| && Forbidden(condition[k])) ||
            (exists k :: 0 <= k < |value| && Forbidden(value[k])) then Err(Indentation)
    else if mode.Plain? then Ok(Prefix(i, GuardFor(lines[i], condition, value)))
    else
      var c, v := mode.condition(condition), mode.literal(value);
      if c.None? || v.None? then Err(EditSchema) else Ok(Prefix(i, GuardFor(lines[i], c.value, v.value)))
  }

  /** The checks of one edit that do not look at the others. */
  function SchemaError(e: Edit): Option<PatchError> {
    match e
    case Replace(_, text) => if |text| > MAX_TEXT then Some(EditSchema) else None
    case Guard(_, condition, value) =>
      if 1 <= |condition| <= MAX_EXPRESSION && 1 <= |value| <= MAX_EXPRESSION then None else Some(EditSchema)
  }

  function PieceOf(mode: Mode, lines: seq<string>, e: Edit): (r: Result<Piece, PatchError>)
    ensures r.Ok? ==> r.value.line < |lines| && Anchored(lines, r.value.line) && e.anchor == Some(r.value.line) &&
                      r.value.Replacement? == e.Replace?
  {
    if SchemaError(e).Some? then Err(SchemaError(e).value)
    else if e.anchor.None? || !Anchored(lines, e.anchor.value) then Err(UnknownAnchor)
    else
      match e
      case Replace(_, text) => ReplacementPiece(lines, e.anchor.value, text)
      case Guard(_, condition, value) => GuardPiece(mode, lines, e.anchor.value, condition, value)
  }

  /** The two dictionaries the loop fills. */
  datatype Plan = Plan(replacements: map<nat, string>, guards: map<nat, string>)

  /** Only model-split may pair one guard with one replacement of the same line. */
  predicate Taken(mode: Mode, plan: Plan, e: Edit)
    requires e.anchor.Some?
  {
    var i := e.anchor.value;
    match e
    case Replace(_, _) => i in plan.replacements || (mode.Plain? && i in plan.guards)
    case Guard(_, _, _) => i in plan.guards || (mode.Plain? && i in plan.replacements)
  }

  function Add(plan: Plan, piece: Piece): Plan {
    match piece
    case Replacement(i, text) => plan.(replacements := plan.replacements[i := text])
    case Prefix(i, text) => plan.(guards := plan.guards[i := text])
  }

  /** One turn of the loop, with its checks in their order. */
  function Accept(mode: Mode, lines: seq<string>, plan: Plan, e: Edit): Result<Plan, PatchError> {
    if SchemaError(e).Some? then Err(SchemaError(e).value)
    else if e.anchor.None? || !Anchored(lines, e.anchor.value) then Err(UnknownAnchor)
    else if Taken(mode, plan, e) then Err(AnchorDuplicate)
    else
      var piece := PieceOf(mode, lines, e);
      if piece.Err? then Err(piece.error) else Ok(Add(plan, piece.value))
  }

  const EMPTY_PLAN := Plan(map[], map[])

  function Collect(mode: Mode, lines: seq<string>, edits: seq<Edit>): Result<Plan, PatchError> {
    if edits == [] then Ok(EMPTY_PLAN)
    else
      var before := Collect(mode, lines, edits[..|edits| - 1]);
      if before.Err? then before else Accept(mode, lines, before.value, edits[|edits| - 1])
  }

  // ---- the assembled text

  function LineAfter(lines: seq<string>, plan: Plan, i: nat): string
    requires i < |lines|
  {
    (if i in plan.guards then plan.guards[i] else "") + (if i in plan.replacements then plan.replacements[i] else lines[i])
  }

  function LinesAfter(lines: seq<string>, plan: Plan, n: nat): (r: seq<string>)
    requires n <= |lines|
    ensures |r| == n && forall i :: 0 <= i < n ==> r[i] == LineAfter(lines, plan, i)
  {
    if n == 0 then [] else LinesAfter(lines, plan, n - 1) + [LineAfter(lines, plan, n - 1)]
  }

  function Assembled(mode: Mode, lines: seq<string>, edits: seq<Edit>): Result<string, PatchError> {
    var refusal := CatalogRefusal(lines);
    if refusal.Some? then Err(refusal.value)
    else if |edits| < 1 || |edits| > MAX_EDITS then Err(RevisionSchema)
    else
      var plan := Collect(mode, lines, edits);
      if plan.Err? then Err(plan.error)
      else
        var text := Concat(LinesAfter(lines, plan.value, |lines|));
        if text == Concat(lines) then Err(CandidateRepeated)
        else if Utf8Length(text) > MAX_SOURCE then Err(RevisionSize)
        else Ok(text)
  }

  lemma {:induction false} FirstErrorStays(mode: Mode, lines: seq<string>, edits: seq<Edit>, i: nat)
    requires i <= |edits| && Collect(mode, lines, edits[..i]).Err?
    ensures Collect(mode, lines, edits) == Collect(mode, lines, edits[..i])
    decreases |edits| - i
  {
    if i < |edits| {
      assert edits[..i + 1][..i] == edits[..i];
      FirstErrorStays(mode, lines, edits, i + 1);
    } else {
      assert edits[..i] == edits;
    }
  }

  lemma {:induction false} PlanInside(mode: Mode, lines: seq<string>, edits: seq<Edit>)
    requires Collect(mode, lines, edits).Ok?
    ensures var plan := Collect(mode, lines, edits).value;
      (forall i :: i in plan.replacements ==> Anchored(lines, i)) && (forall i :: i in plan.guards ==> Anchored(lines, i))
    decreases |edits|
  {
    if edits != [] { PlanInside(mode, lines, edits[..|edits| - 1]); }
  }

  /** `lines[index] = replacement` for every entry. */
  method OverwriteLines(lines: seq<string>, replacements: map<nat, string>) returns (r: seq<string>)
    requires forall i :: i in replacements ==> i < |lines|
    ensures |r| == |lines|
    ensures forall i :: 0 <= i < |lines| ==> r[i] == if i in replacements then replacements[i] else lines[i]
  {
    r := lines;
    var left := replacements.Keys;
    while left != {}
      invariant left <= replacements.Keys && |r| == |lines|
      invariant forall i :: 0 <= i < |lines| && i !in left ==> r[i] == if i in replacements then replacements[i] else lines[i]
      decreases |left|
    {
      var i :| i in left;
      r := r[i := replacements[i]];
      left := left - {i};
    }
  }

  /** `lines[index] = prefix + lines[index]` for every entry. */
  method PrefixLines(lines: seq<string>, guards: map<nat, string>) returns (r: seq<string>)
    requires forall i :: i in guards ==> i < |lines|
    ensures |r| == |lines|
    ensures forall i :: 0 <= i < |lines| ==> r[i] == if i in guards then guards[i] + lines[i] else lines[i]
  {
    r := lines;
    var left := guards.Keys;
    while left != {}
      invariant left <= guards.Keys && |r| == |lines|
      invariant forall i :: 0 <= i < |lines| ==> r[i] == if i in guards && i !in left then guards[i] + lines[i] else lines[i]
      decreases |left|
    {
      var i :| i in left;
      r := r[i := guards[i] + r[i]];
      left := left - {i};
    }
  }

  lemma OverwrittenLines(lines: seq<string>, plan: Plan, middle: seq<string>, r: seq<string>)
    requires |middle| == |lines| == |r|
    requires forall i :: 0 <= i < |lines| ==> middle[i] == if i in plan.replacements then plan.replacements[i] else lines[i]
    requires forall i :: 0 <= i < |lines| ==> r[i] == if i in plan.guards then plan.guards[i] + middle[i] else middle[i]
    ensures r == LinesAfter(lines, plan, |lines|)
  {
    forall i | 0 <= i < |lines| ensures r[i] == LineAfter(lines, plan, i) {
      assert "" + middle[i] == middle[i];
    }
  }

  /** The loop over the edits, which fills the two dictionaries. */
  method CollectPieces(mode: Mode, lines: seq<string>, edits: seq<Edit>) returns (r: Result<Plan, PatchError>)
    ensures r == Collect(mode, lines, edits)
  {
    hide Accept;
    var plan := EMPTY_PLAN;
    for k := 0 to |edits|
      invariant Collect(mode, lines, edits[..k]) == Ok(plan)
    {
      assert edits[..k + 1][..k] == edits[..k];
      var next := Accept(mode, lines, plan, edits[k]);
      if next.Err? {
        FirstErrorStays(mode, lines, edits, k + 1);
        return Err(next.error);
      }
      plan := next.value;
    }
    assert edits[..|edits|] == edits;
    r := Ok(plan);
  }

  method AssembleAnchors(mode: Mode, lines: seq<string>, edits: seq<Edit>) returns (r: Result<string, PatchError>)
    ensures r == Assembled(mode, lines, edits)
  {
    hide CatalogRefusal, Collect;
    var refusal := CatalogRefusal(lines);
    if refusal.Some? { return Err(refusal.value); }
    if |edits| < 1 || |edits| > MAX_EDITS { return Err(RevisionSchema); }
    var plan := CollectPieces(mode, lines, edits);
    if plan.Err? { return Err(plan.error); }
    PlanInside(mode, lines, edits);
    var middle := OverwriteLines(lines, plan.value.replacements);
    var after := PrefixLines(middle, plan.value.guards);
    OverwrittenLines(lines, plan.value, middle, after);
    var text := Concat(after);
    if text == Concat(lines) { return Err(CandidateRepeated); }
    if Utf8Length(text) > MAX_SOURCE { return Err(RevisionSize); }
    r := Ok(text);
  }

  // ---- what an accepted reply means

  /** No two edits compete for a line: of one kind never, of two kinds only where model-split allows it. */
  ghost predicate Compatible(mode: Mode, a: Edit, b: Edit) {
    a.anchor != b.anchor || (a.Replace? != b.Replace? && mode.Split?)
  }

  ghost predicate Consistent(mode: Mode, lines: seq<string>, edits: seq<Edit>) {
    (forall k :: 0 <= k < |edits| ==> PieceOf(mode, lines, edits[k]).Ok?) &&
    (forall j, k :: 0 <= j < |edits| && 0 <= k < |edits| && j != k ==> Compatible(mode, edits[j], edits[k]))
  }

  ghost predicate Gives(mode: Mode, lines: seq<string>, edits: seq<Edit>, piece: Piece) {
    exists e :: e in edits && PieceOf(mode, lines, e) == Ok(piece)
  }

  /** The plan holds exactly the pieces of the edits. */
  ghost predicate Holds(mode: Mode, lines: seq<string>, edits: seq<Edit>, plan: Plan) {
    (forall i, text :: Gives(mode, lines, edits, Replacement(i, text)) <==>
      i in plan.replacements && plan.replacements[i] == text) &&
    (forall i, text :: Gives(mode, lines, edits, Prefix(i, text)) <==> i in plan.guards && plan.guards[i] == text)
  }

  lemma InTail<T>(s: seq<T>, x: T)
    requires s != []
    ensures x in s <==> x in s[..|s| - 1] || x == s[|s| - 1]
  {
    assert s == s[..|s| - 1] + [s[|s| - 1]];
  }

  /** Whether a line is taken, said by the edits. */
  lemma TakenIsIncompatible(mode: Mode, lines: seq<string>, edits: seq<Edit>, plan: Plan, e: Edit)
    requires Holds(mode, lines, edits, plan) && PieceOf(mode, lines, e).Ok?
    requires forall k :: 0 <= k < |edits| ==> PieceOf(mode, lines, edits[k]).Ok?
    ensures Taken(mode, plan, e) <==> exists k :: 0 <= k < |edits| && !Compatible(mode, edits[k], e)
  {
    hide PieceOf;
    var i := e.anchor.value;
    if i in plan.replacements {
      assert Gives(mode, lines, edits, Replacement(i, plan.replacements[i]));
      var f :| f in edits && PieceOf(mode, lines, f) == Ok(Replacement(i, plan.replacements[i]));
      var k :| 0 <= k < |edits| && edits[k] == f;
      assert f.anchor == e.anchor;
    }
    if i in plan.guards {
      assert Gives(mode, lines, edits, Prefix(i, plan.guards[i]));
      var f :| f in edits && PieceOf(mode, lines, f) == Ok(Prefix(i, plan.guards[i]));
      var k :| 0 <= k < |edits| && edits[k] == f;
      assert f.anchor == e.anchor;
    }
    forall k | 0 <= k < |edits| && edits[k].anchor == e.anchor
      ensures if edits[k].Replace? then i in plan.replacements else i in plan.guards
    {
      assert edits[k] in edits;
      assert Gives(mode, lines, edits, PieceOf(mode, lines, edits[k]).value);
    }
  }

  lemma AddHolds(mode: Mode, lines: seq<string>, edits: seq<Edit>, plan: Plan)
    requires edits != [] && Holds(mode, lines, edits[..|edits| - 1], plan) && PieceOf(mode, lines, edits[|edits| - 1]).Ok?
    requires !Taken(mode, plan, edits[|edits| - 1])
    ensures Holds(mode, lines, edits, Add(plan, PieceOf(mode, lines, edits[|edits| - 1]).value))
  {
    hide PieceOf;
    forall x ensures x in edits <==> x in edits[..|edits| - 1] || x == edits[|edits| - 1] { InTail(edits, x); }
  }

  lemma AcceptsExactly(mode: Mode, lines: seq<string>, plan: Plan, e: Edit)
    ensures Accept(mode, lines, plan, e).Ok? <==> PieceOf(mode, lines, e).Ok? && !Taken(mode, plan, e)
    ensures Accept(mode, lines, plan, e).Ok? ==> Accept(mode, lines, plan, e) == Ok(Add(plan, PieceOf(mode, lines, e).value))
  {
  }

  /** The loop accepts exactly the consistent replies, and then its dictionaries hold exactly their pieces. */
  lemma {:induction false} CollectsExactly(mode: Mode, lines: seq<string>, edits: seq<Edit>)
    ensures Collect(mode, lines, edits).Ok? <==> Consistent(mode, lines, edits)
    ensures Collect(mode, lines, edits).Ok? ==> Holds(mode, lines, edits, Collect(mode, lines, edits).value)
    decreases |edits|
  {
    hide PieceOf, Accept, Taken, Compatible, Holds;
    if edits == [] {
      NothingHolds(mode, lines);
    } else {
      var n := |edits| - 1;
      var before := edits[..n];
      CollectsExactly(mode, lines, before);
      ConsistentPrefix(mode, lines, edits);
      if Collect(mode, lines, before).Ok? {
        var plan := Collect(mode, lines, before).value;
        AcceptsExactly(mode, lines, plan, edits[n]);
        if PieceOf(mode, lines, edits[n]).Ok? { TakenIsIncompatible(mode, lines, before, plan, edits[n]); }
        if Collect(mode, lines, edits).Ok? { AddHolds(mode, lines, edits, plan); }
      }
    }
  }

  lemma NothingHolds(mode: Mode, lines: seq<string>)
    ensures Holds(mode, lines, [], EMPTY_PLAN)
  {
    hide PieceOf;
  }

  lemma ConsistentPrefix(mode: Mode, lines: seq<string>, edits: seq<Edit>)
    requires edits != []
    ensures var n := |edits| - 1;
      Consistent(mode, lines, edits) <==>
        Consistent(mode, lines, edits[..n]) && PieceOf(mode, lines, edits[n]).Ok? &&
        !exists k :: 0 <= k < n && !Compatible(mode, edits[..n][k], edits[n])
  {
    hide PieceOf;
    var n := |edits| - 1;
    assert forall k :: 0 <= k < n ==> edits[..n][k] == edits[k];
  }

  lemma SameGiven(mode: Mode, lines: seq<string>, a: seq<Edit>, b: seq<Edit>, piece: Piece)
    requires forall e :: e in a <==> e in b
    ensures Gives(mode, lines, a, piece) <==> Gives(mode, lines, b, piece)
  {
  }

  lemma SamePlan(mode: Mode, lines: seq<string>, a: seq<Edit>, b: seq<Edit>, p: Plan, q: Plan)
    requires forall e :: e in a <==> e in b
    requires Holds(mode, lines, a, p) && Holds(mode, lines, b, q)
    ensures p == q
  {
    hide Gives;
    forall i, t
      ensures Entry(p.replacements, i, t) <==> Entry(q.replacements, i, t)
      ensures Entry(p.guards, i, t) <==> Entry(q.guards, i, t)
    {
      SameGiven(mode, lines, a, b, Replacement(i, t));
      SameGiven(mode, lines, a, b, Prefix(i, t));
    }
    SameMaps(p.replacements, q.replacements);
    SameMaps(p.guards, q.guards);
  }

  predicate Entry(m: map<nat, string>, i: nat, t: string) {
    i in m && m[i] == t
  }

  lemma SameMaps(p: map<nat, string>, q: map<nat, string>)
    requires forall i, t :: Entry(p, i, t) <==> Entry(q, i, t)
    ensures p == q
  {
    forall i ensures i in p ==> i in q && q[i] == p[i] { assert i in p ==> Entry(p, i, p[i]); }
    forall i ensures i in q ==> i in p { assert i in q ==> Entry(q, i, q[i]); }
  }

  lemma ConsistentPermuted(mode: Mode, lines: seq<string>, a: seq<Edit>, b: seq<Edit>)
    requires multiset(a) == multiset(b) && Consistent(mode, lines, a)
    ensures Consistent(mode, lines, b)
  {
    hide PieceOf, Compatible;
    Permutations.SameMembers(a, b);
    forall k | 0 <= k < |b| ensures PieceOf(mode, lines, b[k]).Ok? {
      assert b[k] in b;
    }
    forall j, k | 0 <= j < |b| && 0 <= k < |b| && j != k ensures Compatible(mode, b[j], b[k]) {
      var j', k' := Permutations.PairIn(a, b, j, k);
    }
  }

  /** Neither acceptance nor the text depends on the order in which the edits are listed. */
  lemma OrderOfEditsIsIrrelevant(mode: Mode, lines: seq<string>, a: seq<Edit>, b: seq<Edit>)
    requires multiset(a) == multiset(b)
    ensures Assembled(mode, lines, a).Ok? <==> Assembled(mode, lines, b).Ok?
    ensures Assembled(mode, lines, a).Ok? ==> Assembled(mode, lines, a) == Assembled(mode, lines, b)
  {
    hide PieceOf, Holds, Consistent, Collect, CatalogRefusal;
    Permutations.SameMembers(a, b);
    CollectsExactly(mode, lines, a);
    CollectsExactly(mode, lines, b);
    if Consistent(mode, lines, a) { ConsistentPermuted(mode, lines, a, b); }
    if Consistent(mode, lines, b) { ConsistentPermuted(mode, lines, b, a); }
    if Collect(mode, lines, a).Ok? {
      SamePlan(mode, lines, a, b, Collect(mode, lines, a).value, Collect(mode, lines, b).value);
    }
  }

  /** Line `i` of the reply, from the edits alone. */
  ghost predicate IsLine(mode: Mode, lines: seq<string>, edits: seq<Edit>, i: nat, line: string)
    requires i < |lines|
  {
    exists guard: string, body: string :: line == guard + body &&
      (if exists t :: Gives(mode, lines, edits, Prefix(i, t))
       then Gives(mode, lines, edits, Prefix(i, guard)) else guard == "") &&
      (if exists t :: Gives(mode, lines, edits, Replacement(i, t))
       then Gives(mode, lines, edits, Replacement(i, body)) else body == lines[i])
  }

  lemma HeldLine(mode: Mode, lines: seq<string>, edits: seq<Edit>, plan: Plan, i: nat)
    requires Holds(mode, lines, edits, plan) && i < |lines|
    ensures IsLine(mode, lines, edits, i, LineAfter(lines, plan, i))
  {
    hide PieceOf;
    var guard := if i in plan.guards then plan.guards[i] else "";
    var body := if i in plan.replacements then plan.replacements[i] else lines[i];
    assert LineAfter(lines, plan, i) == guard + body;
    GuardLine(mode, lines, edits, plan, i, guard);
    BodyLine(mode, lines, edits, plan, i, body);
  }

  lemma GuardLine(mode: Mode, lines: seq<string>, edits: seq<Edit>, plan: Plan, i: nat, guard: string)
    requires Holds(mode, lines, edits, plan) && guard == if i in plan.guards then plan.guards[i] else ""
    ensures if exists t :: Gives(mode, lines, edits, Prefix(i, t))
      then Gives(mode, lines, edits, Prefix(i, guard)) else guard == ""
  {
    hide PieceOf;
    if i in plan.guards { assert Gives(mode, lines, edits, Prefix(i, guard)); }
  }

  lemma BodyLine(mode: Mode, lines: seq<string>, edits: seq<Edit>, plan: Plan, i: nat, body: string)
    requires Holds(mode, lines, edits, plan) && i < |lines|
    requires body == if i in plan.replacements then plan.replacements[i] else lines[i]
    ensures if exists t :: Gives(mode, lines, edits, Replacement(i, t))
      then Gives(mode, lines, edits, Replacement(i, body)) else body == lines[i]
  {
    hide PieceOf;
    if i in plan.replacements { assert Gives(mode, lines, edits, Replacement(i, body)); }
  }

  /** Assembly is a simultaneous substitution on lines: the accepted text is, line by line and in
      order, the guard of the line, if one was given, and its replacement, or else the line itself. */
  lemma AssembledLineByLine(mode: Mode, lines: seq<string>, edits: seq<Edit>, text: string) returns (after: seq<string>)
    requires Assembled(mode, lines, edits) == Ok(text)
    ensures |after| == |lines| && text == Concat(after)
    ensures forall i :: 0 <= i < |lines| ==> IsLine(mode, lines, edits, i, after[i])
    ensures after[0] == lines[0]
  {
    hide PieceOf, Holds, IsLine, Collect, CatalogRefusal;
    CollectsExactly(mode, lines, edits);
    var plan := Collect(mode, lines, edits).value;
    after := LinesAfter(lines, plan, |lines|);
    forall i | 0 <= i < |lines| ensures IsLine(mode, lines, edits, i, after[i]) { HeldLine(mode, lines, edits, plan, i); }
    PlanInside(mode, lines, edits);
    AcceptedHasLines(mode, lines, edits);
    assert "" + lines[0] == lines[0];
  }

  lemma AcceptedHasLines(mode: Mode, lines: seq<string>, edits: seq<Edit>)
    requires Assembled(mode, lines, edits).Ok?
    ensures |lines| >= 2
  {
  }

  /** A line no edit names is the same afterwards. */
  lemma UnmentionedLinesSurvive(mode: Mode, lines: seq<string>, edits: seq<Edit>, i: nat, line: string)
    requires i < |lines| && IsLine(mode, lines, edits, i, line)
    requires forall e :: e in edits ==> e.anchor != Some(i)
    ensures line == lines[i]
  {
    forall e, t | e in edits
      ensures PieceOf(mode, lines, e) != Ok(Prefix(i, t)) && PieceOf(mode, lines, e) != Ok(Replacement(i, t))
    {
    }
    assert "" + lines[i] == lines[i];
  }
}
