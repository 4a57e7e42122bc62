/** The textual head of a git bundle (app/s3_git_bundle_artifact.py, `_validate_bundle_header`): one
    prerequisite and one advertised HEAD, and nothing else. */
module BundleHeader {
  import opened Wrappers
  import opened Texts
  import opened ArtifactCodec

  const NEWLINE: Byte := 10
  const SPACE: Byte := 32
  const DASH: Byte := 45

  const BUNDLE_HEADER_LIMIT := 65536

  function Boundary(): Bytes {
    [NEWLINE, NEWLINE]
  }

  function Pack(): Bytes {
    [80, 65, 67, 75]
  }

  /** `# v2 git bundle` */
  function Signature(): Bytes {
    [35, 32, 118, 50, 32, 103, 105, 116, 32, 98, 117, 110, 100, 108, 101]
  }

  /** `HEAD` */
  function HeadName(): Bytes {
    [72, 69, 65, 68]
  }

  predicate Spells(bytes: Bytes, text: string) {
    |bytes| == |text| && forall i :: 0 <= i < |bytes| ==> bytes[i] as char == text[i]
  }

  /** The fixed parts of a bundle's head, as text. */
  lemma FixedPartsSpell()
    ensures Spells(Signature(), "# v2 git bundle") && Spells(HeadName(), "HEAD") && Spells(Pack(), "PACK")
    ensures Spells(Boundary(), "\n\n") && Spells([SPACE, DASH], " -")
    ensures forall b: Byte :: Hex(b) <==> b as char in "0123456789abcdef"
  {
  }

  predicate Hex(b: Byte) {
    48 <= b <= 57 || 97 <= b <= 102
  }

  predicate IsSha(s: Bytes) {
    |s| == 40 && forall i :: 0 <= i < 40 ==> Hex(s[i])
  }

  /** `split(b"\n")`. */
  function Lines(s: Bytes): (r: seq<Bytes>)
    ensures r != []
    decreases |s|
  {
    var found := Find(s, [NEWLINE], 0);
    if found.None? then [s] else [s[..found.value]] + Lines(s[found.value + 1..])
  }

  // ---- the loop over the lines after the signature

  datatype Seen = Seen(prerequisites: seq<Bytes>, references: seq<Bytes>, reference: bool)

  const NOTHING_SEEN := Seen([], [], false)

  predicate PrerequisiteLine(line: Bytes) {
    |line| >= 42 && line[41] == SPACE && 0 !in line && 13 !in line && IsSha(line[1..41])
  }

  predicate ReferenceLine(line: Bytes) {
    var blank := Find(line, [SPACE], 0);
    blank.Some? && line[blank.value + 1..] == HeadName() && IsSha(line[..blank.value])
  }

  function Turn(seen: Seen, line: Bytes): Option<Seen> {
    if line != [] && line[0] == DASH && !seen.reference then
      if PrerequisiteLine(line) then Some(seen.(prerequisites := seen.prerequisites + [line[1..41]])) else None
    else if ReferenceLine(line) then
      Some(seen.(references := seen.references + [line[..Find(line, [SPACE], 0).value]], reference := true))
    else None
  }

  function Turns(lines: seq<Bytes>): Option<Seen> {
    if lines == [] then Some(NOTHING_SEEN)
    else
      var before := Turns(lines[..|lines| - 1]);
      if before.None? then None else Turn(before.value, lines[|lines| - 1])
  }

  lemma {:induction false} TurnsFail(lines: seq<Bytes>, k: nat)
    requires k <= |lines| && Turns(lines[..k]).None?
    ensures Turns(lines).None?
    decreases |lines| - k
  {
    if k < |lines| {
      assert lines[..k + 1][..k] == lines[..k];
      TurnsFail(lines, k + 1);
    } else {
      assert lines[..k] == lines;
    }
  }

  function Accepted(bundle: Bytes, workspace: Bytes, produced: Bytes): bool {
    IsSha(workspace) && IsSha(produced) &&
    var boundary := Find(bundle, Boundary(), 0);
    boundary.Some? && 0 < boundary.value <= BUNDLE_HEADER_LIMIT && At(bundle, boundary.value + 2, Pack()) &&
    var lines := Lines(bundle[..boundary.value]);
    lines[0] == Signature() &&
    var seen := Turns(lines[1..]);
    seen.Some? && seen.value.prerequisites == [workspace] && seen.value.references == [produced]
  }

  method ValidateBundleHeader(bundle: Bytes, workspace: Bytes, produced: Bytes) returns (ok: bool)
    ensures ok == Accepted(bundle, workspace, produced)
  {
    if !IsSha(workspace) || !IsSha(produced) { return false; }
    var boundary := Find(bundle, Boundary(), 0);
    if boundary.None? || !(0 < boundary.value <= BUNDLE_HEADER_LIMIT) || !At(bundle, boundary.value + 2, Pack()) { return false; }
    var lines := Lines(bundle[..boundary.value]);
    if lines[0] != Signature() { return false; }
    var prerequisites, references, referenceSeen := [], [], false;
    for k := 1 to |lines|
      invariant Turns(lines[1..][..k - 1]) == Some(Seen(prerequisites, references, referenceSeen))
    {
      var line := lines[k];
      assert lines[1..][..k][..k - 1] == lines[1..][..k - 1] && lines[1..][..k][k - 1] == line;
      if line != [] && line[0] == DASH && !referenceSeen {
        if !PrerequisiteLine(line) {
          TurnsFail(lines[1..], k);
          return false;
        }
        prerequisites := prerequisites + [line[1..41]];
        continue;
      }
      referenceSeen := true;
      if !ReferenceLine(line) {
        TurnsFail(lines[1..], k);
        return false;
      }
      references := references + [line[..Find(line, [SPACE], 0).value]];
    }
    assert lines[1..][..|lines| - 1] == lines[1..];
    ok := prerequisites == [workspace] && references == [produced];
  }

  // ---- what is accepted

  /** Every line adds one entry; a reference line is only followed by reference lines. */
  lemma {:induction false} TurnsCount(lines: seq<Bytes>)
    requires Turns(lines).Some?
    ensures |Turns(lines).value.prerequisites| + |Turns(lines).value.references| == |lines|
    ensures Turns(lines).value.reference <==> Turns(lines).value.references != []
    decreases |lines|
  {
    if lines != [] { TurnsCount(lines[..|lines| - 1]); }
  }

  function Prerequisite(sha: Bytes, comment: Bytes): Bytes {
    [DASH] + sha + [SPACE] + comment
  }

  function Reference(sha: Bytes): Bytes {
    sha + [SPACE] + HeadName()
  }

  predicate PlainComment(comment: Bytes) {
    NEWLINE !in comment && 0 !in comment && 13 !in comment
  }

  lemma FirstBlank(sha: Bytes, rest: Bytes)
    requires IsSha(sha)
    ensures Find(sha + [SPACE] + rest, [SPACE], 0) == Some(40)
  {
    var line := sha + [SPACE] + rest;
    assert line[40..41] == [SPACE];
    assert At(line, 40, [SPACE]);
    forall i | 0 <= i < 40 ensures !At(line, i, [SPACE]) {
      assert line[i..i + 1][0] == sha[i];
      assert Hex(sha[i]);
      assert [SPACE][0] != sha[i];
    }
  }

  lemma ReferenceIs(line: Bytes, sha: Bytes)
    requires IsSha(sha)
    ensures line == Reference(sha) <==> ReferenceLine(line) && line[..Find(line, [SPACE], 0).value] == sha
  {
    FirstBlank(sha, HeadName());
    if line == Reference(sha) {
      assert line[41..] == HeadName() && line[..40] == sha;
    }
    if ReferenceLine(line) && line[..Find(line, [SPACE], 0).value] == sha {
      var n := Find(line, [SPACE], 0).value;
      assert line[n..n + 1] == [SPACE];
      assert line == line[..n] + line[n..n + 1] + line[n + 1..];
    }
  }

  lemma PrerequisiteIs(line: Bytes, sha: Bytes, comment: Bytes)
    requires IsSha(sha)
    ensures line == Prerequisite(sha, comment) && 0 !in comment && 13 !in comment <==>
      line != [] && line[0] == DASH && PrerequisiteLine(line) && line[1..41] == sha && line[42..] == comment
  {
    if line == Prerequisite(sha, comment) && 0 !in comment && 13 !in comment {
      assert line[1..41] == sha && line[42..] == comment;
      forall b | b in line ensures b == DASH || b == SPACE || b in sha || b in comment {
      }
      assert forall i :: 0 <= i < 40 ==> Hex(sha[i]);
    }
    if line != [] && line[0] == DASH && PrerequisiteLine(line) && line[1..41] == sha && line[42..] == comment {
      assert line == line[..1] + line[1..41] + line[41..42] + line[42..];
      assert forall b :: b in comment ==> b in line;
    }
  }

  lemma {:induction false} LinesOf(line: Bytes, rest: Bytes)
    requires NEWLINE !in line
    ensures Lines(line) == [line] && Lines(line + [NEWLINE] + rest) == [line] + Lines(rest)
  {
    var s, n := line + [NEWLINE] + rest, |line|;
    forall i | 0 <= i < n ensures !At(s, i, [NEWLINE]) && !At(line, i, [NEWLINE]) {
      assert s[i..i + 1][0] == line[i] && line[i..i + 1][0] == line[i];
      assert [NEWLINE][0] != line[i];
    }
    assert s[n..n + 1] == [NEWLINE];
    assert At(s, n, [NEWLINE]);
    assert s[..n] == line && s[n + 1..] == rest;
  }

  /** Splitting is undone by joining with newlines. */
  function Joined(lines: seq<Bytes>): Bytes
    requires lines != []
  {
    if |lines| == 1 then lines[0] else lines[0] + [NEWLINE] + Joined(lines[1..])
  }

  lemma {:induction false} JoinedLines(s: Bytes)
    ensures Joined(Lines(s)) == s
    ensures forall k :: 0 <= k < |Lines(s)| ==> NEWLINE !in Lines(s)[k]
    decreases |s|
  {
    var found := Find(s, [NEWLINE], 0);
    var n := if found.None? then |s| else found.value;
    forall i | 0 <= i < n ensures s[i] != NEWLINE {
      assert s[i..i + 1] == [s[i]];
      assert !At(s, i, [NEWLINE]);
    }
    if found.Some? {
      JoinedLines(s[n + 1..]);
      assert s[n..n + 1] == [NEWLINE];
      assert s == s[..n] + s[n..n + 1] + s[n + 1..];
      assert Lines(s)[1..] == Lines(s[n + 1..]);
    }
  }

  /** A prerequisite line is the only way into the rest of the head with a prerequisite. */
  lemma FirstTurn(first: Bytes)
    ensures Turns([first]) == Turn(NOTHING_SEEN, first)
    ensures first != [] && first[0] == DASH && PrerequisiteLine(first) ==>
      Turn(NOTHING_SEEN, first) == Some(Seen([first[1..41]], [], false))
    ensures !(first != [] && first[0] == DASH && PrerequisiteLine(first)) && Turn(NOTHING_SEEN, first).Some? ==>
      Turn(NOTHING_SEEN, first).value.prerequisites == [] && Turn(NOTHING_SEEN, first).value.reference
  {
    hide PrerequisiteLine, ReferenceLine, Find;
    assert [first][..0] == [];
    if PrerequisiteLine(first) {
      PrerequisiteLength(first);
      assert [] + [first[1..41]] == [first[1..41]];
    }
  }

  /** After one prerequisite, a reference line is the only way to a reference. */
  lemma SecondTurn(sha: Bytes, second: Bytes, workspace: Bytes, produced: Bytes)
    requires IsSha(produced)
    ensures (var seen := Turn(Seen([sha], [], false), second);
             seen.Some? && seen.value.prerequisites == [workspace] && seen.value.references == [produced]) <==>
      sha == workspace && second == Reference(produced)
  {
    hide PrerequisiteLine, IsSha, Find, Reference;
    ReferenceIs(second, produced);
    NotADash(second, produced);
    Singleton(sha, workspace);
    if ReferenceLine(second) { Singleton(second[..Find(second, [SPACE], 0).value], produced); }
  }

  lemma {:induction false} TwoTurns(first: Bytes, second: Bytes, workspace: Bytes, produced: Bytes)
    requires IsSha(workspace) && IsSha(produced)
    ensures (var seen := Turns([first, second]);
             seen.Some? && seen.value.prerequisites == [workspace] && seen.value.references == [produced]) <==>
      second == Reference(produced) && |first| >= 42 && first == Prerequisite(workspace, first[42..]) &&
      0 !in first[42..] && 13 !in first[42..]
  {
    hide PrerequisiteLine, ReferenceLine, IsSha, Find, Prerequisite, Reference;
    assert [first, second][..1] == [first];
    FirstTurn(first);
    if |first| >= 42 { PrerequisiteIs(first, workspace, first[42..]); }
    if first != [] && first[0] == DASH && PrerequisiteLine(first) {
      PrerequisiteLength(first);
      SecondTurn(first[1..41], second, workspace, produced);
    }
  }

  lemma Singleton(x: Bytes, w: Bytes)
    ensures ([] + [x] == [w]) <==> x == w
    ensures ([x] == [w]) <==> x == w
  {
    assert ([] + [x])[0] == x && [x][0] == x && [w][0] == w;
  }

  lemma PrerequisiteLength(line: Bytes)
    requires PrerequisiteLine(line)
    ensures |line| >= 42
  {
  }

  lemma NotADash(line: Bytes, sha: Bytes)
    requires IsSha(sha)
    ensures line == Reference(sha) ==> line != [] && line[0] != DASH
  {
    assert Hex(sha[0]);
  }

  function HeadText(workspace: Bytes, comment: Bytes, produced: Bytes): Bytes {
    Signature() + ([NEWLINE] + (Prerequisite(workspace, comment) + ([NEWLINE] + Reference(produced))))
  }

  /** The bundle begins with exactly this head, an empty line and the pack. */
  predicate Framed(bundle: Bytes, workspace: Bytes, comment: Bytes, produced: Bytes) {
    |HeadText(workspace, comment, produced)| <= BUNDLE_HEADER_LIMIT &&
    At(bundle, 0, HeadText(workspace, comment, produced)) &&
    At(bundle, |HeadText(workspace, comment, produced)|, Boundary()) &&
    At(bundle, |HeadText(workspace, comment, produced)| + 2, Pack())
  }

  lemma NoNewlines(workspace: Bytes, comment: Bytes, produced: Bytes)
    requires IsSha(workspace) && IsSha(produced) && NEWLINE !in comment
    ensures NEWLINE !in Signature() && NEWLINE !in Prerequisite(workspace, comment) && NEWLINE !in Reference(produced)
  {
    assert forall i :: 0 <= i < 40 ==> Hex(workspace[i]) && Hex(produced[i]);
  }

  /** The first empty line of a framed bundle is the one after the head. */
  lemma HeadEndsFirst(bundle: Bytes, workspace: Bytes, comment: Bytes, produced: Bytes)
    requires IsSha(workspace) && IsSha(produced) && NEWLINE !in comment && Framed(bundle, workspace, comment, produced)
    ensures Find(bundle, Boundary(), 0) == Some(|HeadText(workspace, comment, produced)|)
  {
    hide IsSha, Prerequisite, Reference;
    var head := HeadText(workspace, comment, produced);
    forall i | 0 <= i < |head| ensures !At(bundle, i, Boundary()) {
      if i + 2 <= |bundle| {
        NoEmptyLine(workspace, comment, produced, i);
        assert bundle[i..i + 2][0] == bundle[..|head|][i] == head[i];
        if i + 1 < |head| { assert bundle[i..i + 2][1] == bundle[..|head|][i + 1] == head[i + 1]; }
        assert Boundary()[0] == NEWLINE && Boundary()[1] == NEWLINE;
      }
    }
  }

  lemma NoEmptyLine(workspace: Bytes, comment: Bytes, produced: Bytes, i: nat)
    requires IsSha(workspace) && IsSha(produced) && NEWLINE !in comment && i < |HeadText(workspace, comment, produced)|
    ensures var head := HeadText(workspace, comment, produced);
      head[i] != NEWLINE || (i + 1 < |head| && head[i + 1] != NEWLINE)
  {
    NoNewlines(workspace, comment, produced);
    assert Hex(produced[0]);
    var p, r := Prerequisite(workspace, comment), Reference(produced);
    assert p[0] == DASH && r[0] == produced[0];
    var n, m := |Signature()|, |Signature()| + 1 + |p|;
    var head := HeadText(workspace, comment, produced);
    if i < n {
      assert head[i] == Signature()[i];
    } else if i == n {
      assert head[i + 1] == p[0];
    } else if i < m {
      assert head[i] == p[i - n - 1];
    } else if i == m {
      assert head[i + 1] == r[0];
    } else {
      assert head[i] == r[i - m - 1];
    }
  }

  lemma {:induction false} ThreeLinesOf(a: Bytes, b: Bytes, c: Bytes)
    requires NEWLINE !in a && NEWLINE !in b && NEWLINE !in c
    ensures Lines(a + ([NEWLINE] + (b + ([NEWLINE] + c)))) == [a, b, c]
  {
    hide Lines, Find;
    var last := b + ([NEWLINE] + c);
    assert a + ([NEWLINE] + last) == a + [NEWLINE] + last;
    assert last == b + [NEWLINE] + c;
    LinesOf(a, last);
    LinesOf(b, c);
    LinesOf(c, []);
  }

  lemma {:induction false} HeadLines(workspace: Bytes, comment: Bytes, produced: Bytes)
    requires IsSha(workspace) && IsSha(produced) && NEWLINE !in comment
    ensures Lines(HeadText(workspace, comment, produced)) ==
      [Signature(), Prerequisite(workspace, comment), Reference(produced)]
  {
    hide Lines, IsSha, Signature, Prerequisite, Reference;
    NoNewlines(workspace, comment, produced);
    ThreeLinesOf(Signature(), Prerequisite(workspace, comment), Reference(produced));
  }

  lemma FramedIsAccepted(bundle: Bytes, workspace: Bytes, comment: Bytes, produced: Bytes)
    requires IsSha(workspace) && IsSha(produced) && PlainComment(comment) && Framed(bundle, workspace, comment, produced)
    ensures Accepted(bundle, workspace, produced)
  {
    hide IsSha, Turns, Lines;
    var p, r := Prerequisite(workspace, comment), Reference(produced);
    HeadEndsFirst(bundle, workspace, comment, produced);
    HeadLines(workspace, comment, produced);
    assert bundle[..|HeadText(workspace, comment, produced)|] == HeadText(workspace, comment, produced);
    assert [Signature(), p, r][1..] == [p, r];
    PrerequisiteLengths(workspace, comment);
    TwoTurns(p, r, workspace, produced);
  }

  lemma PrerequisiteLengths(workspace: Bytes, comment: Bytes)
    requires IsSha(workspace)
    ensures |Prerequisite(workspace, comment)| >= 42 && Prerequisite(workspace, comment)[42..] == comment
  {
  }

  lemma AcceptedIsFramed(bundle: Bytes, workspace: Bytes, produced: Bytes) returns (comment: Bytes)
    requires Accepted(bundle, workspace, produced)
    ensures PlainComment(comment) && Framed(bundle, workspace, comment, produced)
  {
    hide IsSha, Turns, Lines, Prerequisite, Reference;
    var boundary := Find(bundle, Boundary(), 0).value;
    var lines := Lines(bundle[..boundary]);
    TurnsCount(lines[1..]);
    assert lines[1..] == [lines[1], lines[2]];
    TwoTurns(lines[1], lines[2], workspace, produced);
    comment := lines[1][42..];
    JoinedLines(bundle[..boundary]);
    assert forall b :: b in comment ==> b in lines[1];
    ThreeLines(lines);
    assert bundle[..boundary] == HeadText(workspace, comment, produced);
  }

  lemma ThreeLines(lines: seq<Bytes>)
    requires |lines| == 3
    ensures Joined(lines) == lines[0] + ([NEWLINE] + (lines[1] + ([NEWLINE] + lines[2])))
  {
    assert lines[1..][1..] == [lines[2]];
    assert Joined(lines[1..]) == lines[1] + [NEWLINE] + lines[2];
  }

  /** The check accepts exactly the bundles whose head is the signature, one prerequisite line for the
      workspace commit, with any plain comment, and one reference line naming the produced commit HEAD,
      followed by an empty line and the pack. */
  lemma AcceptedExactly(bundle: Bytes, workspace: Bytes, produced: Bytes)
    ensures Accepted(bundle, workspace, produced) <==>
      IsSha(workspace) && IsSha(produced) &&
      exists comment :: PlainComment(comment) && Framed(bundle, workspace, comment, produced)
  {
    hide IsSha, Framed, PlainComment;
    if Accepted(bundle, workspace, produced) { var comment := AcceptedIsFramed(bundle, workspace, produced); }
    if IsSha(workspace) && IsSha(produced) {
      forall comment | PlainComment(comment) && Framed(bundle, workspace, comment, produced)
        ensures Accepted(bundle, workspace, produced)
      {
        FramedIsAccepted(bundle, workspace, comment, produced);
      }
    }
  }
}
