/** What accepted exact-match revisions do to the text, said of the old and new texts of the edits and of the
    places where the old texts stand. */
module Revisions {
  import opened Wrappers
  import opened Texts
  import opened LocalEdits
  import Permutations

  // ---- one old text

  predicate Occurs(s: string, text: string, at: nat) {
    at + |text| <= |s| && forall k :: 0 <= k < |text| ==> s[at + k] == text[k]
  }

  /** The old text stands at `at`, and wherever else it stands, it overlaps that place from the right. */
  ghost predicate StandsAt(s: string, text: string, at: nat) {
    Occurs(s, text, at) && forall i: nat :: Occurs(s, text, i) ==> at <= i < at + |text|
  }

  lemma OccursIsAt(s: string, text: string, i: nat)
    ensures Occurs(s, text, i) <==> At(s, i, text)
  {
    if At(s, i, text) {
      forall k | 0 <= k < |text| ensures s[i + k] == text[k] { assert s[i..i + |text|][k] == text[k]; }
    }
    if Occurs(s, text, i) { assert s[i..i + |text|] == text; }
  }

  lemma TwoApartStandNowhere(s: string, text: string, i: nat, j: nat)
    requires Occurs(s, text, i) && Occurs(s, text, j) && i + |text| <= j
    ensures forall at: nat :: !StandsAt(s, text, at)
  {
    hide Occurs;
  }

  lemma CountUnfolds(s: string, text: string)
    requires text != ""
    ensures var first := Find(s, text, 0);
      CountOf(s, text, 0) == 1 <==> first.Some? && Find(s, text, first.value + |text|).None?
  {
    hide Find;
    var first := Find(s, text, 0);
    if first.Some? {
      assert CountOf(s, text, 0) == 1 + CountOf(s, text, first.value + |text|);
    }
  }

  lemma FoundNowhere(s: string, text: string, from: nat)
    requires Find(s, text, from).None?
    ensures forall i: nat :: from <= i ==> !Occurs(s, text, i)
  {
    hide At, Occurs;
    forall i: nat | from <= i ensures !Occurs(s, text, i) { OccursIsAt(s, text, i); }
  }

  lemma FoundFirst(s: string, text: string, from: nat)
    requires Find(s, text, from).Some?
    ensures var at := Find(s, text, from).value;
      Occurs(s, text, at) && forall i: nat :: from <= i < at ==> !Occurs(s, text, i)
  {
    hide At, Occurs;
    var at := Find(s, text, from).value;
    OccursIsAt(s, text, at);
    forall i: nat | from <= i < at ensures !Occurs(s, text, i) { OccursIsAt(s, text, i); }
  }

  /** `str.count` is 1 exactly when there is such a place. */
  lemma CountIsOneExactly(s: string, text: string)
    requires text != ""
    ensures CountOf(s, text, 0) == 1 <==> exists at: nat :: StandsAt(s, text, at)
    ensures CountOf(s, text, 0) == 1 ==> Find(s, text, 0).Some? && StandsAt(s, text, Find(s, text, 0).value)
  {
    hide Find, CountOf, Occurs;
    CountUnfolds(s, text);
    var first := Find(s, text, 0);
    if first.None? {
      FoundNowhere(s, text, 0);
    } else {
      var at := first.value;
      FoundFirst(s, text, 0);
      if Find(s, text, at + |text|).None? {
        FoundNowhere(s, text, at + |text|);
        assert StandsAt(s, text, at);
      } else {
        FoundFirst(s, text, at + |text|);
        TwoApartStandNowhere(s, text, at, Find(s, text, at + |text|).value);
      }
    }
  }

  lemma OnePlaceOnly(s: string, text: string, a: nat, b: nat)
    requires StandsAt(s, text, a) && StandsAt(s, text, b)
    ensures a == b
  {
    assert Occurs(s, text, a) && Occurs(s, text, b);
  }

  /** A proper part of the text is both its beginning and its end. */
  ghost predicate Bordered(text: string) {
    exists k :: 0 < k < |text| && text[..k] == text[|text| - k..]
  }

  /** A count of 1 means that the text occurs once, in whatever source, exactly if it cannot overlap itself. */
  lemma CountMeansOnceExactly(text: string)
    requires text != ""
    ensures (forall s: string, i: nat, j: nat :: CountOf(s, text, 0) == 1 && Occurs(s, text, i) && Occurs(s, text, j) ==> i == j)
      <==> !Bordered(text)
  {
    if Bordered(text) {
      var k :| 0 < k < |text| && text[..k] == text[|text| - k..];
      var s := text + text[k..];
      OverlapsItself(text, k);
      assert CountOf(s, text, 0) == 1 && Occurs(s, text, 0) && Occurs(s, text, |text| - k);
    } else {
      forall s: string, i: nat, j: nat | CountOf(s, text, 0) == 1 && Occurs(s, text, i) && Occurs(s, text, j) ensures i == j {
        CountIsOneExactly(s, text);
        var at: nat :| StandsAt(s, text, at);
        NoOverlap(s, text, at, i);
        NoOverlap(s, text, at, j);
      }
    }
  }

  lemma OverlapsItself(text: string, k: nat)
    requires 0 < k < |text| && text[..k] == text[|text| - k..]
    ensures var s := text + text[k..];
      CountOf(s, text, 0) == 1 && Occurs(s, text, 0) && Occurs(s, text, |text| - k)
  {
    hide CountOf, Occurs;
    StandsFirst(text, text[k..]);
    CountIsOneExactly(text + text[k..], text);
    BorderRepeats(text, k);
  }

  lemma StandsFirst(text: string, rest: string)
    requires |rest| < |text|
    ensures StandsAt(text + rest, text, 0) && Occurs(text + rest, text, 0)
  {
  }

  lemma BorderRepeats(text: string, k: nat)
    requires 0 < k < |text| && text[..k] == text[|text| - k..]
    ensures Occurs(text + text[k..], text, |text| - k)
  {
    var s, d := text + text[k..], |text| - k;
    forall i | 0 <= i < |text| ensures s[d + i] == text[i] {
      if i < k {
        assert s[d + i] == text[d..][i] == text[..k][i];
      } else {
        assert s[d + i] == text[k..][i - k];
      }
    }
  }

  lemma OverlapBorders(s: string, text: string, at: nat, i: nat)
    requires Occurs(s, text, at) && Occurs(s, text, i) && at < i < at + |text|
    ensures Bordered(text)
  {
    var k := at + |text| - i;
    forall x | 0 <= x < k ensures text[..k][x] == text[|text| - k..][x] {
      assert s[i + x] == text[x];
      assert s[at + (i - at + x)] == text[i - at + x];
    }
    assert text[..k] == text[|text| - k..];
  }

  lemma NoOverlap(s: string, text: string, at: nat, i: nat)
    requires StandsAt(s, text, at) && Occurs(s, text, i) && !Bordered(text)
    ensures i == at
  {
    if i != at { OverlapBorders(s, text, at, i); }
  }

  /** It does happen: of three letters the first two are taken, although the old text also stands at the last two. */
  lemma OverlappingTextIsAccepted()
    ensures var edits := [Edit("aa", "b")];
      Assembled("d:\naaa", edits) == Ok("d:\nba") && Occurs("d:\naaa", "aa", 3) && Occurs("d:\naaa", "aa", 4)
  {
    var s, e := "d:\naaa", Edit("aa", "b");
    forall i: nat | Occurs(s, "aa", i) ensures 3 <= i < 5 {
      assert s[i + 0] == "aa"[0];
    }
    assert Occurs(s, "aa", 3) && StandsAt(s, "aa", 3) && s[2] == '\n';
    FitsIsSpan(s, e, 3);
    OneSpan(s, e, Span(3, 5, "b"));
    assert s[0..3] + "b" + s[5..] == "d:\nba";
  }

  lemma OneSpan(s: string, e: Edit, span: Span)
    requires SpanOf(s, e) == Ok(span)
    ensures Assembled(s, [e]) == Ok(s[0..span.start] + span.text + s[span.end..])
  {
    hide SpanOf;
    assert [e][..0] == [] && SpansOf(s, []) == Ok([]);
    assert SpansOf(s, [e]) == Ok([] + [span]) && [] + [span] == [span];
    assert Insert(span, []) == [span] && [span][1..] == [];
    assert Sort([span]) == [span];
    SpansFit(s, [e]);
    assert Substitute(s, [], span.end) == s[span.end..];
  }

  // ---- one edit

  /** An edit that can be applied at `at`: its texts have the sizes allowed and differ, and the old one stands
      there, after the first line. */
  ghost predicate Fits(s: string, e: Edit, at: nat) {
    1 <= |e.before| <= 3000 && |e.after| <= 6000 && e.before != e.after && StandsAt(s, e.before, at) &&
    exists n :: 0 <= n < at && n < |s| && s[n] == '\n'
  }

  lemma NewlineBefore(s: string, at: nat)
    ensures (exists n :: 0 <= n < at && n < |s| && s[n] == '\n') <==>
      Find(s, "\n", 0).Some? && Find(s, "\n", 0).value + 1 <= at
  {
    forall i: nat ensures Occurs(s, "\n", i) <==> At(s, i, "\n") { OccursIsAt(s, "\n", i); }
    forall i: nat ensures At(s, i, "\n") <==> i < |s| && s[i] == '\n' {
      assert Occurs(s, "\n", i) <==> i < |s| && s[i] == '\n';
    }
  }

  /** The span of an edit is the place where its old text stands, and carries its new text. */
  lemma FitsIsSpan(s: string, e: Edit, at: nat)
    ensures SpanOf(s, e) == Ok(Span(at, at + |e.before|, e.after)) <==> Fits(s, e, at)
    ensures SpanOf(s, e).Ok? ==> Fits(s, e, SpanOf(s, e).value.start)
  {
    hide Occurs, StandsAt;
    if e.before != "" {
      CountIsOneExactly(s, e.before);
      var found := Find(s, e.before, 0);
      if found.Some? {
        NewlineBefore(s, found.value);
        if StandsAt(s, e.before, at) && StandsAt(s, e.before, found.value) { OnePlaceOnly(s, e.before, at, found.value); }
      }
      NewlineBefore(s, at);
    }
  }

  // ---- whole replies

  /** The edits can all be applied, each at its place, and no two of the replaced stretches overlap. */
  ghost predicate Placed(s: string, edits: seq<Edit>, at: seq<nat>) {
    |at| == |edits| && (forall k :: 0 <= k < |edits| ==> Fits(s, edits[k], at[k])) &&
    (forall j, k :: 0 <= j < |edits| && 0 <= k < |edits| && j != k ==>
      at[j] + |edits[j].before| <= at[k] || at[k] + |edits[k].before| <= at[j])
  }

  /** The spans of the edits, where `at` says. */
  ghost predicate AreSpans(spans: seq<Span>, edits: seq<Edit>, at: seq<nat>) {
    |spans| == |edits| == |at| &&
    forall k :: 0 <= k < |edits| ==> spans[k] == Span(at[k], at[k] + |edits[k].before|, edits[k].after)
  }

  ghost predicate AllFit(s: string, edits: seq<Edit>, at: seq<nat>) {
    |at| == |edits| && forall k :: 0 <= k < |edits| ==> Fits(s, edits[k], at[k])
  }

  lemma {:induction false} FittingSpans(s: string, edits: seq<Edit>, at: seq<nat>)
    requires AllFit(s, edits, at)
    ensures SpansOf(s, edits).Ok? && AreSpans(SpansOf(s, edits).value, edits, at)
  {
    hide SpanOf, Fits;
    forall k | 0 <= k < |edits| ensures SpanOf(s, edits[k]) == Ok(Span(at[k], at[k] + |edits[k].before|, edits[k].after)) {
      FitsIsSpan(s, edits[k], at[k]);
    }
    SpansInside(s, edits);
  }

  lemma {:induction false} SpansTellPlaces(s: string, edits: seq<Edit>) returns (at: seq<nat>)
    requires SpansOf(s, edits).Ok?
    ensures AllFit(s, edits, at)
  {
    hide SpanOf, Fits;
    SpansInside(s, edits);
    var spans := SpansOf(s, edits).value;
    at := Starts(spans);
    forall k | 0 <= k < |edits| ensures Fits(s, edits[k], at[k]) { FitsIsSpan(s, edits[k], at[k]); }
  }

  function Starts(spans: seq<Span>): (at: seq<nat>)
    ensures |at| == |spans| && forall k :: 0 <= k < |spans| ==> at[k] == spans[k].start
  {
    if spans == [] then [] else Starts(spans[..|spans| - 1]) + [spans[|spans| - 1].start]
  }

  ghost predicate Apart(spans: seq<Span>) {
    forall j, k :: 0 <= j < |spans| && 0 <= k < |spans| && j != k ==>
      spans[j].end <= spans[k].start || spans[k].end <= spans[j].start
  }

  lemma LeqStarts(a: Span, b: Span)
    requires Leq(a, b)
    ensures a.start <= b.start
  {
    assert Key(a)[0] == a.start && Key(b)[0] == b.start;
  }

  /** Sorted neighbours do not overlap exactly if no two spans do. */
  lemma {:induction false} ApartIsDisjoint(spans: seq<Span>, length: nat)
    requires forall k :: 0 <= k < |spans| ==> spans[k].start < spans[k].end <= length
    ensures Disjoint(Sort(spans)) <==> Apart(spans)
  {
    hide Leq, Sort;
    SortSorts(spans);
    var sorted := Sort(spans);
    Permutations.SameMembers(sorted, spans);
    forall k | 0 <= k < |sorted| ensures sorted[k].start < sorted[k].end <= length { assert sorted[k] in spans; }
    if Disjoint(sorted) {
      DisjointInOrder(sorted, 0, length);
      InOrderBounds(sorted, 0, length);
      forall j, k | 0 <= j < |spans| && 0 <= k < |spans| && j != k
        ensures spans[j].end <= spans[k].start || spans[k].end <= spans[j].start
      {
        var j', k' := Permutations.PairIn(sorted, spans, j, k);
      }
    }
    if Apart(spans) {
      forall i | 0 <= i < |sorted| - 1 ensures sorted[i].end <= sorted[i + 1].start {
        var j, k := Permutations.PairIn(spans, sorted, i, i + 1);
        LeqStarts(sorted[i], sorted[i + 1]);
      }
    }
  }

  lemma {:induction false} PlacedIsApart(s: string, edits: seq<Edit>, at: seq<nat>, spans: seq<Span>)
    requires AllFit(s, edits, at) && AreSpans(spans, edits, at)
    ensures Placed(s, edits, at) <==> Apart(spans)
    ensures forall k :: 0 <= k < |spans| ==> spans[k].start < spans[k].end <= |s|
  {
    hide StandsAt;
    forall k | 0 <= k < |spans| ensures spans[k].start < spans[k].end <= |s| {
      assert Fits(s, edits[k], at[k]);
      FitsInside(s, edits[k], at[k]);
    }
  }

  lemma FitsInside(s: string, e: Edit, at: nat)
    requires Fits(s, e, at)
    ensures at + |e.before| <= |s|
  {
  }

  /** A reply is accepted exactly if it has between one and six edits that can all be applied apart from each other. */
  lemma {:induction false} AcceptedExactly(s: string, edits: seq<Edit>)
    ensures Assembled(s, edits).Ok? <==> 1 <= |edits| <= 6 && exists at :: Placed(s, edits, at)
  {
    hide SpanOf, AllFit, Sort, Apart, Disjoint, Substitute, InOrder, Placed, AreSpans;
    if SpansOf(s, edits).Ok? {
      var at := SpansTellPlaces(s, edits);
      DisjointIsPlaced(s, edits, at);
    }
    forall at | Placed(s, edits, at) ensures SpansOf(s, edits).Ok? && Disjoint(Sort(SpansOf(s, edits).value)) {
      PlacedFits(s, edits, at);
      FittingSpans(s, edits, at);
      DisjointIsPlaced(s, edits, at);
    }
  }

  lemma {:induction false} DisjointIsPlaced(s: string, edits: seq<Edit>, at: seq<nat>)
    requires AllFit(s, edits, at) && SpansOf(s, edits).Ok?
    ensures Disjoint(Sort(SpansOf(s, edits).value)) <==> Placed(s, edits, at)
  {
    hide AllFit, Sort, Apart, Disjoint, Placed, AreSpans, SpansOf;
    FittingSpans(s, edits, at);
    PlacedIsApart(s, edits, at, SpansOf(s, edits).value);
    ApartIsDisjoint(SpansOf(s, edits).value, |s|);
  }

  lemma {:induction false} PlacedFits(s: string, edits: seq<Edit>, at: seq<nat>)
    requires Placed(s, edits, at)
    ensures AllFit(s, edits, at)
  {
  }

  // ---- the revised text

  /** How far a position is moved by the edits whose old text ends by it. */
  function Moved(edits: seq<Edit>, at: seq<nat>, i: nat): int
    requires |at| == |edits|
  {
    if edits == [] then 0
    else
      var n := |edits| - 1;
      Moved(edits[..n], at[..n], i) +
      if at[n] + |edits[n].before| <= i then |edits[n].after| - |edits[n].before| else 0
  }

  /** The same for spans in whatever order. */
  function MovedBy(spans: seq<Span>, i: nat): int {
    if spans == [] then 0
    else
      MovedBy(spans[..|spans| - 1], i) + Growth(spans[|spans| - 1], i)
  }

  function Growth(span: Span, i: nat): int {
    if span.end <= i then |span.text| - (span.end - span.start) else 0
  }

  lemma {:induction false} MovedIsMovedBy(edits: seq<Edit>, at: seq<nat>, spans: seq<Span>, i: nat)
    requires AreSpans(spans, edits, at)
    ensures Moved(edits, at, i) == MovedBy(spans, i)
    decreases |edits|
  {
    if edits != [] {
      var n := |edits| - 1;
      MovedIsMovedBy(edits[..n], at[..n], spans[..n], i);
    }
  }

  lemma {:induction false} MovedWithout(spans: seq<Span>, k: nat, i: nat)
    requires k < |spans|
    ensures MovedBy(spans, i) == MovedBy(spans[..k] + spans[k + 1..], i) + Growth(spans[k], i)
    decreases |spans|
  {
    hide Growth;
    var n := |spans| - 1;
    if k == n {
      assert spans[..k] + spans[k + 1..] == spans[..n];
    } else {
      var fewer := spans[..k] + spans[k + 1..];
      MovedWithout(spans[..n], k, i);
      assert fewer[..n - 1] == spans[..n][..k] + spans[..n][k + 1..];
      assert fewer[n - 1] == spans[n];
    }
  }

  /** The order of the spans does not matter. */
  lemma {:induction false} MovedPermuted(a: seq<Span>, b: seq<Span>, i: nat)
    requires multiset(a) == multiset(b)
    ensures MovedBy(a, i) == MovedBy(b, i)
    decreases |a|
  {
    hide Growth;
    Permutations.SameMembers(a, b);
    if a == [] {
      assert b == [];
    } else {
      var n := |a| - 1;
      assert a[n] in a;
      var k :| 0 <= k < |b| && b[k] == a[n];
      MovedWithout(a, n, i);
      MovedWithout(b, k, i);
      Permutations.Without(a, n);
      Permutations.Without(b, k);
      MovedPermuted(a[..n] + a[n + 1..], b[..k] + b[k + 1..], i);
    }
  }

  lemma {:induction false} NothingMoved(spans: seq<Span>, i: nat)
    requires forall k :: 0 <= k < |spans| ==> i < spans[k].end
    ensures MovedBy(spans, i) == 0
    decreases |spans|
  {
    if spans != [] { NothingMoved(spans[..|spans| - 1], i); }
  }

  /** Of spans in order, those that end by a position come first. */
  lemma {:induction false} ShiftIsMovedBy(spans: seq<Span>, from: nat, length: nat, i: nat)
    requires InOrder(spans, from, length)
    ensures Shift(spans, i) == MovedBy(spans, i)
    decreases |spans|
  {
    hide MovedBy;
    InOrderBounds(spans, from, length);
    if spans == [] || i < spans[0].end {
      NothingMoved(spans, i);
    } else {
      ShiftIsMovedBy(spans[1..], spans[0].end, length, i);
      MovedWithout(spans, 0, i);
      assert spans[..0] + spans[1..] == spans[1..];
    }
  }

  // ---- where the pieces of the text come from

  predicate Reads(text: string, part: string, p: int) {
    0 <= p && p + |part| <= |text| && text[p..p + |part|] == part
  }

  lemma PartOfTail(head: string, tail: string, part: string, p: int)
    requires Reads(tail, part, p)
    ensures Reads(head + tail, part, |head| + p)
  {
    assert (head + tail)[|head| + p..|head| + p + |part|] == tail[p..p + |part|];
  }

  /** A new text lands where its span starts, moved by the spans before it. */
  lemma {:induction false} SpanLands(s: string, spans: seq<Span>, from: nat, k: nat)
    requires InOrder(spans, from, |s|) && k < |spans|
    ensures Reads(Substitute(s, spans, from), spans[k].text, spans[k].start - from + Shift(spans, spans[k].start))
    decreases |spans|
  {
    hide Reads, InOrder, Substitute;
    InOrderBounds(spans, from, |s|);
    InOrderTail(spans, from, |s|);
    var tail := Substitute(s, spans[1..], spans[0].end);
    SubstituteFirst(s, spans, from);
    if k == 0 {
      ReadsFirst(spans[0].text, tail);
      PartOfTail(s[from..spans[0].start], spans[0].text + tail, spans[0].text, 0);
    } else {
      SpanLands(s, spans[1..], spans[0].end, k - 1);
      var p := spans[k].start - spans[0].end + Shift(spans[1..], spans[k].start);
      PartOfTail(spans[0].text, tail, spans[k].text, p);
      PartOfTail(s[from..spans[0].start], spans[0].text + tail, spans[k].text, |spans[0].text| + p);
    }
  }

  lemma InOrderTail(spans: seq<Span>, from: nat, length: nat)
    requires InOrder(spans, from, length) && spans != []
    ensures InOrder(spans[1..], spans[0].end, length)
  {
  }

  lemma SubstituteFirst(s: string, spans: seq<Span>, from: nat)
    requires InOrder(spans, from, |s|) && spans != [] && from <= spans[0].start <= |s|
    ensures InOrder(spans[1..], spans[0].end, |s|) &&
      Substitute(s, spans, from) == s[from..spans[0].start] + (spans[0].text + Substitute(s, spans[1..], spans[0].end))
  {
  }

  lemma ReadsFirst(part: string, tail: string)
    ensures Reads(part + tail, part, 0)
  {
  }

  lemma {:induction false} LengthMoves(s: string, spans: seq<Span>, from: nat)
    requires InOrder(spans, from, |s|)
    ensures |Substitute(s, spans, from)| == |s| - from + Shift(spans, |s|)
    decreases |spans|
  {
    InOrderBounds(spans, from, |s|);
    if spans != [] { LengthMoves(s, spans[1..], spans[0].end); }
  }

  predicate OutsideAll(spans: seq<Span>, i: nat) {
    forall k :: 0 <= k < |spans| ==> !(spans[k].start <= i < spans[k].end)
  }

  /** Every position of the result lies in a new text or is where a character outside all spans went. */
  lemma {:induction false} Origin(s: string, spans: seq<Span>, from: nat, x: nat) returns (edit: Option<nat>, i: nat)
    requires InOrder(spans, from, |s|) && x < |Substitute(s, spans, from)|
    ensures match edit
      case Some(k) =>
        k < |spans| &&
        var p := spans[k].start - from + Shift(spans, spans[k].start); p <= x < p + |spans[k].text|
      case None => from <= i < |s| && OutsideAll(spans, i) && x == i - from + Shift(spans, i)
    decreases |spans|
  {
    InOrderBounds(spans, from, |s|);
    edit, i := None, from + x;
    if spans != [] && x >= spans[0].start - from {
      var landed := spans[0].start - from + |spans[0].text|;
      if x < landed {
        edit := Some(0);
      } else {
        edit, i := Origin(s, spans[1..], spans[0].end, x - landed);
        if edit.Some? {
          assert spans[1..][edit.value] == spans[edit.value + 1];
          edit := Some(edit.value + 1);
        } else {
          assert forall k :: 1 <= k < |spans| ==> spans[k] == spans[1..][k - 1];
        }
      }
    }
  }

  // ---- the same, of the edits

  /** No old text covers the position. */
  ghost predicate Kept(edits: seq<Edit>, at: seq<nat>, i: nat)
    requires |at| == |edits|
  {
    forall k :: 0 <= k < |edits| ==> !(at[k] <= i < at[k] + |edits[k].before|)
  }

  /** The text is the source with every old text replaced by its new one, and nothing else: it has the length
      that follows, the new texts stand where the old ones stood, and every kept character too, each moved by the
      edits before it; and every position of the text is one of these. */
  ghost predicate IsRevision(s: string, edits: seq<Edit>, at: seq<nat>, text: string)
    requires |at| == |edits|
  {
    |text| == |s| + Moved(edits, at, |s|) &&
    (forall k :: 0 <= k < |edits| ==> Reads(text, edits[k].after, at[k] + Moved(edits, at, at[k]))) &&
    (forall i: nat :: i < |s| && Kept(edits, at, i) ==> Reads(text, [s[i]], i + Moved(edits, at, i))) &&
    (forall x: nat :: x < |text| ==> ComesFromEdit(edits, at, x) || ComesFromSource(s, edits, at, x))
  }

  ghost predicate ComesFromEdit(edits: seq<Edit>, at: seq<nat>, x: nat)
    requires |at| == |edits|
  {
    exists k :: 0 <= k < |edits| && 0 <= x - (at[k] + Moved(edits, at, at[k])) < |edits[k].after|
  }

  ghost predicate ComesFromSource(s: string, edits: seq<Edit>, at: seq<nat>, x: nat)
    requires |at| == |edits|
  {
    exists i: nat :: i < |s| && Kept(edits, at, i) && x == i + Moved(edits, at, i)
  }

  ghost predicate Reordered(a: seq<Span>, b: seq<Span>) {
    multiset(a) == multiset(b)
  }

  lemma SortReorders(spans: seq<Span>)
    ensures Reordered(Sort(spans), spans)
  {
    SortSorts(spans);
  }

  lemma SameMoved(a: seq<Span>, b: seq<Span>, i: nat)
    requires Reordered(a, b)
    ensures MovedBy(a, i) == MovedBy(b, i)
  {
    MovedPermuted(a, b, i);
  }

  lemma FindIn(a: seq<Span>, b: seq<Span>, k: nat) returns (j: nat)
    requires Reordered(a, b) && k < |b|
    ensures j < |a| && a[j] == b[k]
  {
    assert b[k] in multiset(a);
    j :| 0 <= j < |a| && a[j] == b[k];
  }

  lemma ReorderedBack(a: seq<Span>, b: seq<Span>)
    requires Reordered(a, b)
    ensures Reordered(b, a)
  {
  }

  /** The spans in their order in the source, and those of the edits in the order of the reply. */
  ghost predicate Sorts(s: string, edits: seq<Edit>, at: seq<nat>, spans: seq<Span>, sorted: seq<Span>) {
    AreSpans(spans, edits, at) && Reordered(sorted, spans) && InOrder(sorted, 0, |s|)
  }

  lemma {:induction false} ShiftIsMoved(s: string, edits: seq<Edit>, at: seq<nat>, spans: seq<Span>, sorted: seq<Span>, i: nat)
    requires Sorts(s, edits, at, spans, sorted)
    ensures |at| == |edits| && Shift(sorted, i) == Moved(edits, at, i)
  {
    hide Reordered;
    ShiftIsMovedBy(sorted, 0, |s|, i);
    SameMoved(sorted, spans, i);
    MovedIsMovedBy(edits, at, spans, i);
  }

  lemma {:induction false} EditLands(s: string, edits: seq<Edit>, at: seq<nat>, spans: seq<Span>, sorted: seq<Span>, k: nat)
    requires Sorts(s, edits, at, spans, sorted) && k < |edits|
    ensures |at| == |edits| && InOrder(sorted, 0, |s|) &&
      Reads(Substitute(s, sorted, 0), edits[k].after, at[k] + Moved(edits, at, at[k]))
  {
    hide Reads, Reordered, Substitute, InOrder;
    var j := FindIn(sorted, spans, k);
    SpanLands(s, sorted, 0, j);
    ShiftIsMoved(s, edits, at, spans, sorted, at[k]);
  }

  lemma {:induction false} KeptIsOutside(edits: seq<Edit>, at: seq<nat>, spans: seq<Span>, sorted: seq<Span>, i: nat)
    requires AreSpans(spans, edits, at) && Reordered(sorted, spans)
    ensures Kept(edits, at, i) <==> OutsideAll(sorted, i)
  {
    hide Reordered;
    ReorderedBack(sorted, spans);
    if Kept(edits, at, i) {
      forall j | 0 <= j < |sorted| ensures !(sorted[j].start <= i < sorted[j].end) {
        var k := FindIn(spans, sorted, j);
      }
    }
    if OutsideAll(sorted, i) {
      forall k | 0 <= k < |edits| ensures !(at[k] <= i < at[k] + |edits[k].before|) {
        var j := FindIn(sorted, spans, k);
      }
    }
  }

  lemma {:induction false} CharacterStays(s: string, edits: seq<Edit>, at: seq<nat>, spans: seq<Span>, sorted: seq<Span>, i: nat)
    requires Sorts(s, edits, at, spans, sorted) && i < |s| && |at| == |edits| && Kept(edits, at, i)
    ensures InOrder(sorted, 0, |s|) && Reads(Substitute(s, sorted, 0), [s[i]], i + Moved(edits, at, i))
  {
    hide Reordered, Substitute, InOrder, Kept, AreSpans, Shift;
    KeptIsOutside(edits, at, spans, sorted, i);
    GapsSurvive(s, sorted, 0, i);
    ShiftIsMoved(s, edits, at, spans, sorted, i);
  }

  lemma {:induction false} ComesFrom(s: string, edits: seq<Edit>, at: seq<nat>, spans: seq<Span>, sorted: seq<Span>, x: nat)
    requires Sorts(s, edits, at, spans, sorted) && InOrder(sorted, 0, |s|) && x < |Substitute(s, sorted, 0)|
    ensures |at| == |edits| && (ComesFromEdit(edits, at, x) || ComesFromSource(s, edits, at, x))
  {
    hide Reordered, Substitute, InOrder, Kept, OutsideAll;
    var edit, i := Origin(s, sorted, 0, x);
    if edit.Some? {
      ReorderedBack(sorted, spans);
      var k := FindIn(spans, sorted, edit.value);
      ShiftIsMoved(s, edits, at, spans, sorted, at[k]);
    } else {
      KeptIsOutside(edits, at, spans, sorted, i);
      ShiftIsMoved(s, edits, at, spans, sorted, i);
    }
  }

  /** An accepted reply revises the source at the places where its old texts stand, and nowhere else. */
  lemma {:induction false} AcceptedRevises(s: string, edits: seq<Edit>, at: seq<nat>, text: string)
    requires Assembled(s, edits) == Ok(text) && Placed(s, edits, at)
    ensures IsRevision(s, edits, at, text)
  {
    hide AllFit, Sort, Substitute, InOrder, Reads, Kept, ComesFromEdit, ComesFromSource, Moved, Reordered, AreSpans, SpansOf;
    PlacedFits(s, edits, at);
    FittingSpans(s, edits, at);
    SpansFit(s, edits);
    var spans := SpansOf(s, edits).value;
    var sorted := Sort(spans);
    SortReorders(spans);
    LengthMoves(s, sorted, 0);
    ShiftIsMoved(s, edits, at, spans, sorted, |s|);
    forall k | 0 <= k < |edits| ensures Reads(text, edits[k].after, at[k] + Moved(edits, at, at[k])) {
      EditLands(s, edits, at, spans, sorted, k);
    }
    forall i: nat | i < |s| && Kept(edits, at, i) ensures Reads(text, [s[i]], i + Moved(edits, at, i)) {
      CharacterStays(s, edits, at, spans, sorted, i);
    }
    forall x: nat | x < |text| ensures ComesFromEdit(edits, at, x) || ComesFromSource(s, edits, at, x) {
      ComesFrom(s, edits, at, spans, sorted, x);
    }
  }
}
