/** Exact-match revisions (app/structured_revision.py, `_apply_local_edits`): each old text is found
    once, the spans are sorted, checked for overlap and spliced from the last to the first. */
module LocalEdits {
  import opened Wrappers
  import opened Texts
  import opened Lexicographic
  import Permutations

  datatype Edit = Edit(before: string, after: string)

  datatype Span = Span(start: nat, end: nat, text: string)

  datatype EditError = RevisionSchema | EditSchema | Repeated | NotUnique | NoNewline | SignatureEdit | Overlap

  const MAX_EDITS := 6
  const MAX_OLD := 3000
  const MAX_NEW := 6000

  /** The checks of one edit and the span it names; they do not depend on the other edits. */
  function SpanOf(source: string, e: Edit): (r: Result<Span, EditError>)
    ensures r.Ok? ==> r.value.start < r.value.end <= |source|
  {
    if |e.before| < 1 || |e.before| > MAX_OLD || |e.after| > MAX_NEW then Err(EditSchema)
    else if e.before == e.after then Err(Repeated)
    else if CountOf(source, e.before, 0) != 1 then Err(NotUnique)
    else if Find(source, "\n", 0).None? then Err(NoNewline)
    else
      var start := Find(source, e.before, 0).value;
      if start < Find(source, "\n", 0).value + 1 then Err(SignatureEdit)
      else Ok(Span(start, start + |e.before|, e.after))
  }

  function SpansOf(source: string, edits: seq<Edit>): Result<seq<Span>, EditError> {
    if edits == [] then Ok([])
    else
      var before := SpansOf(source, edits[..|edits| - 1]);
      if before.Err? then before
      else
        var span := SpanOf(source, edits[|edits| - 1]);
        if span.Err? then Err(span.error) else Ok(before.value + [span.value])
  }

  // ---- the order of tuples (start, end, new)

  function Codes(s: string): seq<int> {
    if s == "" then [] else [s[0] as int] + Codes(s[1..])
  }

  function Key(s: Span): seq<int> {
    [s.start, s.end] + Codes(s.text)
  }

  predicate Leq(a: Span, b: Span) {
    LexLeq(Key(a), Key(b))
  }

  lemma {:induction false} CodesInjective(a: string, b: string)
    requires Codes(a) == Codes(b)
    ensures a == b
    decreases |a|
  {
    if a == "" || b == "" {
      assert |Codes(a)| == |a| || a == "";
    } else {
      assert Codes(a)[0] == Codes(b)[0] && Codes(a)[1..] == Codes(a[1..]) && Codes(b)[1..] == Codes(b[1..]);
      CodesInjective(a[1..], b[1..]);
      assert a == [a[0]] + a[1..] && b == [b[0]] + b[1..];
    }
  }

  lemma LeqAntisymmetric(a: Span, b: Span)
    requires Leq(a, b) && Leq(b, a)
    ensures a == b
  {
    LexAntisymmetric(Key(a), Key(b));
    assert Key(a)[0] == a.start && Key(a)[1] == a.end && Key(a)[2..] == Codes(a.text);
    assert Key(b)[0] == b.start && Key(b)[1] == b.end && Key(b)[2..] == Codes(b.text);
    CodesInjective(a.text, b.text);
  }

  ghost predicate Sorted(spans: seq<Span>) {
    forall i, j :: 0 <= i < j < |spans| ==> Leq(spans[i], spans[j])
  }

  function Insert(x: Span, spans: seq<Span>): seq<Span> {
    if spans == [] then [x]
    else if Leq(x, spans[0]) then [x] + spans
    else [spans[0]] + Insert(x, spans[1..])
  }

  /** `list.sort` on the tuples. */
  function Sort(spans: seq<Span>): seq<Span> {
    if spans == [] then [] else Insert(spans[0], Sort(spans[1..]))
  }

  lemma {:induction false} InsertMembers(x: Span, spans: seq<Span>)
    ensures multiset(Insert(x, spans)) == multiset(spans) + multiset{x}
    decreases |spans|
  {
    hide Leq;
    if spans != [] && !Leq(x, spans[0]) {
      InsertMembers(x, spans[1..]);
      assert spans == [spans[0]] + spans[1..];
    }
  }

  lemma FirstThenSorted(x: Span, spans: seq<Span>)
    requires Sorted(spans) && forall s :: s in spans ==> Leq(x, s)
    ensures Sorted([x] + spans)
  {
    hide Leq;
  }

  lemma FirstIsLeast(spans: seq<Span>, s: Span)
    requires Sorted(spans) && spans != [] && s in spans
    ensures Leq(spans[0], s)
  {
    LeqTotal(s, s);
  }

  lemma {:induction false} InsertSorts(x: Span, spans: seq<Span>)
    requires Sorted(spans)
    ensures Sorted(Insert(x, spans))
    decreases |spans|
  {
    hide Leq, Sorted;
    if spans == [] {
      FirstThenSorted(x, []);
      assert [x] + [] == [x];
    } else if Leq(x, spans[0]) {
      forall s | s in spans ensures Leq(x, s) {
        FirstIsLeast(spans, s);
        LeqTransitive(x, spans[0], s);
      }
      FirstThenSorted(x, spans);
    } else {
      SortedTail(spans);
      InsertSorts(x, spans[1..]);
      InsertMembers(x, spans[1..]);
      LeqTotal(x, spans[0]);
      forall s | s in Insert(x, spans[1..]) ensures Leq(spans[0], s) {
        assert s in multiset(Insert(x, spans[1..]));
        if s != x { FirstIsLeast(spans, s); }
      }
      FirstThenSorted(spans[0], Insert(x, spans[1..]));
    }
  }

  lemma LeqTransitive(a: Span, b: Span, c: Span)
    requires Leq(a, b) && Leq(b, c)
    ensures Leq(a, c)
  {
    LexTransitive(Key(a), Key(b), Key(c));
  }

  lemma LeqTotal(a: Span, b: Span)
    ensures Leq(a, b) || Leq(b, a)
  {
    LexTotal(Key(a), Key(b));
  }

  lemma {:induction false} SortSorts(spans: seq<Span>)
    ensures Sorted(Sort(spans)) && multiset(Sort(spans)) == multiset(spans)
    decreases |spans|
  {
    hide Leq;
    if spans != [] {
      SortSorts(spans[1..]);
      InsertSorts(spans[0], Sort(spans[1..]));
      InsertMembers(spans[0], Sort(spans[1..]));
      assert spans == [spans[0]] + spans[1..];
    }
  }

  /** There is only one sorted order. */
  lemma {:induction false} SortedUnique(a: seq<Span>, b: seq<Span>)
    requires Sorted(a) && Sorted(b) && multiset(a) == multiset(b)
    ensures a == b
    decreases |a|
  {
    hide Sorted;
    Permutations.SameMembers(a, b);
    if a != [] {
      SameHead(a, b);
      Permutations.SameTails(a, b);
      SortedTail(a);
      SortedTail(b);
      SortedUnique(a[1..], b[1..]);
      assert a == [a[0]] + a[1..] && b == [b[0]] + b[1..];
    }
  }

  lemma SortedTail(a: seq<Span>)
    requires Sorted(a) && a != []
    ensures Sorted(a[1..])
  {
    hide Leq;
  }

  lemma SameHead(a: seq<Span>, b: seq<Span>)
    requires Sorted(a) && Sorted(b) && a != [] && b != [] && forall x :: x in a <==> x in b
    ensures a[0] == b[0]
  {
    hide Leq;
    assert a[0] in a && b[0] in b;
    var i :| 0 <= i < |b| && b[i] == a[0];
    var j :| 0 <= j < |a| && a[j] == b[0];
    if i > 0 && j > 0 { LeqAntisymmetric(a[0], b[0]); }
  }

  // ---- substitution

  predicate Disjoint(spans: seq<Span>) {
    forall i :: 0 <= i < |spans| - 1 ==> spans[i].end <= spans[i + 1].start
  }

  /** Spans of a text of this length that follow one another without overlap, the first not before `from`. */
  predicate InOrder(spans: seq<Span>, from: nat, length: nat) {
    if spans == [] then from <= length
    else from <= spans[0].start < spans[0].end && InOrder(spans[1..], spans[0].end, length)
  }

  /** Replacing all spans at once: the gaps and the new texts from left to right. */
  function Substitute(s: string, spans: seq<Span>, from: nat): string
    requires InOrder(spans, from, |s|)
    decreases |spans|
  {
    InOrderBounds(spans, from, |s|);
    if spans == [] then s[from..]
    else s[from..spans[0].start] + spans[0].text + Substitute(s, spans[1..], spans[0].end)
  }

  lemma {:induction false} InOrderBounds(spans: seq<Span>, from: nat, length: nat)
    requires InOrder(spans, from, length)
    ensures from <= length
    ensures forall i :: 0 <= i < |spans| ==> from <= spans[i].start < spans[i].end <= length
    ensures forall i, j :: 0 <= i < j < |spans| ==> spans[i].end <= spans[j].start
    decreases |spans|
  {
    if spans != [] {
      InOrderBounds(spans[1..], spans[0].end, length);
      assert forall i :: 1 <= i < |spans| ==> spans[i] == spans[1..][i - 1];
    }
  }

  lemma {:induction false} DisjointInOrder(spans: seq<Span>, from: nat, length: nat)
    requires Disjoint(spans) && from <= length && (spans != [] ==> from <= spans[0].start)
    requires forall i :: 0 <= i < |spans| ==> spans[i].start < spans[i].end <= length
    ensures InOrder(spans, from, length)
    decreases |spans|
  {
    if spans != [] {
      assert forall i :: 0 <= i < |spans| - 1 ==> spans[1..][i] == spans[i + 1];
      DisjointInOrder(spans[1..], spans[0].end, length);
    }
  }

  lemma {:induction false} TailInOrder(spans: seq<Span>, from: nat, length: nat, i: nat)
    requires InOrder(spans, from, length) && i <= |spans|
    ensures InOrder(spans[i..], if i == 0 then from else spans[i - 1].end, length)
    decreases i
  {
    if i == 0 {
      assert spans[0..] == spans;
    } else {
      TailInOrder(spans, from, length, i - 1);
      assert spans[i - 1..][1..] == spans[i..];
    }
  }

  lemma SpliceText(s: string, from: nat, start: nat, end: nat, text: string, after: string, tail: string)
    requires from <= start <= end <= |s| && text == s[..end] + tail
    ensures text[..start] + after + text[end..] == s[..from] + (s[from..start] + after + tail)
  {
    assert text[..start] == s[..start] == s[..from] + s[from..start];
    assert text[end..] == tail;
  }

  /** Where the spans from `i` on may start. */
  function StartOf(spans: seq<Span>, i: nat): nat
    requires i <= |spans|
  {
    if i == 0 then 0 else spans[i - 1].end
  }

  /** The text once the spans from `i` on have been replaced. */
  ghost predicate SplicedFrom(s: string, spans: seq<Span>, i: nat, text: string)
    requires i <= |spans|
  {
    var from := StartOf(spans, i);
    InOrder(spans[i..], from, |s|) && from <= |s| && text == s[..from] + Substitute(s, spans[i..], from)
  }

  /** One step of the reverse loop: the text before this span is still the source's. */
  lemma SpliceOne(s: string, spans: seq<Span>, i: nat, text: string)
    requires InOrder(spans, 0, |s|) && i < |spans| && SplicedFrom(s, spans, i + 1, text)
    ensures spans[i].start <= spans[i].end <= |text|
    ensures SplicedFrom(s, spans, i, text[..spans[i].start] + spans[i].text + text[spans[i].end..])
  {
    TailInOrder(spans, 0, |s|, i);
    InOrderBounds(spans, 0, |s|);
    var from := StartOf(spans, i);
    assert spans[i..][1..] == spans[i + 1..];
    SpliceText(s, from, spans[i].start, spans[i].end, text, spans[i].text, Substitute(s, spans[i + 1..], spans[i].end));
  }

  lemma NothingSpliced(s: string, spans: seq<Span>)
    requires InOrder(spans, 0, |s|)
    ensures SplicedFrom(s, spans, |spans|, s)
  {
    TailInOrder(spans, 0, |s|, |spans|);
    InOrderBounds(spans, 0, |s|);
    assert spans[|spans|..] == [];
    assert s == s[..StartOf(spans, |spans|)] + s[StartOf(spans, |spans|)..];
  }

  lemma AllSpliced(s: string, spans: seq<Span>, text: string)
    requires InOrder(spans, 0, |s|) && SplicedFrom(s, spans, 0, text)
    ensures text == Substitute(s, spans, 0)
  {
    assert spans[0..] == spans;
    assert s[..0] + Substitute(s, spans, 0) == Substitute(s, spans, 0);
  }

  /** `for start, end, new in reversed(spans)`: splicing from the last span to the first. */
  method SpliceReversed(s: string, spans: seq<Span>) returns (text: string)
    requires InOrder(spans, 0, |s|)
    ensures text == Substitute(s, spans, 0)
  {
    hide SplicedFrom, InOrder, Substitute;
    text := s;
    var i := |spans|;
    NothingSpliced(s, spans);
    while i > 0
      invariant 0 <= i <= |spans|
      invariant SplicedFrom(s, spans, i, text)
    {
      i := i - 1;
      SpliceOne(s, spans, i, text);
      text := text[..spans[i].start] + spans[i].text + text[spans[i].end..];
    }
    AllSpliced(s, spans, text);
  }

  // ---- the whole assembly

  function Assembled(source: string, edits: seq<Edit>): Result<string, EditError> {
    if |edits| < 1 || |edits| > MAX_EDITS then Err(RevisionSchema)
    else
      var spans := SpansOf(source, edits);
      if spans.Err? then Err(spans.error)
      else if !Disjoint(Sort(spans.value)) then Err(Overlap)
      else
        SpansFit(source, edits);
        Ok(Substitute(source, Sort(spans.value), 0))
  }

  lemma {:induction false} SpansInside(source: string, edits: seq<Edit>)
    ensures SpansOf(source, edits).Ok? ==>
      |SpansOf(source, edits).value| == |edits| &&
      forall i :: 0 <= i < |edits| ==> SpanOf(source, edits[i]) == Ok(SpansOf(source, edits).value[i])
    ensures SpansOf(source, edits).Ok? <==> forall i :: 0 <= i < |edits| ==> SpanOf(source, edits[i]).Ok?
    decreases |edits|
  {
    hide SpanOf;
    if edits != [] { SpansInside(source, edits[..|edits| - 1]); }
  }

  lemma SpansFit(source: string, edits: seq<Edit>)
    requires SpansOf(source, edits).Ok? && Disjoint(Sort(SpansOf(source, edits).value))
    ensures InOrder(Sort(SpansOf(source, edits).value), 0, |source|)
  {
    var spans := SpansOf(source, edits).value;
    SpansInside(source, edits);
    SortSorts(spans);
    Permutations.SameMembers(Sort(spans), spans);
    forall i | 0 <= i < |Sort(spans)| ensures Sort(spans)[i].start < Sort(spans)[i].end <= |source| {
      assert Sort(spans)[i] in spans;
    }
    DisjointInOrder(Sort(spans), 0, |source|);
  }

  method ApplyLocalEdits(source: string, edits: seq<Edit>) returns (r: Result<string, EditError>)
    ensures r == Assembled(source, edits)
  {
    if |edits| < 1 || |edits| > MAX_EDITS { return Err(RevisionSchema); }
    var spans: seq<Span> := [];
    for i := 0 to |edits|
      invariant SpansOf(source, edits[..i]) == Ok(spans)
    {
      assert edits[..i + 1][..i] == edits[..i];
      var span := SpanOf(source, edits[i]);
      if span.Err? {
        FirstErrorStays(source, edits, i + 1);
        return Err(span.error);
      }
      spans := spans + [span.value];
    }
    assert edits[..|edits|] == edits;
    spans := Sort(spans);
    if !Disjoint(spans) { return Err(Overlap); }
    SpansFit(source, edits);
    var text := SpliceReversed(source, spans);
    r := Ok(text);
  }

  lemma {:induction false} FirstErrorStays(source: string, edits: seq<Edit>, i: nat)
    requires i <= |edits| && SpansOf(source, edits[..i]).Err?
    ensures SpansOf(source, edits) == SpansOf(source, edits[..i])
    decreases |edits| - i
  {
    if i < |edits| {
      assert edits[..i + 1][..i] == edits[..i];
      FirstErrorStays(source, edits, i + 1);
    } else {
      assert edits[..i] == edits;
    }
  }

  /** Neither acceptance nor the text depends on the order in which the edits are listed. */
  lemma OrderOfEditsIsIrrelevant(source: string, a: seq<Edit>, b: seq<Edit>)
    requires multiset(a) == multiset(b)
    ensures Assembled(source, a).Ok? <==> Assembled(source, b).Ok?
    ensures Assembled(source, a).Ok? ==> Assembled(source, a) == Assembled(source, b)
  {
    hide SpanOf;
    Permutations.SameMembers(a, b);
    SpansInside(source, a);
    SpansInside(source, b);
    AllOrNone(source, a, b);
    if SpansOf(source, a).Ok? {
      SamePermutedSpans(source, a, b);
      SortSorts(SpansOf(source, a).value);
      SortSorts(SpansOf(source, b).value);
      SortedUnique(Sort(SpansOf(source, a).value), Sort(SpansOf(source, b).value));
    }
  }

  lemma AllOrNone(source: string, a: seq<Edit>, b: seq<Edit>)
    requires forall e :: e in a <==> e in b
    ensures (forall i :: 0 <= i < |a| ==> SpanOf(source, a[i]).Ok?) <==> (forall i :: 0 <= i < |b| ==> SpanOf(source, b[i]).Ok?)
  {
    hide SpanOf;
    forall i | 0 <= i < |a| ensures a[i] in b { assert a[i] in a; }
    forall i | 0 <= i < |b| ensures b[i] in a { assert b[i] in b; }
  }

  /** Removing one edit removes its span. */
  lemma {:induction false} SpansWithout(source: string, edits: seq<Edit>, k: nat)
    requires k < |edits| && SpansOf(source, edits).Ok?
    ensures SpansOf(source, edits[..k] + edits[k + 1..]).Ok? && SpanOf(source, edits[k]).Ok?
    ensures multiset(SpansOf(source, edits).value) ==
      multiset(SpansOf(source, edits[..k] + edits[k + 1..]).value) + multiset{SpanOf(source, edits[k]).value}
    decreases |edits|
  {
    hide SpanOf, SpansOf;
    var n := |edits| - 1;
    SpansOneMore(source, edits[..n], edits[n]);
    assert edits[..n] + [edits[n]] == edits;
    if k == n {
      assert edits[..k] + edits[k + 1..] == edits[..n];
    } else {
      SpansWithout(source, edits[..n], k);
      var fewer := edits[..n][..k] + edits[..n][k + 1..];
      SpansOneMore(source, fewer, edits[n]);
      assert edits[..k] + edits[k + 1..] == fewer + [edits[n]];
    }
  }

  lemma SpansOneMore(source: string, edits: seq<Edit>, e: Edit)
    ensures SpansOf(source, edits + [e]).Ok? <==> SpansOf(source, edits).Ok? && SpanOf(source, e).Ok?
    ensures SpansOf(source, edits + [e]).Ok? ==>
      SpansOf(source, edits + [e]).value == SpansOf(source, edits).value + [SpanOf(source, e).value]
  {
    hide SpanOf;
    assert (edits + [e])[..|edits|] == edits;
  }

  lemma {:induction false} SamePermutedSpans(source: string, a: seq<Edit>, b: seq<Edit>)
    requires multiset(a) == multiset(b) && SpansOf(source, a).Ok? && SpansOf(source, b).Ok?
    ensures multiset(SpansOf(source, a).value) == multiset(SpansOf(source, b).value)
    decreases |a|
  {
    hide SpanOf, SpansOf;
    Permutations.SameMembers(a, b);
    if a == [] {
      assert b == [];
    } else {
      var n := |a| - 1;
      assert a[n] in a;
      var k :| 0 <= k < |b| && b[k] == a[n];
      SpansWithout(source, a, n);
      SpansWithout(source, b, k);
      Permutations.Without(a, n);
      Permutations.Without(b, k);
      SamePermutedSpans(source, a[..n] + a[n + 1..], b[..k] + b[k + 1..]);
    }
  }

  lemma PrefixSurvives(s: string, spans: seq<Span>, n: nat)
    requires InOrder(spans, 0, |s|) && spans != [] && n <= spans[0].start
    ensures n <= |Substitute(s, spans, 0)| && n <= |s| && Substitute(s, spans, 0)[..n] == s[..n]
  {
    InOrderBounds(spans, 0, |s|);
    var first := spans[0].start;
    var rest := spans[0].text + Substitute(s, spans[1..], spans[0].end);
    assert Substitute(s, spans, 0) == s[0..first] + rest;
    assert (s[0..first] + rest)[..n] == s[..n];
  }

  lemma SpansAfterSignature(source: string, edits: seq<Edit>, span: Span)
    requires SpansOf(source, edits).Ok? && span in SpansOf(source, edits).value
    ensures Find(source, "\n", 0).Some? && Find(source, "\n", 0).value + 1 <= span.start
  {
    SpansInside(source, edits);
    var i :| 0 <= i < |edits| && SpansOf(source, edits).value[i] == span;
    assert SpanOf(source, edits[i]) == Ok(span);
  }

  /** The signature line survives: no edit reaches into the text up to the first newline. */
  lemma SignatureSurvives(source: string, edits: seq<Edit>)
    requires Assembled(source, edits).Ok?
    ensures Find(source, "\n", 0).Some?
    ensures var n := Find(source, "\n", 0).value + 1;
      n <= |source| && n <= |Assembled(source, edits).value| && Assembled(source, edits).value[..n] == source[..n]
  {
    hide SpanOf, InOrder, SpansOf;
    var spans := SpansOf(source, edits).value;
    SpansInside(source, edits);
    SpansFit(source, edits);
    SortSorts(spans);
    Permutations.SameMembers(Sort(spans), spans);
    assert Sort(spans)[0] in spans;
    SpansAfterSignature(source, edits, Sort(spans)[0]);
    PrefixSurvives(source, Sort(spans), Find(source, "\n", 0).value + 1);
  }

  /** Where a stretch of the source that no span touches ends up, and that it is unchanged there. */
  function Shift(spans: seq<Span>, at: nat): int {
    if spans == [] || at < spans[0].end then 0
    else |spans[0].text| - (spans[0].end - spans[0].start) + Shift(spans[1..], at)
  }

  lemma {:induction false} GapsSurvive(s: string, spans: seq<Span>, from: nat, k: nat)
    requires InOrder(spans, from, |s|) && from <= k < |s|
    requires forall i :: 0 <= i < |spans| ==> !(spans[i].start <= k < spans[i].end)
    ensures var at := k - from + Shift(spans, k);
      0 <= at < |Substitute(s, spans, from)| && Substitute(s, spans, from)[at] == s[k]
    decreases |spans|
  {
    InOrderBounds(spans, from, |s|);
    if spans != [] && k >= spans[0].end {
      assert forall i :: 0 <= i < |spans| - 1 ==> spans[1..][i] == spans[i + 1];
      GapsSurvive(s, spans[1..], spans[0].end, k);
    }
  }
}
