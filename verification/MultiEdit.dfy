// The edit operation: index the LF form, find each old text, and splice from the right.

module MultiEdits {
  import opened Settings
  import opened EditModel

  /** `oldText` is never empty: the request schema demands a character. */
  datatype Change = Change(oldText: Text, newText: Text)

  datatype Failure = NotFound | Ambiguous | Overlap

  datatype Result = Edited(text: Text) | Refused(failure: Failure)

  predicate Occurs(text: Text, needle: Text, i: int) {
    0 <= i && i + |needle| <= |text| && text[i..i + |needle|] == needle
  }

  ghost predicate Unique(text: Text, needle: Text, i: int) {
    Occurs(text, needle, i) && forall j :: Occurs(text, needle, j) ==> j == i
  }

  ghost function Why(text: Text, needle: Text): Failure {
    if exists i :: Occurs(text, needle, i) then Ambiguous else NotFound
  }

  function Ending(original: Text): Text {
    if HasCrlf(original) then "\r\n" else "\n"
  }

  function SpanAt(original: Text, change: Change, start: nat): Span {
    Span(start, start + |Norm(change.oldText)|, Expand(Norm(change.newText), Ending(original)))
  }

  /** Each change at the one place where its old text occurs. */
  ghost predicate Located(original: Text, changes: seq<Change>, spans: seq<Span>) {
    |spans| == |changes| &&
    forall k :: 0 <= k < |spans| ==> PlacedAt(original, changes[k], spans[k])
  }

  ghost predicate PlacedAt(original: Text, change: Change, span: Span) {
    Unique(Norm(original), Norm(change.oldText), span.start) && span == SpanAt(original, change, span.start)
  }

  /** Two of the spans share a character. */
  ghost predicate Overlapping(spans: multiset<Span>) {
    exists x, y :: x in spans && y in spans - multiset{x} && x.start < y.end && y.start < x.end
  }

  ghost predicate Sorted(spans: seq<Span>) {
    forall i, j :: 0 <= i < j < |spans| ==> spans[i].start <= spans[j].start
  }

  // ---- the position map --------------------------------------------------------------

  method Index(original: Text) returns (normalized: Text, positions: seq<nat>)
    ensures Cuts(original, normalized, positions) && normalized == Norm(original)
  {
    normalized, positions := [], [];
    var index := 0;
    while index < |original|
      invariant index <= |original|
      invariant CutsTo(original, normalized, positions + [if Inside(original, index) then index - 1 else index],
                       if Inside(original, index) then index - 1 else index)
    {
      ghost var cuts := positions + [if Inside(original, index) then index - 1 else index];
      if !(original[index] == '\r' && index + 1 < |original| && original[index+1] == '\n') {
        var position := if original[index] == '\n' && index > 0 && original[index-1] == '\r' then index - 1 else index;
        assert cuts == positions + [position];
        CutsExtend(original, normalized, positions, position, index);
        positions, normalized := positions + [position], normalized + [original[index]];
      }
      index := index + 1;
    }
    positions := positions + [|original|];
    CutsOfNorm(original, normalized, positions);
  }

  /** Position `index` is the line feed of a CRLF. */
  predicate Inside(original: Text, index: nat) {
    0 < index < |original| && original[index-1] == '\r' && original[index] == '\n'
  }

  lemma CutsExtend(original: Text, normalized: Text, positions: seq<nat>, position: nat, index: nat)
    requires index < |original| && position == if Inside(original, index) then index - 1 else index
    requires CutsTo(original, normalized, positions + [position], position)
    requires !(original[index] == '\r' && index + 1 < |original| && original[index+1] == '\n')
    ensures !Inside(original, index + 1)
    ensures CutsTo(original, normalized + [original[index]], positions + [position] + [index + 1], index + 1)
  {
    var more, cuts := normalized + [original[index]], positions + [position] + [index + 1];
    forall k | 0 <= k < |more| ensures Piece(original, more[k], cuts[k], cuts[k+1]) {
      if k < |normalized| {
        assert cuts[k] == (positions + [position])[k] && cuts[k+1] == (positions + [position])[k+1];
        assert Piece(original, normalized[k], (positions + [position])[k], (positions + [position])[k+1]);
      }
    }
  }

  // ---- finding -----------------------------------------------------------------------

  /** `text.find(needle, from)`. */
  method Find(text: Text, needle: Text, from: nat) returns (r: int)
    ensures r >= 0 ==> r >= from && Occurs(text, needle, r) && forall j :: from <= j < r ==> !Occurs(text, needle, j)
    ensures r < 0 ==> forall j :: from <= j ==> !Occurs(text, needle, j)
  {
    var i := from;
    while i + |needle| <= |text|
      invariant from <= i
      invariant forall j :: from <= j < i ==> !Occurs(text, needle, j)
    {
      if text[i..i + |needle|] == needle {
        return i;
      }
      i := i + 1;
    }
    return -1;
  }

  /** The one place of every old text, or why there is none. */
  method Locate(original: Text, text: Text, changes: seq<Change>) returns (spans: seq<Span>, failure: Option<Failure>)
    requires text == Norm(original)
    ensures failure.None? ==> Located(original, changes, spans)
    ensures failure.Some? ==> |spans| < |changes| && Located(original, changes[..|spans|], spans)
    ensures failure.Some? ==> failure.value == Why(text, Norm(changes[|spans|].oldText))
    ensures failure.Some? ==> forall i :: !Unique(text, Norm(changes[|spans|].oldText), i)
  {
    hide Norm, Expand, HasCrlf;
    spans := [];
    while |spans| < |changes|
      invariant |spans| <= |changes| && Located(original, changes[..|spans|], spans)
    {
      var change := changes[|spans|];
      var needle := Norm(change.oldText);
      var start := Find(text, needle, 0);
      if start < 0 {
        return spans, Some(NotFound);
      }
      var again := Find(text, needle, start + 1);
      if again >= 0 {
        assert Occurs(text, needle, start) && Occurs(text, needle, again);
        return spans, Some(Ambiguous);
      }
      assert PlacedAt(original, change, SpanAt(original, change, start));
      LocatedMore(original, changes, spans, SpanAt(original, change, start));
      spans := spans + [SpanAt(original, change, start)];
    }
    assert changes[..|spans|] == changes;
    return spans, None;
  }

  lemma LocatedMore(original: Text, changes: seq<Change>, spans: seq<Span>, span: Span)
    requires |spans| < |changes| && Located(original, changes[..|spans|], spans) && PlacedAt(original, changes[|spans|], span)
    ensures Located(original, changes[..|spans| + 1], spans + [span])
  {
    hide PlacedAt;
    forall k | 0 <= k < |spans| + 1 ensures PlacedAt(original, changes[..|spans| + 1][k], (spans + [span])[k]) {
      if k < |spans| { assert changes[..|spans|][k] == changes[k]; }
    }
  }

  // ---- sorting and splicing ---------------------------------------------------------------

  method SortSpans(spans: seq<Span>) returns (sorted: seq<Span>)
    ensures multiset(sorted) == multiset(spans) && Sorted(sorted)
  {
    hide Sorted;
    sorted := [];
    EmptyIsSorted();
    var i := 0;
    while i < |spans|
      invariant i <= |spans| && multiset(sorted) == multiset(spans[..i]) && Sorted(sorted)
    {
      assert spans[..i+1] == spans[..i] + [spans[i]];
      sorted := Inserted(sorted, spans[i]);
      i := i + 1;
    }
    assert spans[..i] == spans;
  }

  lemma EmptyIsSorted()
    ensures Sorted([])
  {
  }

  method Inserted(sorted: seq<Span>, span: Span) returns (more: seq<Span>)
    requires Sorted(sorted)
    ensures multiset(more) == multiset(sorted) + multiset{span} && Sorted(more)
  {
    var k := 0;
    while k < |sorted| && sorted[k].start <= span.start
      invariant k <= |sorted| && forall m :: 0 <= m < k ==> sorted[m].start <= span.start
    {
      k := k + 1;
    }
    assert sorted == sorted[..k] + sorted[k..];
    more := sorted[..k] + [span] + sorted[k..];
    hide Sorted;
    InsertedSorted(sorted, k, span);
  }

  lemma InsertedSorted(sorted: seq<Span>, k: nat, span: Span)
    requires Sorted(sorted) && k <= |sorted| && (k < |sorted| ==> span.start < sorted[k].start)
    requires forall m :: 0 <= m < k ==> sorted[m].start <= span.start
    ensures Sorted(sorted[..k] + [span] + sorted[k..])
  {
    var more := sorted[..k] + [span] + sorted[k..];
    assert forall m :: 0 <= m < |more| ==> more[m] == if m < k then sorted[m] else if m == k then span else sorted[m-1];
  }

  /** Right to left, so that earlier positions stay valid: the same as replacing all spans at once. */
  method Splice(original: Text, spans: seq<Span>) returns (updated: Text)
    requires Fits(spans, 0, |original|)
    ensures updated == Subst(original, spans, 0)
  {
    updated := original;
    var k := |spans|;
    assert original[0..] == original;
    while k > 0
      invariant 0 <= k <= |spans| && Fits(spans[k..], 0, |original|) && updated == Subst(original, spans[k..], 0)
    {
      k := k - 1;
      assert spans[k..][1..] == spans[k+1..];
      FitsFrom(spans, 0, |original|, k);
      SpliceStep(original, spans[k..], if k == 0 then 0 else spans[k-1].end, updated);
      updated := updated[..spans[k].start] + spans[k].text + updated[spans[k].end..];
    }
    assert spans[0..] == spans;
  }

  lemma {:induction false} FitsFrom(spans: seq<Span>, from: nat, length: nat, k: nat)
    requires Fits(spans, from, length) && k < |spans|
    ensures Fits(spans[k..], if k == 0 then from else spans[k-1].end, length)
    decreases k
  {
    if k == 0 {
      assert spans[0..] == spans;
    } else {
      FitsFrom(spans[1..], spans[0].end, length, k - 1);
      assert spans[1..][k-1..] == spans[k..];
    }
  }

  // ---- overlap ------------------------------------------------------------------------

  lemma OtherOne(s: seq<Span>, i: nat, j: nat)
    requires i < |s| && j < |s| && i != j
    ensures s[i] in multiset(s) && s[j] in multiset(s) - multiset{s[i]}
  {
    var rest := s[..i] + s[i+1..];
    OneLess(s, i);
    assert rest[if j < i then j else j - 1] == s[j];
    assert s[j] in rest;
  }

  lemma {:induction false} TwoPlaces(s: seq<Span>, x: Span, y: Span) returns (i: nat, j: nat)
    requires x in multiset(s) && y in multiset(s) - multiset{x}
    ensures i < |s| && j < |s| && i != j && s[i] == x && s[j] == y
  {
    i :| i < |s| && s[i] == x;
    var rest := s[..i] + s[i+1..];
    OneLess(s, i);
    assert y in multiset(rest);
    var k :| 0 <= k < |rest| && rest[k] == y;
    j := if k < i then k else k + 1;
  }

  lemma OneLess(s: seq<Span>, i: nat)
    requires i < |s|
    ensures multiset(s[..i] + s[i+1..]) == multiset(s) - multiset{s[i]}
  {
    assert s == s[..i] + [s[i]] + s[i+1..];
  }

  /** Neighbours apart means all apart. */
  lemma {:induction false} ApartFits(spans: seq<Span>, from: nat, length: nat)
    requires forall k :: 0 <= k < |spans| ==> from <= spans[k].start < spans[k].end <= length
    requires forall k :: 0 <= k < |spans| - 1 ==> spans[k].end <= spans[k+1].start
    requires from <= length && Sorted(spans)
    ensures Fits(spans, from, length)
    decreases |spans|
  {
    if spans != [] {
      var rest := spans[1..];
      assert forall k :: 0 <= k < |rest| ==> rest[k] == spans[k+1];
      if rest != [] {
        forall k | 0 <= k < |rest| ensures spans[0].end <= rest[k].start {
          assert spans[1].start <= spans[k+1].start;
        }
      }
      ApartFits(rest, spans[0].end, length);
    }
  }

  lemma {:induction false} FitsApart(spans: seq<Span>, from: nat, length: nat, i: nat, j: nat)
    requires Fits(spans, from, length) && i < j < |spans|
    ensures spans[i].end <= spans[j].start
    decreases i
  {
    if i == 0 {
      FitsBounds(spans[1..], spans[0].end, length, j - 1);
    } else {
      FitsApart(spans[1..], spans[0].end, length, i - 1, j - 1);
    }
  }

  lemma FitsNotOverlapping(spans: seq<Span>, length: nat)
    requires Fits(spans, 0, length)
    ensures !Overlapping(multiset(spans))
  {
    forall x, y | x in multiset(spans) && y in multiset(spans) - multiset{x} ensures !(x.start < y.end && y.start < x.end) {
      var i, j := TwoPlaces(spans, x, y);
      if i < j { FitsApart(spans, 0, length, i, j); } else { FitsApart(spans, 0, length, j, i); }
    }
  }

  lemma LocatedBounds(original: Text, changes: seq<Change>, spans: seq<Span>)
    requires Located(original, changes, spans) && forall k :: 0 <= k < |changes| ==> changes[k].oldText != []
    ensures forall x :: x in multiset(spans) ==> x.start < x.end <= |Norm(original)|
  {
    forall x | x in multiset(spans) ensures x.start < x.end <= |Norm(original)| {
      assert x in spans;
      var k :| 0 <= k < |spans| && spans[k] == x;
      assert PlacedAt(original, changes[k], spans[k]);
    }
  }

  /** A text has at most one list of located spans. */
  lemma LocatedOnce(original: Text, changes: seq<Change>, a: seq<Span>, b: seq<Span>)
    requires Located(original, changes, a) && Located(original, changes, b)
    ensures a == b
  {
    forall k | 0 <= k < |a| ensures a[k] == b[k] {
      assert PlacedAt(original, changes[k], a[k]) && PlacedAt(original, changes[k], b[k]);
    }
  }

  // ---- the operation --------------------------------------------------------------------

  /** An edit is applied exactly when every old text occurs once and no two places overlap;
      the result replaces all places at once in the original, whose other bytes stay. */
  method Edit(original: Text, changes: seq<Change>)
    returns (r: Result, ghost located: seq<Span>, ghost sorted: seq<Span>, ghost positions: seq<nat>)
    requires forall k :: 0 <= k < |changes| ==> changes[k].oldText != []
    ensures Cuts(original, Norm(original), positions)
    ensures r == Refused(NotFound) || r == Refused(Ambiguous) ==>
              exists k :: 0 <= k < |changes| && FirstFailure(original, changes, k, r.failure)
    ensures r.Edited? || r == Refused(Overlap) ==> Located(original, changes, located)
    ensures r == Refused(Overlap) ==> Overlapping(multiset(located))
    ensures r.Edited? ==> !Overlapping(multiset(located)) && multiset(sorted) == multiset(located)
    ensures r.Edited? ==> Applied(original, sorted, positions, r.text)
  {
    hide Norm, Occurs, Located;
    var text, cuts := Index(original);
    positions, sorted := cuts, [];
    var spans, failure := Locate(original, text, changes);
    located := spans;
    if failure.Some? {
      FailureIsFirst(original, changes, spans, failure.value);
      return Refused(failure.value), located, sorted, positions;
    }
    LocatedBounds(original, changes, spans);
    r, sorted := Apply(original, text, cuts, spans);
  }

  /** Sort, refuse overlaps, splice. */
  method Apply(original: Text, text: Text, cuts: seq<nat>, spans: seq<Span>) returns (r: Result, ghost sorted: seq<Span>)
    requires text == Norm(original) && Cuts(original, text, cuts)
    requires forall x :: x in multiset(spans) ==> x.start < x.end <= |text|
    ensures if Overlapping(multiset(spans)) then r == Refused(Overlap)
            else r.Edited? && multiset(sorted) == multiset(spans) && Applied(original, sorted, cuts, r.text)
  {
    hide Norm, Overlapping, Applied, Fits, Subst, Piece;
    var inOrder := SortSpans(spans);
    sorted := inOrder;
    SortedBounds(inOrder, spans, |text|);
    if exists k :: 0 <= k < |inOrder| - 1 && inOrder[k].end > inOrder[k+1].start {
      NeighboursOverlap(inOrder);
      return Refused(Overlap), sorted;
    }
    ApartFits(inOrder, 0, |text|);
    FitsNotOverlapping(inOrder, |text|);
    MappedFits(original, text, cuts, inOrder, 0);
    var updated := Splice(original, Mapped(inOrder, cuts));
    AppliedIs(original, inOrder, cuts, updated);
    return Edited(updated), sorted;
  }

  lemma NeighboursOverlap(spans: seq<Span>)
    requires forall k :: 0 <= k < |spans| ==> spans[k].start < spans[k].end
    requires Sorted(spans) && exists k :: 0 <= k < |spans| - 1 && spans[k].end > spans[k+1].start
    ensures Overlapping(multiset(spans))
  {
    var k :| 0 <= k < |spans| - 1 && spans[k].end > spans[k+1].start;
    OtherOne(spans, k, k + 1);
  }

  lemma AppliedIs(original: Text, sorted: seq<Span>, positions: seq<nat>, text: Text)
    requires Fits(sorted, 0, |Norm(original)|)
    requires forall k :: 0 <= k < |sorted| ==> sorted[k].start < |positions| && sorted[k].end < |positions|
    requires Fits(Mapped(sorted, positions), 0, |original|) && text == Subst(original, Mapped(sorted, positions), 0)
    ensures Applied(original, sorted, positions, text)
  {
  }

  lemma SortedBounds(sorted: seq<Span>, spans: seq<Span>, length: nat)
    requires multiset(sorted) == multiset(spans) && forall x :: x in multiset(spans) ==> x.start < x.end <= length
    ensures forall k :: 0 <= k < |sorted| ==> sorted[k].start < sorted[k].end <= length
  {
    forall k | 0 <= k < |sorted| ensures sorted[k].start < sorted[k].end <= length {
      assert sorted[k] in multiset(sorted);
    }
  }

  /** Change `k` is the first whose old text does not occur exactly once. */
  ghost predicate FirstFailure(original: Text, changes: seq<Change>, k: nat, failure: Failure)
    requires k < |changes|
  {
    && (exists spans :: Located(original, changes[..k], spans))
    && (forall i :: !Unique(Norm(original), Norm(changes[k].oldText), i))
    && failure == Why(Norm(original), Norm(changes[k].oldText))
  }

  lemma FailureIsFirst(original: Text, changes: seq<Change>, spans: seq<Span>, failure: Failure)
    requires |spans| < |changes| && Located(original, changes[..|spans|], spans)
    requires forall i :: !Unique(Norm(original), Norm(changes[|spans|].oldText), i)
    requires failure == Why(Norm(original), Norm(changes[|spans|].oldText))
    ensures FirstFailure(original, changes, |spans|, failure)
  {
    hide Norm, Located;
  }

  ghost predicate Applied(original: Text, sorted: seq<Span>, positions: seq<nat>, text: Text) {
    && Fits(sorted, 0, |Norm(original)|)
    && (forall k :: 0 <= k < |sorted| ==> sorted[k].start < |positions| && sorted[k].end < |positions|)
    && Fits(Mapped(sorted, positions), 0, |original|)
    && text == Subst(original, Mapped(sorted, positions), 0)
  }

  /** Without lone carriage returns an edit reads, with its line endings normalised, as the
      same replacements of normalised texts in the normalised file. */
  lemma EditIsLfEdit(original: Text, changes: seq<Change>, located: seq<Span>, sorted: seq<Span>, positions: seq<nat>, text: Text)
    requires Cuts(original, Norm(original), positions)
    requires Located(original, changes, located) && multiset(sorted) == multiset(located)
    requires Applied(original, sorted, positions, text)
    requires !LoneCr(original) && forall k :: 0 <= k < |changes| ==> !LoneCr(changes[k].newText)
    ensures Fits(LfSpans(sorted), 0, |Norm(original)|) && Norm(text) == Subst(Norm(original), LfSpans(sorted), 0)
    ensures forall k :: 0 <= k < |changes| ==> Norm(located[k].text) == Norm(changes[k].newText)
  {
    hide Norm, Cuts, Subst, LoneCr;
    forall k | 0 <= k < |changes| ensures Norm(located[k].text) == Norm(changes[k].newText) && !LoneCr(located[k].text) {
      assert PlacedAt(original, changes[k], located[k]);
      InsertedText(changes[k].newText, Ending(original));
    }
    forall k | 0 <= k < |sorted| ensures !LoneCr(sorted[k].text) {
      assert sorted[k] in multiset(sorted);
      assert sorted[k] in located;
    }
    LfEquivalence(original, positions, sorted);
    CutsBegin(original, positions);
    NoSeams(original, Norm(original), positions, sorted, 0);
  }

  lemma CutsBegin(original: Text, positions: seq<nat>)
    requires Cuts(original, Norm(original), positions)
    ensures positions != [] && positions[0] == 0
  {
  }

  lemma InsertedText(text: Text, ending: Text)
    requires !LoneCr(text) && (ending == "\r\n" || ending == "\n")
    ensures Norm(Expand(Norm(text), ending)) == Norm(text) && !LoneCr(Expand(Norm(text), ending))
  {
    hide Norm, LoneCr;
    NormHasNoCr(text);
    ExpandedHasNoLoneCr(Norm(text), ending);
    InsertedNormalises(text, ending);
  }

  /** With a lone carriage return this fails: in "a\rb" the request to replace "b" by "\nc" is
      accepted, and its result "a\r\nc" reads as one line break, not as a carriage return and
      a line break. */
  lemma LoneCrMerges()
    ensures var original, changes, spans, positions := "a\rb", [Change("b", "\nc")], [Span(2, 3, "\nc")], [0, 1, 2, 3];
            && Located(original, changes, spans) && !Overlapping(multiset(spans))
            && Cuts(original, Norm(original), positions) && Applied(original, spans, positions, "a\r\nc")
            && Fits(LfSpans(spans), 0, |Norm(original)|)
            && Norm("a\r\nc") != Subst(Norm(original), LfSpans(spans), 0)
  {
    var original, changes, spans, positions := "a\rb", [Change("b", "\nc")], [Span(2, 3, "\nc")], [0, 1, 2, 3];
    LoneCrSplice();
    assert Norm("b") == "b" by { NormWithoutCrlf("b"); }
    assert Norm("\nc") == "\nc" by { NormWithoutCrlf("\nc"); }
    assert Ending(original) == "\n";
    ExpandByLf("\nc");
    assert Occurs(original, "b", 2);
    assert PlacedAt(original, changes[0], spans[0]);
    assert Mapped(spans, positions) == spans;
    assert LfSpans(spans) == spans;
    FitsNotOverlapping(spans, 3);
  }

  // ---- what the answers mean --------------------------------------------------------------

  /** The inserted text is the new text with the line endings of the file: CRLF throughout if
      the file has any, LF throughout if it has none. */
  lemma InsertedEndings(original: Text, change: Change, start: nat, text: Text)
    requires text == SpanAt(original, change, start).text
    ensures if exists i :: 0 <= i < |original| - 1 && original[i] == '\r' && original[i+1] == '\n'
            then Norm(text) == Norm(change.newText) && forall k :: 0 <= k < |text| && text[k] == '\n' ==> k > 0 && text[k-1] == '\r'
            else text == Norm(change.newText)
  {
    hide Norm;
    if HasCrlf(original) {
      ExpandedNormalises(Norm(change.newText));
      ExpandedEndings(Norm(change.newText));
    } else {
      ExpandByLf(Norm(change.newText));
    }
  }

  ghost predicate CrlfThroughout(s: Text) {
    forall k :: 0 <= k < |s| && s[k] == '\n' ==> k > 0 && s[k-1] == '\r'
  }

  lemma {:induction false} ExpandedEndings(s: Text)
    ensures CrlfThroughout(Expand(s, "\r\n"))
  {
    if s != [] {
      ExpandedEndings(s[1..]);
      if s[0] == '\n' {
        EndingsJoin("\r\n", Expand(s[1..], "\r\n"));
      } else {
        EndingsJoin([s[0]], Expand(s[1..], "\r\n"));
      }
    }
  }

  lemma EndingsJoin(a: Text, b: Text)
    requires CrlfThroughout(a) && CrlfThroughout(b)
    ensures CrlfThroughout(a + b)
  {
    forall k | 0 <= k < |a + b| && (a + b)[k] == '\n' ensures k > 0 && (a + b)[k-1] == '\r' {
      if k >= |a| { assert b[k-|a|] == '\n'; } else { assert a[k] == '\n'; }
    }
  }

  /** The text reads `before`, then the sought text, then `after`. */
  lemma Reads(text: Text, before: Text, sought: Text, after: Text)
    requires text == before + sought + after
    ensures Occurs(text, sought, |before|)
  {
  }

  lemma ReadsAt(text: Text, sought: Text, i: nat)
    requires Occurs(text, sought, i)
    ensures i + |sought| <= |text| && text == text[..i] + sought + text[i+|sought|..]
  {
  }

  /** Every old text is read at its place and nowhere else, and its place is as long as it is. */
  lemma LocatedMeans(original: Text, changes: seq<Change>, spans: seq<Span>, k: nat)
    requires Located(original, changes, spans) && k < |changes|
    ensures var text, sought := Norm(original), Norm(changes[k].oldText);
            && |spans| == |changes| && spans[k].end == spans[k].start + |sought| <= |text|
            && text == text[..spans[k].start] + sought + text[spans[k].end..]
            && forall before, after :: text == before + sought + after ==> |before| == spans[k].start
  {
    hide Norm, Expand, HasCrlf, Occurs;
    assert PlacedAt(original, changes[k], spans[k]);
    var text, sought := Norm(original), Norm(changes[k].oldText);
    ReadsAt(text, sought, spans[k].start);
    forall before, after | text == before + sought + after ensures |before| == spans[k].start {
      Reads(text, before, sought, after);
    }
  }

  /** An edit fails at a text that is read nowhere, or in two places, and every text before it
      is read in one. */
  lemma FailureMeans(original: Text, changes: seq<Change>, k: nat, failure: Failure)
    requires k < |changes| && FirstFailure(original, changes, k, failure)
    ensures var text, sought := Norm(original), Norm(changes[k].oldText);
            if exists before, after :: text == before + sought + after
            then failure == Ambiguous
                 && exists a, b, c, d :: text == a + sought + b && text == c + sought + d && |a| < |c|
            else failure == NotFound
    ensures exists spans :: Located(original, changes[..k], spans)
  {
    hide Norm, Located, Occurs;
    var text, sought := Norm(original), Norm(changes[k].oldText);
    if before, after :| text == before + sought + after {
      Reads(text, before, sought, after);
      assert !Unique(text, sought, |before|);
      var j :| Occurs(text, sought, j) && j != |before|;
      assert j >= 0 by { OccursFrom(text, sought, j); }
      ReadsAt(text, sought, j);
      var c, d := text[..j], text[j+|sought|..];
      assert if |before| < |c| then text == before + sought + after && text == c + sought + d else text == c + sought + d && |c| < |before|;
    } else {
      if i :| Occurs(text, sought, i) { OccursFrom(text, sought, i); ReadsAt(text, sought, i); }
    }
  }

  lemma OccursFrom(text: Text, sought: Text, i: int)
    requires Occurs(text, sought, i)
    ensures i >= 0
  {
  }

  /** Two different changes whose places share a character. */
  lemma OverlapMeans(spans: seq<Span>)
    ensures Overlapping(multiset(spans)) <==>
              exists i, j :: 0 <= i < |spans| && 0 <= j < |spans| && i != j && spans[i].start < spans[j].end && spans[j].start < spans[i].end
  {
    if x, y :| x in multiset(spans) && y in multiset(spans) - multiset{x} && x.start < y.end && y.start < x.end {
      var i, j := TwoPlaces(spans, x, y);
    }
    if i, j :| 0 <= i < |spans| && 0 <= j < |spans| && i != j && spans[i].start < spans[j].end && spans[j].start < spans[i].end {
      OtherOne(spans, i, j);
    }
  }
}
