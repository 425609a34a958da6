// Several exact replacements in one text, found in its LF form and applied to the
// original with its own line endings. Models the edit branch of agent/core_files.py.

module EditModel {
  import opened Settings

  type Text = string

  // ---- line endings -----------------------------------------------------------

  predicate Crlf(s: Text) {
    |s| >= 2 && s[0] == '\r' && s[1] == '\n'
  }

  /** `replace('\r\n', '\n')`. */
  function Norm(s: Text): (r: Text)
    ensures |r| <= |s| && (s != [] ==> r != [])
  {
    if s == [] then []
    else if Crlf(s) then ['\n'] + Norm(s[2..])
    else [s[0]] + Norm(s[1..])
  }

  /** `replace('\n', ending)`. */
  function Expand(s: Text, ending: Text): Text {
    if s == [] then []
    else (if s[0] == '\n' then ending else [s[0]]) + Expand(s[1..], ending)
  }

  predicate HasCrlf(s: Text) {
    exists i :: 0 <= i < |s| - 1 && s[i] == '\r' && s[i+1] == '\n'
  }

  /** A carriage return at the end of one part meets a line feed at the start of the next. */
  predicate Seam(a: Text, b: Text) {
    a != [] && b != [] && a[|a| - 1] == '\r' && b[0] == '\n'
  }

  /** Normalising part by part is normalising the whole, unless a seam becomes a CRLF. */
  lemma {:induction false} NormAppend(a: Text, b: Text)
    ensures |Norm(a + b)| == |Norm(a)| + |Norm(b)| - if Seam(a, b) then 1 else 0
    ensures !Seam(a, b) ==> Norm(a + b) == Norm(a) + Norm(b)
    decreases |a|
  {
    hide Norm, Seam;
    if |a| <= 1 {
      NormShort(a, b);
    } else {
      var n := if Crlf(a) then 2 else 1;
      NormAppend(a[n..], b);
      NormFront(a, n);
      assert (a + b)[n..] == a[n..] + b;
      NormFront(a + b, n);
      SeamFront(a, b, n);
      var x := if n == 2 then '\n' else a[0];
      assert [x] + (Norm(a[n..]) + Norm(b)) == [x] + Norm(a[n..]) + Norm(b);
    }
  }

  lemma SeamFront(a: Text, b: Text, n: nat)
    requires |a| >= 2 && n == if Crlf(a) then 2 else 1
    ensures Seam(a, b) == Seam(a[n..], b)
  {
    if a[n..] != [] { assert a[n..][|a[n..]| - 1] == a[|a| - 1]; }
  }

  lemma NormFront(s: Text, n: nat)
    requires |s| >= 2 && n == if Crlf(s) then 2 else 1
    ensures Norm(s) == [if n == 2 then '\n' else s[0]] + Norm(s[n..])
  {
  }

  lemma NormShort(a: Text, b: Text)
    requires |a| <= 1
    ensures |Norm(a + b)| == |Norm(a)| + |Norm(b)| - if Seam(a, b) then 1 else 0
    ensures !Seam(a, b) ==> Norm(a + b) == Norm(a) + Norm(b)
  {
    assert if a == [] then a + b == b else (a + b)[1..] == b && Norm(a) == a;
    if Seam(a, b) {
      assert (a + b)[2..] == b[1..];
      assert Norm(b) == ['\n'] + Norm(b[1..]);
    }
  }

  lemma {:induction false} ExpandedNormalises(s: Text)
    ensures Norm(Expand(s, "\r\n")) == s
    ensures s == [] || !(Expand(s, "\r\n")[0] == '\n')
  {
    if s != [] {
      ExpandedNormalises(s[1..]);
      var rest := Expand(s[1..], "\r\n");
      if s[0] == '\n' {
        assert ("\r\n" + rest)[2..] == rest;
      } else {
        assert ([s[0]] + rest)[1..] == rest;
        NormAppend([s[0]], rest);
      }
    }
  }

  lemma {:induction false} ExpandByLf(s: Text)
    ensures Expand(s, "\n") == s
  {
    if s != [] { ExpandByLf(s[1..]); }
  }

  lemma {:induction false} NormWithoutCrlf(s: Text)
    requires !HasCrlf(s)
    ensures Norm(s) == s
  {
    if s != [] {
      assert !HasCrlf(s[1..]) by {
        assert forall i :: 0 <= i < |s[1..]| ==> s[1..][i] == s[i+1];
      }
      NormWithoutCrlf(s[1..]);
    }
  }

  // ---- the position map -----------------------------------------------------------

  /** `positions` cuts the original into single characters and CRLF pairs, one piece for
      each normalised character and a last cut at the end. */
  ghost predicate Cuts(original: Text, normalized: Text, positions: seq<nat>) {
    CutsTo(original, normalized, positions, |original|)
  }

  ghost predicate CutsTo(original: Text, normalized: Text, positions: seq<nat>, end: nat) {
    && |positions| == |normalized| + 1 && positions[0] == 0 && positions[|normalized|] == end
    && forall k :: 0 <= k < |normalized| ==> Piece(original, normalized[k], positions[k], positions[k+1])
  }

  /** The piece from `a` to `b` is the character, or the CRLF it stands for. */
  predicate Piece(original: Text, c: char, a: nat, b: nat) {
    && a < b <= |original|
    && if b == a + 2 then original[a] == '\r' && original[a+1] == '\n' && c == '\n'
       else b == a + 1 && original[a] == c && !(c == '\r' && b < |original| && original[b] == '\n')
  }

  lemma {:induction false} CutsIncrease(original: Text, normalized: Text, positions: seq<nat>, i: nat, j: nat)
    requires Cuts(original, normalized, positions) && i < j <= |normalized|
    ensures positions[i] < positions[j] <= |original| && positions[j] - positions[i] >= j - i
    decreases j
  {
    assert Piece(original, normalized[j-1], positions[j-1], positions[j]);
    if i < j - 1 { CutsIncrease(original, normalized, positions, i, j - 1); }
  }

  /** Between two cuts the original normalises to the characters between them. */
  lemma {:induction false} CutNormalises(original: Text, normalized: Text, positions: seq<nat>, i: nat, j: nat)
    requires Cuts(original, normalized, positions) && i <= j <= |normalized|
    ensures positions[i] <= positions[j] <= |original|
    ensures Norm(original[positions[i]..positions[j]]) == normalized[i..j]
    decreases j - i
  {
    if i < j {
      assert Piece(original, normalized[i], positions[i], positions[i+1]);
      CutNormalises(original, normalized, positions, i + 1, j);
      var a, b, c := positions[i], positions[i+1], positions[j];
      var part := original[a..c];
      assert part[b-a..] == original[b..c];
      assert normalized[i..j] == [normalized[i]] + normalized[i+1..j];
      if b == a + 2 {
        assert Crlf(part);
      } else if i + 1 == j {
        assert part == [normalized[i]];
      } else {
        CutsIncrease(original, normalized, positions, i + 1, j);
        assert part[1] == original[b];
      }
    } else {
      if i > 0 { CutsIncrease(original, normalized, positions, 0, i); }
      assert original[positions[i]..positions[j]] == [];
    }
  }

  /** The map is of the LF form of the original, and it is the only one. */
  lemma CutsOfNorm(original: Text, normalized: Text, positions: seq<nat>)
    requires Cuts(original, normalized, positions)
    ensures normalized == Norm(original)
  {
    CutNormalises(original, normalized, positions, 0, |normalized|);
    assert original[0..|original|] == original;
    assert normalized[0..|normalized|] == normalized;
  }

  // ---- simultaneous substitution ----------------------------------------------------

  datatype Span = Span(start: nat, end: nat, text: Text)

  /** The spans lie in order and apart, after `from`. */
  predicate Fits(spans: seq<Span>, from: nat, length: nat) {
    if spans == [] then from <= length
    else from <= spans[0].start <= spans[0].end <= length && Fits(spans[1..], spans[0].end, length)
  }

  /** Every span replaced at once, from `from` on. */
  function Subst(s: Text, spans: seq<Span>, from: nat): Text
    requires Fits(spans, from, |s|)
  {
    if spans == [] then s[from..]
    else s[from..spans[0].start] + spans[0].text + Subst(s, spans[1..], spans[0].end)
  }

  /** Text in front of the spans is copied. */
  lemma SubstFront(s: Text, spans: seq<Span>, a: nat, b: nat)
    requires a <= b && Fits(spans, b, |s|)
    ensures Fits(spans, a, |s|) && b <= |s| && Subst(s, spans, a) == s[a..b] + Subst(s, spans, b)
  {
    FitsWithin(spans, b, |s|);
    if spans == [] {
      assert s[a..] == s[a..b] + s[b..];
    } else {
      var kept, rest := s[b..spans[0].start], Subst(s, spans[1..], spans[0].end);
      Sliced(s, a, b, spans[0].start);
      Regrouped(s[a..b], kept, spans[0].text, rest);
    }
  }

  lemma Sliced(s: Text, a: nat, b: nat, c: nat)
    requires a <= b <= c <= |s|
    ensures s[a..c] == s[a..b] + s[b..c]
  {
  }

  lemma Regrouped(a: Text, b: Text, c: Text, d: Text)
    ensures (a + b) + c + d == a + (b + c + d)
  {
  }

  lemma FitsWithin(spans: seq<Span>, from: nat, length: nat)
    requires Fits(spans, from, length)
    ensures from <= length
  {
  }

  /** Replacing the first span in a text whose later spans are already replaced. */
  lemma SpliceStep(s: Text, spans: seq<Span>, from: nat, later: Text)
    requires spans != [] && Fits(spans, from, |s|) && Fits(spans[1..], 0, |s|) && later == Subst(s, spans[1..], 0)
    ensures spans[0].end <= |later| && Fits(spans, 0, |s|)
    ensures later[..spans[0].start] + spans[0].text + later[spans[0].end..] == Subst(s, spans, 0)
  {
    var a, b := spans[0].start, spans[0].end;
    SubstFront(s, spans[1..], 0, b);
    assert later[b..] == Subst(s, spans[1..], b);
    assert later[..a] == s[0..a];
  }

  // ---- what is outside the spans stays ----------------------------------------------

  /** How far the spans before `i` move what follows. */
  function Shift(spans: seq<Span>, i: nat): int {
    if spans == [] || i < spans[0].end then 0
    else |spans[0].text| - (spans[0].end - spans[0].start) + Shift(spans[1..], i)
  }

  predicate Outside(spans: seq<Span>, i: nat) {
    forall k :: 0 <= k < |spans| ==> !(spans[k].start <= i < spans[k].end)
  }

  /** Every code point outside the spans is preserved, moved only by what precedes it. */
  lemma {:induction false} OutsideIsKept(s: Text, spans: seq<Span>, from: nat, i: nat)
    requires Fits(spans, from, |s|) && from <= i < |s| && Outside(spans, i)
    ensures 0 <= i - from + Shift(spans, i) < |Subst(s, spans, from)|
    ensures Subst(s, spans, from)[i - from + Shift(spans, i)] == s[i]
    decreases |spans|
  {
    hide Outside;
    if spans != [] {
      var a, b := spans[0].start, spans[0].end;
      OutsideFirst(spans, i);
      if i >= b {
        OutsideIsKept(s, spans[1..], b, i);
      }
      InConcat(s[from..a], spans[0].text, Subst(s, spans[1..], b));
    }
  }

  lemma OutsideFirst(spans: seq<Span>, i: nat)
    requires spans != [] && Outside(spans, i)
    ensures !(spans[0].start <= i < spans[0].end) && Outside(spans[1..], i)
  {
    assert forall k :: 0 <= k < |spans[1..]| ==> spans[1..][k] == spans[k+1];
  }

  lemma InConcat(a: Text, b: Text, c: Text)
    ensures forall i :: 0 <= i < |a| ==> (a + b + c)[i] == a[i]
    ensures forall i :: |a| + |b| <= i < |a + b + c| ==> (a + b + c)[i] == c[i - |a| - |b|]
  {
  }

  // ---- the result in LF form ----------------------------------------------------------

  /** Spans of the LF form, moved to the original by the position map. */
  function Mapped(spans: seq<Span>, positions: seq<nat>): (r: seq<Span>)
    requires forall k :: 0 <= k < |spans| ==> spans[k].start < |positions| && spans[k].end < |positions|
    ensures |r| == |spans|
    ensures forall k :: 0 <= k < |spans| ==> r[k] == Span(positions[spans[k].start], positions[spans[k].end], spans[k].text)
  {
    if spans == [] then []
    else [Span(positions[spans[0].start], positions[spans[0].end], spans[0].text)] + Mapped(spans[1..], positions)
  }

  function LfSpans(spans: seq<Span>): (r: seq<Span>)
    ensures |r| == |spans|
  {
    if spans == [] then [] else [spans[0].(text := Norm(spans[0].text))] + LfSpans(spans[1..])
  }

  /** The places where an insertion completes a CRLF with its neighbourhood. */
  function Seams(s: Text, spans: seq<Span>, from: nat): nat
    requires Fits(spans, from, |s|)
  {
    if spans == [] then 0
    else
      var kept, text, rest := s[from..spans[0].start], spans[0].text, Subst(s, spans[1..], spans[0].end);
      (if Seam(kept, text + rest) then 1 else 0) + (if Seam(text, rest) then 1 else 0) + Seams(s, spans[1..], spans[0].end)
  }

  lemma {:induction false} FitsBounds(spans: seq<Span>, from: nat, length: nat, k: nat)
    requires Fits(spans, from, length) && k < |spans|
    ensures from <= spans[k].start <= spans[k].end <= length
    decreases k
  {
    if k > 0 { FitsBounds(spans[1..], spans[0].end, length, k - 1); }
  }

  lemma {:induction false} MappedFits(original: Text, normalized: Text, positions: seq<nat>, spans: seq<Span>, from: nat)
    requires Cuts(original, normalized, positions) && Fits(spans, from, |normalized|)
    ensures from <= |normalized| && forall k :: 0 <= k < |spans| ==> spans[k].start < |positions| && spans[k].end < |positions|
    ensures Fits(Mapped(spans, positions), positions[from], |original|)
    decreases |spans|
  {
    forall k | 0 <= k < |spans| ensures spans[k].start < |positions| && spans[k].end < |positions| {
      FitsBounds(spans, from, |normalized|, k);
    }
    if spans == [] {
      CutNormalises(original, normalized, positions, from, |normalized|);
    } else {
      var a, b := spans[0].start, spans[0].end;
      MappedFits(original, normalized, positions, spans[1..], b);
      CutNormalises(original, normalized, positions, from, a);
      CutNormalises(original, normalized, positions, a, b);
      MappedTail(spans, positions);
    }
  }

  lemma MappedTail(spans: seq<Span>, positions: seq<nat>)
    requires spans != [] && forall k :: 0 <= k < |spans| ==> spans[k].start < |positions| && spans[k].end < |positions|
    ensures forall k :: 0 <= k < |spans[1..]| ==> spans[1..][k].start < |positions| && spans[1..][k].end < |positions|
    ensures Mapped(spans, positions)[1..] == Mapped(spans[1..], positions)
    ensures Mapped(spans, positions)[0] == Span(positions[spans[0].start], positions[spans[0].end], spans[0].text)
  {
  }

  lemma {:induction false} LfFits(spans: seq<Span>, from: nat, length: nat)
    requires Fits(spans, from, length)
    ensures Fits(LfSpans(spans), from, length)
    decreases |spans|
  {
    if spans != [] {
      LfFits(spans[1..], spans[0].end, length);
      assert LfSpans(spans)[1..] == LfSpans(spans[1..]);
    }
  }

  /** Each seam costs the normalised result one character; without any, normalising the
      result is substituting in the LF form. */
  lemma {:induction false} NormSubst(original: Text, normalized: Text, positions: seq<nat>, spans: seq<Span>, from: nat)
    requires Cuts(original, normalized, positions) && Fits(spans, from, |normalized|)
    requires from <= |normalized| && forall k :: 0 <= k < |spans| ==> spans[k].start < |positions| && spans[k].end < |positions|
    requires Fits(Mapped(spans, positions), positions[from], |original|) && Fits(LfSpans(spans), from, |normalized|)
    ensures var result, target := Subst(original, Mapped(spans, positions), positions[from]), Subst(normalized, LfSpans(spans), from);
            var seams := Seams(original, Mapped(spans, positions), positions[from]);
            && |Norm(result)| + seams == |target| && (seams == 0 ==> Norm(result) == target)
    decreases |spans|
  {
    hide Norm, Cuts;
    if spans == [] {
      TailNormalises(original, normalized, positions, from);
    } else {
      var a, b := spans[0].start, spans[0].end;
      MappedTail(spans, positions);
      assert LfSpans(spans)[1..] == LfSpans(spans[1..]);
      MappedFits(original, normalized, positions, spans[1..], b);
      LfFits(spans[1..], b, |normalized|);
      NormSubst(original, normalized, positions, spans[1..], b);
      CutNormalises(original, normalized, positions, from, a);
      var kept, text := original[positions[from]..positions[a]], spans[0].text;
      var rest := Subst(original, Mapped(spans[1..], positions), positions[b]);
      NormThree(kept, text, rest);
    }
  }

  lemma NormThree(a: Text, b: Text, c: Text)
    ensures |Norm(a + b + c)| == |Norm(a)| + |Norm(b)| + |Norm(c)| - (if Seam(a, b + c) then 1 else 0) - (if Seam(b, c) then 1 else 0)
    ensures !Seam(a, b + c) && !Seam(b, c) ==> Norm(a + b + c) == Norm(a) + Norm(b) + Norm(c)
  {
    hide Norm, Seam;
    NormAppend(b, c);
    NormAppend(a, b + c);
    assert a + b + c == a + (b + c);
    assert Norm(a) + Norm(b) + Norm(c) == Norm(a) + (Norm(b) + Norm(c));
  }

  lemma TailNormalises(original: Text, normalized: Text, positions: seq<nat>, from: nat)
    requires Cuts(original, normalized, positions) && from <= |normalized|
    ensures positions[from] <= |original| && Norm(original[positions[from]..]) == normalized[from..]
  {
    CutNormalises(original, normalized, positions, from, |normalized|);
    assert original[positions[from]..|original|] == original[positions[from]..];
    assert normalized[from..|normalized|] == normalized[from..];
  }

  /** The result in LF form is the substitution in the LF form exactly when no insertion
      completes a CRLF with its neighbourhood. */
  lemma LfEquivalence(original: Text, positions: seq<nat>, spans: seq<Span>)
    requires Cuts(original, Norm(original), positions) && Fits(spans, 0, |Norm(original)|)
    requires forall k :: 0 <= k < |spans| ==> spans[k].start < |positions| && spans[k].end < |positions|
    ensures Fits(Mapped(spans, positions), 0, |original|) && Fits(LfSpans(spans), 0, |Norm(original)|)
    ensures Norm(Subst(original, Mapped(spans, positions), 0)) == Subst(Norm(original), LfSpans(spans), 0)
       <==> Seams(original, Mapped(spans, positions), 0) == 0
  {
    hide Norm;
    MappedFits(original, Norm(original), positions, spans, 0);
    LfFits(spans, 0, |Norm(original)|);
    assert positions[0] == 0;
    NormSubst(original, Norm(original), positions, spans, 0);
  }

  /** A carriage return that is not part of a CRLF. */
  predicate LoneCr(s: Text) {
    exists i :: 0 <= i < |s| && s[i] == '\r' && (i + 1 < |s| ==> s[i+1] != '\n')
  }

  /** Without lone carriage returns there are no seams. */
  lemma {:induction false} NoSeams(original: Text, normalized: Text, positions: seq<nat>, spans: seq<Span>, from: nat)
    requires Cuts(original, normalized, positions) && Fits(spans, from, |normalized|)
    requires from <= |normalized| && forall k :: 0 <= k < |spans| ==> spans[k].start < |positions| && spans[k].end < |positions|
    requires Fits(Mapped(spans, positions), positions[from], |original|)
    requires !LoneCr(original) && forall k :: 0 <= k < |spans| ==> !LoneCr(spans[k].text)
    ensures Seams(original, Mapped(spans, positions), positions[from]) == 0
    decreases |spans|
  {
    hide Cuts, LoneCr, Norm;
    if spans != [] {
      var a, b := spans[0].start, spans[0].end;
      MappedTail(spans, positions);
      MappedFits(original, normalized, positions, spans[1..], b);
      assert forall k :: 0 <= k < |spans[1..]| ==> spans[1..][k] == spans[k+1];
      NoSeams(original, normalized, positions, spans[1..], b);
      CutNormalises(original, normalized, positions, from, a);
      var kept, text := original[positions[from]..positions[a]], spans[0].text;
      NoCrBeforeCut(original, normalized, positions, from, a);
      NoCrAtEnd(text);
    }
  }

  lemma NoCrBeforeCut(original: Text, normalized: Text, positions: seq<nat>, from: nat, a: nat)
    requires Cuts(original, normalized, positions) && from <= a <= |normalized| && !LoneCr(original)
    requires positions[from] <= positions[a] <= |original|
    ensures positions[from] == positions[a] || original[positions[a] - 1] != '\r'
  {
    if from < a {
      assert Piece(original, normalized[a-1], positions[a-1], positions[a]);
      CutsIncrease(original, normalized, positions, from, a);
    }
  }

  lemma NoCrAtEnd(s: Text)
    requires !LoneCr(s)
    ensures s == [] || s[|s| - 1] != '\r'
  {
  }

  /** Inserted text normalises to the normalised new text, unless that still has a CRLF
      and the file uses bare line feeds. */
  lemma InsertedNormalises(text: Text, ending: Text)
    requires ending == "\r\n" || (ending == "\n" && !HasCrlf(Norm(text)))
    ensures Norm(Expand(Norm(text), ending)) == Norm(text)
  {
    hide Norm;
    if ending == "\r\n" {
      ExpandedNormalises(Norm(text));
    } else {
      ExpandByLf(Norm(text));
      NormWithoutCrlf(Norm(text));
    }
  }

  lemma {:induction false} NormHasNoCr(s: Text)
    requires !LoneCr(s)
    ensures forall i :: 0 <= i < |Norm(s)| ==> Norm(s)[i] != '\r'
  {
    if s != [] {
      var n := if Crlf(s) then 2 else 1;
      assert s[0] == '\r' ==> Crlf(s);
      assert !LoneCr(s[n..]) by {
        assert forall i :: 0 <= i < |s[n..]| ==> s[n..][i] == s[i+n];
      }
      NormHasNoCr(s[n..]);
    }
  }

  lemma {:induction false} ExpandedHasNoLoneCr(s: Text, ending: Text)
    requires forall i :: 0 <= i < |s| ==> s[i] != '\r'
    requires ending == "\r\n" || ending == "\n"
    ensures !LoneCr(Expand(s, ending))
  {
    if s != [] {
      ExpandedHasNoLoneCr(s[1..], ending);
      var front, rest := if s[0] == '\n' then ending else [s[0]], Expand(s[1..], ending);
      var whole := front + rest;
      forall i | 0 <= i < |whole| && whole[i] == '\r' ensures i + 1 < |whole| && whole[i+1] == '\n' {
        if i >= |front| { assert rest[i - |front|] == '\r' && rest[i - |front| + 1] == '\n'; }
      }
    }
  }

  /** A lone carriage return in front of an insertion that begins with a line feed merges
      with it. */
  lemma LoneCrSplice()
    ensures var original, spans := "a\rb", [Span(2, 3, "\nc")];
            && Norm(original) == original && Cuts(original, original, [0, 1, 2, 3])
            && Fits(spans, 0, 3)
            && Subst(original, spans, 0) == "a\r\nc" && Norm("a\r\nc") == "a\nc" && Subst(Norm(original), spans, 0) == "a\r\nc"
  {
    var original, spans := "a\rb", [Span(2, 3, "\nc")];
    assert Piece(original, original[0], 0, 1) && Piece(original, original[1], 1, 2) && Piece(original, original[2], 2, 3);
    assert original[1..] == "\rb" && original[2..] == "b" && original[3..] == "";
    assert Norm("b") == "b" && Norm("\rb") == "\rb";
    assert Subst(original, spans, 0) == "a\r\nc";
    assert "a\r\nc"[1..] == "\r\nc" && "\r\nc"[2..] == "c" && "c"[1..] == "";
    assert Norm("c") == "c";
  }
}
