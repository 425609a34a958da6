// Resource claims: what one operation holds, and when two claims exclude each other.
// Models `Claim.conflicts` and `overlaps` of agent/resource_queue.py.

module Claims {

  datatype Holder = File | Process

  datatype Claim = Claim(namespace: string, kind: string, name: string, write: bool, holder: Holder, stable: bool)

  // ---- path scopes ------------------------------------------------------

  datatype Scope = Scope(anchor: string, parts: seq<string>)

  /** A path component that names something: empty and "." components are dropped. */
  function Named(part: string): seq<string> {
    if part == "" || part == "." then [] else [part]
  }

  function Components(name: string, current: string := ""): seq<string> {
    if name == "" then Named(current)
    else if name[0] == '/' then Named(current) + Components(name[1..], "")
    else Components(name[1..], current + [name[0]])
  }

  /** POSIX keeps exactly two leading slashes apart from one; three or more mean one. */
  function Anchor(name: string): string {
    if |name| >= 2 && name[..2] == "//" && (|name| == 2 || name[2] != '/') then "//"
    else if name != "" && name[0] == '/' then "/"
    else ""
  }

  function PathScope(name: string): Scope {
    var anchor := Anchor(name);
    Scope(anchor, (if anchor == "" then [] else [anchor]) + Components(name))
  }

  /** One scope contains the other. */
  predicate Nested(left: Scope, right: Scope) {
    left.anchor == right.anchor && (left.parts <= right.parts || right.parts <= left.parts)
  }

  // ---- conflicts --------------------------------------------------------

  /** What relaxed semantics lets run together although the paths are nested. */
  predicate Tolerated(a: Claim, b: Claim) {
    a.holder != b.holder &&
    var (file, process) := if a.holder.File? then (a, b) else (b, a);
    !file.write || (!process.write && !process.stable)
  }

  predicate Conflicts(a: Claim, b: Claim, relaxed: bool) {
    if a.namespace != b.namespace || a.kind != b.kind || !(a.write || b.write) then false
    else if a.kind == "service" then a.name == b.name
    else if relaxed && Tolerated(a, b) then false
    else Nested(PathScope(a.name), PathScope(b.name))
  }

  predicate Overlaps(left: seq<Claim>, right: seq<Claim>, relaxed: bool) {
    exists a, b :: a in left && b in right && Conflicts(a, b, relaxed)
  }

  lemma OverlapsSymmetric(left: seq<Claim>, right: seq<Claim>, relaxed: bool)
    ensures Overlaps(left, right, relaxed) == Overlaps(right, left, relaxed)
  {
    assert forall a, b :: Conflicts(a, b, relaxed) == Conflicts(b, a, relaxed);
  }

  /** Relaxing only ever removes conflicts, so an owner admitted under strict
      semantics stays admissible after a switch to relaxed semantics. */
  lemma RelaxedOverlapIsStrict(left: seq<Claim>, right: seq<Claim>)
    requires Overlaps(left, right, true)
    ensures Overlaps(left, right, false)
  {
    var a, b :| a in left && b in right && Conflicts(a, b, true);
    assert Conflicts(a, b, false);
  }

  /** The converse fails, and this is exactly when: every conflicting pair is a
      path pair held by a file operation and a process that relaxed semantics tolerates. */
  lemma StrictOnlyOverlap(left: seq<Claim>, right: seq<Claim>)
    requires Overlaps(left, right, false)
    ensures !Overlaps(left, right, true) <==>
            forall a, b :: a in left && b in right && Conflicts(a, b, false) ==> a.kind != "service" && Tolerated(a, b)
  {
    forall a, b | Conflicts(a, b, false)
      ensures !Conflicts(a, b, true) <==> a.kind != "service" && Tolerated(a, b)
    {
    }
    if forall a, b :: a in left && b in right && Conflicts(a, b, false) ==> a.kind != "service" && Tolerated(a, b) {
      forall a, b | a in left && b in right && Conflicts(a, b, true) ensures false {
        assert Conflicts(a, b, false);
      }
    }
  }

  // ---- names as joined components -----------------------------------------

  /** The name whose components, slash by slash, are the given ones. */
  function Joined(parts: seq<string>): string {
    if parts == [] then ""
    else if |parts| == 1 then parts[0]
    else parts[0] + "/" + Joined(parts[1..])
  }

  predicate NoSlash(part: string) {
    '/' !in part
  }

  predicate Plain(parts: seq<string>) {
    parts != [] && forall k :: 0 <= k < |parts| ==> NoSlash(parts[k])
  }

  /** What the components lead to: empty and "." components lead nowhere. */
  function Steps(parts: seq<string>): seq<string> {
    if parts == [] then []
    else if parts[0] == "" || parts[0] == "." then Steps(parts[1..])
    else [parts[0]] + Steps(parts[1..])
  }

  /** The number of leading slashes. */
  function Slashes(parts: seq<string>): nat {
    if |parts| >= 2 && parts[0] == "" then 1 + Slashes(parts[1..]) else 0
  }

  /** Relative names, names from the root, and the separate root of two slashes. */
  predicate SameRoot(left: seq<string>, right: seq<string>) {
    (Slashes(left) == 0 <==> Slashes(right) == 0) && (Slashes(left) == 2 <==> Slashes(right) == 2)
  }

  /** The right path is the left one or lies below it. */
  predicate AtOrBelow(left: seq<string>, right: seq<string>) {
    SameRoot(left, right) && |Steps(left)| <= |Steps(right)| &&
    forall k :: 0 <= k < |Steps(left)| ==> Steps(left)[k] == Steps(right)[k]
  }

  /** Every name is joined from plain components. */
  lemma {:induction false} EveryNameIsJoined(name: string) returns (parts: seq<string>)
    ensures Plain(parts) && Joined(parts) == name
    decreases |name|
  {
    if name == "" {
      parts := [""];
    } else {
      var rest := EveryNameIsJoined(name[1..]);
      if name[0] == '/' {
        parts := [""] + rest;
        assert parts[1..] == rest;
      } else {
        parts := [[name[0]] + rest[0]] + rest[1..];
        if |rest| > 1 {
          assert parts[1..] == rest[1..];
          assert [name[0]] + (rest[0] + "/" + Joined(rest[1..])) == [name[0]] + rest[0] + "/" + Joined(rest[1..]);
        }
      }
    }
  }

  lemma {:induction false} ComponentsOfPart(part: string, rest: string, current: string)
    requires NoSlash(part)
    ensures Components(part + rest, current) == Components(rest, current + part)
    decreases |part|
  {
    if part == "" {
      assert part + rest == rest && current + part == current;
    } else {
      assert (part + rest)[1..] == part[1..] + rest && (part + rest)[0] == part[0];
      assert NoSlash(part[1..]);
      ComponentsOfPart(part[1..], rest, current + [part[0]]);
      assert current + [part[0]] + part[1..] == current + part;
    }
  }

  lemma {:induction false} ComponentsAreSteps(parts: seq<string>)
    requires Plain(parts)
    ensures Components(Joined(parts)) == Steps(parts)
    decreases |parts|
  {
    if |parts| == 1 {
      ComponentsOfPart(parts[0], "", "");
      assert parts[0] + "" == parts[0] && "" + parts[0] == parts[0];
      assert Steps(parts[1..]) == [];
    } else {
      var tail := "/" + Joined(parts[1..]);
      assert Joined(parts) == parts[0] + tail;
      ComponentsOfPart(parts[0], tail, "");
      assert "" + parts[0] == parts[0] && tail[1..] == Joined(parts[1..]);
      ComponentsAreSteps(parts[1..]);
    }
  }

  lemma JoinedStart(parts: seq<string>)
    requires Plain(parts)
    ensures Joined(parts) != "" && Joined(parts)[0] == '/' <==> Slashes(parts) >= 1
    ensures Slashes(parts) >= 1 ==> Joined(parts) == "/" + Joined(parts[1..]) && Plain(parts[1..]) && Slashes(parts) == 1 + Slashes(parts[1..])
  {
    if parts[0] != "" {
      assert parts[0][0] != '/' by { assert parts[0][0] in parts[0]; }
    }
  }

  lemma AnchorOfJoined(parts: seq<string>)
    requires Plain(parts)
    ensures Anchor(Joined(parts)) == if Slashes(parts) == 0 then "" else if Slashes(parts) == 2 then "//" else "/"
  {
    hide Joined, Slashes;
    var name := Joined(parts);
    JoinedStart(parts);
    if Slashes(parts) >= 1 {
      var second := parts[1..];
      JoinedStart(second);
      assert name[1..] == Joined(second);
      if Slashes(second) >= 1 {
        JoinedStart(second[1..]);
        assert name[..2] == "//" && name[2..] == Joined(second[1..]);
      } else if |name| >= 2 {
        assert name[1] == Joined(second)[0];
      }
    }
  }

  // ---- what conflicts -------------------------------------------------------

  /** Under relaxed semantics a process does not mind a file operation that only reads, nor
      one that writes beside its mere, unstable reading. */
  predicate Spared(a: Claim, b: Claim) {
    || (a.holder == File && b.holder == Process && (!a.write || (!b.write && !b.stable)))
    || (a.holder == Process && b.holder == File && (!b.write || (!a.write && !a.stable)))
  }

  /** Claims conflict exactly when they are of one namespace and kind, one of them writes,
      and they name the same service, or paths of which one is the other or lies below it,
      less the pairs relaxed semantics spares. */
  lemma ConflictsMeans(a: Claim, b: Claim, relaxed: bool, left: seq<string>, right: seq<string>)
    requires Plain(left) && Plain(right) && a.name == Joined(left) && b.name == Joined(right)
    ensures Conflicts(a, b, relaxed) <==>
            && a.namespace == b.namespace && a.kind == b.kind && (a.write || b.write)
            && if a.kind == "service" then a.name == b.name
               else (AtOrBelow(left, right) || AtOrBelow(right, left)) && !(relaxed && Spared(a, b))
  {
    hide Anchor, Components, Joined, Steps, Slashes;
    ComponentsAreSteps(left);
    ComponentsAreSteps(right);
    AnchorOfJoined(left);
    AnchorOfJoined(right);
    NestedMeans(PathScope(a.name), PathScope(b.name), Steps(left), Steps(right));
  }

  lemma NestedMeans(l: Scope, r: Scope, left: seq<string>, right: seq<string>)
    requires l.parts == (if l.anchor == "" then [] else [l.anchor]) + left
    requires r.parts == (if r.anchor == "" then [] else [r.anchor]) + right
    ensures Nested(l, r) <==>
            l.anchor == r.anchor &&
            ((|left| <= |right| && forall k :: 0 <= k < |left| ==> left[k] == right[k]) ||
             (|right| <= |left| && forall k :: 0 <= k < |right| ==> right[k] == left[k]))
  {
    if l.anchor == r.anchor {
      var front: seq<string> := if l.anchor == "" then [] else [l.anchor];
      assert l.parts[|front|..] == left && r.parts[|front|..] == right;
      PrefixBehind(front, left, right);
      PrefixBehind(front, right, left);
    }
  }

  lemma PrefixBehind(front: seq<string>, a: seq<string>, b: seq<string>)
    ensures front + a <= front + b <==> |a| <= |b| && forall k :: 0 <= k < |a| ==> a[k] == b[k]
  {
    var x, y := front + a, front + b;
    if x <= y {
      forall k | 0 <= k < |a| ensures a[k] == b[k] {
        assert x[|front| + k] == a[k] && y[|front| + k] == b[k] && x[|front| + k] == y[|front| + k];
      }
    }
    if |a| <= |b| && forall k :: 0 <= k < |a| ==> a[k] == b[k] {
      assert b[..|a|] == a;
      assert y[..|x|] == x;
    }
  }
}
