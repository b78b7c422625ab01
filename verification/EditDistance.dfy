/** The edit distance behind "did you mean" (src/internals/diagnostics.ts:138-164). */
module EditDistance {
  import opened Names
  import opened Wrappers

  const MAX_LEVENSHTEIN_INPUT_LENGTH: nat := 128

  function Min3(x: nat, y: nat, z: nat): nat {
    if x <= y && x <= z then x else if y <= z then y else z
  }

  function Init(s: Name): Name
    requires s != []
  {
    s[..|s| - 1]
  }

  function Last(s: Name): CodeUnit
    requires s != []
  {
    s[|s| - 1]
  }

  /** The table the routine fills, cell by cell: on a match it looks at one neighbour only. */
  function Lev(a: Name, b: Name): nat
    decreases |a| + |b|
  {
    if a == [] then |b|
    else if b == [] then |a|
    else if Last(a) == Last(b) then Lev(Init(a), Init(b))
    else Min3(Lev(Init(a), Init(b)), Lev(a, Init(b)), Lev(Init(a), b)) + 1
  }

  /** A row of the table: the distances of all prefixes of `a` from `b`. */
  ghost predicate IsRow(row: seq<nat>, a: Name, b: Name) {
    |row| <= |a| + 1 && forall j | 0 <= j < |row| :: row[j] == Lev(a[..j], b)
  }

  lemma NextCell(a: Name, b: Name, i: nat, j: nat)
    requires 0 < i <= |b| && 0 < j <= |a|
    ensures Lev(a[..j], b[..i]) ==
      if b[i - 1] == a[j - 1] then Lev(a[..j - 1], b[..i - 1])
      else Min3(Lev(a[..j - 1], b[..i - 1]), Lev(a[..j], b[..i - 1]), Lev(a[..j - 1], b[..i])) + 1
  {
    assert Init(a[..j]) == a[..j - 1] && Init(b[..i]) == b[..i - 1];
  }

  // ------------------------------------------------------------------ the routine

  /** The inner loop: one row from the one before. */
  method FillRow(a: Name, b: Name, i: nat, prev: array<nat>, next: array<nat>)
    requires 0 < i <= |b| && prev.Length == next.Length == |a| + 1 && prev != next
    requires IsRow(prev[..], a, b[..i - 1])
    modifies next
    ensures IsRow(next[..], a, b[..i])
  {
    next[0] := i;
    for j := 1 to |a| + 1
      invariant IsRow(next[..j], a, b[..i]) && prev[..] == old(prev[..])
    {
      NextCell(a, b, i, j);
      assert prev[j] == prev[..][j] && prev[j - 1] == prev[..][j - 1] && next[j - 1] == next[..j][j - 1];
      next[j] := if b[i - 1] == a[j - 1] then prev[j - 1] else Min3(prev[j - 1], next[j - 1], prev[j]) + 1;
      assert next[..j + 1] == next[..j] + [next[j]];
    }
    assert next[..|a| + 1] == next[..];
  }

  method Levenshtein(a: Name, b: Name) returns (distance: nat)
    ensures distance == Lev(a, b)
  {
    if a == b {
      LevOfEquals(a);
      return 0;
    }
    if |a| == 0 {
      return |b|;
    }
    if |b| == 0 {
      return |a|;
    }
    var prev := new nat[|a| + 1](i => i);
    var next := new nat[|a| + 1](i => 0);
    for i := 1 to |b| + 1
      invariant prev.Length == next.Length == |a| + 1 && prev != next && fresh(prev) && fresh(next)
      invariant IsRow(prev[..], a, b[..i - 1])
    {
      FillRow(a, b, i, prev, next);
      prev, next := next, prev;
    }
    assert a[..|a|] == a && b[..|b|] == b && prev[|a|] == prev[..][|a|];
    distance := prev[|a|];
  }

  lemma {:induction false} LevOfEquals(a: Name)
    ensures Lev(a, a) == 0
  {
    if a != [] {
      LevOfEquals(Init(a));
    }
  }

  // ------------------------------------------------------------------ neighbouring cells

  /** Neighbouring cells differ by one at most. */
  lemma {:induction false} Neighbours(a: Name, b: Name)
    ensures a != [] ==> Lev(a, b) <= Lev(Init(a), b) + 1 && Lev(Init(a), b) <= Lev(a, b) + 1
    ensures b != [] ==> Lev(a, b) <= Lev(a, Init(b)) + 1 && Lev(a, Init(b)) <= Lev(a, b) + 1
    decreases |a| + |b|
  {
    if a != [] && b != [] {
      Neighbours(Init(a), b);
      Neighbours(a, Init(b));
      Neighbours(Init(a), Init(b));
    }
  }

  /** Skipping the minimum on a match loses nothing: each cell is the least of the three ways to reach it. */
  lemma EveryNeighbourBounds(a: Name, b: Name)
    requires a != [] && b != []
    ensures Lev(a, b) == Lev(Init(a), Init(b)) + Mismatch(a, b)
         || Lev(a, b) == Lev(Init(a), b) + 1 || Lev(a, b) == Lev(a, Init(b)) + 1
    ensures Lev(a, b) <= Lev(Init(a), Init(b)) + Mismatch(a, b)
    ensures Lev(a, b) <= Lev(Init(a), b) + 1 && Lev(a, b) <= Lev(a, Init(b)) + 1
  {
    Neighbours(a, b);
  }

  function Mismatch(a: Name, b: Name): nat
    requires a != [] && b != []
  {
    if Last(a) == Last(b) then 0 else 1
  }

  // ------------------------------------------------------------------ edit scripts

  datatype Edit = Insert(at: nat, unit: CodeUnit) | Delete(at: nat) | Substitute(at: nat, unit: CodeUnit)

  predicate Fits(s: Name, e: Edit) {
    if e.Insert? then e.at <= |s| else e.at < |s|
  }

  function Edited(s: Name, e: Edit): Name
    requires Fits(s, e)
  {
    match e
    case Insert(at, unit) => s[..at] + [unit] + s[at..]
    case Delete(at) => s[..at] + s[at + 1..]
    case Substitute(at, unit) => s[..at] + [unit] + s[at + 1..]
  }

  /** What a script of single-unit edits makes of a string, if every edit fits. */
  function RunEdits(s: Name, script: seq<Edit>): Option<Name>
    decreases |script|
  {
    if script == [] then Some(s)
    else if Fits(s, script[0]) then RunEdits(Edited(s, script[0]), script[1..])
    else None
  }

  /** A single edit of the left string moves the distance by one at most. */
  lemma {:induction false} EditMovesByOne(p: Name, u: Name, v: Name, q: Name, b: Name)
    requires |u| <= 1 && |v| <= 1
    ensures Lev(p + u + q, b) <= Lev(p + v + q, b) + 1
    decreases |q| + |b|
  {
    var a, c := p + u + q, p + v + q;
    if b == [] {
      LevAgainstEmpty(a);
      LevAgainstEmpty(c);
    } else if q != [] {
      assert a == p + u + Init(q) + [Last(q)] && c == p + v + Init(q) + [Last(q)];
      assert Init(a) == p + u + Init(q) && Init(c) == p + v + Init(q) && Last(a) == Last(c) == Last(q);
      EditMovesByOne(p, u, v, Init(q), b);
      EditMovesByOne(p, u, v, Init(q), Init(b));
      EditMovesByOne(p, u, v, q, Init(b));
      EveryNeighbourBounds(a, b);
      EveryNeighbourBounds(c, b);
    } else {
      EndEditMovesByOne(p, u, v, b);
      assert p + u + q == p + u && p + v + q == p + v;
    }
  }

  /** The same when the edit is at the end. */
  lemma {:induction false} EndEditMovesByOne(p: Name, u: Name, v: Name, b: Name)
    requires |u| <= 1 && |v| <= 1
    ensures Lev(p + u, b) <= Lev(p + v, b) + 1
    decreases |b|
  {
    if u != [] {
      assert Init(p + u) == p;
      Neighbours(p + u, b);
    } else {
      assert p + u == p;
    }
    if v != [] {
      assert Init(p + v) == p;
      Neighbours(p + v, b);
    } else {
      assert p + v == p;
    }
    if u != [] && v != [] {
      if b == [] {
        LevAgainstEmpty(p + u);
        LevAgainstEmpty(p + v);
      } else {
        EndEditMovesByOne(p, u, v, Init(b));
        EveryNeighbourBounds(p + u, b);
        EveryNeighbourBounds(p + v, b);
      }
    }
  }

  lemma LevAgainstEmpty(a: Name)
    ensures Lev(a, []) == |a|
  {
  }

  lemma EditedMovesByOne(a: Name, e: Edit, b: Name)
    requires Fits(a, e)
    ensures Lev(a, b) <= Lev(Edited(a, e), b) + 1
  {
    var p := a[..e.at];
    if e.Insert? {
      EditMovesByOne(p, [], [e.unit], a[e.at..], b);
      assert p + [] + a[e.at..] == a;
    } else {
      var q := a[e.at + 1..];
      var v := if e.Delete? then [] else [e.unit];
      EditMovesByOne(p, [a[e.at]], v, q, b);
      assert p + [a[e.at]] + q == a && p + v + q == Edited(a, e);
    }
  }

  /** No script is shorter than the distance. */
  lemma {:induction false} NoScriptIsShorter(a: Name, b: Name, script: seq<Edit>)
    requires RunEdits(a, script) == Some(b)
    ensures |script| >= Lev(a, b)
    decreases |script|
  {
    if script == [] {
      LevOfEquals(a);
    } else {
      EditedMovesByOne(a, script[0], b);
      NoScriptIsShorter(Edited(a, script[0]), b, script[1..]);
    }
  }

  lemma {:induction false} RunAppend(a: Name, s: seq<Edit>, t: seq<Edit>)
    requires RunEdits(a, s).Some?
    ensures RunEdits(a, s + t) == RunEdits(RunEdits(a, s).value, t)
    decreases |s|
  {
    if s == [] {
      assert s + t == t;
    } else {
      assert (s + t)[1..] == s[1..] + t;
      RunAppend(Edited(a, s[0]), s[1..], t);
    }
  }

  /** A script for the front leaves the last unit alone. */
  lemma {:induction false} RunInFront(a: Name, x: CodeUnit, s: seq<Edit>)
    requires RunEdits(a, s).Some?
    ensures RunEdits(a + [x], s) == Some(RunEdits(a, s).value + [x])
    decreases |s|
  {
    if s != [] {
      assert Edited(a + [x], s[0]) == Edited(a, s[0]) + [x];
      RunInFront(Edited(a, s[0]), x, s[1..]);
    }
  }

  /** A shortest script, read off the table. */
  function Script(a: Name, b: Name): seq<Edit>
    decreases |a| + |b|
  {
    if a == [] && b == [] then []
    else if a == [] then Script(a, Init(b)) + [Insert(|b| - 1, Last(b))]
    else if b == [] then [Delete(|a| - 1)] + Script(Init(a), b)
    else if Last(a) == Last(b) then Script(Init(a), Init(b))
    else
      var best := Min3(Lev(Init(a), Init(b)), Lev(a, Init(b)), Lev(Init(a), b));
      if best == Lev(Init(a), Init(b)) then Script(Init(a), Init(b)) + [Substitute(|b| - 1, Last(b))]
      else if best == Lev(a, Init(b)) then Script(a, Init(b)) + [Insert(|b| - 1, Last(b))]
      else [Delete(|a| - 1)] + Script(Init(a), b)
  }

  ghost predicate Works(a: Name, b: Name, script: seq<Edit>, length: nat) {
    RunEdits(a, script) == Some(b) && |script| == length
  }

  lemma KeepLast(p: Name, q: Name, x: CodeUnit, s: seq<Edit>, n: nat)
    requires Works(p, q, s, n)
    ensures Works(p + [x], q + [x], s, n)
  {
    RunInFront(p, x, s);
  }

  lemma ThenSubstitute(a: Name, b: Name, s: seq<Edit>, n: nat)
    requires a != [] && b != [] && Works(Init(a), Init(b), s, n)
    ensures Works(a, b, s + [Substitute(|b| - 1, Last(b))], n + 1)
  {
    var e := Substitute(|b| - 1, Last(b));
    KeepLast(Init(a), Init(b), Last(a), s, n);
    assert a == Init(a) + [Last(a)];
    RunAppend(a, s, [e]);
    assert Edited(Init(b) + [Last(a)], e) == b;
  }

  lemma ThenInsert(a: Name, b: Name, s: seq<Edit>, n: nat)
    requires b != [] && Works(a, Init(b), s, n)
    ensures Works(a, b, s + [Insert(|b| - 1, Last(b))], n + 1)
  {
    RunAppend(a, s, [Insert(|b| - 1, Last(b))]);
    assert Edited(Init(b), Insert(|b| - 1, Last(b))) == b;
  }

  lemma FirstDelete(a: Name, b: Name, s: seq<Edit>, n: nat)
    requires a != [] && Works(Init(a), b, s, n)
    ensures Works(a, b, [Delete(|a| - 1)] + s, n + 1)
  {
    assert Edited(a, Delete(|a| - 1)) == Init(a) && ([Delete(|a| - 1)] + s)[1..] == s;
  }

  lemma {:induction false} ScriptWorks(a: Name, b: Name)
    ensures Works(a, b, Script(a, b), Lev(a, b))
    decreases |a| + |b|, 1
  {
    if a == [] && b == [] {
    } else if a == [] {
      ScriptWorks(a, Init(b));
      ThenInsert(a, b, Script(a, Init(b)), |b| - 1);
    } else if b == [] {
      ScriptWorks(Init(a), b);
      LevAgainstEmpty(Init(a));
      FirstDelete(a, b, Script(Init(a), b), |a| - 1);
    } else {
      assert a == Init(a) + [Last(a)] && b == Init(b) + [Last(b)];
      if Last(a) == Last(b) {
        ScriptWorks(Init(a), Init(b));
        KeepLast(Init(a), Init(b), Last(a), Script(a, b), Lev(a, b));
      } else {
        BestOfThree(a, b);
      }
    }
  }

  lemma {:induction false} BestOfThree(a: Name, b: Name)
    requires a != [] && b != [] && Last(a) != Last(b)
    ensures Works(a, b, Script(a, b), Lev(a, b))
    decreases |a| + |b|, 0
  {
    var best := Min3(Lev(Init(a), Init(b)), Lev(a, Init(b)), Lev(Init(a), b));
    if best == Lev(Init(a), Init(b)) {
      ScriptWorks(Init(a), Init(b));
      ThenSubstitute(a, b, Script(Init(a), Init(b)), best);
    } else if best == Lev(a, Init(b)) {
      ScriptWorks(a, Init(b));
      ThenInsert(a, b, Script(a, Init(b)), best);
    } else {
      ScriptWorks(Init(a), b);
      FirstDelete(a, b, Script(Init(a), b), best);
    }
  }

  /** The distance is the least number of single-unit edits from one string to the other. */
  lemma LeastEdits(a: Name, b: Name)
    ensures exists script :: RunEdits(a, script) == Some(b) && |script| == Lev(a, b)
    ensures forall script | RunEdits(a, script) == Some(b) :: |script| >= Lev(a, b)
  {
    ScriptWorks(a, b);
    forall script | RunEdits(a, script) == Some(b) ensures |script| >= Lev(a, b) {
      NoScriptIsShorter(a, b, script);
    }
  }

  /** Scripts compose, so the distance obeys the triangle inequality; and only equal strings are at none. */
  lemma Triangle(a: Name, b: Name, c: Name)
    ensures Lev(a, c) <= Lev(a, b) + Lev(b, c)
    ensures Lev(a, b) == 0 <==> a == b
  {
    ScriptWorks(a, b);
    ScriptWorks(b, c);
    RunAppend(a, Script(a, b), Script(b, c));
    NoScriptIsShorter(a, c, Script(a, b) + Script(b, c));
    LevOfEquals(a);
  }

  // ------------------------------------------------------------------ the prefilter

  function ShouldCheckLevenshtein(a: Name, b: Name): bool {
    var apart := if |a| < |b| then |b| - |a| else |a| - |b|;
    apart <= 2 && (if |a| < |b| then |b| else |a|) <= MAX_LEVENSHTEIN_INPUT_LENGTH
  }

  lemma {:induction false} AtLeastLengthDifference(a: Name, b: Name)
    ensures Lev(a, b) >= |a| - |b| && Lev(a, b) >= |b| - |a|
    decreases |a| + |b|
  {
    if a != [] && b != [] {
      AtLeastLengthDifference(Init(a), Init(b));
      AtLeastLengthDifference(Init(a), b);
      AtLeastLengthDifference(a, Init(b));
    }
  }

  /** The prefilter changes the verdict "at most two edits" for no pair but those too long for it. */
  lemma PrefilterKeepsVerdict(a: Name, b: Name)
    ensures ShouldCheckLevenshtein(a, b) && Lev(a, b) <= 2
       <==> Lev(a, b) <= 2 && |a| <= 128 && |b| <= 128
  {
    AtLeastLengthDifference(a, b);
  }
}
