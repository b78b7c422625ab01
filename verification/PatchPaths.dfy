/** Merge, delete and insert at a path of a value tree, and the laws they obey
    (src/psr/index.ts:249-391). */
module PatchPaths {
  import opened Names
  import opened Values
  import opened Wrappers

  // ---------------------------------------------------------------- segments

  /** A path segment: a string, an integer number, or any other number by its string form. */
  datatype RawSegment = Key(text: Name) | Index(number: int) | Fraction(text: Name)

  type Segment = s: RawSegment | s.Fraction? ==> !Canonical(s.text) witness Index(0)

  predicate Digit(u: CodeUnit) {
    48 <= u <= 57
  }

  /** The strings matched by /^(0|[1-9]\d*)$/. */
  predicate Canonical(t: Name) {
    t != [] && (forall i | 0 <= i < |t| :: Digit(t[i])) && (t[0] == 48 ==> |t| == 1)
  }

  function NumberOf(t: Name): nat
    requires forall i | 0 <= i < |t| :: Digit(t[i])
  {
    if t == [] then 0
    else
      assert Digit(t[|t| - 1]);
      10 * NumberOf(t[..|t| - 1]) + (t[|t| - 1] as int - 48)
  }

  /** `String(n)` for a natural number. */
  function Decimal(n: nat): (t: Name)
    ensures Canonical(t)
  {
    if n < 10 then [48 + n] else Decimal(n / 10) + [48 + n % 10]
  }

  lemma {:induction false} NumberOfDecimal(n: nat)
    ensures NumberOf(Decimal(n)) == n
  {
    if n >= 10 {
      NumberOfDecimal(n / 10);
      var t := Decimal(n);
      assert t[..|t| - 1] == Decimal(n / 10);
    }
  }

  lemma {:induction false} DecimalOfNumber(t: Name)
    requires Canonical(t)
    ensures Decimal(NumberOf(t)) == t
  {
    if |t| > 1 {
      var front, last := t[..|t| - 1], t[|t| - 1];
      DecimalOfNumber(front);
      LeadingDigit(front);
      assert NumberOf(t) == 10 * NumberOf(front) + (last - 48);
      assert NumberOf(t) / 10 == NumberOf(front) && NumberOf(t) % 10 == last - 48;
      assert t == front + [last];
    } else {
      assert t[..0] == [];
      assert t == [t[0]];
    }
  }

  lemma {:induction false} LeadingDigit(t: Name)
    requires Canonical(t) && t[0] != 48
    ensures NumberOf(t) > 0
  {
    if |t| > 1 {
      LeadingDigit(t[..|t| - 1]);
    }
  }

  /** parseArrayIndexSegment. */
  function ParseIndex(s: Segment): Option<nat> {
    match s
    case Index(n) => if n >= 0 then Some(n) else None
    case Key(t) => if Canonical(t) then Some(NumberOf(t)) else None
    case Fraction(_) => None
  }

  /** `String(segment)`, the key of a record. */
  function KeyOf(s: Segment): Name {
    match s
    case Index(n) => if n >= 0 then Decimal(n) else [45] + Decimal(-n)
    case Key(t) => t
    case Fraction(t) => t
  }

  /** A segment's key settles its array index, whichever way the segment is written. */
  lemma KeyDecidesIndex(s: Segment)
    ensures ParseIndex(s) == if Canonical(KeyOf(s)) then Some(NumberOf(KeyOf(s))) else None
  {
    if s.Index? && s.number >= 0 {
      NumberOfDecimal(s.number);
    }
  }

  lemma DifferentKeysDifferentIndices(a: Segment, b: Segment)
    requires KeyOf(a) != KeyOf(b) && ParseIndex(a).Some? && ParseIndex(b).Some?
    ensures ParseIndex(a) != ParseIndex(b)
  {
    KeyDecidesIndex(a);
    KeyDecidesIndex(b);
    DecimalOfNumber(KeyOf(a));
    DecimalOfNumber(KeyOf(b));
  }

  // ---------------------------------------------------------------- children

  predicate IsContainer(v: Value) {
    v.List? || v.Record?
  }

  /** readChildAtSegment. */
  function ReadChild(v: Value, s: Segment): Result<Value, Reason>
    requires IsContainer(v)
  {
    match v
    case List(items) =>
      (match ParseIndex(s)
       case None => Err(UnsupportedPathShape)
       case Some(i) => if i >= |items| then Err(PathError) else Ok(items[i]))
    case Record(fields) => if KeyOf(s) in fields then Ok(fields[KeyOf(s)]) else Err(PathError)
  }

  /** replaceChildAtSegment, where the child exists. */
  function ReplaceChild(v: Value, s: Segment, child: Value): Value
    requires IsContainer(v) && ReadChild(v, s).Ok?
  {
    match v
    case List(items) => List(items[ParseIndex(s).value := child])
    case Record(fields) => Record(fields[KeyOf(s) := child])
  }

  // ---------------------------------------------------------------- operations

  /** What is done at the last segment. */
  datatype LeafOp = MergeLeaf(fields: map<Name, Value>) | DeleteLeaf | InsertLeaf(value: Value)

  function MergeRecord(target: Value, fields: map<Name, Value>): Result<Value, Reason> {
    match target
    case Record(own) => Ok(Record(own + fields))
    case _ => Err(UnsupportedPathShape)
  }

  function ApplyLeaf(v: Value, s: Segment, op: LeafOp): Result<Value, Reason>
    requires IsContainer(v)
  {
    match op
    case MergeLeaf(fields) =>
      (match ReadChild(v, s)
       case Err(e) => Err(e)
       case Ok(target) =>
         match MergeRecord(target, fields)
         case Err(e) => Err(e)
         case Ok(merged) => Ok(ReplaceChild(v, s, merged)))
    case DeleteLeaf =>
      (match v
       case List(items) =>
         (match ParseIndex(s)
          case None => Err(UnsupportedPathShape)
          case Some(i) => if i >= |items| then Err(PathError) else Ok(List(items[..i] + items[i + 1..])))
       case Record(fields) =>
         if KeyOf(s) in fields then Ok(Record(fields - {KeyOf(s)})) else Err(PathError))
    case InsertLeaf(value) =>
      if !v.List? then Err(UnsupportedPathShape)
      else
        match ParseIndex(s)
        case None => Err(UnsupportedPathShape)
        case Some(i) =>
          if i > |v.items| then Err(PathError) else Ok(List(v.items[..i] + [value] + v.items[i..]))
  }

  /** updateLeafContainer. */
  function UpdateAt(v: Value, path: seq<Segment>, op: LeafOp): Result<Value, Reason>
    decreases |path|
  {
    if path == [] || !IsContainer(v) then Err(UnsupportedPathShape)
    else if |path| == 1 then ApplyLeaf(v, path[0], op)
    else
      match ReadChild(v, path[0])
      case Err(e) => Err(e)
      case Ok(child) =>
        match UpdateAt(child, path[1..], op)
        case Err(e) => Err(e)
        case Ok(next) => Ok(ReplaceChild(v, path[0], next))
  }

  /** applyMergeAtPath: a value that is no record is refused before the path is looked at. */
  function MergeAt(v: Value, path: seq<Segment>, patch: Value): Result<Value, Reason> {
    match patch
    case Record(fields) => UpdateAt(v, path, MergeLeaf(fields))
    case _ => Err(UnsupportedPathShape)
  }

  function DeleteAt(v: Value, path: seq<Segment>): Result<Value, Reason> {
    UpdateAt(v, path, DeleteLeaf)
  }

  function InsertAt(v: Value, path: seq<Segment>, value: Value): Result<Value, Reason> {
    UpdateAt(v, path, InsertLeaf(value))
  }

  /** The value at a path, or why there is none. */
  function ReadAt(v: Value, path: seq<Segment>): Result<Value, Reason>
    decreases |path|
  {
    if path == [] then Ok(v)
    else if !IsContainer(v) then Err(UnsupportedPathShape)
    else
      match ReadChild(v, path[0])
      case Err(e) => Err(e)
      case Ok(child) => ReadAt(child, path[1..])
  }

  // ---------------------------------------------------------------- inverse laws

  lemma ReplaceThenReplaceBack(v: Value, s: Segment, child: Value)
    requires IsContainer(v) && ReadChild(v, s).Ok?
    ensures var w := ReplaceChild(v, s, child);
      IsContainer(w) && w.List? == v.List? && ReadChild(w, s) == Ok(child)
      && ReplaceChild(w, s, ReadChild(v, s).value) == v
  {
  }

  lemma ReplaceTwice(v: Value, s: Segment, x: Value, y: Value)
    requires IsContainer(v) && ReadChild(v, s).Ok?
    ensures IsContainer(ReplaceChild(v, s, x)) && ReadChild(ReplaceChild(v, s, x), s).Ok?
    ensures ReplaceChild(ReplaceChild(v, s, x), s, y) == ReplaceChild(v, s, y)
  {
    if v.List? {
      var i := ParseIndex(s).value;
      assert v.items[i := x][i := y] == v.items[i := y];
    } else {
      assert v.fields[KeyOf(s) := x][KeyOf(s) := y] == v.fields[KeyOf(s) := y];
    }
  }

  /** Deleting at the path of an insertion gives the original value back. */
  lemma {:induction false} InsertThenDelete(v: Value, path: seq<Segment>, value: Value)
    requires InsertAt(v, path, value).Ok?
    ensures DeleteAt(InsertAt(v, path, value).value, path) == Ok(v)
    decreases |path|
  {
    if |path| == 1 {
      var i := ParseIndex(path[0]).value;
      var items := v.items;
      var longer := items[..i] + [value] + items[i..];
      assert longer[..i] + longer[i + 1..] == items;
    } else {
      var child := ReadChild(v, path[0]).value;
      InsertThenDelete(child, path[1..], value);
      ReplaceThenReplaceBack(v, path[0], InsertAt(child, path[1..], value).value);
    }
  }

  /** Re-inserting a deleted array element at its path gives the original value back; in a record the
      insertion is refused. */
  lemma {:induction false} DeleteThenInsert(v: Value, path: seq<Segment>)
    requires DeleteAt(v, path).Ok?
    ensures ReadAt(v, path).Ok? && ReadAt(v, path[..|path| - 1]).Ok?
    ensures var back := InsertAt(DeleteAt(v, path).value, path, ReadAt(v, path).value);
      if ReadAt(v, path[..|path| - 1]).value.List? then back == Ok(v) else back == Err(UnsupportedPathShape)
    decreases |path|
  {
    if |path| == 1 {
      assert path[..0] == [];
      if v.List? {
        var i := ParseIndex(path[0]).value;
        var items := v.items;
        var shorter := items[..i] + items[i + 1..];
        assert shorter[..i] + [items[i]] + shorter[i..] == items;
      }
    } else {
      var child := ReadChild(v, path[0]).value;
      DeleteThenInsert(child, path[1..]);
      ReplaceThenReplaceBack(v, path[0], DeleteAt(child, path[1..]).value);
      assert path[..|path| - 1][1..] == path[1..][..|path[1..]| - 1];
    }
  }

  // ---------------------------------------------------------------- what can be read afterwards

  /** A longer path is read step by step. */
  lemma {:induction false} ReadOn(v: Value, p: seq<Segment>, q: seq<Segment>)
    ensures ReadAt(v, p + q) == match ReadAt(v, p) case Err(e) => Err(e) case Ok(c) => ReadAt(c, q)
    decreases |p|
  {
    if p == [] {
      assert p + q == q;
    } else {
      assert (p + q)[1..] == p[1..] + q;
      if IsContainer(v) && ReadChild(v, p[0]).Ok? {
        ReadOn(ReadChild(v, p[0]).value, p[1..], q);
      }
    }
  }

  lemma ReadLast(v: Value, p: seq<Segment>, s: Segment)
    ensures ReadAt(v, p + [s]) ==
      match ReadAt(v, p)
      case Err(e) => Err(e)
      case Ok(c) => if IsContainer(c) then ReadChild(c, s) else Err(UnsupportedPathShape)
  {
    ReadOn(v, p, [s]);
    assert [s][1..] == [];
  }

  /** An update is what its leaf operation makes of the container that its path leads to, or the reason
      why there is none; the container is read in its place afterwards. */
  lemma {:induction false} UpdateInContainer(v: Value, front: seq<Segment>, s: Segment, op: LeafOp)
    ensures match ReadAt(v, front)
      case Err(e) => UpdateAt(v, front + [s], op) == Err(e)
      case Ok(c) =>
        if !IsContainer(c) then UpdateAt(v, front + [s], op) == Err(UnsupportedPathShape)
        else match ApplyLeaf(c, s, op)
          case Err(e) => UpdateAt(v, front + [s], op) == Err(e)
          case Ok(d) => UpdateAt(v, front + [s], op).Ok? && ReadAt(UpdateAt(v, front + [s], op).value, front) == Ok(d)
    decreases |front|
  {
    if front != [] && IsContainer(v) && ReadChild(v, front[0]).Ok? {
      var child := ReadChild(v, front[0]).value;
      assert (front + [s])[1..] == front[1..] + [s];
      UpdateInContainer(child, front[1..], s, op);
      var below := UpdateAt(child, front[1..] + [s], op);
      if below.Ok? {
        ReplaceThenReplaceBack(v, front[0], below.value);
      }
    }
  }

  /** When a merge succeeds, and why it fails where it does not. */
  lemma MergeOutcome(v: Value, p: seq<Segment>, patch: Value)
    ensures MergeAt(v, p, patch).Ok? <==> p != [] && patch.Record? && ReadAt(v, p).Ok? && ReadAt(v, p).value.Record?
    ensures MergeAt(v, p, patch).Err? ==>
      MergeAt(v, p, patch).error
        == if p != [] && patch.Record? && ReadAt(v, p).Err? then ReadAt(v, p).error else UnsupportedPathShape
  {
    if p != [] && patch.Record? {
      var front, s := p[..|p| - 1], p[|p| - 1];
      assert p == front + [s];
      UpdateInContainer(v, front, s, MergeLeaf(patch.fields));
      ReadLast(v, front, s);
    }
  }

  /** After a merge the fields of the patch are read at its path, and every other field as before. */
  lemma MergeReads(v: Value, p: seq<Segment>, patch: Value, k: Name)
    requires MergeAt(v, p, patch).Ok?
    ensures patch.Record?
    ensures ReadAt(MergeAt(v, p, patch).value, p + [Key(k)])
         == if k in patch.fields then Ok(patch.fields[k]) else ReadAt(v, p + [Key(k)])
  {
    MergeOutcome(v, p, patch);
    var front, s := p[..|p| - 1], p[|p| - 1];
    assert p == front + [s];
    UpdateInContainer(v, front, s, MergeLeaf(patch.fields));
    var w := MergeAt(v, p, patch).value;
    ReadLast(v, front, s);
    ReadLast(w, front, s);
    ReadLast(v, p, Key(k));
    ReadLast(w, p, Key(k));
    var c := ReadAt(v, front).value;
    ReplaceThenReplaceBack(c, s, MergeRecord(ReadChild(c, s).value, patch.fields).value);
  }

  /** When a deletion succeeds: exactly where there is something to read, which is why it fails
      otherwise. */
  lemma DeleteOutcome(v: Value, p: seq<Segment>)
    ensures DeleteAt(v, p).Ok? <==> p != [] && ReadAt(v, p).Ok?
    ensures DeleteAt(v, p).Err? ==>
      DeleteAt(v, p).error == if p != [] then ReadAt(v, p).error else UnsupportedPathShape
  {
    if p != [] {
      var front, s := p[..|p| - 1], p[|p| - 1];
      assert p == front + [s];
      UpdateInContainer(v, front, s, DeleteLeaf);
      ReadLast(v, front, s);
    }
  }

  /** After a deletion in a record the key is gone, and no other one. */
  lemma DeleteFromRecord(v: Value, front: seq<Segment>, s: Segment, k: Name)
    requires DeleteAt(v, front + [s]).Ok? && ReadAt(v, front).Ok? && ReadAt(v, front).value.Record?
    ensures ReadAt(DeleteAt(v, front + [s]).value, front + [Key(k)])
         == if k == KeyOf(s) then Err(PathError) else ReadAt(v, front + [Key(k)])
  {
    UpdateInContainer(v, front, s, DeleteLeaf);
    ReadLast(v, front, Key(k));
    ReadLast(DeleteAt(v, front + [s]).value, front, Key(k));
  }

  /** After a deletion in an array the later elements have moved down by one; there is one less. */
  lemma DeleteFromList(v: Value, front: seq<Segment>, s: Segment, j: nat)
    requires DeleteAt(v, front + [s]).Ok? && ReadAt(v, front).Ok? && ReadAt(v, front).value.List?
    ensures ParseIndex(s).Some?
    ensures ReadAt(DeleteAt(v, front + [s]).value, front + [Index(j)])
         == ReadAt(v, front + [Index(if j < ParseIndex(s).value then j else j + 1)])
  {
    UpdateInContainer(v, front, s, DeleteLeaf);
    ReadLast(v, front, Index(j));
    ReadLast(DeleteAt(v, front + [s]).value, front, Index(j));
    ReadLast(v, front, Index(j + 1));
  }

  /** When an insertion succeeds, and why it fails: its path has to lead to a place in an array, or to
      the place after its last one. */
  lemma InsertOutcome(v: Value, front: seq<Segment>, s: Segment, value: Value)
    ensures InsertAt(v, front + [s], value).Ok? <==>
      ReadAt(v, front).Ok? && ReadAt(v, front).value.List? && ParseIndex(s).Some?
      && ParseIndex(s).value <= |ReadAt(v, front).value.items|
    ensures InsertAt(v, front + [s], value).Err? ==>
      InsertAt(v, front + [s], value).error
        == if ReadAt(v, front).Err? then ReadAt(v, front).error
           else if ReadAt(v, front).value.List? && ParseIndex(s).Some? then PathError
           else UnsupportedPathShape
  {
    UpdateInContainer(v, front, s, InsertLeaf(value));
  }

  /** After an insertion: the value is read at its index, what was there and later one place further. */
  lemma InsertReads(v: Value, front: seq<Segment>, s: Segment, value: Value, j: nat)
    requires InsertAt(v, front + [s], value).Ok?
    ensures ParseIndex(s).Some?
    ensures var w, i := InsertAt(v, front + [s], value).value, ParseIndex(s).value;
      ReadAt(w, front + [Index(j)])
        == if j < i then ReadAt(v, front + [Index(j)])
           else if j == i then Ok(value) else ReadAt(v, front + [Index(j - 1)])
  {
    UpdateInContainer(v, front, s, InsertLeaf(value));
    ReadLast(v, front, Index(j));
    ReadLast(InsertAt(v, front + [s], value).value, front, Index(j));
    ReadLast(v, front, Index(j - 1));
  }

  // ---------------------------------------------------------------- merges at incomparable paths

  /** Neither path is a prefix of the other, comparing segments by the child they denote. */
  predicate Incomparable(p: seq<Segment>, q: seq<Segment>)
    decreases |p|
  {
    p != [] && q != [] && (KeyOf(p[0]) != KeyOf(q[0]) || Incomparable(p[1..], q[1..]))
  }

  lemma SameKeySameChild(v: Value, a: Segment, b: Segment)
    requires IsContainer(v) && KeyOf(a) == KeyOf(b)
    ensures ReadChild(v, a) == ReadChild(v, b)
    ensures forall c | ReadChild(v, a).Ok? :: ReplaceChild(v, a, c) == ReplaceChild(v, b, c)
  {
    KeyDecidesIndex(a);
    KeyDecidesIndex(b);
  }

  lemma OtherChildKept(v: Value, a: Segment, b: Segment, child: Value)
    requires IsContainer(v) && ReadChild(v, a).Ok? && KeyOf(a) != KeyOf(b)
    ensures IsContainer(ReplaceChild(v, a, child)) && ReadChild(ReplaceChild(v, a, child), b) == ReadChild(v, b)
  {
    if v.List? && ParseIndex(b).Some? {
      DifferentKeysDifferentIndices(a, b);
    }
  }

  lemma ReplacesCommute(v: Value, a: Segment, b: Segment, x: Value, y: Value)
    requires IsContainer(v) && ReadChild(v, a).Ok? && ReadChild(v, b).Ok? && KeyOf(a) != KeyOf(b)
    ensures var va, vb := ReplaceChild(v, a, x), ReplaceChild(v, b, y);
      IsContainer(va) && IsContainer(vb) && ReadChild(va, b).Ok? && ReadChild(vb, a).Ok?
      && ReplaceChild(va, b, y) == ReplaceChild(vb, a, x)
  {
    OtherChildKept(v, a, b, x);
    OtherChildKept(v, b, a, y);
    if v.List? {
      DifferentKeysDifferentIndices(a, b);
    }
  }

  /** What a merge makes of the child named by the first segment. */
  function MergeBelow(child: Value, rest: seq<Segment>, fields: map<Name, Value>): Result<Value, Reason> {
    if rest == [] then MergeRecord(child, fields) else UpdateAt(child, rest, MergeLeaf(fields))
  }

  lemma MergeByChild(v: Value, path: seq<Segment>, fields: map<Name, Value>)
    requires path != [] && IsContainer(v)
    ensures UpdateAt(v, path, MergeLeaf(fields)) ==
      match ReadChild(v, path[0])
      case Err(e) => Err(e)
      case Ok(child) =>
        match MergeBelow(child, path[1..], fields)
        case Err(e) => Err(e)
        case Ok(next) => Ok(ReplaceChild(v, path[0], next))
  {
  }

  /** A merge leaves every incomparable path as it was, readable or not. */
  lemma {:induction false} MergeFrame(v: Value, p: seq<Segment>, patch: Value, q: seq<Segment>)
    requires MergeAt(v, p, patch).Ok? && Incomparable(p, q)
    ensures ReadAt(MergeAt(v, p, patch).value, q) == ReadAt(v, q)
    decreases |p|
  {
    MergeByChild(v, p, patch.fields);
    var child := ReadChild(v, p[0]).value;
    var next := MergeBelow(child, p[1..], patch.fields).value;
    if KeyOf(p[0]) != KeyOf(q[0]) {
      OtherChildKept(v, p[0], q[0], next);
    } else {
      SameKeySameChild(v, p[0], q[0]);
      ReplaceThenReplaceBack(v, p[0], next);
      SameKeySameChild(ReplaceChild(v, p[0], next), p[0], q[0]);
      MergeFrame(child, p[1..], patch, q[1..]);
    }
  }

  /** A deletion or insertion leaves every path as it was that its container's is incomparable with. */
  lemma {:induction false} UpdateFrame(v: Value, front: seq<Segment>, s: Segment, op: LeafOp, q: seq<Segment>)
    requires UpdateAt(v, front + [s], op).Ok? && Incomparable(front, q)
    ensures ReadAt(UpdateAt(v, front + [s], op).value, q) == ReadAt(v, q)
    decreases |front|
  {
    assert (front + [s])[1..] == front[1..] + [s];
    var child := ReadChild(v, front[0]).value;
    var next := UpdateAt(child, front[1..] + [s], op).value;
    if KeyOf(front[0]) != KeyOf(q[0]) {
      OtherChildKept(v, front[0], q[0], next);
    } else {
      SameKeySameChild(v, front[0], q[0]);
      ReplaceThenReplaceBack(v, front[0], next);
      SameKeySameChild(ReplaceChild(v, front[0], next), front[0], q[0]);
      UpdateFrame(child, front[1..], s, op, q[1..]);
    }
  }

  /** Merges at incomparable paths commute: whether and why one fails does not depend on the other,
      and when both succeed the order does not matter. */
  lemma {:induction false} MergesCommute(v: Value, p: seq<Segment>, x: Value, q: seq<Segment>, y: Value)
    requires Incomparable(p, q) && MergeAt(v, p, x).Ok?
    ensures var vp := MergeAt(v, p, x).value;
      match MergeAt(v, q, y)
      case Err(e) => MergeAt(vp, q, y) == Err(e)
      case Ok(vq) => MergeAt(vp, q, y).Ok? && MergeAt(vq, p, x) == MergeAt(vp, q, y)
    decreases |p|
  {
    if !y.Record? {
      return;
    }
    var a, b := p[0], q[0];
    MergeByChild(v, p, x.fields);
    MergeByChild(v, q, y.fields);
    var c := ReadChild(v, a).value;
    var c' := MergeBelow(c, p[1..], x.fields).value;
    var vp := ReplaceChild(v, a, c');
    ReplaceThenReplaceBack(v, a, c');
    MergeByChild(vp, q, y.fields);
    if KeyOf(a) != KeyOf(b) {
      OtherChildKept(v, a, b, c');
      var vq := MergeAt(v, q, y);
      if vq.Ok? {
        var d' := MergeBelow(ReadChild(v, b).value, q[1..], y.fields).value;
        OtherChildKept(v, b, a, d');
        ReplacesCommute(v, a, b, c', d');
        MergeByChild(vq.value, p, x.fields);
      }
    } else {
      SameKeySameChild(v, a, b);
      SameKeySameChild(vp, a, b);
      MergesCommute(c, p[1..], x, q[1..], y);
      var below := MergeAt(c, q[1..], y);
      if below.Ok? {
        ReplaceThenReplaceBack(v, a, below.value);
        MergeByChild(ReplaceChild(v, a, below.value), p, x.fields);
        var both := MergeAt(c', q[1..], y).value;
        ReplaceTwice(v, a, c', both);
        ReplaceTwice(v, a, below.value, both);
      }
    }
  }
}
