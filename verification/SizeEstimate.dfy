/** The early-exit size estimate that decides whether hydration is queued
    (src/core/store-hydrate-impl.ts:61-174), against the bytes that would be written. */
module SizeEstimate {
  import opened Names

  type Byte = b: int | 0 <= b < 0x100

  function Min(x: int, y: int): int {
    if x <= y then x else y
  }

  // ------------------------------------------------------------------ UTF-8

  predicate IsHigh(u: CodeUnit) {
    0xD800 <= u <= 0xDBFF
  }

  predicate IsLow(u: CodeUnit) {
    0xDC00 <= u <= 0xDFFF
  }

  type Scalar = c: int | 0 <= c < 0x11_0000

  const REPLACEMENT: Scalar := 0xFFFD

  /** The code points of a UTF-16 string; a surrogate without its partner becomes U+FFFD. */
  function CodePoints(s: Name): seq<Scalar> {
    if s == [] then []
    else if IsHigh(s[0]) && |s| > 1 && IsLow(s[1]) then
      [0x1_0000 + (s[0] - 0xD800) * 0x400 + (s[1] - 0xDC00)] + CodePoints(s[2..])
    else [if IsHigh(s[0]) || IsLow(s[0]) then REPLACEMENT else s[0]] + CodePoints(s[1..])
  }

  /** The octets of one code point, by the table of section 3 of RFC 3629. */
  function Octets(c: Scalar): seq<Byte> {
    if c < 0x80 then [c]
    else if c < 0x800 then [0xC0 + c / 0x40, 0x80 + c % 0x40]
    else if c < 0x1_0000 then [0xE0 + c / 0x1000, 0x80 + c / 0x40 % 0x40, 0x80 + c % 0x40]
    else [0xF0 + c / 0x4_0000, 0x80 + c / 0x1000 % 0x40, 0x80 + c / 0x40 % 0x40, 0x80 + c % 0x40]
  }

  function EncodeAll(cs: seq<Scalar>): seq<Byte> {
    if cs == [] then [] else Octets(cs[0]) + EncodeAll(cs[1..])
  }

  function Utf8(s: Name): seq<Byte> {
    EncodeAll(CodePoints(s))
  }

  /** The length told by the first octet. */
  function LengthFrom(first: Byte): nat {
    if first < 0x80 then 1 else if first < 0xE0 then 2 else if first < 0xF0 then 3 else 4
  }

  function DecodeAll(bytes: seq<Byte>): seq<int> {
    if bytes == [] then []
    else
      var n := LengthFrom(bytes[0]);
      if |bytes| < n then []
      else [DecodeOne(bytes[..n])] + DecodeAll(bytes[n..])
  }

  function DecodeOne(o: seq<int>): int
    requires 1 <= |o| <= 4
  {
    if |o| == 1 then o[0]
    else if |o| == 2 then (o[0] - 0xC0) * 0x40 + (o[1] - 0x80)
    else if |o| == 3 then (o[0] - 0xE0) * 0x1000 + (o[1] - 0x80) * 0x40 + (o[2] - 0x80)
    else (o[0] - 0xF0) * 0x4_0000 + (o[1] - 0x80) * 0x1000 + (o[2] - 0x80) * 0x40 + (o[3] - 0x80)
  }

  lemma OctetsDecode(c: Scalar)
    ensures |Octets(c)| == LengthFrom(Octets(c)[0]) && DecodeOne(Octets(c)) == c
  {
    assert c / 0x1000 == c / 0x40 / 0x40 && c / 0x4_0000 == c / 0x1000 / 0x40;
  }

  /** The encoding the length is taken of is a faithful one: it can be read back. */
  lemma {:induction false} EncodingReadsBack(cs: seq<Scalar>)
    ensures DecodeAll(EncodeAll(cs)) == cs
  {
    if cs != [] {
      var head, rest := Octets(cs[0]), EncodeAll(cs[1..]);
      OctetsDecode(cs[0]);
      EncodingReadsBack(cs[1..]);
      assert (head + rest)[..|head|] == head && (head + rest)[|head|..] == rest;
    }
  }

  /** Reading a string unit by unit: what the units from `i` on add. */
  lemma Utf8Step(s: Name, i: nat)
    requires i < |s|
    ensures IsHigh(s[i]) && i + 1 < |s| && IsLow(s[i + 1]) ==> |Utf8(s[i..])| == 4 + |Utf8(s[i + 2..])|
    ensures !(IsHigh(s[i]) && i + 1 < |s| && IsLow(s[i + 1])) ==>
      |Utf8(s[i..])| == (if s[i] <= 0x7F then 1 else if s[i] <= 0x7FF then 2 else 3) + |Utf8(s[i + 1..])|
  {
    assert s[i..][1..] == s[i + 1..];
    if i + 1 < |s| {
      assert s[i..][2..] == s[i + 2..];
    }
  }

  /** estimateUtf8LengthBounded: the UTF-8 length, or the limit if that is less. */
  method EstimateUtf8LengthBounded(value: Name, limit: int) returns (r: int)
    ensures limit >= 0 || value != [] ==> r == Min(limit, |Utf8(value)|)
  {
    var bytes := 0;
    var index := 0;
    while index < |value|
      invariant 0 <= index <= |value| && bytes + |Utf8(value[index..])| == |Utf8(value)|
      invariant index == 0 || bytes < limit
    {
      Utf8Step(value, index);
      var code := value[index];
      if code <= 0x7F {
        bytes := bytes + 1;
      } else if code <= 0x7FF {
        bytes := bytes + 2;
      } else if 0xD800 <= code <= 0xDBFF && index + 1 < |value| {
        var next := value[index + 1];
        if 0xDC00 <= next <= 0xDFFF {
          bytes := bytes + 4;
          index := index + 1;
        } else {
          bytes := bytes + 3;
        }
      } else {
        bytes := bytes + 3;
      }
      if bytes >= limit {
        return limit;
      }
      index := index + 1;
    }
    return bytes;
  }

  // ------------------------------------------------------------------ JSON

  type NumberText = t: seq<Byte> | t != [] witness [0x30]

  /** A plain value: its numbers by the text that `String` gives them, its properties in order. A hole
      in an array is `Null`; `Absent` is undefined, a function or a symbol. */
  datatype Json =
    | Null
    | Bool(b: bool)
    | Number(text: NumberText)
    | NotFinite
    | Text(units: Name)
    | Items(items: seq<Json>)
    | Record(props: seq<Prop>)
    | Absent

  datatype Prop = Prop(key: Name, value: Json)

  const QUOTE: Byte := 0x22
  const COMMA: Byte := 0x2C
  const COLON: Byte := 0x3A

  function Quoted(units: Name): seq<Byte> {
    [QUOTE] + Utf8(units) + [QUOTE]
  }

  const NULL_TEXT: seq<Byte> := [0x6E, 0x75, 0x6C, 0x6C]
  const TRUE_TEXT: seq<Byte> := [0x74, 0x72, 0x75, 0x65]
  const FALSE_TEXT: seq<Byte> := [0x66, 0x61, 0x6C, 0x73, 0x65]

  /** The text of a value by the grammar of RFC 8259, strings unescaped; nothing for an absent one
      outside an array. */
  function Written(v: Json, inArray: bool): seq<Byte>
    decreases v, 0
  {
    match v
    case Null => NULL_TEXT
    case NotFinite => NULL_TEXT
    case Bool(b) => if b then TRUE_TEXT else FALSE_TEXT
    case Number(text) => text
    case Text(units) => Quoted(units)
    case Items(items) => [0x5B] + WrittenItems(items, true) + [0x5D]
    case Record(props) => [0x7B] + WrittenProps(props, true) + [0x7D]
    case Absent => if inArray then NULL_TEXT else []
  }

  function WrittenItems(items: seq<Json>, first: bool): seq<Byte>
    decreases items, 1
  {
    if items == [] then []
    else (if first then [] else [COMMA]) + Written(items[0], true) + WrittenItems(items[1..], false)
  }

  function WrittenProps(props: seq<Prop>, first: bool): seq<Byte>
    decreases props, 1
  {
    if props == [] then []
    else
      var p := props[0];
      if p.value.Absent? then WrittenProps(props[1..], first)
      else
        (if first then [] else [COMMA]) + Quoted(p.key) + [COLON] + Written(p.value, false)
        + WrittenProps(props[1..], false)
  }

  /** Any present value takes a byte at least. */
  lemma WrittenSomething(v: Json, inArray: bool)
    ensures |Written(v, inArray)| == 0 <==> v.Absent? && !inArray
  {
  }

  function Total(sizes: seq<nat>): nat {
    if sizes == [] then 0 else sizes[0] + Total(sizes[1..])
  }

  /** One separator between neighbours. */
  function Separators(n: nat): nat {
    if n == 0 then 0 else n - 1
  }

  /** The properties that are written. */
  function Present(props: seq<Prop>): (present: seq<Prop>)
    ensures forall p | p in present :: p in props && !p.value.Absent?
  {
    if props == [] then []
    else (if props[0].value.Absent? then [] else [props[0]]) + Present(props[1..])
  }

  /** What an array takes: its brackets, a comma between neighbours, and its items. */
  lemma {:induction false} SizeOfItems(items: seq<Json>, sizes: seq<nat>, first: bool)
    requires |sizes| == |items| && forall i | 0 <= i < |items| :: sizes[i] == |Written(items[i], true)|
    ensures |WrittenItems(items, first)| == Total(sizes) + if first then Separators(|items|) else |items|
    ensures first ==> |Written(Items(items), false)| == 2 + Separators(|items|) + Total(sizes)
    decreases |items|
  {
    if items != [] {
      SizeOfItems(items[1..], sizes[1..], false);
    }
  }

  /** What an object takes: its brackets, a comma between neighbours, and for each property that is present
      its key with two quotes, a colon, and its value. */
  lemma {:induction false} SizeOfRecord(props: seq<Prop>, sizes: seq<nat>, first: bool)
    requires |sizes| == |Present(props)|
    requires forall i | 0 <= i < |sizes| ::
               var p := Present(props)[i]; sizes[i] == |Utf8(p.key)| + 2 + 1 + |Written(p.value, false)|
    ensures |WrittenProps(props, first)| == Total(sizes) + if first then Separators(|sizes|) else |sizes|
    ensures first ==> |Written(Record(props), false)| == 2 + Separators(|sizes|) + Total(sizes)
    decreases |props|
  {
    if props != [] {
      if props[0].value.Absent? {
        SizeOfRecord(props[1..], sizes, first);
      } else {
        assert forall i | 0 <= i < |sizes| - 1 :: Present(props)[i + 1] == Present(props[1..])[i];
        SizeOfRecord(props[1..], sizes[1..], false);
      }
    }
  }

  /** What everything else takes. */
  lemma SizeOfPlain(units: Name, b: bool, inArray: bool)
    ensures |Written(Text(units), inArray)| == |Utf8(units)| + 2
    ensures |Written(Bool(b), inArray)| == if b then 4 else 5
    ensures |Written(Null, inArray)| == |Written(NotFinite, inArray)| == 4
    ensures |Written(Absent, inArray)| == if inArray then 4 else 0
  {
  }

  /** The two brackets of an empty array, or of any object, are counted before the limit is looked at. */
  predicate Overruns(v: Json) {
    v == Items([]) || v.Record?
  }

  /** The estimate: the size up to the limit, but for the overrun under a limit of one. */
  function Estimate(v: Json, limit: int, inArray: bool): int {
    if limit <= 0 then 0
    else if limit == 1 && Overruns(v) then 2
    else Min(limit, |Written(v, inArray)|)
  }

  /** The limit is kept but in exactly those cases, and the true size is never overstated. */
  lemma EstimateWithinBounds(v: Json, limit: int, inArray: bool)
    requires limit >= 1
    ensures Estimate(v, limit, inArray) > limit <==> limit == 1 && Overruns(v)
    ensures Estimate(v, limit, inArray) <= |Written(v, inArray)|
  {
    if v.Record? {
      assert |Written(v, inArray)| == 2 + |WrittenProps(v.props, true)|;
    }
  }

  /** Concrete inputs for the broken limit. */
  lemma LimitOfOneOverrun()
    ensures Estimate(Items([]), 1, false) == 2
    ensures Estimate(Record([]), 1, false) == 2
    ensures Estimate(Record([Prop([], Bool(true))]), 1, false) == 2
  {
  }

  /** estimateRoughJsonBytesBounded on plain trees. */
  method EstimateRoughJsonBytesBounded(value: Json, limit: int, inArray: bool) returns (r: int)
    ensures r == Estimate(value, limit, inArray)
    decreases value, 0
  {
    if limit <= 0 {
      return 0;
    }
    match value {
      case Null => r := Min(4, limit);
      case Text(units) =>
        var bytes := EstimateUtf8LengthBounded(units, limit);
        r := Min(limit, bytes + 2);
      case NotFinite => r := Min(4, limit);
      case Number(text) => r := Min(|text|, limit);
      case Bool(b) => r := Min(if b then 4 else 5, limit);
      case Absent => r := if inArray then Min(4, limit) else 0;
      case Items(items) => r := EstimateItems(items, limit);
      case Record(props) => r := EstimateRecord(props, limit);
    }
  }

  method EstimateItems(items: seq<Json>, limit: int) returns (r: int)
    requires limit > 0
    ensures r == Estimate(Items(items), limit, false)
    decreases items, 1
  {
    var total := 2;
    for index := 0 to |items|
      invariant total + |WrittenItems(items[index..], index == 0)| == 2 + |WrittenItems(items, true)|
      invariant 2 <= total && (index > 0 ==> total < limit)
    {
      assert items[index..][1..] == items[index + 1..];
      WrittenSomething(items[index], true);
      if index > 0 {
        total := total + 1;
        if total >= limit {
          return limit;
        }
      }
      var valueBytes := EstimateRoughJsonBytesBounded(items[index], limit - total, true);
      total := total + valueBytes;
      if total >= limit {
        return limit;
      }
    }
    r := total;
  }

  method EstimateRecord(props: seq<Prop>, limit: int) returns (r: int)
    requires limit > 0
    ensures r == Estimate(Record(props), limit, false)
    decreases props, 1
  {
    var total := 2;
    var firstProperty := true;
    for index := 0 to |props|
      invariant limit > 2 ==>
        total + |WrittenProps(props[index..], firstProperty)| == 2 + |WrittenProps(props, true)| && total < limit
      invariant limit <= 2 ==> total == 2
    {
      assert props[index..][1..] == props[index + 1..];
      var key, value := props[index].key, props[index].value;
      WrittenSomething(value, false);
      var valueBytes := EstimateRoughJsonBytesBounded(value, limit - total, false);
      if valueBytes == 0 {
        continue;
      }
      var keyBytes := EstimateUtf8LengthBounded(key, limit - total);
      total := total + (if firstProperty then 0 else 1) + keyBytes + 3;
      if total >= limit {
        return limit;
      }
      total := total + valueBytes;
      if total >= limit {
        return limit;
      }
      firstProperty := false;
    }
    r := total;
  }
}
