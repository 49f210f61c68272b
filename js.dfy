/**
 * The JavaScript values the application receives from its API, and the few
 * language operations its normalisers apply to them: truthiness, `a || b`
 * coalescing, optional property reads, `Object.keys`, `.length > 0`, property
 * assignment, `String(x)` and `JSON.stringify(x)`, plus the string methods the
 * source calls (`trim`, `startsWith`, `includes`, `split`/`join`,
 * `toLowerCase`, `toUpperCase`, and two regular-expression replacements).
 */
module Js {

  datatype Option<+T> = None | Some(value: T)

  /** A value, or the message of the exception a JavaScript statement threw. */
  datatype Result<+T> = Ok(value: T) | Err(error: string)

  /**
   * A JavaScript value as JSON.parse produces it (plus `undefined`). Object
   * entries are kept in insertion order, which is the order `Object.keys` and
   * `for...in` report for non-integer keys. Numbers are integers.
   */
  datatype Json =
    | Undefined
    | Null
    | Bool(b: bool)
    | Num(n: int)
    | Str(s: string)
    | Arr(items: seq<Json>)
    | Obj(fields: seq<(string, Json)>)

  /**
   * The message of a TypeError thrown by the engine (a property read on null or
   * undefined, `Object.keys(null)`, calling a method a value does not have,
   * assigning a property to a primitive in a strict-mode module). The engine's
   * exact wording is not modelled.
   */
  const TypeErrorText: string := "TypeError"

  /** JavaScript truthiness: "", 0, null, undefined and false are falsy. */
  predicate Truthy(j: Json) {
    match j
    case Undefined => false
    case Null => false
    case Bool(b) => b
    case Num(n) => n != 0
    case Str(s) => s != ""
    case Arr(_) => true
    case Obj(_) => true
  }

  predicate Nullish(j: Json) {
    j.Undefined? || j.Null?
  }

  /** `typeof j === 'object'` (true of null and of arrays too). */
  predicate IsObjectType(j: Json) {
    j.Null? || j.Arr? || j.Obj?
  }

  /** `a || b` */
  function Or(a: Json, b: Json): Json {
    if Truthy(a) then a else b
  }

  /** The index of the first truthy candidate, or `|xs|` when there is none. */
  function FirstTruthy(xs: seq<Json>): (k: nat)
    ensures k <= |xs|
    ensures k < |xs| ==> Truthy(xs[k])
    ensures forall m :: 0 <= m < k ==> !Truthy(xs[m])
  {
    if |xs| == 0 then 0
    else if Truthy(xs[0]) then 0
    else 1 + FirstTruthy(xs[1..])
  }

  /**
   * `xs[0] || xs[1] || ... || default`: the first truthy candidate, or the
   * default when there is none.
   */
  function Coalesce(xs: seq<Json>, default: Json): (r: Json)
    ensures FirstTruthy(xs) < |xs| ==> r == xs[FirstTruthy(xs)] && Truthy(r)
    ensures FirstTruthy(xs) == |xs| ==> r == default
  {
    if |xs| == 0 then default
    else if Truthy(xs[0]) then xs[0]
    else Coalesce(xs[1..], default)
  }

  /**
   * `xs.find(test)` where the test may throw: the index of the first element
   * that passes, None when none does, and the throw of the first element the
   * test throws on before any passes.
   */
  function Find(xs: seq<Json>, test: Json -> Result<bool>): (r: Result<Option<nat>>)
    ensures r.Ok? && r.value.Some? ==>
              r.value.value < |xs| && test(xs[r.value.value]) == Ok(true) &&
              forall j :: 0 <= j < r.value.value ==> test(xs[j]) == Ok(false)
    ensures r == Ok(None) <==> forall j :: 0 <= j < |xs| ==> test(xs[j]) == Ok(false)
    ensures r.Err? ==> exists k :: 0 <= k < |xs| && test(xs[k]) == Err(r.error) &&
                                   forall j :: 0 <= j < k ==> test(xs[j]) == Ok(false)
  {
    if |xs| == 0 then Ok(None)
    else
      assert forall j :: 1 <= j < |xs| ==> xs[1..][j - 1] == xs[j];
      match test(xs[0])
      case Err(e) => Err(e)
      case Ok(true) => Ok(Some(0))
      case Ok(false) =>
        match Find(xs[1..], test)
        case Err(e) =>
          var k :| 0 <= k < |xs| - 1 && test(xs[1..][k]) == Err(e) &&
                   forall j :: 0 <= j < k ==> test(xs[1..][j]) == Ok(false);
          assert test(xs[k + 1]) == Err(e);
          Err(e)
        case Ok(None) => Ok(None)
        case Ok(Some(k)) => Ok(Some(k + 1))
  }

  /** The value of the first entry named `key`, or undefined. */
  function Lookup(fields: seq<(string, Json)>, key: string): (r: Json)
    ensures r == Undefined || exists i :: 0 <= i < |fields| && fields[i] == (key, r)
    ensures (forall i :: 0 <= i < |fields| ==> fields[i].0 != key) ==> r == Undefined
  {
    if |fields| == 0 then Undefined
    else if fields[0].0 == key then fields[0].1
    else
      var r := Lookup(fields[1..], key);
      assert forall i :: 1 <= i < |fields| ==> fields[i] == fields[1..][i - 1];
      r
  }

  /** The value found is that of the first entry carrying the key. */
  lemma {:induction false} LookupAt(fields: seq<(string, Json)>, key: string, i: nat)
    requires i < |fields| && fields[i].0 == key
    requires forall k :: 0 <= k < i ==> fields[k].0 != key
    ensures Lookup(fields, key) == fields[i].1
  {
    if i > 0 {
      LookupAt(fields[1..], key, i - 1);
    }
  }

  /**
   * `j?.key`: the property of an object, and undefined for every other value
   * (the source only reads named properties of objects; a named property of an
   * array or a string is undefined as well).
   */
  function Get(j: Json, key: string): Json {
    if j.Obj? then Lookup(j.fields, key) else Undefined
  }

  /** `j.key` where a read on null or undefined throws. */
  function Read(j: Json, key: string): Result<Json> {
    if Nullish(j) then Err(TypeErrorText) else Ok(Get(j, key))
  }

  /** `Array.isArray(j) && j.length > 0` */
  predicate NonEmptyArray(j: Json) {
    j.Arr? && |j.items| > 0
  }

  /**
   * `j.length > 0` for a value that is already known to be truthy: the length
   * of an array or string, or the `length` property of an object compared
   * after JavaScript's conversion to a number.
   */
  predicate LengthPositive(j: Json) {
    match j
    case Arr(items) => |items| > 0
    case Str(s) => |s| > 0
    case Obj(_) => ComparesPositive(Get(j, "length"))
    case _ => false
  }

  /**
   * `l > 0` for a value read from JSON: a number compares as itself, a boolean
   * as 0 or 1, a string by its numeric value, an array by the string its
   * elements join to (two or more elements always hold a ',', which is not
   * numeric), and null, undefined and objects are not positive.
   */
  predicate ComparesPositive(l: Json) {
    match l
    case Num(n) => n > 0
    case Bool(b) => b
    case Str(s) => PositiveNumeral(s)
    case Arr(items) => |items| == 1 && !items[0].Bool? && ComparesPositive(items[0])
    case _ => false
  }

  /**
   * `Number(s) > 0` for a decimal integer numeral: once the white space `trim()`
   * removes is gone, an optional '+' and digits, not all of them zero.
   */
  predicate PositiveNumeral(s: string) {
    var t := TrimEnd(TrimStart(s));
    var d := if |t| > 0 && t[0] == '+' then t[1..] else t;
    |d| > 0 && AllDigits(d) && !AllZeros(d)
  }

  predicate AllDigits(d: string) {
    forall i :: 0 <= i < |d| ==> IsDigit(d[i])
  }

  predicate AllZeros(d: string) {
    forall i :: 0 <= i < |d| ==> d[i] == '0'
  }

  /** A `length` that is a numeral, or an array holding one, is positive like the number it denotes. */
  lemma NumeralLengthsPositive()
    ensures LengthPositive(Obj([("length", Str("2"))]))
    ensures LengthPositive(Obj([("length", Arr([Num(3)]))]))
  {
    assert Get(Obj([("length", Str("2"))]), "length") == Str("2");
    assert TrimStart("2") == "2" && TrimEnd("2") == "2";
    assert "2"[0] != '0';
    assert Get(Obj([("length", Arr([Num(3)]))]), "length") == Arr([Num(3)]);
  }

  /** A zero numeral is not positive. */
  lemma ZeroNumeralNotPositive()
    ensures !PositiveNumeral("00")
  {
    assert TrimStart("00") == "00" && TrimEnd("00") == "00";
    assert AllZeros("00");
  }

  /** A word is not a numeral. */
  lemma WordNotPositive()
    ensures !PositiveNumeral("two")
  {
    assert TrimStart("two") == "two" && TrimEnd("two") == "two";
    assert !IsDigit("two"[0]);
  }

  /** An array of two numbers, or one holding a boolean, does not compare as a positive number. */
  lemma ArraysNotPositive()
    ensures !ComparesPositive(Arr([Num(1), Num(2)]))
    ensures !ComparesPositive(Arr([Bool(true)]))
  {
  }

  /**
   * `Object.keys(j).map(k => [k, j[k]])`: the entries of an object, the indexed
   * elements of an array or the characters of a string; numbers and booleans
   * have none; null and undefined throw.
   */
  function Entries(j: Json): (r: Result<seq<(string, Json)>>)
    ensures r.Err? <==> Nullish(j)
    ensures r.Err? ==> r.error == TypeErrorText
    ensures j.Obj? ==> r == Ok(j.fields)
    ensures j.Str? ==> r.Ok? && |r.value| == |j.s|
    ensures j.Arr? ==> r.Ok? && |r.value| == |j.items|
  {
    match j
    case Undefined => Err(TypeErrorText)
    case Null => Err(TypeErrorText)
    case Bool(_) => Ok([])
    case Num(_) => Ok([])
    case Obj(fields) => Ok(fields)
    case Arr(items) => Ok(seq(|items|, i requires 0 <= i < |items| => (NatToString(i), items[i])))
    case Str(s) => Ok(seq(|s|, i requires 0 <= i < |s| => (NatToString(i), Str([s[i]]))))
  }

  /** `Object.values(j)` of an object. */
  function Values(fields: seq<(string, Json)>): (r: seq<Json>)
    ensures |r| == |fields|
    ensures forall i :: 0 <= i < |fields| ==> r[i] == fields[i].1
  {
    seq(|fields|, i requires 0 <= i < |fields| => fields[i].1)
  }

  /** The object `fields` with `key` set to `v`: replaced in place when present, appended otherwise. */
  function Assign(fields: seq<(string, Json)>, key: string, v: Json): (r: seq<(string, Json)>)
    ensures Lookup(r, key) == v
    ensures forall k :: k != key ==> Lookup(r, k) == Lookup(fields, k)
  {
    if |fields| == 0 then [(key, v)]
    else if fields[0].0 == key then [(key, v)] + fields[1..]
    else [fields[0]] + Assign(fields[1..], key, v)
  }

  /**
   * `j.key = v` in a strict-mode module: objects gain the property, an array
   * keeps its elements (a named property on an array is not represented), and a
   * primitive, null or undefined throws.
   */
  function SetField(j: Json, key: string, v: Json): (r: Result<Json>)
    ensures r.Ok? <==> j.Obj? || j.Arr?
    ensures r.Err? ==> r.error == TypeErrorText
    ensures j.Obj? ==> r.Ok? && r.value.Obj? && Get(r.value, key) == v
    ensures j.Obj? ==> forall k :: k != key ==> Get(r.value, k) == Get(j, k)
    ensures j.Arr? ==> r == Ok(j)
  {
    match j
    case Obj(fields) => Ok(Obj(Assign(fields, key, v)))
    case Arr(_) => Ok(j)
    case _ => Err(TypeErrorText)
  }

  // ---------------------------------------------------------------- numbers

  function DigitChar(d: nat): char
    requires d < 10
  {
    "0123456789"[d]
  }

  /** The decimal numeral of `n`. */
  function NatToString(n: nat): (r: string)
    ensures |r| >= 1
    ensures forall i :: 0 <= i < |r| ==> '0' <= r[i] <= '9'
    decreases n
  {
    if n < 10 then [DigitChar(n)] else NatToString(n / 10) + [DigitChar(n % 10)]
  }

  /** `String(n)` of an integer. */
  function IntToString(n: int): string {
    if n < 0 then "-" + NatToString(-n) else NatToString(n)
  }

  // ---------------------------------------------------------------- strings

  /** `String(j)`, as a template literal or `Array.prototype.join` converts a value. */
  function Display(j: Json): string
    decreases j
  {
    match j
    case Undefined => "undefined"
    case Null => "null"
    case Bool(b) => if b then "true" else "false"
    case Num(n) => IntToString(n)
    case Str(s) => s
    case Arr(items) =>
      Join(seq(|items|, i requires 0 <= i < |items| =>
             if Nullish(items[i]) then "" else Display(items[i])), ",")
    case Obj(_) => "[object Object]"
  }

  function HexDigit(d: nat): char
    requires d < 16
  {
    "0123456789abcdef"[d]
  }

  /** One character of a JSON string literal, escaped as JSON.stringify does for ASCII controls. */
  function EscapeChar(c: char): string {
    if c == '"' then "\\\""
    else if c == '\\' then "\\\\"
    else if c == '\n' then "\\n"
    else if c == '\r' then "\\r"
    else if c == '\t' then "\\t"
    else if c == '\U{8}' then "\\b"
    else if c == '\U{C}' then "\\f"
    else if (c as int) < 32 then "\\u00" + [HexDigit(c as int / 16), HexDigit(c as int % 16)]
    else [c]
  }

  function Escape(s: string): string {
    if |s| == 0 then "" else EscapeChar(s[0]) + Escape(s[1..])
  }

  function Quote(s: string): string {
    "\"" + Escape(s) + "\""
  }

  /** `JSON.stringify(j)`; entries whose value is undefined are omitted, array holes print as null. */
  function Stringify(j: Json): string
    decreases j
  {
    match j
    case Undefined => "undefined"
    case Null => "null"
    case Bool(b) => if b then "true" else "false"
    case Num(n) => IntToString(n)
    case Str(s) => Quote(s)
    case Arr(items) =>
      "[" + Join(seq(|items|, i requires 0 <= i < |items| =>
                   if items[i].Undefined? then "null" else Stringify(items[i])), ",") + "]"
    case Obj(fields) =>
      var shown := Defined(fields);
      "{" + Join(seq(|shown|, i requires 0 <= i < |shown| =>
                   Quote(shown[i].0) + ":" + Stringify(shown[i].1)), ",") + "}"
  }

  /** The entries of an object whose value is not undefined. */
  function Defined(fields: seq<(string, Json)>): (r: seq<(string, Json)>)
    ensures forall e :: e in r ==> e in fields && !e.1.Undefined?
  {
    if |fields| == 0 then []
    else if fields[0].1.Undefined? then Defined(fields[1..])
    else [fields[0]] + Defined(fields[1..])
  }

  /** `s.startsWith(p)` */
  predicate StartsWith(s: string, p: string) {
    |p| <= |s| && s[..|p|] == p
  }

  /** `s.includes(sub)` */
  predicate Contains(s: string, sub: string) {
    exists i | 0 <= i <= |s| - |sub| :: OccursAt(s, sub, i)
  }

  predicate OccursAt(s: string, sub: string, i: int)
    requires 0 <= i <= |s| - |sub|
  {
    s[i..i + |sub|] == sub
  }

  /** The white space and line terminators `String.prototype.trim` removes. */
  predicate IsJsSpace(c: char) {
    c == ' ' || c == '\t' || c == '\n' || c == '\r' || c == '\U{B}' || c == '\U{C}' ||
    c == '\U{A0}' || c == '\U{FEFF}' || c == '\U{1680}' || ('\U{2000}' <= c <= '\U{200A}') ||
    c == '\U{2028}' || c == '\U{2029}' || c == '\U{202F}' || c == '\U{205F}' || c == '\U{3000}'
  }

  /** The line terminators a regular expression's `.` does not match. */
  predicate IsLineTerminator(c: char) {
    c == '\n' || c == '\r' || c == '\U{2028}' || c == '\U{2029}'
  }

  /** `s.trimStart()` */
  function TrimStart(s: string): (r: string)
    ensures |r| <= |s| && r == s[|s| - |r|..]
    ensures |r| > 0 ==> !IsJsSpace(r[0])
    ensures forall i :: 0 <= i < |s| - |r| ==> IsJsSpace(s[i])
  {
    if |s| > 0 && IsJsSpace(s[0]) then TrimStart(s[1..]) else s
  }

  /** `s.trimEnd()` */
  function TrimEnd(s: string): (r: string)
    ensures |r| <= |s| && r == s[..|r|]
    ensures |r| > 0 ==> !IsJsSpace(r[|r| - 1])
    ensures forall i :: |r| <= i < |s| ==> IsJsSpace(s[i])
  {
    if |s| > 0 && IsJsSpace(s[|s| - 1]) then TrimEnd(s[..|s| - 1]) else s
  }

  /** `s.split(sep)` for a one-character separator. */
  function Split(s: string, sep: char): (parts: seq<string>)
    ensures |parts| >= 1
    ensures forall i :: 0 <= i < |parts| ==> sep !in parts[i]
    ensures |parts| == 1 <==> sep !in s
    ensures |parts| == 1 ==> parts[0] == s
  {
    if |s| == 0 then [""]
    else
      var rest := Split(s[1..], sep);
      if s[0] == sep then [""] + rest
      else [[s[0]] + rest[0]] + rest[1..]
  }

  /** `parts.join(sep)` */
  function Join(parts: seq<string>, sep: string): string {
    if |parts| == 0 then ""
    else if |parts| == 1 then parts[0]
    else parts[0] + sep + Join(parts[1..], sep)
  }

  /** Splitting at a separator and joining with it gives back the original string. */
  lemma {:induction false} SplitJoin(s: string, sep: char)
    ensures Join(Split(s, sep), [sep]) == s
  {
    if |s| > 0 {
      var rest := Split(s[1..], sep);
      SplitJoin(s[1..], sep);
      if s[0] == sep {
        assert Split(s, sep) == [""] + rest;
      } else {
        var parts := Split(s, sep);
        assert parts == [[s[0]] + rest[0]] + rest[1..];
        if |rest| == 1 {
          assert Join(parts, [sep]) == [s[0]] + rest[0];
        } else {
          assert parts[1..] == rest[1..];
          assert Join(parts, [sep]) == [s[0]] + rest[0] + [sep] + Join(rest[1..], [sep]);
          assert Join(rest, [sep]) == rest[0] + [sep] + Join(rest[1..], [sep]);
        }
      }
    }
  }

  /** The summed length of the parts. */
  function TotalLength(parts: seq<string>): nat {
    if |parts| == 0 then 0 else |parts[0]| + TotalLength(parts[1..])
  }

  /** Where the `i`-th part starts in `Join(parts, sep)`: after the earlier parts and one separator each. */
  function PartStart(parts: seq<string>, sep: string, i: nat): nat
    requires i <= |parts|
  {
    if i == 0 then 0 else |parts[0]| + |sep| + PartStart(parts[1..], sep, i - 1)
  }

  /** The joined text is as long as its parts plus one separator between each two. */
  lemma {:induction false} JoinLength(parts: seq<string>, sep: string)
    requires |parts| > 0
    ensures |Join(parts, sep)| == TotalLength(parts) + (|parts| - 1) * |sep|
  {
    if |parts| > 1 {
      JoinLength(parts[1..], sep);
    }
  }

  /**
   * The joined text position by position: the `i`-th part sits at
   * `PartStart(parts, sep, i)`, the separator follows it unless it is the
   * last part, and the last part ends the text.
   */
  lemma {:induction false} JoinAt(parts: seq<string>, sep: string, i: nat)
    requires i < |parts|
    ensures var j := Join(parts, sep);
            var k := PartStart(parts, sep, i);
            && k + |parts[i]| <= |j| && j[k..k + |parts[i]|] == parts[i]
            && (i + 1 < |parts| ==> k + |parts[i]| + |sep| <= |j| && j[k + |parts[i]|..k + |parts[i]| + |sep|] == sep)
            && (i + 1 == |parts| ==> k + |parts[i]| == |j|)
  {
    if |parts| > 1 {
      var head := parts[0] + sep;
      var rest := Join(parts[1..], sep);
      assert Join(parts, sep) == head + rest;
      if i == 0 {
        JoinAtFirst(parts[0], sep, rest);
      } else {
        var k := PartStart(parts[1..], sep, i - 1);
        JoinAt(parts[1..], sep, i - 1);
        assert parts[1..][i - 1] == parts[i];
        assert PartStart(parts, sep, i) == |head| + k;
        assert |Join(parts, sep)| == |head| + |rest|;
        JoinAtLater(head, rest, parts[i], sep, k, i + 1 < |parts|);
      }
    }
  }

  lemma JoinAtFirst(p: string, sep: string, rest: string)
    ensures var j := p + sep + rest;
            |p| + |sep| <= |j| && j[..|p|] == p && j[|p|..|p| + |sep|] == sep
  {
    SliceOfPrefix(p, sep + rest);
    SliceOfPrefix(sep, rest);
    SliceAfter(p, sep + rest, 0, |sep|);
    assert p + sep + rest == p + (sep + rest);
  }

  lemma JoinAtLater(head: string, rest: string, p: string, sep: string, k: nat, more: bool)
    requires k + |p| <= |rest| && rest[k..k + |p|] == p
    requires more ==> k + |p| + |sep| <= |rest| && rest[k + |p|..k + |p| + |sep|] == sep
    ensures var j := head + rest;
            j[|head| + k..|head| + k + |p|] == p &&
            (more ==> j[|head| + k + |p|..|head| + k + |p| + |sep|] == sep)
  {
    SliceAfter(head, rest, k, k + |p|);
    if more {
      SliceAfter(head, rest, k + |p|, k + |p| + |sep|);
    }
  }

  lemma SliceOfPrefix(a: string, b: string)
    ensures (a + b)[..|a|] == a
  {
  }

  /** A slice of the part after a prefix, shifted by the prefix's length. */
  lemma SliceAfter(a: string, b: string, x: nat, y: nat)
    requires x <= y <= |b|
    ensures (a + b)[|a| + x..|a| + y] == b[x..y]
  {
  }

  /** The string after the last occurrence of `sep` (all of `s` when there is none): `s.split(sep).pop()`. */
  function LastPart(s: string, sep: char): (r: string)
    ensures sep !in r
  {
    var parts := Split(s, sep);
    parts[|parts| - 1]
  }

  /** The last part of a split is a suffix of the string. */
  lemma {:induction false} LastPartIsSuffix(s: string, sep: char)
    ensures |LastPart(s, sep)| <= |s|
    ensures LastPart(s, sep) == s[|s| - |LastPart(s, sep)|..]
    ensures |LastPart(s, sep)| < |s| ==> s[|s| - |LastPart(s, sep)| - 1] == sep
  {
    if |s| > 0 {
      var t := s[1..];
      LastPartIsSuffix(t, sep);
      var rest := Split(t, sep);
      if s[0] != sep && |rest| == 1 {
        assert Split(s, sep) == [[s[0]] + t];
        assert LastPart(s, sep) == [s[0]] + t == s;
      } else {
        var lp := LastPart(t, sep);
        assert LastPart(s, sep) == rest[|rest| - 1] == lp;
        assert s[|s| - |lp|..] == t[|t| - |lp|..];
        if |lp| == |t| {
          assert lp == t && sep !in t;
          assert |rest| == 1;
        } else {
          assert s[|s| - |lp| - 1] == t[|t| - |lp| - 1];
        }
      }
    }
  }

  /** ASCII `toLowerCase` of one character. */
  function LowerChar(c: char): char {
    if 'A' <= c <= 'Z' then (c as int + 32) as char else c
  }

  /** ASCII `toUpperCase` of one character. */
  function UpperChar(c: char): char {
    if 'a' <= c <= 'z' then (c as int - 32) as char else c
  }

  function ToLower(s: string): (r: string)
    ensures |r| == |s| && forall i :: 0 <= i < |s| ==> r[i] == LowerChar(s[i])
  {
    seq(|s|, i requires 0 <= i < |s| => LowerChar(s[i]))
  }

  /** A regular-expression word character `\w`. */
  predicate IsWordChar(c: char) {
    ('a' <= c <= 'z') || ('A' <= c <= 'Z') || ('0' <= c <= '9') || c == '_'
  }

  predicate IsDigit(c: char) {
    '0' <= c <= '9'
  }

  /** `s.replace(new RegExp(from, 'g'), to)` for single characters. */
  function ReplaceChar(s: string, from: char, to: char): (r: string)
    ensures |r| == |s|
    ensures forall i :: 0 <= i < |s| ==> r[i] == (if s[i] == from then to else s[i])
  {
    seq(|s|, i requires 0 <= i < |s| => if s[i] == from then to else s[i])
  }

  /** Does position `i` start a word, as `\b\w` matches it? */
  predicate WordStart(s: string, i: int)
    requires 0 <= i < |s|
  {
    IsWordChar(s[i]) && (i == 0 || !IsWordChar(s[i - 1]))
  }

  /** `s.replace(/\b\w/g, l => l.toUpperCase())`: upper-cases the first character of every word. */
  function CapitalizeWords(s: string): (r: string)
    ensures |r| == |s|
    ensures forall i :: 0 <= i < |s| ==> r[i] == (if WordStart(s, i) then UpperChar(s[i]) else s[i])
  {
    seq(|s|, i requires 0 <= i < |s| => if WordStart(s, i) then UpperChar(s[i]) else s[i])
  }

  /** Capitalising words twice is the same as once. */
  lemma CapitalizeWordsIdempotent(s: string)
    ensures CapitalizeWords(CapitalizeWords(s)) == CapitalizeWords(s)
  {
    var once := CapitalizeWords(s);
    forall i | 0 <= i < |s|
      ensures IsWordChar(once[i]) == IsWordChar(s[i])
    {
    }
    forall i | 0 <= i < |s|
      ensures CapitalizeWords(once)[i] == once[i]
    {
      if WordStart(once, i) {
        assert WordStart(s, i);
      }
    }
  }

  /**
   * The index of the last '/' in `t` and whether a non-empty segment without
   * '/' follows it.
   */
  function LastSlash(t: string): (k: int)
    ensures -1 <= k < |t|
    ensures k >= 0 ==> t[k] == '/'
    ensures forall i :: k < i < |t| ==> t[i] != '/'
  {
    if |t| == 0 then -1
    else if t[|t| - 1] == '/' then |t| - 1
    else LastSlash(t[..|t| - 1])
  }

  /** The index just after the last line terminator in `s[..k]`, or 0. */
  function LineStart(s: string, k: nat): (p: nat)
    requires k <= |s|
    ensures p <= k
    ensures p > 0 ==> IsLineTerminator(s[p - 1])
    ensures forall i :: p <= i < k ==> !IsLineTerminator(s[i])
  {
    if k == 0 then 0
    else if IsLineTerminator(s[k - 1]) then k
    else LineStart(s, k - 1)
  }

  /** `s` less one trailing '/', the optional `\/?` of the pattern below. */
  function StripTrailingSlash(s: string): string {
    if |s| > 0 && s[|s| - 1] == '/' then s[..|s| - 1] else s
  }

  /**
   * `s.replace(/.*\/([^/]+)\/?$/, '$1')`: when `s` (less one trailing '/')
   * ends in '/' followed by a non-empty segment, the match runs from the start
   * of the line holding that '/' to the end and is replaced by the segment;
   * otherwise `s` is returned unchanged.
   */
  function ReplaceTrailingSegment(s: string): (r: string)
    ensures |r| > 0 || s == ""
  {
    var t := StripTrailingSlash(s);
    var k := LastSlash(t);
    if 0 <= k < |t| - 1 then
      var p := LineStart(s, k);
      s[..p] + t[k + 1..]
    else s
  }

  /**
   * When `s` has no line terminator, the replacement is either `s` unchanged or
   * exactly the non-empty segment after the last '/' (ignoring one trailing '/').
   */
  lemma TrailingSegmentOfUrl(s: string)
    requires forall i :: 0 <= i < |s| ==> !IsLineTerminator(s[i])
    ensures var t := StripTrailingSlash(s);
            var r := ReplaceTrailingSegment(s);
            r == s || (0 <= LastSlash(t) && r == t[LastSlash(t) + 1..] && r != "" && '/' !in r)
  {
    var t := StripTrailingSlash(s);
    var k := LastSlash(t);
    if 0 <= k < |t| - 1 {
      assert |t| <= |s|;
      assert LineStart(s, k) == 0;
      var r := t[k + 1..];
      assert ReplaceTrailingSegment(s) == s[..0] + r;
      assert forall i :: 0 <= i < |r| ==> r[i] == t[k + 1 + i];
    }
  }

  /** `i` is the index of the first digit in `s`. */
  predicate FirstDigitAt(s: string, i: int) {
    0 <= i < |s| && IsDigit(s[i]) && forall j :: 0 <= j < i ==> !IsDigit(s[j])
  }

  /** `s.match(/(\d+)/)?.[1]`: the first run of ASCII digits. */
  function FirstDigitRun(s: string): (r: Option<string>)
    ensures r.Some? <==> exists i :: 0 <= i < |s| && IsDigit(s[i])
    ensures r.Some? ==> |r.value| > 0 && forall i :: 0 <= i < |r.value| ==> IsDigit(r.value[i])
    ensures forall i :: FirstDigitAt(s, i) ==> r == Some(DigitPrefix(s[i..]))
  {
    if |s| == 0 then None
    else if IsDigit(s[0]) then
      assert s[0..] == s;
      Some(DigitPrefix(s))
    else
      var r := FirstDigitRun(s[1..]);
      assert forall i :: 1 <= i < |s| ==> s[i] == s[1..][i - 1];
      assert forall i | FirstDigitAt(s, i) :: FirstDigitAt(s[1..], i - 1) && s[i..] == s[1..][i - 1..];
      r
  }

  /** The longest prefix of `s` made of digits. */
  function DigitPrefix(s: string): (r: string)
    ensures |r| <= |s| && r == s[..|r|]
    ensures forall i :: 0 <= i < |r| ==> IsDigit(r[i])
    ensures |r| < |s| ==> !IsDigit(s[|r|])
  {
    if |s| == 0 || !IsDigit(s[0]) then "" else [s[0]] + DigitPrefix(s[1..])
  }
}
