/**
 Bencoding (bencode.cpp; section "bencoding" of BEP 3): the encoder, and a strict parser proved to be
 its inverse. `Encode` is the only reference: a parse succeeds exactly on what `Encode` can produce,
 followed by whatever is left over.

 A dictionary is the ascending list of its entries, as `std::map` iterates it.
 */
module Bencode {
  import opened Bytes

  datatype Value = Int(n: int) | Str(s: seq<byte>) | List(items: seq<Value>) | Dict(entries: seq<Entry>)
  datatype Entry = Entry(key: seq<byte>, value: Value)

  /** A parse either yields a value or throws; the exception texts are not modelled. */
  datatype Result<+T> = Ok(value: T) | Err

  const MINUS: byte := 0x2D
  const COLON: byte := 0x3A
  const CHAR_D: byte := 0x64
  const CHAR_E: byte := 0x65
  const CHAR_I: byte := 0x69
  const CHAR_L: byte := 0x6C
  const ZERO: byte := 0x30

  predicate IsDigit(b: byte) {
    0x30 <= b <= 0x39
  }

  /* ---- the encoder ---- */

  /** `std::to_string` of a non-negative number. */
  function Digits(n: nat): (ds: seq<byte>)
    ensures |ds| > 0 && forall k | 0 <= k < |ds| :: IsDigit(ds[k])
    ensures ds[0] == ZERO ==> n == 0 && |ds| == 1
  {
    if n < 10 then [ZERO + n] else Digits(n / 10) + [ZERO + n % 10]
  }

  /** `std::to_string`. */
  function DecimalString(n: int): seq<byte> {
    if n < 0 then [MINUS] + Digits(-n) else Digits(n)
  }

  function EncodeInt(n: int): seq<byte> {
    [CHAR_I] + DecimalString(n) + [CHAR_E]
  }

  function EncodeStr(s: seq<byte>): seq<byte> {
    Digits(|s|) + [COLON] + s
  }

  function Encode(v: Value): (out: seq<byte>)
    ensures |out| > 0 && out[0] != CHAR_E
    decreases v, 0
  {
    match v
    case Int(n) => EncodeInt(n)
    case Str(s) => EncodeStr(s)
    case List(items) => [CHAR_L] + EncodeItems(items) + [CHAR_E]
    case Dict(entries) => [CHAR_D] + EncodeEntries(entries) + [CHAR_E]
  }

  function EncodeItems(items: seq<Value>): seq<byte>
    decreases items, 0
  {
    if items == [] then [] else Encode(items[0]) + EncodeItems(items[1..])
  }

  function EncodeEntry(x: Entry): (out: seq<byte>)
    ensures |out| > 0 && out[0] != CHAR_E
    decreases x, 0
  {
    EncodeStr(x.key) + Encode(x.value)
  }

  function EncodeEntries(entries: seq<Entry>): seq<byte>
    decreases entries, 0
  {
    if entries == [] then [] else EncodeEntry(entries[0]) + EncodeEntries(entries[1..])
  }

  /* ---- one text with every kind of value ---- */

  lemma NumberTexts()
    ensures DecimalString(-42) == Ascii("-42") && DecimalString(0) == Ascii("0")
    ensures Digits(3) == Ascii("3") && Digits(4) == Ascii("4")
  {
    assert Digits(4) == [0x34];
    assert Digits(42) == [0x34, 0x32];
  }

  lemma LeafTexts()
    ensures Encode(Int(-42)) == Ascii("i-42e") && Encode(Int(0)) == Ascii("i0e")
    ensures Encode(Str(Ascii("spam"))) == EncodeStr(Ascii("spam")) == Ascii("4:spam")
    ensures EncodeStr(Ascii("cow")) == Ascii("3:cow") && EncodeStr(Ascii("list")) == Ascii("4:list")
    ensures Encode(Dict([])) == Ascii("de")
  {
    hide Digits, DecimalString;
    NumberTexts();
  }

  lemma FirstItem(a: Value, rest: seq<Value>)
    ensures EncodeItems([a] + rest) == Encode(a) + EncodeItems(rest)
  {
    hide Encode;
    assert ([a] + rest)[1..] == rest;
  }

  lemma FirstEntry(x: Entry, rest: seq<Entry>)
    ensures EncodeEntries([x] + rest) == EncodeStr(x.key) + Encode(x.value) + EncodeEntries(rest)
  {
    hide Encode, EncodeStr;
    assert ([x] + rest)[1..] == rest;
  }

  lemma Enclosed(items: seq<Value>, entries: seq<Entry>)
    ensures Encode(List(items)) == Ascii("l") + EncodeItems(items) + Ascii("e")
    ensures Encode(Dict(entries)) == Ascii("d") + EncodeEntries(entries) + Ascii("e")
    ensures EncodeItems([]) == EncodeEntries([]) == []
  {
  }

  lemma Flatten(l: seq<byte>, a: seq<byte>, b: seq<byte>, c: seq<byte>, e: seq<byte>)
    ensures l + (a + (b + (c + []))) + e == l + a + b + c + e
  {
  }

  lemma ThreeItems(a: Value, b: Value, c: Value)
    ensures Encode(List([a, b, c])) == Ascii("l") + Encode(a) + Encode(b) + Encode(c) + Ascii("e")
  {
    hide Encode, EncodeItems, Ascii;
    FirstItem(a, [b, c]);
    FirstItem(b, [c]);
    FirstItem(c, []);
    assert [a, b, c] == [a] + [b, c] && [b, c] == [b] + [c] && [c] == [c] + [];
    Enclosed([a, b, c], []);
    Flatten(Ascii("l"), Encode(a), Encode(b), Encode(c), Ascii("e"));
  }

  lemma TwoEntries(x: Entry, y: Entry)
    ensures Encode(Dict([x, y]))
         == Ascii("d") + (EncodeStr(x.key) + Encode(x.value)) + (EncodeStr(y.key) + Encode(y.value)) + [] + Ascii("e")
  {
    hide Encode, EncodeStr, EncodeEntries, Ascii;
    var first, second := EncodeStr(x.key) + Encode(x.value), EncodeStr(y.key) + Encode(y.value);
    FirstEntry(x, [y]);
    FirstEntry(y, []);
    assert [x, y] == [x] + [y] && [y] == [y] + [];
    Enclosed([], [x, y]);
    Flatten(Ascii("d"), first, second, [], Ascii("e"));
    assert EncodeEntries([x, y]) == first + (second + ([] + []));
  }

  predicate Plain(text: string) {
    forall k | 0 <= k < |text| :: text[k] as int < 0x80
  }

  lemma AsciiJoin(a: string, b: string)
    requires Plain(a) && Plain(b)
    ensures Plain(a + b) && Ascii(a) + Ascii(b) == Ascii(a + b)
  {
  }

  /** A list and a dictionary as text: `l4:spami0edee` and `d3:cowi-42e4:listi0ee`. */
  lemma EncodedText()
    ensures Encode(List([Str(Ascii("spam")), Int(0), Dict([])])) == Ascii("l" + "4:spam" + "i0e" + "de" + "e")
    ensures Encode(Dict([Entry(Ascii("cow"), Int(-42)), Entry(Ascii("list"), Int(0))]))
         == Ascii("d" + ("3:cow" + "i-42e") + ("4:list" + "i0e") + "e")
  {
    hide Encode, EncodeStr, Ascii;
    LeafTexts();
    ThreeItems(Str(Ascii("spam")), Int(0), Dict([]));
    AsciiJoin("l", "4:spam");
    AsciiJoin("l" + "4:spam", "i0e");
    AsciiJoin("l" + "4:spam" + "i0e", "de");
    AsciiJoin("l" + "4:spam" + "i0e" + "de", "e");
    TwoEntries(Entry(Ascii("cow"), Int(-42)), Entry(Ascii("list"), Int(0)));
    AsciiJoin("3:cow", "i-42e");
    AsciiJoin("4:list", "i0e");
    AsciiJoin("d", "3:cow" + "i-42e");
    AsciiJoin("d" + ("3:cow" + "i-42e"), "4:list" + "i0e");
    AsciiJoin("d" + ("3:cow" + "i-42e") + ("4:list" + "i0e"), "e");
  }

  /* ---- what the parser accepts ---- */

  /** `std::string_view` order: bytewise, a proper prefix first. */
  predicate Less(a: seq<byte>, b: seq<byte>) {
    b != [] && (a == [] || a[0] < b[0] || (a[0] == b[0] && Less(a[1..], b[1..])))
  }

  lemma LessIsTotal(a: seq<byte>, b: seq<byte>)
    ensures Less(a, b) <==> !(a == b || Less(b, a))
  {
    if a != [] && b != [] && a[0] == b[0] {
      LessIsTotal(a[1..], b[1..]);
      assert a == [a[0]] + a[1..] && b == [b[0]] + b[1..];
    }
  }

  /** `a` differs from `b` first in a smaller byte, or ends before it does. */
  ghost predicate FirstDiffers(a: seq<byte>, b: seq<byte>, k: nat) {
    k <= |a| && k < |b| && a[..k] == b[..k] && (k == |a| || a[k] < b[k])
  }

  lemma {:induction false} LessIsBytewise(a: seq<byte>, b: seq<byte>)
    ensures Less(a, b) <==> exists k: nat :: FirstDiffers(a, b, k)
  {
    if a == [] || b == [] || a[0] != b[0] {
      assert FirstDiffers(a, b, 0) <==> Less(a, b);
      assert forall k: nat | FirstDiffers(a, b, k) :: k > 0 ==> a[..k][0] == b[..k][0];
    } else {
      LessIsBytewise(a[1..], b[1..]);
      forall k: nat | FirstDiffers(a[1..], b[1..], k) ensures FirstDiffers(a, b, k + 1) {
        assert a[..k + 1] == [a[0]] + a[1..][..k] && b[..k + 1] == [b[0]] + b[1..][..k];
      }
      forall k: nat | FirstDiffers(a, b, k) ensures k > 0 && FirstDiffers(a[1..], b[1..], k - 1) {
        assert a[1..][..k - 1] == a[..k][1..] && b[1..][..k - 1] == b[..k][1..];
      }
    }
  }

  predicate Ascending(entries: seq<Entry>) {
    forall k | 0 < k < |entries| :: Less(entries[k - 1].key, entries[k].key)
  }

  /** The trees `parse` can return: int64 without its minimum, size_t lengths, ascending keys. */
  predicate Parseable(v: Value) {
    match v
    case Int(n) => -INT64_MAX <= n <= INT64_MAX
    case Str(s) => |s| <= SIZE_MAX
    case List(items) => forall k | 0 <= k < |items| :: Parseable(items[k])
    case Dict(entries) =>
      && Ascending(entries)
      && forall k | 0 <= k < |entries| :: |entries[k].key| <= SIZE_MAX && Parseable(entries[k].value)
  }

  /* ---- decimal numbers ---- */

  function ValueOf(ds: seq<byte>): nat
    requires forall k | 0 <= k < |ds| :: IsDigit(ds[k])
  {
    if ds == [] then 0 else assert IsDigit(ds[|ds| - 1]); 10 * ValueOf(ds[..|ds| - 1]) + (ds[|ds| - 1] - ZERO)
  }

  lemma {:induction false} ValueOfDigits(n: nat)
    ensures ValueOf(Digits(n)) == n
  {
    if n < 10 {
      assert Digits(n)[..0] == [];
    } else {
      ValueOfDigits(n / 10);
      assert Digits(n)[..|Digits(n)| - 1] == Digits(n / 10);
    }
  }

  lemma {:induction false} DigitsOfValue(ds: seq<byte>)
    requires ds != [] && forall k | 0 <= k < |ds| :: IsDigit(ds[k])
    requires |ds| > 1 ==> ds[0] != ZERO
    ensures Digits(ValueOf(ds)) == ds
    ensures |ds| > 1 ==> ValueOf(ds) >= 10
  {
    var n := |ds| - 1;
    if n == 0 {
      assert ds[..0] == [];
    } else {
      DigitsOfValue(ds[..n]);
      if n == 1 {
        assert ds[..1][..0] == [];
      }
      assert ds == ds[..n] + [ds[n]];
    }
  }

  /** Length of the longest prefix of digits. */
  function Run(s: seq<byte>): (n: nat)
    ensures n <= |s| && forall k | 0 <= k < n :: IsDigit(s[k])
    ensures n < |s| ==> !IsDigit(s[n])
  {
    if s == [] || !IsDigit(s[0]) then 0 else 1 + Run(s[1..])
  }

  lemma {:induction false} RunIs(s: seq<byte>, n: nat)
    requires n <= |s| && (forall k | 0 <= k < n :: IsDigit(s[k])) && (n < |s| ==> !IsDigit(s[n]))
    ensures Run(s) == n
  {
    if n > 0 {
      RunIs(s[1..], n - 1);
    }
  }

  /** Digits before a non-digit byte determine the number and where it ends. */
  lemma NumberShape(n: nat, terminator: byte, t: seq<byte>, s: seq<byte>)
    requires !IsDigit(terminator) && s == Digits(n) + [terminator] + t
    ensures Run(s) == |Digits(n)| > 0 && s[..Run(s)] == Digits(n) && ValueOf(s[..Run(s)]) == n
    ensures s[Run(s)] == terminator && s[Run(s) + 1..] == t
    ensures s[0] == ZERO ==> n == 0 && Run(s) == 1
  {
    RunIs(s, |Digits(n)|);
    ValueOfDigits(n);
  }

  lemma {:induction false} ValueOfMonotone(ds: seq<byte>, n: nat)
    requires n <= |ds| && forall k | 0 <= k < |ds| :: IsDigit(ds[k])
    ensures ValueOf(ds[..n]) <= ValueOf(ds)
    decreases |ds|
  {
    if n == |ds| {
      assert ds[..n] == ds;
    } else {
      ValueOfMonotone(ds[..|ds| - 1], n);
      assert ds[..|ds| - 1][..n] == ds[..n];
    }
  }

  /** The digit loop of `parse_int` and `parse_string`: the overflow guard fires exactly on numbers above `limit`. */
  method ScanDigits(s: seq<byte>, limit: nat) returns (r: Result<nat>, consumed: nat)
    requires limit >= 9
    ensures r == if ValueOf(s[..Run(s)]) <= limit then Ok(ValueOf(s[..Run(s)])) else Err
    ensures r.Ok? ==> consumed == Run(s)
  {
    var value := 0;
    consumed := 0;
    while consumed < |s| && IsDigit(s[consumed])
      invariant consumed <= |s| && forall k | 0 <= k < consumed :: IsDigit(s[k])
      invariant value == ValueOf(s[..consumed]) <= limit
    {
      var digit := s[consumed] - ZERO;
      ghost var next := s[..consumed + 1];
      assert next[..consumed] == s[..consumed];
      if value > (limit - digit) / 10 {
        RunBeyond(s, consumed + 1);
        ValueOfMonotone(s[..Run(s)], consumed + 1);
        assert s[..Run(s)][..consumed + 1] == next;
        return Err, consumed;
      }
      value := value * 10 + digit;
      consumed := consumed + 1;
    }
    RunIs(s, consumed);
    return Ok(value), consumed;
  }

  lemma {:induction false} RunBeyond(s: seq<byte>, n: nat)
    requires n <= |s| && forall k | 0 <= k < n :: IsDigit(s[k])
    ensures n <= Run(s)
  {
    if n > 0 {
      RunBeyond(s[1..], n - 1);
    }
  }

  /* ---- integers and strings ---- */

  predicate ParseableInt(n: int) {
    -INT64_MAX <= n <= INT64_MAX
  }

  function Sign(n: int): seq<byte> {
    if n < 0 then [MINUS] else []
  }

  function Abs(n: int): nat {
    if n < 0 then -n else n
  }

  /** `s` reads as the digits of `n`, the letter `e`, and then `t`. */
  predicate NumberAt(s: seq<byte>, n: nat, t: seq<byte>) {
    && 0 < Run(s) < |s|
    && ValueOf(s[..Run(s)]) == n
    && s[Run(s)] == CHAR_E && s[Run(s) + 1..] == t
    && (s[0] == ZERO ==> n == 0 && Run(s) == 1)
  }

  lemma NumberAtIff(s: seq<byte>, n: nat, t: seq<byte>)
    ensures NumberAt(s, n, t) <==> s == Digits(n) + [CHAR_E] + t
  {
    if s == Digits(n) + [CHAR_E] + t {
      NumberShape(n, CHAR_E, t, s);
    }
    if NumberAt(s, n, t) {
      CanonicalRun(s);
      assert s == s[..Run(s)] + [CHAR_E] + t;
    }
  }

  /** `i`, a minus sign exactly for negative numbers, the digits, `e`. */
  predicate IntAt(s: seq<byte>, n: int, t: seq<byte>) {
    && |s| > 2 && s[0] == CHAR_I
    && (s[1] == MINUS <==> n < 0)
    && NumberAt(if n < 0 then s[2..] else s[1..], Abs(n), t)
  }

  lemma IntAtIff(s: seq<byte>, n: int, t: seq<byte>)
    ensures IntAt(s, n, t) <==> s == EncodeInt(n) + t
  {
    hide IntAt, EncodeInt;
    if s == EncodeInt(n) + t {
      EncodedIntAt(s, n, t);
    }
    if IntAt(s, n, t) {
      IntAtEncoded(s, n, t);
    }
  }

  lemma IntEncoding(n: int)
    ensures EncodeInt(n) == [CHAR_I] + Sign(n) + Digits(Abs(n)) + [CHAR_E]
  {
    hide Digits;
  }

  lemma IntAtEncoded(s: seq<byte>, n: int, t: seq<byte>)
    requires IntAt(s, n, t)
    ensures s == EncodeInt(n) + t
  {
    hide NumberAt, EncodeInt, Digits;
    var body := if n < 0 then s[2..] else s[1..];
    NumberAtIff(body, Abs(n), t);
    IntEncoding(n);
    assert s == [CHAR_I] + Sign(n) + body;
  }

  lemma EncodedIntAt(s: seq<byte>, n: int, t: seq<byte>)
    requires s == EncodeInt(n) + t
    ensures IntAt(s, n, t)
  {
    hide NumberAt, EncodeInt;
    var tail := Digits(Abs(n)) + [CHAR_E] + t;
    IntEncoding(n);
    assert s == [CHAR_I] + Sign(n) + tail;
    var body := if n < 0 then s[2..] else s[1..];
    assert body == tail;
    NumberAtIff(body, Abs(n), t);
  }

  method ParseInt(input: seq<byte>) returns (r: Result<int>, rest: seq<byte>)
    ensures r.Ok? ==> ParseableInt(r.value) && input == EncodeInt(r.value) + rest
    ensures forall n, t :: ParseableInt(n) && input == EncodeInt(n) + t ==> r == Ok(n) && rest == t
  {
    r, rest := ScanInt(input);
    forall n, t | input == EncodeInt(n) + t ensures IntAt(input, n, t) {
      IntAtIff(input, n, t);
    }
    if r.Ok? {
      IntAtIff(input, r.value, rest);
    }
  }

  /** The code of `parse_int` up to the sign. */
  method ScanInt(input: seq<byte>) returns (r: Result<int>, rest: seq<byte>)
    ensures r.Ok? ==> ParseableInt(r.value) && IntAt(input, r.value, rest)
    ensures forall n, t :: ParseableInt(n) && IntAt(input, n, t) ==> r == Ok(n) && rest == t
  {
    r, rest := Err, [];
    if input == [] || input[0] != CHAR_I {
      return;
    }
    var remaining := input[1..];
    if remaining == [] {
      return;
    }
    var negative := false;
    if remaining[0] == MINUS {
      negative := true;
      remaining := remaining[1..];
      assert remaining == input[2..];
    }
    var value, t := ScanMagnitude(remaining, negative);
    if value.Err? {
      return;
    }
    var n: int := value.value;
    r, rest := Ok(if negative then -n else n), t;
  }

  /** The rest of `parse_int`: leading zeros, digits with the overflow guard, the final `e`. */
  method ScanMagnitude(body: seq<byte>, negative: bool) returns (r: Result<nat>, rest: seq<byte>)
    ensures r.Ok? ==> r.value <= INT64_MAX && (negative ==> r.value > 0) && NumberAt(body, r.value, rest)
    ensures forall n: nat, t :: n <= INT64_MAX && (negative ==> n > 0) && NumberAt(body, n, t) ==> r == Ok(n) && rest == t
  {
    r, rest := Err, [];
    if body == [] || !IsDigit(body[0]) {
      return;
    }
    if body[0] == ZERO {
      if |body| < 2 || body[1] != CHAR_E {
        return;
      }
      if negative {
        return;
      }
    }
    var value, consumed := ScanDigits(body, INT64_MAX);
    CanonicalRun(body);
    if value.Err? {
      return;
    }
    var remaining := body[consumed..];
    if remaining == [] || remaining[0] != CHAR_E {
      return;
    }
    r, rest := value, remaining[1..];
  }

  lemma CanonicalRun(s: seq<byte>)
    requires Run(s) > 0 && (s[0] == ZERO ==> Run(s) == 1)
    ensures Digits(ValueOf(s[..Run(s)])) == s[..Run(s)]
    ensures s[0] != ZERO ==> ValueOf(s[..Run(s)]) > 0
  {
    DigitsOfValue(s[..Run(s)]);
    if Run(s) == 1 {
      assert s[..1][..0] == [];
    }
  }

  /** `s` reads as the decimal length of `v`, a colon, `v`, and then `t`. */
  predicate StrAt(s: seq<byte>, v: seq<byte>, t: seq<byte>) {
    && 0 < Run(s) < |s|
    && ValueOf(s[..Run(s)]) == |v| && s[Run(s)] == COLON
    && (s[0] == ZERO ==> Run(s) == 1)
    && s[Run(s) + 1..] == v + t
  }

  lemma StrAtIff(s: seq<byte>, v: seq<byte>, t: seq<byte>)
    ensures StrAt(s, v, t) <==> s == EncodeStr(v) + t
  {
    assert EncodeStr(v) + t == Digits(|v|) + [COLON] + (v + t);
    if s == EncodeStr(v) + t {
      NumberShape(|v|, COLON, v + t, s);
    }
    if StrAt(s, v, t) {
      CanonicalRun(s);
      assert s == s[..Run(s)] + [COLON] + s[Run(s) + 1..];
    }
  }

  method ParseString(input: seq<byte>) returns (r: Result<seq<byte>>, rest: seq<byte>)
    ensures r.Ok? ==> |r.value| <= SIZE_MAX && input == EncodeStr(r.value) + rest
    ensures forall s, t :: |s| <= SIZE_MAX && input == EncodeStr(s) + t ==> r == Ok(s) && rest == t
  {
    r, rest := ScanString(input);
    forall v, t | input == EncodeStr(v) + t ensures StrAt(input, v, t) {
      StrAtIff(input, v, t);
    }
    if r.Ok? {
      StrAtIff(input, r.value, rest);
    }
  }

  /** The code of `parse_string`. */
  method ScanString(input: seq<byte>) returns (r: Result<seq<byte>>, rest: seq<byte>)
    ensures r.Ok? ==> |r.value| <= SIZE_MAX && StrAt(input, r.value, rest)
    ensures forall v, t :: |v| <= SIZE_MAX && StrAt(input, v, t) ==> r == Ok(v) && rest == t
  {
    r, rest := Err, [];
    if input == [] || !IsDigit(input[0]) {
      return;
    }
    if input[0] == ZERO {
      if |input| < 2 || input[1] != COLON {
        return;
      }
    }
    var length, consumed := ScanDigits(input, SIZE_MAX);
    if length.Err? {
      return;
    }
    var remaining := input[consumed..];
    if remaining == [] || remaining[0] != COLON {
      return;
    }
    remaining := remaining[1..];
    assert remaining == input[consumed + 1..];
    if |remaining| < length.value {
      return;
    }
    r, rest := Ok(remaining[..length.value]), remaining[length.value..];
    forall v, t | |v| == length.value && remaining == v + t ensures v == r.value && t == rest {
    }
  }

  lemma ItemsStart(items: seq<Value>, u: seq<byte>)
    requires u != [] && u[0] == CHAR_E
    ensures |EncodeItems(items) + u| > 0
    ensures (EncodeItems(items) + u)[0] == CHAR_E <==> items == []
  {
    hide EncodeInt, EncodeStr, DecimalString, Digits;
  }

  lemma EntriesStart(entries: seq<Entry>, u: seq<byte>)
    requires u != [] && u[0] == CHAR_E
    ensures |EncodeEntries(entries) + u| > 0
    ensures (EncodeEntries(entries) + u)[0] == CHAR_E <==> entries == []
  {
    hide EncodeInt, EncodeStr, DecimalString, Digits, EncodeEntry;
  }

  /* ---- no encoding is a proper prefix of another ---- */

  lemma IntsPrefixFree(a: int, b: int, s: seq<byte>, t: seq<byte>)
    requires EncodeInt(a) + s == EncodeInt(b) + t
    ensures a == b && s == t
  {
    IntAtIff(EncodeInt(a) + s, a, s);
    IntAtIff(EncodeInt(a) + s, b, t);
  }

  lemma StrsPrefixFree(a: seq<byte>, b: seq<byte>, s: seq<byte>, t: seq<byte>)
    requires EncodeStr(a) + s == EncodeStr(b) + t
    ensures a == b && s == t
  {
    StrAtIff(EncodeStr(a) + s, a, s);
    StrAtIff(EncodeStr(a) + s, b, t);
    assert a == (a + s)[..|a|] && b == (b + t)[..|b|];
    assert s == (a + s)[|a|..] && t == (b + t)[|b|..];
  }

  /** The first byte tells the kind of the value. */
  lemma FirstByte(v: Value)
    ensures (Encode(v)[0] == CHAR_I <==> v.Int?) && (Encode(v)[0] == CHAR_L <==> v.List?)
    ensures (Encode(v)[0] == CHAR_D <==> v.Dict?) && (IsDigit(Encode(v)[0]) <==> v.Str?)
  {
  }

  /** The encoding is prefix-free, hence injective: reading it back is unambiguous. */
  lemma {:induction false} PrefixFree(a: Value, b: Value, s: seq<byte>, t: seq<byte>)
    requires Encode(a) + s == Encode(b) + t
    ensures a == b && s == t
    decreases a, 0
  {
    hide EncodeInt, EncodeStr, EncodeEntry;
    FirstByte(a);
    FirstByte(b);
    var whole := Encode(a) + s;
    assert whole[0] == Encode(a)[0] == Encode(b)[0];
    match a
    case Int(n) =>
      IntsPrefixFree(n, b.n, s, t);
    case Str(v) =>
      StrsPrefixFree(v, b.s, s, t);
    case List(items) =>
      assert whole[1..] == EncodeItems(items) + ([CHAR_E] + s);
      assert whole[1..] == EncodeItems(b.items) + ([CHAR_E] + t);
      ItemsPrefixFree(items, b.items, s, t);
    case Dict(entries) =>
      assert whole[1..] == EncodeEntries(entries) + ([CHAR_E] + s);
      assert whole[1..] == EncodeEntries(b.entries) + ([CHAR_E] + t);
      EntriesPrefixFree(entries, b.entries, s, t);
  }

  lemma {:induction false} ItemsPrefixFree(a: seq<Value>, b: seq<Value>, s: seq<byte>, t: seq<byte>)
    requires EncodeItems(a) + ([CHAR_E] + s) == EncodeItems(b) + ([CHAR_E] + t)
    ensures a == b && s == t
    decreases a, 1
  {
    hide EncodeInt, EncodeStr, DecimalString, Digits;
    var whole := EncodeItems(a) + ([CHAR_E] + s);
    if a == [] && b == [] {
      assert s == whole[1..] == t;
    } else if a == [] || b == [] {
      ItemsStart(a, [CHAR_E] + s);
      ItemsStart(b, [CHAR_E] + t);
      assert false;
    } else {
      assert whole == Encode(a[0]) + (EncodeItems(a[1..]) + ([CHAR_E] + s));
      assert whole == Encode(b[0]) + (EncodeItems(b[1..]) + ([CHAR_E] + t));
      PrefixFree(a[0], b[0], EncodeItems(a[1..]) + ([CHAR_E] + s), EncodeItems(b[1..]) + ([CHAR_E] + t));
      ItemsPrefixFree(a[1..], b[1..], s, t);
      assert a == [a[0]] + a[1..] && b == [b[0]] + b[1..];
    }
  }

  lemma {:induction false} EntryPrefixFree(a: Entry, b: Entry, s: seq<byte>, t: seq<byte>)
    requires EncodeEntry(a) + s == EncodeEntry(b) + t
    ensures a == b && s == t
    decreases a, 1
  {
    hide EncodeInt, DecimalString, Digits;
    assert EncodeEntry(a) + s == EncodeStr(a.key) + (Encode(a.value) + s);
    assert EncodeEntry(b) + t == EncodeStr(b.key) + (Encode(b.value) + t);
    StrsPrefixFree(a.key, b.key, Encode(a.value) + s, Encode(b.value) + t);
    PrefixFree(a.value, b.value, s, t);
  }

  lemma {:induction false} EntriesPrefixFree(a: seq<Entry>, b: seq<Entry>, s: seq<byte>, t: seq<byte>)
    requires EncodeEntries(a) + ([CHAR_E] + s) == EncodeEntries(b) + ([CHAR_E] + t)
    ensures a == b && s == t
    decreases a, 2
  {
    hide EncodeInt, EncodeStr, DecimalString, Digits, EncodeEntry;
    var whole := EncodeEntries(a) + ([CHAR_E] + s);
    if a == [] && b == [] {
      assert s == whole[1..] == t;
    } else if a == [] || b == [] {
      EntriesStart(a, [CHAR_E] + s);
      EntriesStart(b, [CHAR_E] + t);
      assert false;
    } else {
      assert whole == EncodeEntry(a[0]) + (EncodeEntries(a[1..]) + ([CHAR_E] + s));
      assert whole == EncodeEntry(b[0]) + (EncodeEntries(b[1..]) + ([CHAR_E] + t));
      EntryPrefixFree(a[0], b[0], EncodeEntries(a[1..]) + ([CHAR_E] + s), EncodeEntries(b[1..]) + ([CHAR_E] + t));
      EntriesPrefixFree(a[1..], b[1..], s, t);
      assert a == [a[0]] + a[1..] && b == [b[0]] + b[1..];
    }
  }

  /* ---- partly read lists and dictionaries ---- */

  lemma {:induction false} ItemsAppend(items: seq<Value>, x: Value)
    ensures EncodeItems(items + [x]) == EncodeItems(items) + Encode(x)
  {
    hide EncodeInt, EncodeStr, DecimalString, Digits;
    if items == [] {
      assert [x][1..] == [];
    } else {
      ItemsAppend(items[1..], x);
      assert (items + [x])[1..] == items[1..] + [x] && (items + [x])[0] == items[0];
      assert EncodeItems(items + [x]) == Encode(items[0]) + (EncodeItems(items[1..]) + Encode(x));
    }
  }

  lemma {:induction false} EntriesAppend(entries: seq<Entry>, x: Entry)
    ensures EncodeEntries(entries + [x]) == EncodeEntries(entries) + EncodeEntry(x)
  {
    hide EncodeInt, EncodeStr, DecimalString, Digits, EncodeEntry;
    if entries == [] {
      assert [x][1..] == [];
    } else {
      EntriesAppend(entries[1..], x);
      assert (entries + [x])[1..] == entries[1..] + [x] && (entries + [x])[0] == entries[0];
      assert EncodeEntries(entries + [x]) == EncodeEntry(entries[0]) + (EncodeEntries(entries[1..]) + EncodeEntry(x));
    }
  }

  /** If the text after the items read so far completes some list, that list extends these items. */
  lemma {:induction false} ItemsCut(read: seq<Value>, all: seq<Value>, remaining: seq<byte>, t: seq<byte>)
    requires EncodeItems(read) + remaining == EncodeItems(all) + ([CHAR_E] + t)
    ensures |read| <= |all| && read == all[..|read|]
    ensures remaining == EncodeItems(all[|read|..]) + ([CHAR_E] + t)
  {
    hide EncodeInt, EncodeStr, DecimalString, Digits;
    if read != [] {
      var whole := EncodeItems(read) + remaining;
      assert whole == Encode(read[0]) + (EncodeItems(read[1..]) + remaining);
      assert all != [] by {
        ItemsStart(all, [CHAR_E] + t);
        assert whole[0] == Encode(read[0])[0];
      }
      assert whole == Encode(all[0]) + (EncodeItems(all[1..]) + ([CHAR_E] + t));
      PrefixFree(read[0], all[0], EncodeItems(read[1..]) + remaining, EncodeItems(all[1..]) + ([CHAR_E] + t));
      ItemsCut(read[1..], all[1..], remaining, t);
      assert all[|read|..] == all[1..][|read| - 1..];
      assert read == [read[0]] + read[1..] && all[..|read|] == [all[0]] + all[1..][..|read| - 1];
    }
  }

  lemma {:induction false} EntriesCut(read: seq<Entry>, all: seq<Entry>, remaining: seq<byte>, t: seq<byte>)
    requires EncodeEntries(read) + remaining == EncodeEntries(all) + ([CHAR_E] + t)
    ensures |read| <= |all| && read == all[..|read|]
    ensures remaining == EncodeEntries(all[|read|..]) + ([CHAR_E] + t)
  {
    hide EncodeEntry, EncodeInt, EncodeStr, DecimalString, Digits;
    if read != [] {
      var whole := EncodeEntries(read) + remaining;
      assert whole == EncodeEntry(read[0]) + (EncodeEntries(read[1..]) + remaining);
      assert all != [] by {
        EntriesStart(all, [CHAR_E] + t);
        assert whole[0] == EncodeEntry(read[0])[0];
      }
      assert whole == EncodeEntry(all[0]) + (EncodeEntries(all[1..]) + ([CHAR_E] + t));
      EntryPrefixFree(read[0], all[0], EncodeEntries(read[1..]) + remaining, EncodeEntries(all[1..]) + ([CHAR_E] + t));
      EntriesCut(read[1..], all[1..], remaining, t);
      assert all[|read|..] == all[1..][|read| - 1..];
      assert read == [read[0]] + read[1..] && all[..|read|] == [all[0]] + all[1..][..|read| - 1];
    }
  }

  /* ---- the recursive descent ---- */

  predicate AllParseable(items: seq<Value>) {
    forall k | 0 <= k < |items| :: Parseable(items[k])
  }

  predicate EntriesParseable(entries: seq<Entry>) {
    && Ascending(entries)
    && forall k | 0 <= k < |entries| :: |entries[k].key| <= SIZE_MAX && Parseable(entries[k].value)
  }

  /** `parse_value`: succeeds exactly when a parseable tree's encoding is a prefix of the input, and consumes it. */
  method ParseValue(input: seq<byte>) returns (r: Result<Value>, rest: seq<byte>)
    ensures r.Ok? ==> Parseable(r.value) && input == Encode(r.value) + rest
    ensures forall v, t :: Parseable(v) && input == Encode(v) + t ==> r == Ok(v) && rest == t
    decreases |input|, 1
  {
    forall v, t | input == Encode(v) + t ensures |input| > 0 && input[0] == Encode(v)[0] {
    }
    r, rest := Err, [];
    if input == [] {
      return;
    }
    if input[0] == CHAR_I {
      var n, t := ParseInt(input);
      rest := t;
      r := if n.Ok? then Ok(Int(n.value)) else Err;
    } else if input[0] == CHAR_L {
      var items, t := ParseList(input);
      rest := t;
      r := if items.Ok? then Ok(List(items.value)) else Err;
    } else if input[0] == CHAR_D {
      var entries, t := ParseDict(input);
      rest := t;
      r := if entries.Ok? then Ok(Dict(entries.value)) else Err;
    } else if IsDigit(input[0]) {
      var s, t := ParseString(input);
      rest := t;
      r := if s.Ok? then Ok(Str(s.value)) else Err;
    }
    forall v, t | Parseable(v) && input == Encode(v) + t ensures r == Ok(v) && rest == t {
      FirstByte(v);
      match v
      case Int(n) => assert input == EncodeInt(n) + t;
      case Str(s) => assert input == EncodeStr(s) + t;
      case List(items) => assert AllParseable(items) && input == Encode(List(items)) + t;
      case Dict(entries) => assert EntriesParseable(entries) && input == Encode(Dict(entries)) + t;
    }
  }

  method ParseList(input: seq<byte>) returns (r: Result<seq<Value>>, rest: seq<byte>)
    ensures r.Ok? ==> AllParseable(r.value) && input == Encode(List(r.value)) + rest
    ensures forall xs, t :: AllParseable(xs) && input == Encode(List(xs)) + t ==> r == Ok(xs) && rest == t
    decreases |input|, 0
  {
    hide EncodeInt, EncodeStr, DecimalString, EncodeEntries;
    r, rest := Err, [];
    if input == [] || input[0] != CHAR_L {
      return;
    }
    var remaining := input[1..];
    ghost var body := remaining;
    var items := [];
    while remaining != [] && remaining[0] != CHAR_E
      invariant AllParseable(items) && |remaining| < |input|
      invariant body == EncodeItems(items) + remaining
      decreases |remaining|
    {
      var x, t := ParseValue(remaining);
      if x.Err? {
        NoListContinues(input, items, remaining);
        return;
      }
      ListGrows(body, items, remaining, x.value, t);
      items := items + [x.value];
      remaining := t;
    }
    if remaining == [] || remaining[0] != CHAR_E {
      NoListContinues(input, items, remaining);
      return;
    }
    r, rest := Ok(items), remaining[1..];
    WholeList(input, items, rest);
  }

  lemma ListBody(xs: seq<Value>, t: seq<byte>)
    ensures (Encode(List(xs)) + t)[1..] == EncodeItems(xs) + ([CHAR_E] + t)
  {
    hide EncodeInt, EncodeStr, DecimalString, Digits;
  }

  lemma DictBody(xs: seq<Entry>, t: seq<byte>)
    ensures (Encode(Dict(xs)) + t)[1..] == EncodeEntries(xs) + ([CHAR_E] + t)
  {
    hide EncodeInt, EncodeStr, DecimalString, Digits, EncodeEntry;
  }

  lemma ListGrows(body: seq<byte>, items: seq<Value>, remaining: seq<byte>, x: Value, t: seq<byte>)
    requires body == EncodeItems(items) + remaining && remaining == Encode(x) + t
    ensures body == EncodeItems(items + [x]) + t && |t| < |remaining|
  {
    hide EncodeInt, EncodeStr, DecimalString, Digits;
    ItemsAppend(items, x);
  }

  lemma DictGrows(body: seq<byte>, dict: seq<Entry>, remaining: seq<byte>, x: Entry, t: seq<byte>)
    requires body == EncodeEntries(dict) + remaining && remaining == EncodeEntry(x) + t
    requires EntriesParseable(dict) && Follows(dict, x)
    ensures body == EncodeEntries(dict + [x]) + t && |t| < |remaining|
    ensures EntriesParseable(dict + [x])
  {
    hide EncodeInt, EncodeStr, DecimalString, Digits, EncodeEntry;
    EntriesAppend(dict, x);
  }

  lemma WholeList(input: seq<byte>, items: seq<Value>, rest: seq<byte>)
    requires |input| > 0 && input[0] == CHAR_L && input[1..] == EncodeItems(items) + ([CHAR_E] + rest)
    ensures input == Encode(List(items)) + rest
    ensures forall xs, t :: input == Encode(List(xs)) + t ==> xs == items && t == rest
  {
    hide EncodeInt, EncodeStr, DecimalString, Digits;
    assert input == Encode(List(items)) + rest;
    forall xs, t | input == Encode(List(xs)) + t ensures xs == items && t == rest {
      PrefixFree(List(items), List(xs), rest, t);
    }
  }

  lemma WholeDict(input: seq<byte>, dict: seq<Entry>, rest: seq<byte>)
    requires |input| > 0 && input[0] == CHAR_D && input[1..] == EncodeEntries(dict) + ([CHAR_E] + rest)
    ensures input == Encode(Dict(dict)) + rest
    ensures forall xs, t :: input == Encode(Dict(xs)) + t ==> xs == dict && t == rest
  {
    hide EncodeInt, EncodeStr, DecimalString, Digits, EncodeEntry;
    assert input == Encode(Dict(dict)) + rest;
    forall xs, t | input == Encode(Dict(xs)) + t ensures xs == dict && t == rest {
      PrefixFree(Dict(dict), Dict(xs), rest, t);
    }
  }

  lemma SplitItems(xs: seq<Value>, u: seq<byte>)
    ensures xs != [] ==> EncodeItems(xs) + u == Encode(xs[0]) + (EncodeItems(xs[1..]) + u)
    ensures xs == [] ==> EncodeItems(xs) + u == u
  {
    hide EncodeInt, EncodeStr, DecimalString, Digits;
  }

  lemma SplitEntries(xs: seq<Entry>, u: seq<byte>)
    ensures xs != [] ==> EncodeEntries(xs) + u == EncodeEntry(xs[0]) + (EncodeEntries(xs[1..]) + u)
    ensures xs == [] ==> EncodeEntries(xs) + u == u
  {
    hide EncodeInt, EncodeStr, DecimalString, Digits, EncodeEntry;
  }

  /** What the text after the items read so far looks like when the whole is a list. */
  lemma NextItem(input: seq<byte>, items: seq<Value>, remaining: seq<byte>, xs: seq<Value>, t: seq<byte>)
    returns (after: seq<byte>)
    requires |input| > 0 && input[1..] == EncodeItems(items) + remaining
    requires input == Encode(List(xs)) + t
    ensures |items| <= |xs| && |remaining| > 0
    ensures |items| == |xs| ==> remaining[0] == CHAR_E
    ensures |items| < |xs| ==> remaining == Encode(xs[|items|]) + after
  {
    hide EncodeInt, EncodeStr, DecimalString, Digits;
    ListBody(xs, t);
    ItemsCut(items, xs, remaining, t);
    SplitItems(xs[|items|..], [CHAR_E] + t);
    after := if |items| < |xs| then EncodeItems(xs[|items|..][1..]) + ([CHAR_E] + t) else [];
  }

  ghost predicate NoValueStarts(s: seq<byte>) {
    forall v, t :: Parseable(v) ==> s != Encode(v) + t
  }

  lemma NoListContinues(input: seq<byte>, items: seq<Value>, remaining: seq<byte>)
    requires |input| > 0 && input[1..] == EncodeItems(items) + remaining
    requires remaining == [] || remaining[0] != CHAR_E
    requires remaining == [] || NoValueStarts(remaining)
    ensures forall xs, t :: AllParseable(xs) ==> input != Encode(List(xs)) + t
  {
    hide EncodeInt, EncodeStr, DecimalString, Digits;
    forall xs, t | AllParseable(xs) ensures input != Encode(List(xs)) + t {
      if input == Encode(List(xs)) + t {
        var after := NextItem(input, items, remaining, xs, t);
        assert false;
      }
    }
  }

  method ParseDict(input: seq<byte>) returns (r: Result<seq<Entry>>, rest: seq<byte>)
    ensures r.Ok? ==> EntriesParseable(r.value) && input == Encode(Dict(r.value)) + rest
    ensures forall xs, t :: EntriesParseable(xs) && input == Encode(Dict(xs)) + t ==> r == Ok(xs) && rest == t
    decreases |input|, 0
  {
    hide EncodeInt, EncodeStr, DecimalString, EncodeItems, EncodeEntry;
    r, rest := Err, [];
    if input == [] || input[0] != CHAR_D {
      return;
    }
    var remaining := input[1..];
    ghost var body := remaining;
    var dict := [];
    while remaining != [] && remaining[0] != CHAR_E
      invariant EntriesParseable(dict) && |remaining| < |input|
      invariant body == EncodeEntries(dict) + remaining
      decreases |remaining|
    {
      var entry, t := ParseEntry(remaining, dict);
      if entry.Err? {
        NoDictContinues(input, dict, remaining);
        return;
      }
      DictGrows(body, dict, remaining, entry.value, t);
      dict := dict + [entry.value];
      remaining := t;
    }
    if remaining == [] || remaining[0] != CHAR_E {
      NoDictContinues(input, dict, remaining);
      return;
    }
    r, rest := Ok(dict), remaining[1..];
    WholeDict(input, dict, rest);
  }

  /** What an entry must satisfy to follow the entries read so far. */
  predicate Follows(dict: seq<Entry>, x: Entry) {
    && |x.key| <= SIZE_MAX && Parseable(x.value)
    && (dict != [] ==> Less(dict[|dict| - 1].key, x.key))
  }

  /** One round of the dictionary loop: a key above the last one, then its value. */
  method ParseEntry(input: seq<byte>, dict: seq<Entry>) returns (r: Result<Entry>, rest: seq<byte>)
    ensures r.Ok? ==> Follows(dict, r.value) && input == EncodeEntry(r.value) + rest
    ensures r.Err? ==> NoEntryFollows(dict, input)
    decreases |input|, 2
  {
    hide EncodeStr;
    forall x, t | input == EncodeEntry(x) + t ensures input == EncodeStr(x.key) + (Encode(x.value) + t) {
    }
    r, rest := Err, [];
    var key, afterKey := ParseString(input);
    if key.Err? {
      return;
    }
    if dict != [] {
      LessIsTotal(dict[|dict| - 1].key, key.value);
      if key.value == dict[|dict| - 1].key || Less(key.value, dict[|dict| - 1].key) {
        return;
      }
    }
    var val, t := ParseValue(afterKey);
    if val.Err? {
      return;
    }
    r, rest := Ok(Entry(key.value, val.value)), t;
    assert input == EncodeEntry(r.value) + rest;
  }

  lemma NextEntry(input: seq<byte>, dict: seq<Entry>, remaining: seq<byte>, xs: seq<Entry>, t: seq<byte>)
    returns (after: seq<byte>)
    requires |input| > 0 && input[1..] == EncodeEntries(dict) + remaining
    requires input == Encode(Dict(xs)) + t
    ensures |dict| <= |xs| && dict == xs[..|dict|] && |remaining| > 0
    ensures |dict| == |xs| ==> remaining[0] == CHAR_E
    ensures |dict| < |xs| ==> remaining == EncodeEntry(xs[|dict|]) + after
    ensures |dict| < |xs| && EntriesParseable(xs) ==> Follows(dict, xs[|dict|])
  {
    hide EncodeInt, EncodeStr, DecimalString, Digits, EncodeEntry;
    DictBody(xs, t);
    EntriesCut(dict, xs, remaining, t);
    SplitEntries(xs[|dict|..], [CHAR_E] + t);
    after := if |dict| < |xs| then EncodeEntries(xs[|dict|..][1..]) + ([CHAR_E] + t) else [];
  }

  ghost predicate NoEntryFollows(dict: seq<Entry>, s: seq<byte>) {
    forall x, t :: Follows(dict, x) ==> s != EncodeEntry(x) + t
  }

  lemma NoDictContinues(input: seq<byte>, dict: seq<Entry>, remaining: seq<byte>)
    requires |input| > 0 && input[1..] == EncodeEntries(dict) + remaining
    requires remaining == [] || remaining[0] != CHAR_E
    requires remaining == [] || NoEntryFollows(dict, remaining)
    ensures forall xs, t :: EntriesParseable(xs) ==> input != Encode(Dict(xs)) + t
  {
    hide EncodeInt, EncodeStr, DecimalString, Digits, EncodeEntry;
    forall xs, t | EntriesParseable(xs) ensures input != Encode(Dict(xs)) + t {
      if input == Encode(Dict(xs)) + t {
        var after := NextEntry(input, dict, remaining, xs, t);
        assert false;
      }
    }
  }

  /** `parse`: the whole input must be one encoding. */
  method Parse(input: seq<byte>) returns (r: Result<Value>)
    ensures r.Ok? ==> Parseable(r.value) && Encode(r.value) == input
    ensures forall v :: Parseable(v) && Encode(v) == input ==> r == Ok(v)
  {
    var v, remaining := ParseValue(input);
    forall w | Encode(w) == input ensures input == Encode(w) + [] {
    }
    if v.Err? {
      return Err;
    }
    if remaining != [] {
      return Err;
    }
    assert Encode(v.value) + [] == Encode(v.value);
    return v;
  }

  /* ---- encode_value ---- */

  /** `encode_value` appends to the output vector, item by item and entry by entry. */
  method EncodeValue(v: Value, out: seq<byte>) returns (r: seq<byte>)
    ensures r == out + Encode(v)
    decreases v, 0
  {
    match v
    case Int(n) =>
      r := out + [CHAR_I] + DecimalString(n) + [CHAR_E];
    case Str(s) =>
      r := AppendString(s, out);
    case List(items) =>
      r := AppendItems(items, out + [CHAR_L]);
      r := r + [CHAR_E];
    case Dict(entries) =>
      r := AppendEntries(entries, out + [CHAR_D]);
      r := r + [CHAR_E];
  }

  method AppendString(s: seq<byte>, out: seq<byte>) returns (r: seq<byte>)
    ensures r == out + EncodeStr(s)
  {
    r := out + DecimalString(|s|);
    r := r + [COLON];
    r := r + s;
  }

  method AppendItems(items: seq<Value>, out: seq<byte>) returns (r: seq<byte>)
    ensures r == out + EncodeItems(items)
    decreases items, 1
  {
    hide EncodeInt, EncodeStr, DecimalString, Digits;
    r := out;
    for k := 0 to |items|
      invariant r == out + EncodeItems(items[..k])
    {
      r := EncodeValue(items[k], r);
      ItemsAppend(items[..k], items[k]);
      assert items[..k + 1] == items[..k] + [items[k]];
    }
    assert items[..|items|] == items;
  }

  method AppendEntries(entries: seq<Entry>, out: seq<byte>) returns (r: seq<byte>)
    ensures r == out + EncodeEntries(entries)
    decreases entries, 1
  {
    hide EncodeInt, DecimalString, Digits;
    r := out;
    for k := 0 to |entries|
      invariant r == out + EncodeEntries(entries[..k])
    {
      r := AppendString(entries[k].key, r);
      r := EncodeValue(entries[k].value, r);
      EntriesAppend(entries[..k], entries[k]);
      assert entries[..k + 1] == entries[..k] + [entries[k]];
    }
    assert entries[..|entries|] == entries;
  }

  /* ---- INT64_MIN ---- */

  const INT64_MIN := -0x8000_0000_0000_0000

  /** `encode_value` can print INT64_MIN, but no parse accepts any text starting with that encoding. */
  lemma MinimumUnparseable(t: seq<byte>)
    ensures forall v, u :: Parseable(v) ==> Encode(Int(INT64_MIN)) + t != Encode(v) + u
  {
    forall v, u | Parseable(v) && Encode(Int(INT64_MIN)) + t == Encode(v) + u ensures false {
      PrefixFree(Int(INT64_MIN), v, t, u);
    }
  }
}
