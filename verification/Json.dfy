/** The canonical JSON text of a payload: sorted keys, no whitespace, ASCII
    only, with the string escapes of section 7 of RFC 8259. A reader of that
    text is its partner: reading what was written gives the value back. */
module Json {
  import opened Text

  // ---- numbers ----

  predicate IsNumeric(c: char) {
    IsDigit(c) || c == '.' || c == 'e' || c == '+' || c == '-'
  }

  function Unsigned(t: string): string {
    if t != "" && t[0] == '-' then t[1..] else t
  }

  predicate IsIntText(t: string) {
    Unsigned(t) != "" && AllDigits(Unsigned(t))
  }

  function DigitRun(s: string): (n: nat)
    ensures n <= |s| && AllDigits(s[..n]) && (n < |s| ==> !IsDigit(s[n]))
  {
    if s == "" || !IsDigit(s[0]) then 0 else 1 + DigitRun(s[1..])
  }

  predicate IsExponent(u: string) {
    |u| >= 3 && u[0] == 'e' && (u[1] == '+' || u[1] == '-') && AllDigits(u[2..])
  }

  // A fraction, an exponent, or both, after the integer digits.
  predicate IsFraction(u: string) {
    u != "" &&
    if u[0] == '.' then
      var n := DigitRun(u[1..]);
      n > 0 && (n + 1 == |u| || IsExponent(u[n + 1..]))
    else IsExponent(u)
  }

  predicate IsFloatText(t: string) {
    && (forall i :: 0 <= i < |t| ==> IsNumeric(t[i]))
    && (var u := Unsigned(t); var n := DigitRun(u); n > 0 && IsFraction(u[n..]))
  }

  // A finite double, as the shortest text that reads back as it: 0.05, 1e-09.
  type FloatText = t: string | IsFloatText(t) witness "0.0"

  datatype Value =
    | Null
    | Bool(b: bool)
    | Num(n: int)
    | Float(text: FloatText)
    | Str(s: string)
    | Arr(items: seq<Value>)
    | Obj(fields: map<string, Value>)

  // ---- sorted keys ----

  predicate Least(k: string, keys: set<string>) {
    k in keys && forall j :: j in keys && j != k ==> Less(k, j)
  }

  lemma {:induction false} LeastExists(keys: set<string>)
    requires keys != {}
    ensures exists k :: Least(k, keys)
    decreases |keys|
  {
    var x :| x in keys;
    if keys == {x} {
      assert Least(x, keys);
    } else {
      var rest := keys - {x};
      assert keys == rest + {x};
      LeastExists(rest);
      var m :| Least(m, rest);
      LessTotal(x, m);
      if Less(x, m) {
        forall j | j in keys && j != x ensures Less(x, j) {
          if j != m { LessTransitive(x, m, j); }
        }
        assert Least(x, keys);
      } else {
        assert Least(m, keys);
      }
    }
  }

  lemma LeastUnique(keys: set<string>)
    ensures forall j, k :: Least(j, keys) && Least(k, keys) ==> j == k
  {
    forall j, k | Least(j, keys) && Least(k, keys) ensures j == k {
      if j != k { LessAsymmetric(j, k); }
    }
  }

  function SortedKeys(keys: set<string>): (ks: seq<string>)
    ensures forall k :: k in ks <==> k in keys
    decreases |keys|
  {
    if keys == {} then []
    else
      LeastExists(keys);
      LeastUnique(keys);
      var k :| Least(k, keys);
      [k] + SortedKeys(keys - {k})
  }

  // The keys do come out in order, each of them once.
  lemma FirstKey(keys: set<string>)
    requires SortedKeys(keys) != []
    ensures var ks := SortedKeys(keys); Least(ks[0], keys) && ks[1..] == SortedKeys(keys - {ks[0]})
  {
    hide Least;
    LeastExists(keys);
    LeastUnique(keys);
  }

  lemma {:induction false} SortedKeysInOrder(keys: set<string>, i: nat, j: nat)
    requires i < j < |SortedKeys(keys)|
    ensures Less(SortedKeys(keys)[i], SortedKeys(keys)[j])
    decreases |keys|
  {
    hide Less;
    hide SortedKeys;
    var ks := SortedKeys(keys);
    FirstKey(keys);
    if i == 0 {
      assert ks[1..][j - 1] in ks[1..];
    } else {
      SortedKeysInOrder(keys - {ks[0]}, i - 1, j - 1);
    }
  }

  // ---- string escapes ----

  function Hex(d: nat): char
    requires d < 16
  {
    if d < 10 then Digit(d) else ('a' as int + (d - 10)) as char
  }

  function Hex4(n: nat): (s: string)
    requires n < 0x10000
    ensures |s| == 4
  {
    [Hex(n / 16 / 16 / 16), Hex(n / 16 / 16 % 16), Hex(n / 16 % 16), Hex(n % 16)]
  }

  predicate IsHex(c: char) {
    IsDigit(c) || 'a' <= c <= 'f'
  }

  function HexValue(c: char): (d: nat)
    requires IsHex(c)
    ensures d < 16
  {
    if IsDigit(c) then DigitValue(c) else c as int - 'a' as int + 10
  }

  predicate StartsHex4(s: string) {
    |s| >= 4 && IsHex(s[0]) && IsHex(s[1]) && IsHex(s[2]) && IsHex(s[3])
  }

  function ReadHex4(s: string): (n: nat)
    requires StartsHex4(s)
    ensures n < 0x10000
  {
    ((HexValue(s[0]) * 16 + HexValue(s[1])) * 16 + HexValue(s[2])) * 16 + HexValue(s[3])
  }

  lemma HexValueHex(d: nat)
    requires d < 16
    ensures IsHex(Hex(d)) && HexValue(Hex(d)) == d
  {
  }

  lemma ReadHex4Hex4(n: nat, rest: string)
    requires n < 0x10000
    ensures StartsHex4(Hex4(n) + rest) && ReadHex4(Hex4(n) + rest) == n
  {
    HexValueHex(n / 16 / 16 / 16);
    HexValueHex(n / 16 / 16 % 16);
    HexValueHex(n / 16 % 16);
    HexValueHex(n % 16);
  }

  function Escape(c: char): (s: string)
    ensures |s| > 0
  {
    var n := c as int;
    if c == '"' then "\\\""
    else if c == '\\' then "\\\\"
    else if n == 10 then "\\n"
    else if n == 13 then "\\r"
    else if n == 9 then "\\t"
    else if n == 12 then "\\f"
    else if n == 8 then "\\b"
    else if 32 <= n <= 126 then [c]
    else if n < 0x10000 then "\\u" + Hex4(n)
    else "\\u" + Hex4(0xD800 + (n - 0x10000) / 0x400) + "\\u" + Hex4(0xDC00 + (n - 0x10000) % 0x400)
  }

  function EscapeAll(s: string): string {
    if s == "" then "" else Escape(s[0]) + EscapeAll(s[1..])
  }

  function Quote(s: string): string {
    "\"" + EscapeAll(s) + "\""
  }

  // One escaped character off the front of s, and what is left.
  function ReadEscape(s: string): (r: Option<(char, string)>)
    ensures r.Some? ==> |r.value.1| < |s|
  {
    if s == "" || s[0] == '"' then None
    else if s[0] != '\\' then Some((s[0], s[1..]))
    else if |s| < 2 then None
    else
      var c := s[1];
      if c == '"' || c == '\\' || c == '/' then Some((c, s[2..]))
      else if c == 'n' then Some((10 as char, s[2..]))
      else if c == 'r' then Some((13 as char, s[2..]))
      else if c == 't' then Some((9 as char, s[2..]))
      else if c == 'f' then Some((12 as char, s[2..]))
      else if c == 'b' then Some((8 as char, s[2..]))
      else if c != 'u' then None
      else if !StartsHex4(s[2..]) then None
      else
        var hi := ReadHex4(s[2..]);
        if hi < 0xD800 || 0xE000 <= hi then Some((hi as char, s[6..]))
        else if hi >= 0xDC00 || |s| < 8 || s[6] != '\\' || s[7] != 'u' || !StartsHex4(s[8..]) then None
        else
          var lo := ReadHex4(s[8..]);
          if 0xDC00 <= lo < 0xE000
          then Some((((hi - 0xD800) * 0x400 + (lo - 0xDC00) + 0x10000) as char, s[12..]))
          else None
  }

  lemma ReadEscapeLow(c: char, rest: string)
    requires c as int < 0x10000
    ensures ReadEscape("\\u" + Hex4(c as int) + rest) == Some((c, rest))
  {
    var s := "\\u" + Hex4(c as int) + rest;
    assert s[2..] == Hex4(c as int) + rest;
    ReadHex4Hex4(c as int, rest);
    assert s[6..] == rest;
  }

  // A high and a low surrogate, however they were written.
  lemma ReadEscapeSurrogates(s: string, hi: nat, lo: nat)
    requires |s| >= 12 && s[0] == '\\' && s[1] == 'u' && s[6] == '\\' && s[7] == 'u'
    requires StartsHex4(s[2..]) && ReadHex4(s[2..]) == hi && 0xD800 <= hi < 0xDC00
    requires StartsHex4(s[8..]) && ReadHex4(s[8..]) == lo && 0xDC00 <= lo < 0xE000
    ensures ReadEscape(s) == Some((((hi - 0xD800) * 0x400 + (lo - 0xDC00) + 0x10000) as char, s[12..]))
  {
  }

  lemma HexPrefix(s: string, n: nat, rest: string)
    requires n < 0x10000 && s == Hex4(n) + rest
    ensures StartsHex4(s) && ReadHex4(s) == n && s[4..] == rest
  {
    ReadHex4Hex4(n, rest);
  }

  lemma ReadEscapePair(c: char, hi: nat, lo: nat, rest: string)
    requires 0xD800 <= hi < 0xDC00 <= lo < 0xE000
    requires c as int == (hi - 0xD800) * 0x400 + (lo - 0xDC00) + 0x10000
    ensures ReadEscape("\\u" + Hex4(hi) + "\\u" + Hex4(lo) + rest) == Some((c, rest))
  {
    var a, b := Hex4(hi), Hex4(lo);
    var s := "\\u" + a + "\\u" + b + rest;
    assert s[2..] == a + ("\\u" + b + rest);
    assert s[8..] == b + rest;
    HexPrefix(s[2..], hi, "\\u" + b + rest);
    HexPrefix(s[8..], lo, rest);
    assert s[12..] == rest;
    ReadEscapeSurrogates(s, hi, lo);
  }

  lemma ReadEscapeEscape(c: char, rest: string)
    ensures ReadEscape(Escape(c) + rest) == Some((c, rest))
    ensures (Escape(c) + rest)[0] != '"'
  {
    var n := c as int;
    var s := Escape(c) + rest;
    if c == '"' || c == '\\' || n in {8, 9, 10, 12, 13} {
      assert s[2..] == rest;
    } else if 32 <= n <= 126 {
      assert s[1..] == rest;
    } else if n < 0x10000 {
      ReadEscapeLow(c, rest);
    } else {
      var k := n - 0x10000;
      ReadEscapePair(c, 0xD800 + k / 0x400, 0xDC00 + k % 0x400, rest);
    }
  }

  // The characters up to the closing quote, and what follows it.
  function ReadChars(s: string): (r: Option<(string, string)>)
    ensures r.Some? ==> |r.value.1| < |s|
    decreases |s|
  {
    if s == "" then None
    else if s[0] == '"' then Some(("", s[1..]))
    else match ReadEscape(s)
      case None => None
      case Some((c, s')) =>
        match ReadChars(s')
        case None => None
        case Some((t, rest)) => Some(([c] + t, rest))
  }

  lemma {:induction false} ReadCharsEscapeAll(t: string, rest: string)
    ensures ReadChars(EscapeAll(t) + "\"" + rest) == Some((t, rest))
  {
    hide ReadEscape;
    hide Escape;
    var s := EscapeAll(t) + "\"" + rest;
    if t == "" {
      assert s == "\"" + rest;
      assert s[1..] == rest;
    } else {
      var s' := EscapeAll(t[1..]) + "\"" + rest;
      assert s == Escape(t[0]) + s';
      ReadEscapeEscape(t[0], s');
      ReadCharsEscapeAll(t[1..], rest);
      assert t == [t[0]] + t[1..];
    }
  }

  // ---- writing ----

  function Dumps(v: Value): (s: string)
    ensures |s| > 0 && s[0] != ']' && s[0] != '}' && s[0] != ','
    decreases v, 1, 0
  {
    match v
    case Null => "null"
    case Bool(b) => if b then "true" else "false"
    case Num(n) => NumText(n)
    case Float(t) => t
    case Str(s) => Quote(s)
    case Arr(items) => "[" + DumpItems(v, 0)
    case Obj(fields) => "{" + DumpFields(v, SortedKeys(fields.Keys), true)
  }

  function NumText(n: int): (s: string)
    ensures |s| > 0 && (s[0] == '-' || IsDigit(s[0]))
  {
    DecInt(n)
  }

  // Elements i.. of an array, through its closing bracket.
  function DumpItems(v: Value, i: nat): (s: string)
    requires v.Arr? && i <= |v.items|
    ensures |s| > 0 && (i > 0 ==> !IsNumeric(s[0]))
    decreases v, 0, |v.items| - i
  {
    if i == |v.items| then "]"
    else (if i == 0 then "" else ",") + Dumps(v.items[i]) + DumpItems(v, i + 1)
  }

  // The named members of an object, through its closing brace.
  function DumpFields(v: Value, ks: seq<string>, first: bool): (s: string)
    requires v.Obj? && forall k :: k in ks ==> k in v.fields
    ensures |s| > 0 && !IsNumeric(s[0])
    decreases v, 0, |ks|
  {
    if ks == [] then "}"
    else (if first then "" else ",") + Quote(ks[0]) + ":" + Dumps(v.fields[ks[0]]) + DumpFields(v, ks[1..], false)
  }

  // ---- reading ----

  // The number characters at the front.
  function NumericRun(s: string): (n: nat)
    ensures n <= |s| && (n < |s| ==> !IsNumeric(s[n]))
  {
    if s == "" || !IsNumeric(s[0]) then 0 else 1 + NumericRun(s[1..])
  }

  function ReadNum(s: string): (r: Option<(Value, string)>)
    ensures r.Some? ==> |r.value.1| < |s|
  {
    var n := NumericRun(s);
    var t := s[..n];
    if IsIntText(t) then
      var m: int := ParseNat(Unsigned(t));
      Some((Num(if t[0] == '-' then -m else m), s[n..]))
    else if IsFloatText(t) then Some((Float(t), s[n..]))
    else None
  }

  function Read(s: string): (r: Option<(Value, string)>)
    ensures r.Some? ==> |r.value.1| < |s|
    decreases |s|, 0
  {
    if s == "" then None
    else if s[0] == '"' then
      match ReadChars(s[1..])
      case None => None
      case Some((t, rest)) => Some((Str(t), rest))
    else if s[0] == '[' then
      match ReadItems(s[1..], true)
      case None => None
      case Some((items, rest)) => Some((Arr(items), rest))
    else if s[0] == '{' then
      match ReadFields(s[1..], true)
      case None => None
      case Some((fields, rest)) => Some((Obj(fields), rest))
    else if "null" <= s then Some((Null, s[4..]))
    else if "true" <= s then Some((Bool(true), s[4..]))
    else if "false" <= s then Some((Bool(false), s[5..]))
    else ReadNum(s)
  }

  function ReadItems(s: string, first: bool): (r: Option<(seq<Value>, string)>)
    ensures r.Some? ==> |r.value.1| < |s|
    decreases |s|, 1
  {
    if s == "" then None
    else if s[0] == ']' then Some(([], s[1..]))
    else if !first && s[0] != ',' then None
    else
      match Read(if first then s else s[1..])
      case None => None
      case Some((v, s')) =>
        match ReadItems(s', false)
        case None => None
        case Some((vs, rest)) => Some(([v] + vs, rest))
  }

  // A key that occurs twice keeps its last value.
  function ReadFields(s: string, first: bool): (r: Option<(map<string, Value>, string)>)
    ensures r.Some? ==> |r.value.1| < |s|
    decreases |s|, 1
  {
    if s == "" then None
    else if s[0] == '}' then Some((map[], s[1..]))
    else if !first && s[0] != ',' then None
    else
      var t := if first then s else s[1..];
      if t == "" || t[0] != '"' then None
      else match ReadChars(t[1..])
        case None => None
        case Some((k, u)) =>
          if u == "" || u[0] != ':' then None
          else match Read(u[1..])
            case None => None
            case Some((v, s')) =>
              match ReadFields(s', false)
              case None => None
              case Some((m, rest)) => Some((map[k := v] + m, rest))
  }

  // The whole text is one value.
  function Loads(s: string): Option<Value> {
    match Read(s)
    case None => None
    case Some((v, rest)) => if rest == "" then Some(v) else None
  }

  // ---- reading back what was written ----

  lemma {:induction false} NumericRunOf(t: string, rest: string)
    requires (forall i :: 0 <= i < |t| ==> IsNumeric(t[i])) && (rest == "" || !IsNumeric(rest[0]))
    ensures NumericRun(t + rest) == |t| && (t + rest)[..|t|] == t && (t + rest)[|t|..] == rest
  {
    if t == "" {
      assert t + rest == rest;
    } else {
      assert (t + rest)[1..] == t[1..] + rest;
      NumericRunOf(t[1..], rest);
    }
  }

  lemma ReadNumText(n: int, rest: string)
    requires rest == "" || !IsNumeric(rest[0])
    ensures ReadNum(NumText(n) + rest) == Some((Num(n), rest))
  {
    var a: nat := if n < 0 then -n else n;
    var t := NumText(n);
    assert Unsigned(t) == Dec(a);
    ParseDec(a);
    NumericRunOf(t, rest);
  }

  // A text with a fraction or an exponent is not an integer's.
  lemma FloatNotInt(t: FloatText)
    ensures !IsIntText(t)
  {
    var u := Unsigned(t);
    var n := DigitRun(u);
    assert u[n..][0] == u[n];
  }

  lemma ReadFloatText(t: FloatText, rest: string)
    requires rest == "" || !IsNumeric(rest[0])
    ensures ReadNum(t + rest) == Some((Float(t), rest))
  {
    hide IsIntText;
    FloatNotInt(t);
    NumericRunOf(t, rest);
  }

  // Cutting one character, and then one known piece, off a longer text.
  lemma CutHead(c: char, a: string, b: string)
    ensures [c] + a + b == [c] + (a + b) && ([c] + a + b)[1..] == a + b && ([c] + a + b)[0] == c
  {
    assert [c] + a + b == [c] + (a + b);
  }

  lemma ReadQuote(t: string, rest: string)
    ensures Quote(t) + rest != "" && (Quote(t) + rest)[0] == '"'
    ensures ReadChars((Quote(t) + rest)[1..]) == Some((t, rest))
  {
    var e := EscapeAll(t);
    assert Quote(t) == ['"'] + (e + "\"");
    CutHead('"', e + "\"", rest);
    ReadCharsEscapeAll(t, rest);
  }

  lemma {:induction false} ReadDumps(v: Value, rest: string)
    requires rest == "" || !IsNumeric(rest[0])
    ensures Read(Dumps(v) + rest) == Some((v, rest))
    decreases v, 1, 0
  {
    match v
    case Null => ReadWord(v, rest);
    case Bool(_) => ReadWord(v, rest);
    case Num(_) => ReadNumber(v, rest);
    case Float(_) => ReadNumber(v, rest);
    case Str(_) => ReadString(v, rest);
    case Arr(_) =>
      ReadDumpItems(v, 0, rest);
      ReadArray(v, rest);
    case Obj(fields) =>
      ReadDumpFields(v, SortedKeys(fields.Keys), true, rest);
      ReadObject(v, rest);
  }

  // Text that starts like a number is read as one.
  lemma NumberFirst(s: string)
    requires s != "" && (IsDigit(s[0]) || s[0] == '-')
    ensures Read(s) == ReadNum(s)
  {
    hide ReadNum;
  }

  lemma NumberStart(v: Value)
    requires v.Num? || v.Float?
    ensures IsDigit(Dumps(v)[0]) || Dumps(v)[0] == '-'
  {
    hide IsFraction;
  }

  lemma ReadNumber(v: Value, rest: string)
    requires (v.Num? || v.Float?) && (rest == "" || !IsNumeric(rest[0]))
    ensures Read(Dumps(v) + rest) == Some((v, rest))
  {
    hide NumText;
    hide ReadNum;
    hide Read;
    NumberStart(v);
    NumberFirst(Dumps(v) + rest);
    if v.Num? { ReadNumText(v.n, rest); } else { ReadFloatText(v.text, rest); }
  }

  lemma ReadString(v: Value, rest: string)
    requires v.Str?
    ensures Read(Dumps(v) + rest) == Some((v, rest))
  {
    ReadQuote(v.s, rest);
  }

  lemma ReadArray(v: Value, rest: string)
    requires v.Arr? && ReadItems(DumpItems(v, 0) + rest, true) == Some((v.items[0..], rest))
    ensures Read(Dumps(v) + rest) == Some((v, rest))
  {
    CutHead('[', DumpItems(v, 0), rest);
    assert v.items[0..] == v.items;
  }

  lemma ReadObject(v: Value, rest: string)
    requires v.Obj?
    requires ReadFields(DumpFields(v, SortedKeys(v.fields.Keys), true) + rest, true)
          == Some((map k | k in SortedKeys(v.fields.Keys) :: v.fields[k], rest))
    ensures Read(Dumps(v) + rest) == Some((v, rest))
  {
    var ks := SortedKeys(v.fields.Keys);
    CutHead('{', DumpFields(v, ks, true), rest);
    assert v.fields == map k | k in ks :: v.fields[k];
  }

  lemma ReadWord(v: Value, rest: string)
    requires v.Null? || v.Bool?
    ensures Read(Dumps(v) + rest) == Some((v, rest))
  {
    var s := Dumps(v) + rest;
    assert s[|Dumps(v)|..] == rest;
  }

  lemma {:induction false} ReadDumpItems(v: Value, i: nat, rest: string)
    requires v.Arr? && i <= |v.items|
    ensures ReadItems(DumpItems(v, i) + rest, i == 0) == Some((v.items[i..], rest))
    decreases v, 0, |v.items| - i
  {
    hide Dumps;
    hide Read;
    if i == |v.items| {
      assert DumpItems(v, i) == "]";
      var s := "]" + rest;
      assert DumpItems(v, i) + rest == s && s[0] == ']' && s[1..] == rest;
      assert v.items[i..] == [];
    } else {
      ReadDumps(v.items[i], DumpItems(v, i + 1) + rest);
      ReadDumpItems(v, i + 1, rest);
      DumpItemsStep(v, i, rest);
      ReadItemsStep(DumpItems(v, i) + rest, i == 0, v.items[i], DumpItems(v, i + 1) + rest, v.items[i + 1..], rest);
      assert v.items[i..] == [v.items[i]] + v.items[i + 1..];
    }
  }

  lemma DumpItemsStep(v: Value, i: nat, rest: string)
    requires v.Arr? && i < |v.items|
    ensures DumpItems(v, i) + rest
         == (if i == 0 then "" else ",") + (Dumps(v.items[i]) + (DumpItems(v, i + 1) + rest))
  {
  }

  lemma ReadItemsStep(s: string, first: bool, v: Value, tail: string, vs: seq<Value>, rest: string)
    requires s == (if first then "" else ",") + (Dumps(v) + tail)
    requires Read(Dumps(v) + tail) == Some((v, tail)) && ReadItems(tail, false) == Some((vs, rest))
    ensures ReadItems(s, first) == Some(([v] + vs, rest))
  {
    assert Dumps(v) + tail == if first then s else s[1..];
  }

  // One member read off the front.
  lemma ReadMember(t: string, k: string, w: Value, tail: string)
    requires t == Quote(k) + (":" + (Dumps(w) + tail))
    requires Read(Dumps(w) + tail) == Some((w, tail))
    ensures t != "" && t[0] == '"' && ReadChars(t[1..]).Some?
    ensures var (k', u) := ReadChars(t[1..]).value;
            k' == k && u != "" && u[0] == ':' && Read(u[1..]) == Some((w, tail))
  {
    var u := ":" + (Dumps(w) + tail);
    ReadQuote(k, u);
    assert u[1..] == Dumps(w) + tail;
  }

  lemma JoinMember(c: string, q: string, d: string, f: string, rest: string)
    ensures c + q + ":" + d + f + rest == c + (q + (":" + (d + (f + rest))))
  {
  }

  lemma {:induction false} ReadDumpFields(v: Value, ks: seq<string>, first: bool, rest: string)
    requires v.Obj? && forall k :: k in ks ==> k in v.fields
    ensures ReadFields(DumpFields(v, ks, first) + rest, first) == Some((map k | k in ks :: v.fields[k], rest))
    decreases v, 0, |ks|
  {
    if ks == [] {
      assert (DumpFields(v, ks, first) + rest)[1..] == rest;
    } else {
      ReadDumps(v.fields[ks[0]], DumpFields(v, ks[1..], false) + rest);
      ReadDumpFields(v, ks[1..], false, rest);
      ReadMembers(v, ks, first, rest);
    }
  }

  lemma ReadFieldsStep(s: string, first: bool, k: string, u: string, w: Value, tail: string,
                       m: map<string, Value>, rest: string)
    requires s != "" && s[0] != '}' && (first || s[0] == ',')
    requires var t := if first then s else s[1..];
             t != "" && t[0] == '"' && ReadChars(t[1..]) == Some((k, u))
    requires u != "" && u[0] == ':' && Read(u[1..]) == Some((w, tail))
    requires ReadFields(tail, false) == Some((m, rest))
    ensures ReadFields(s, first) == Some((map[k := w] + m, rest))
  {
  }

  lemma DumpFieldsStep(v: Value, ks: seq<string>, first: bool, rest: string)
    requires v.Obj? && ks != [] && forall k :: k in ks ==> k in v.fields
    ensures DumpFields(v, ks, first) + rest
         == (if first then "" else ",")
            + (Quote(ks[0]) + (":" + (Dumps(v.fields[ks[0]]) + (DumpFields(v, ks[1..], false) + rest))))
  {
    JoinMember(if first then "" else ",", Quote(ks[0]), Dumps(v.fields[ks[0]]), DumpFields(v, ks[1..], false), rest);
  }

  lemma PickStep(fields: map<string, Value>, ks: seq<string>)
    requires ks != [] && forall k :: k in ks ==> k in fields
    ensures (map k | k in ks :: fields[k]) == map[ks[0] := fields[ks[0]]] + (map k | k in ks[1..] :: fields[k])
  {
  }

  lemma ReadMembers(v: Value, ks: seq<string>, first: bool, rest: string)
    requires v.Obj? && ks != [] && forall k :: k in ks ==> k in v.fields
    requires var w, tail := v.fields[ks[0]], DumpFields(v, ks[1..], false) + rest;
             && Read(Dumps(w) + tail) == Some((w, tail))
             && ReadFields(tail, false) == Some((map k | k in ks[1..] :: v.fields[k], rest))
    ensures ReadFields(DumpFields(v, ks, first) + rest, first) == Some((map k | k in ks :: v.fields[k], rest))
  {
    DumpFieldsStep(v, ks, first, rest);
    PickStep(v.fields, ks);
    ReadAssembled(DumpFields(v, ks, first) + rest, first, ks[0], v.fields[ks[0]],
                  DumpFields(v, ks[1..], false) + rest, map k | k in ks[1..] :: v.fields[k], rest);
  }

  lemma ReadAssembled(s: string, first: bool, k: string, w: Value, tail: string, m: map<string, Value>, rest: string)
    requires s == (if first then "" else ",") + (Quote(k) + (":" + (Dumps(w) + tail)))
    requires Read(Dumps(w) + tail) == Some((w, tail))
    requires ReadFields(tail, false) == Some((m, rest))
    ensures ReadFields(s, first) == Some((map[k := w] + m, rest))
  {
    var t := Quote(k) + (":" + (Dumps(w) + tail));
    ReadMember(t, k, w, tail);
    assert t == if first then s else s[1..];
    ReadFieldsStep(s, first, k, ReadChars(t[1..]).value.1, w, tail, m, rest);
  }

  // Reading the canonical text of a value gives that value back ...
  lemma LoadsDumps(v: Value)
    ensures Loads(Dumps(v)) == Some(v)
  {
    ReadDumps(v, "");
    assert Dumps(v) + "" == Dumps(v);
  }

  // ... so equal texts come from equal values, whatever order their keys
  // were inserted in.
  lemma DumpsInjective(v: Value, w: Value)
    ensures Dumps(v) == Dumps(w) <==> v == w
  {
    LoadsDumps(v);
    LoadsDumps(w);
  }

  // ---- bars ----

  // No escape hides a bar.
  lemma {:induction false} EscapeKeepsBars(t: string)
    requires '|' in t
    ensures '|' in EscapeAll(t)
  {
    if t[0] == '|' {
      assert EscapeAll(t)[0] == '|';
    } else {
      assert '|' in t[1..] by { assert t == [t[0]] + t[1..]; }
      EscapeKeepsBars(t[1..]);
    }
  }

  lemma {:induction false} FieldShowsBars(v: Value, ks: seq<string>, first: bool, k: string, t: string)
    requires v.Obj? && (forall k :: k in ks ==> k in v.fields)
    requires k in ks && v.fields[k] == Str(t) && '|' in t
    ensures '|' in DumpFields(v, ks, first)
  {
    var tail := DumpFields(v, ks[1..], false);
    if ks[0] == k {
      EscapeKeepsBars(t);
      assert '|' in Dumps(v.fields[k]);
    } else {
      assert k in ks[1..] by { assert ks == [ks[0]] + ks[1..]; }
      FieldShowsBars(v, ks[1..], false, k, t);
    }
  }

  // A bar in any text member of an object is a bar in the object's text.
  lemma {:induction false} DumpsShowsBars(v: Value, k: string, t: string)
    requires v.Obj? && k in v.fields && v.fields[k] == Str(t) && '|' in t
    ensures '|' in Dumps(v)
  {
    hide SortedKeys;
    FieldShowsBars(v, SortedKeys(v.fields.Keys), true, k, t);
  }
}
