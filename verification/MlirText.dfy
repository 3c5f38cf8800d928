/** The text layer of the renderer (crates/vortex-codegen/src/codegen/mlir.rs and the generated value names):
    what is printed can be read back, and distinct things get distinct names. */
module MlirText {
  import opened Options
  import opened Numerals

  type Byte = b: nat | b < 256

  // ----- string literals -----

  function HexDigit(n: nat): char
    requires n < 16
  {
    if n < 10 then '0' + n as char else 'A' + (n - 10) as char
  }

  function HexValue(c: char): Option<nat> {
    if '0' <= c <= '9' then Some((c - '0') as nat)
    else if 'A' <= c <= 'F' then Some((c - 'A') as nat + 10)
    else None
  }

  /** How one byte is written. */
  function Escape(b: Byte): string {
    if b == 0x5C then "\\\\"
    else if b == 0x22 then "\\\""
    else if b == 0x0A then "\\0A"
    else if b == 0x0D then "\\0D"
    else if b == 0x09 then "\\09"
    else if 0x20 <= b <= 0x7E then [b as char]
    else ['\\', HexDigit(b / 16), HexDigit(b % 16)]
  }

  function Escaped(value: seq<Byte>): string {
    if value == [] then "" else Escaped(value[..|value| - 1]) + Escape(value[|value| - 1])
  }

  method MlirStringLiteral(value: seq<Byte>) returns (escaped: string)
    ensures escaped == Escaped(value)
  {
    escaped := "";
    for i := 0 to |value|
      invariant escaped == Escaped(value[..i])
    {
      assert value[..i + 1][..i] == value[..i];
      escaped := escaped + Escape(value[i]);
    }
    assert value[..|value|] == value;
  }

  method MlirStringLiteralWithNul(value: seq<Byte>) returns (escaped: string)
    ensures escaped == Escaped(value + [0])
  {
    escaped := MlirStringLiteral(value);
    assert (value + [0])[..|value|] == value;
    escaped := escaped + "\\00";
  }

  /** A reader of what follows an opening quote: the bytes up to the closing quote, and the rest of the text.
      A backslash protects a quote or a backslash, or starts a two-digit byte. */
  function ReadQuoted(s: string): Option<(seq<Byte>, string)> {
    if s == "" then None
    else if s[0] == '\"' then Some(([], s[1..]))
    else if s[0] != '\\' then (if s[0] as nat < 256 then Prepend(s[0] as nat, ReadQuoted(s[1..])) else None)
    else if |s| < 2 then None
    else if s[1] == '\"' || s[1] == '\\' then Prepend(s[1] as nat, ReadQuoted(s[2..]))
    else if |s| < 3 || HexValue(s[1]).None? || HexValue(s[2]).None? then None
    else Prepend(HexValue(s[1]).value * 16 + HexValue(s[2]).value, ReadQuoted(s[3..]))
  }

  function Prepend(b: nat, r: Option<(seq<Byte>, string)>): Option<(seq<Byte>, string)> {
    if r.None? || b >= 256 then None else Some(([b] + r.value.0, r.value.1))
  }

  lemma HexDigitValue(n: nat)
    requires n < 16
    ensures HexValue(HexDigit(n)) == Some(n)
    ensures HexDigit(n) != '\"' && HexDigit(n) != '\\'
  {
  }

  lemma ReadPlain(b: Byte, s: string)
    requires 0x20 <= b <= 0x7E && b != 0x5C && b != 0x22
    ensures ReadQuoted([b as char] + s) == Prepend(b, ReadQuoted(s))
  {
    var t := [b as char] + s;
    assert t[0] == b as char && t[1..] == s;
  }

  lemma ReadProtected(c: char, s: string)
    requires c == '\"' || c == '\\'
    ensures ReadQuoted(['\\', c] + s) == Prepend(c as nat, ReadQuoted(s))
  {
    var t := ['\\', c] + s;
    assert t[0] == '\\' && t[1] == c && t[2..] == s;
  }

  lemma ReadHex(high: nat, low: nat, s: string)
    requires high < 16 && low < 16
    ensures ReadQuoted(['\\', HexDigit(high), HexDigit(low)] + s) == Prepend(high * 16 + low, ReadQuoted(s))
  {
    HexDigitValue(high);
    HexDigitValue(low);
    var t := ['\\', HexDigit(high), HexDigit(low)] + s;
    assert t[0] == '\\' && t[1] == HexDigit(high) && t[2] == HexDigit(low) && t[3..] == s;
  }

  /** How each byte is written: as itself, protected, or as two digits. */
  lemma EscapeShape(b: Byte)
    ensures Escape(b) == if b == 0x5C || b == 0x22 then ['\\', b as char]
                         else if 0x20 <= b <= 0x7E then [b as char]
                         else ['\\', HexDigit(b / 16), HexDigit(b % 16)]
  {
  }

  /** One written byte is read as that byte, whatever follows. */
  lemma ReadEscape(b: Byte, s: string)
    ensures ReadQuoted(Escape(b) + s) == Prepend(b, ReadQuoted(s))
  {
    hide Escape, ReadQuoted, HexDigit, Prepend;
    EscapeShape(b);
    if b == 0x5C || b == 0x22 {
      ReadProtected(b as char, s);
    } else if 0x20 <= b <= 0x7E {
      ReadPlain(b, s);
    } else {
      ReadHex(b / 16, b % 16, s);
    }
  }

  /** Reading from the first byte on. */
  lemma {:induction false} EscapedFront(b: Byte, value: seq<Byte>)
    ensures Escaped([b] + value) == Escape(b) + Escaped(value)
  {
    hide Escape;
    var all := [b] + value;
    if value == [] {
      assert all[..0] == [];
      assert Escaped([]) == "";
    } else {
      assert all[..|all| - 1] == [b] + value[..|value| - 1];
      EscapedFront(b, value[..|value| - 1]);
    }
  }

  /** Any bytes, written between quotes anywhere in a text, are read back unchanged, and the closing quote
      is found where it was written. */
  lemma {:induction false} LiteralRoundTrip(value: seq<Byte>, rest: string)
    ensures ReadQuoted(Escaped(value) + "\"" + rest) == Some((value, rest))
    decreases |value|
  {
    if value == [] {
      var t := Escaped(value) + "\"" + rest;
      assert t[1..] == rest;
    } else {
      var tail := value[1..];
      assert [value[0]] + tail == value;
      EscapedFront(value[0], tail);
      LiteralRoundTrip(tail, rest);
      var s := Escaped(tail) + "\"" + rest;
      ReadEscape(value[0], s);
      assert Escaped(value) + "\"" + rest == Escape(value[0]) + s;
    }
  }

  /** The declared length of a metadata string. */
  function DeclaredLength(value: seq<Byte>): nat { |value| + 1 }

  /** A metadata string occupies exactly the bytes its array type declares: its own bytes and the terminator. */
  lemma MetadataLength(value: seq<Byte>, rest: string)
    ensures ReadQuoted(Escaped(value + [0]) + "\"" + rest) == Some((value + [0], rest))
    ensures |ReadQuoted(Escaped(value + [0]) + "\"" + rest).value.0| == DeclaredLength(value)
  {
    LiteralRoundTrip(value + [0], rest);
  }

  // ----- symbols -----

  predicate IsLetter(b: nat) { 'a' as nat <= b <= 'z' as nat || 'A' as nat <= b <= 'Z' as nat }

  predicate BareStart(b: nat) { b == '_' as nat || b == '$' as nat || IsLetter(b) }
  predicate BareByte(b: nat) { b == '_' as nat || b == '$' as nat || IsLetter(b) || IsDigit(b) }

  predicate IsBareSymbol(name: seq<Byte>) {
    name != [] && BareStart(name[0]) && forall i :: 1 <= i < |name| ==> BareByte(name[i])
  }

  function Chars(name: seq<Byte>): (s: string)
    ensures |s| == |name| && forall i :: 0 <= i < |s| ==> s[i] == name[i] as char
  {
    seq(|name|, i requires 0 <= i < |name| => name[i] as char)
  }

  function SymbolRef(name: seq<Byte>): string {
    if IsBareSymbol(name) then "@" + Chars(name) else "@\"" + Escaped(name) + "\""
  }

  /** The longest bare name at the front of a text. */
  function BarePrefix(s: string): (r: (seq<Byte>, string)) {
    if s == "" || !BareByte(s[0] as nat) then ([], s)
    else var (name, rest) := BarePrefix(s[1..]); ([s[0] as nat] + name, rest)
  }

  /** A reader of a symbol reference at the front of a text. */
  function ReadSymbol(s: string): Option<(seq<Byte>, string)> {
    if |s| < 2 || s[0] != '@' then None
    else if s[1] == '\"' then ReadQuoted(s[2..])
    else Some(BarePrefix(s[1..]))
  }

  /** What may follow a symbol without being taken for a part of it. */
  predicate Delimited(rest: string) { rest == "" || !BareByte(rest[0] as nat) }

  lemma {:induction false} BarePrefixIs(name: seq<Byte>, rest: string)
    requires Delimited(rest) && forall i :: 0 <= i < |name| ==> BareByte(name[i])
    ensures BarePrefix(Chars(name) + rest) == (name, rest)
  {
    var s := Chars(name) + rest;
    if name == [] {
      assert s == rest;
    } else {
      BarePrefixIs(name[1..], rest);
      assert s[1..] == Chars(name[1..]) + rest;
      assert [name[0]] + name[1..] == name;
    }
  }

  lemma BareRoundTrip(name: seq<Byte>, rest: string)
    requires Delimited(rest) && IsBareSymbol(name)
    ensures ReadSymbol("@" + Chars(name) + rest) == Some((name, rest))
  {
    hide BarePrefix;
    var s := "@" + Chars(name) + rest;
    BarePrefixIs(name, rest);
    assert s[1..] == Chars(name) + rest;
    assert s[0] == '@' && s[1] == name[0] as char;
  }

  lemma QuotedRoundTrip(name: seq<Byte>, rest: string)
    ensures ReadSymbol("@\"" + Escaped(name) + "\"" + rest) == Some((name, rest))
  {
    hide ReadQuoted, Escaped;
    var s := "@\"" + Escaped(name) + "\"" + rest;
    LiteralRoundTrip(name, rest);
    assert s[2..] == Escaped(name) + "\"" + rest;
    assert s[0] == '@' && s[1] == '\"';
  }

  /** Any symbol name is read back from its reference, whether or not it needed quotes. */
  lemma SymbolRoundTrip(name: seq<Byte>, rest: string)
    requires Delimited(rest)
    ensures ReadSymbol(SymbolRef(name) + rest) == Some((name, rest))
  {
    hide Escaped, ReadSymbol, IsBareSymbol, Delimited;
    if IsBareSymbol(name) {
      BareRoundTrip(name, rest);
    } else {
      QuotedRoundTrip(name, rest);
    }
  }

  /** Distinct symbols have distinct references. */
  lemma SymbolRefInjective(a: seq<Byte>, b: seq<Byte>)
    ensures SymbolRef(a) == SymbolRef(b) <==> a == b
  {
    hide ReadSymbol, SymbolRef;
    SymbolRoundTrip(a, "");
    SymbolRoundTrip(b, "");
  }

  // ----- generated value names -----

  predicate IsIdentifierChar(c: char) { c == '_' || IsLetter(c as nat) || IsDigit(c as nat) }

  function SanitizeChar(c: char): char { if IsIdentifierChar(c) then c else '_' }

  function Sanitized(value: string): (s: string)
    ensures |s| == |value| + 1 && s[0] == 'v' && forall i :: 0 <= i < |value| ==> s[i + 1] == SanitizeChar(value[i])
  {
    "v" + seq(|value|, i requires 0 <= i < |value| => SanitizeChar(value[i]))
  }

  method SanitizeSsaComponent(value: string) returns (sanitized: string)
    ensures sanitized == Sanitized(value)
  {
    sanitized := "v";
    for i := 0 to |value|
      invariant sanitized == Sanitized(value[..i])
    {
      sanitized := sanitized + if IsIdentifierChar(value[i]) then [value[i]] else "_";
    }
    assert value[..|value|] == value;
  }

  predicate IsIdentifier(s: string) { forall i :: 0 <= i < |s| ==> IsIdentifierChar(s[i]) }

  /** Characters that sanitizing cannot tell apart. */
  predicate Confused(a: char, b: char) { a == b || (SanitizeChar(a) == '_' && SanitizeChar(b) == '_') }

  /** Exactly when two labels get the same prefix; identifier-shaped labels only when they are equal. */
  lemma SanitizeCollides(a: string, b: string)
    ensures Sanitized(a) == Sanitized(b) <==> |a| == |b| && forall i :: 0 <= i < |a| ==> Confused(a[i], b[i])
    ensures IsIdentifier(a) && IsIdentifier(b) ==> (Sanitized(a) == Sanitized(b) <==> a == b)
  {
    var x, y := Sanitized(a), Sanitized(b);
    if x == y {
      forall i | 0 <= i < |a| ensures Confused(a[i], b[i]) {
        assert x[i + 1] == y[i + 1];
      }
    }
    if |a| == |b| && forall i :: 0 <= i < |a| ==> Confused(a[i], b[i]) {
      forall i | 0 <= i < |x| ensures x[i] == y[i] {
        assert i > 0 ==> Confused(a[i - 1], b[i - 1]);
      }
      assert x == y;
    }
  }

  /** Two different labels that are rendered alike: the prefix alone does not keep blocks apart. */
  lemma SanitizeIsNotInjective()
    ensures "a-b" != "a.b" && Sanitized("a-b") == Sanitized("a.b")
  {
    assert Sanitized("a-b") == "va_b" == Sanitized("a.b");
  }

  datatype TypeSuffix = SI1 | SI8 | SI32 | SI64 | SF32 | SPtr | SStruct {
    function Text(): string {
      match this
      case SI1 => "i1" case SI8 => "i8" case SI32 => "i32" case SI64 => "i64"
      case SF32 => "f32" case SPtr => "ptr" case SStruct => "struct"
    }
  }

  /** The name of the constant numbered `n` of a block. */
  function ValueName(blockLabel: string, n: nat, ty: TypeSuffix): string {
    "%" + Sanitized(blockLabel) + "_c" + Decimal(n) + "_" + ty.Text()
  }

  predicate NoUnderscore(s: string) { forall i :: 0 <= i < |s| ==> s[i] != '_' }

  /** Text is split uniquely at its last underscore. */
  lemma LastUnderscore(a: string, x: string, b: string, y: string)
    requires a + "_" + x == b + "_" + y && NoUnderscore(x) && NoUnderscore(y)
    ensures a == b && x == y
  {
    var s, t := a + "_" + x, b + "_" + y;
    assert s[|a|] == '_' && t[|b|] == '_';
    assert forall i :: |a| < i < |s| ==> s[i] == x[i - |a| - 1];
    assert forall i :: |b| < i < |t| ==> t[i] == y[i - |b| - 1];
    assert s[..|a|] == a && t[..|b|] == b;
    assert s[|a| + 1..] == x && t[|b| + 1..] == y;
  }

  lemma SuffixesDiffer(s: TypeSuffix, t: TypeSuffix)
    ensures NoUnderscore(s.Text()) && NoUnderscore(t.Text())
    ensures s.Text() == t.Text() ==> s == t
  {
    var a, b := s.Text(), t.Text();
    assert a == b ==> |a| == |b| && a[0] == b[0] && a[1] == b[1];
  }

  /** Two generated names agree exactly when prefix, counter and type do. */
  lemma ValueNamesAgree(a: string, m: nat, s: TypeSuffix, b: string, n: nat, t: TypeSuffix)
    ensures ValueName(a, m, s) == ValueName(b, n, t) <==> Sanitized(a) == Sanitized(b) && m == n && s == t
  {
    hide Sanitized, Decimal;
    if ValueName(a, m, s) == ValueName(b, n, t) {
      SuffixesDiffer(s, t);
      var a1, b1 := "%" + Sanitized(a) + "_c" + Decimal(m), "%" + Sanitized(b) + "_c" + Decimal(n);
      LastUnderscore(a1, s.Text(), b1, t.Text());
      var cm, cn := "c" + Decimal(m), "c" + Decimal(n);
      assert a1 == "%" + Sanitized(a) + "_" + cm && b1 == "%" + Sanitized(b) + "_" + cn;
      LastUnderscore("%" + Sanitized(a), cm, "%" + Sanitized(b), cn);
      assert cm[1..] == Decimal(m) && cn[1..] == Decimal(n);
      DecimalInjective(m, n);
      assert ("%" + Sanitized(a))[1..] == Sanitized(a) && ("%" + Sanitized(b))[1..] == Sanitized(b);
    }
  }

  /** Across blocks with identifier-shaped labels, counters and types, no two generated names are equal. */
  lemma ValueNamesDistinct(a: string, m: nat, s: TypeSuffix, b: string, n: nat, t: TypeSuffix)
    requires IsIdentifier(a) && IsIdentifier(b)
    ensures ValueName(a, m, s) == ValueName(b, n, t) <==> (a, m, s) == (b, n, t)
  {
    hide ValueName, Sanitized;
    ValueNamesAgree(a, m, s, b, n, t);
    SanitizeCollides(a, b);
  }

  /** How a constant is spelled. */
  lemma ValueNameIs()
    ensures ValueName("dim_loop", 12, SI32) == "%vdim_loop_c12_i32"
  {
    assert Decimal(12) == "12" by {
      assert Decimal(1) == "1";
    }
    assert Sanitized("dim_loop") == "vdim_loop";
  }
}
