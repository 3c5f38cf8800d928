/** Trace lines: a prefix followed by `name=value` fields, and the two parsers that read them
    (crates/xtask/src/attention/trace/collect.rs, crates/profiler/src/trace.rs). */
module TraceText {
  import opened Options
  import opened Numerals

  const PREFIX: string := "MANDREL_RUNTIME_TRACE:"

  datatype Field = Field(name: string, value: string) {
    function Text(): string { name + "=" + value }
  }

  // ----- words -----

  predicate IsWhite(c: char) { c == ' ' || '\t' <= c <= '\r' }

  predicate IsWord(w: string) { w != "" && NoWhite(w) }
  predicate NoWhite(w: string) { forall i :: 0 <= i < |w| ==> !IsWhite(w[i]) }

  function WordLength(s: string): (n: nat)
    ensures n <= |s|
  {
    if s == "" || IsWhite(s[0]) then 0 else 1 + WordLength(s[1..])
  }

  function Tokens(s: string): seq<string>
    decreases |s|
  {
    if s == "" then []
    else if IsWhite(s[0]) then Tokens(s[1..])
    else var n := WordLength(s); [s[..n]] + Tokens(s[n..])
  }

  lemma {:induction false} WordLengthIs(w: string, rest: string)
    requires NoWhite(w) && (rest == "" || IsWhite(rest[0]))
    ensures WordLength(w + rest) == |w|
  {
    var s := w + rest;
    if w == "" {
      assert s == rest;
    } else {
      assert s[1..] == w[1..] + rest;
      WordLengthIs(w[1..], rest);
    }
  }

  lemma WordThenRest(w: string, rest: string)
    requires IsWord(w) && (rest == "" || IsWhite(rest[0]))
    ensures Tokens(w + rest) == [w] + Tokens(rest)
  {
    WordLengthIs(w, rest);
    var s := w + rest;
    assert s[0] == w[0] && s[..|w|] == w && s[|w|..] == rest;
  }

  // ----- printing -----

  /** The fields after the prefix, each preceded by a space. */
  function FieldsText(fields: seq<Field>): string {
    if fields == [] then "" else " " + (fields[0].Text() + FieldsText(fields[1..]))
  }

  function Line(fields: seq<Field>): string { PREFIX + FieldsText(fields) }

  function Texts(fields: seq<Field>): (r: seq<string>)
    ensures |r| == |fields| && forall i :: 0 <= i < |r| ==> r[i] == fields[i].Text()
  {
    seq(|fields|, i requires 0 <= i < |fields| => fields[i].Text())
  }

  predicate PlainName(s: string) { NoWhite(s) && '=' !in s }

  /** Distinct names without spaces or equals signs, and values without spaces. */
  ghost predicate Printable(fields: seq<Field>) {
    && (forall i :: 0 <= i < |fields| ==> PlainName(fields[i].name) && NoWhite(fields[i].value))
    && forall i, j :: 0 <= i < j < |fields| ==> fields[i].name != fields[j].name
  }

  lemma TextIsWord(f: Field)
    requires PlainName(f.name) && NoWhite(f.value)
    ensures IsWord(f.Text())
  {
  }

  lemma {:induction false} TokensOfFields(fields: seq<Field>)
    requires Printable(fields)
    ensures Tokens(FieldsText(fields)) == Texts(fields)
  {
    if fields != [] {
      var rest := FieldsText(fields[1..]);
      TextIsWord(fields[0]);
      WordThenRest(fields[0].Text(), rest);
      var s := FieldsText(fields);
      assert s[1..] == fields[0].Text() + rest;
      TokensOfFields(fields[1..]);
      assert Texts(fields) == [fields[0].Text()] + Texts(fields[1..]);
    }
  }

  lemma PrefixIsWord()
    ensures IsWord(PREFIX) && '=' !in PREFIX
  {
    assert PREFIX[0] == 'M';
  }

  lemma TokensOfLine(fields: seq<Field>)
    requires Printable(fields)
    ensures Tokens(Line(fields)) == [PREFIX] + Texts(fields)
  {
    hide Tokens;
    PrefixIsWord();
    TokensOfFields(fields);
    WordThenRest(PREFIX, FieldsText(fields));
  }

  // ----- names and values -----

  function FirstEquals(s: string): (n: nat)
    ensures n <= |s|
  {
    if s == "" || s[0] == '=' then 0 else 1 + FirstEquals(s[1..])
  }

  lemma {:induction false} FirstEqualsIs(name: string, rest: string)
    requires '=' !in name && rest != "" && rest[0] == '='
    ensures FirstEquals(name + rest) == |name|
  {
    var s := name + rest;
    if name == "" {
      assert s == rest;
    } else {
      assert s[1..] == name[1..] + rest && name[0] in name;
      FirstEqualsIs(name[1..], rest);
    }
  }

  // ----- first match: the field parsers -----

  function StripPrefix(s: string, prefix: string): Option<string> {
    if prefix <= s then Some(s[|prefix|..]) else None
  }

  function FindValue(tokens: seq<string>, prefix: string): Option<string> {
    if tokens == [] then None
    else
      var v := StripPrefix(tokens[0], prefix);
      if v.Some? then v else FindValue(tokens[1..], prefix)
  }

  function ParseTraceField(line: string, name: string): Option<string> { FindValue(Tokens(line), name + "=") }

  /** A field matches a prefix only when the names are equal: no name captures another's value. */
  lemma PrefixMatches(f: Field, name: string)
    requires '=' !in f.name && '=' !in name
    ensures StripPrefix(f.Text(), name + "=") == if f.name == name then Some(f.value) else None
  {
    var s, p := f.Text(), name + "=";
    assert s == f.name + ("=" + f.value);
    FirstEqualsIs(f.name, "=" + f.value);
    if p <= s {
      assert s == name + ("=" + s[|p|..]);
      FirstEqualsIs(name, "=" + s[|p|..]);
      assert s[..|name|] == name && s[..|f.name|] == f.name;
    }
    assert f.name == name ==> s[..|p|] == p && s[|p|..] == f.value;
  }

  /** The value found for a name among fields; every name finds its own. */
  lemma {:induction false} FindsOwnValue(fields: seq<Field>, name: string)
    requires Printable(fields) && '=' !in name
    ensures forall i :: 0 <= i < |fields| && fields[i].name == name ==> FindValue(Texts(fields), name + "=") == Some(fields[i].value)
    ensures (forall i :: 0 <= i < |fields| ==> fields[i].name != name) ==> FindValue(Texts(fields), name + "=") == None
  {
    if fields != [] {
      PrefixMatches(fields[0], name);
      FindsOwnValue(fields[1..], name);
      assert Texts(fields)[1..] == Texts(fields[1..]);
    }
  }

  /** Printing fields and parsing one back by name. */
  lemma FieldRoundTrip(fields: seq<Field>, i: nat)
    requires Printable(fields) && i < |fields|
    ensures ParseTraceField(Line(fields), fields[i].name) == Some(fields[i].value)
  {
    hide Tokens, StripPrefix, Printable;
    var name := fields[i].name;
    PrintableName(fields, i);
    TokensOfLine(fields);
    PrefixIsWord();
    NotAField(PREFIX, name + "=");
    FindsOwnValue(fields, name);
    assert Tokens(Line(fields))[1..] == Texts(fields);
  }

  lemma PrintableName(fields: seq<Field>, i: nat)
    requires Printable(fields) && i < |fields|
    ensures '=' !in fields[i].name
  {
  }

  lemma PrefixMembers(prefix: string, token: string, c: char)
    ensures prefix <= token && c in prefix ==> c in token
  {
    if prefix <= token && c in prefix {
      var i :| 0 <= i < |prefix| && prefix[i] == c;
      assert token[i] == c;
    }
  }

  lemma NotAField(token: string, prefix: string)
    requires '=' !in token && '=' in prefix
    ensures StripPrefix(token, prefix) == None
  {
    PrefixMembers(prefix, token, '=');
  }

  // ----- last match: the summary parser -----

  /** Name and value around the first equals sign. */
  function SplitOnce(s: string): Option<Field> {
    var n := FirstEquals(s);
    if n < |s| then Some(Field(s[..n], s[n + 1..])) else None
  }

  lemma SplitText(f: Field)
    requires '=' !in f.name
    ensures SplitOnce(f.Text()) == Some(f)
  {
    var rest := "=" + f.value;
    assert f.Text() == f.name + rest;
    FirstEqualsIs(f.name, rest);
    assert f.Text()[|f.name| + 1..] == f.value;
  }

  /** The value of the last field with this name. */
  function LastValue(tokens: seq<string>, name: string): Option<string> {
    if tokens == [] then None
    else
      var f := SplitOnce(tokens[|tokens| - 1]);
      if f.Some? && f.value.name == name then Some(f.value.value) else LastValue(tokens[..|tokens| - 1], name)
  }

  lemma {:induction false} LastIsOwnValue(fields: seq<Field>, i: nat)
    requires Printable(fields) && i < |fields|
    ensures LastValue(Texts(fields), fields[i].name) == Some(fields[i].value)
    decreases |fields|
  {
    var n := |fields| - 1;
    SplitText(fields[n]);
    if i < n {
      LastIsOwnValue(fields[..n], i);
      assert Texts(fields)[..n] == Texts(fields[..n]);
    }
  }

  function TrimStart(s: string): string { if s != "" && IsWhite(s[0]) then TrimStart(s[1..]) else s }
  function TrimEnd(s: string): string { if s != "" && IsWhite(s[|s| - 1]) then TrimEnd(s[..|s| - 1]) else s }
  function Trim(s: string): string { TrimEnd(TrimStart(s)) }

  /** A printed line has nothing to trim, and its fields follow the prefix. */
  lemma {:induction false} LineTrimmed(fields: seq<Field>)
    requires Printable(fields)
    ensures StripPrefix(Trim(Line(fields)), PREFIX) == Some(FieldsText(fields))
  {
    PrefixIsWord();
    EndsInWord(fields);
    var s := Line(fields);
    assert s[0] == PREFIX[0] && s[|PREFIX|..] == FieldsText(fields);
    assert fields == [] ==> s == PREFIX;
    assert fields != [] ==> s[|s| - 1] == FieldsText(fields)[|FieldsText(fields)| - 1];
  }

  lemma {:induction false} EndsInWord(fields: seq<Field>)
    requires Printable(fields)
    ensures fields != [] ==> FieldsText(fields) != "" && !IsWhite(FieldsText(fields)[|FieldsText(fields)| - 1])
  {
    if fields != [] {
      TextIsWord(fields[0]);
      EndsInWord(fields[1..]);
      var text, rest := fields[0].Text(), FieldsText(fields[1..]);
      var s := FieldsText(fields);
      assert s[|s| - 1] == if rest == "" then text[|text| - 1] else rest[|rest| - 1];
    }
  }

  // ----- triplets -----

  type Dim3 = (nat, nat, nat)

  function TripletText(d: Dim3): string { Decimal(d.0) + ("x" + (Decimal(d.1) + ("x" + Decimal(d.2)))) }

  /** The pieces between separators. */
  function Split(s: string, sep: char): (parts: seq<string>)
    ensures parts != []
  {
    if s == "" then [""]
    else
      var rest := Split(s[1..], sep);
      if s[0] == sep then [""] + rest else [[s[0]] + rest[0]] + rest[1..]
  }

  function ParseTriplet(s: string, limit: nat): Option<Dim3> {
    var parts := Split(s, 'x');
    if |parts| != 3 then None
    else
      var x, y, z := ParseUnsigned(parts[0], limit), ParseUnsigned(parts[1], limit), ParseUnsigned(parts[2], limit);
      if x.Some? && y.Some? && z.Some? then Some((x.value, y.value, z.value)) else None
  }

  lemma {:induction false} SplitWord(w: string, sep: char)
    requires sep !in w
    ensures Split(w, sep) == [w]
  {
    if w != "" {
      assert w[0] in w;
      SplitWord(w[1..], sep);
      assert [w[0]] + w[1..] == w;
    }
  }

  lemma {:induction false} SplitAt(w: string, sep: char, rest: string)
    requires sep !in w
    ensures Split(w + ([sep] + rest), sep) == [w] + Split(rest, sep)
  {
    var s := w + ([sep] + rest);
    if w == "" {
      assert s[1..] == rest;
    } else {
      assert w[0] in w;
      assert s[1..] == w[1..] + ([sep] + rest);
      SplitAt(w[1..], sep, rest);
      assert [w[0]] + w[1..] == w;
    }
  }

  lemma DecimalHasNoX(n: nat)
    ensures 'x' !in Decimal(n) && NoWhite(Decimal(n))
  {
  }

  lemma TripletRoundTrip(d: Dim3, limit: nat)
    requires d.0 < limit && d.1 < limit && d.2 < limit
    ensures ParseTriplet(TripletText(d), limit) == Some(d)
  {
    hide Decimal, Split;
    DecimalHasNoX(d.0);
    DecimalHasNoX(d.1);
    DecimalHasNoX(d.2);
    SplitAt(Decimal(d.0), 'x', Decimal(d.1) + ("x" + Decimal(d.2)));
    SplitAt(Decimal(d.1), 'x', Decimal(d.2));
    SplitWord(Decimal(d.2), 'x');
    ParseDecimal(d.0, limit);
    ParseDecimal(d.1, limit);
    ParseDecimal(d.2, limit);
  }
}
