/** The part of JSON decoding on which custom tool input rests: an object with
    an "input" property is recognised, and cutting its text short never is.

    Positions are indexes into the document; a parser returns the value and the
    index just after it.  Grammar: RFC 8259, sections 2 to 7. */
module Json {
  import opened Basics

  /** Only the distinctions that the decoder of custom tool arguments makes. */
  datatype Value =
    | Null
    | Str(text: string)
    | Obj(fields: seq<(string, Value)>)
    | Other

  type Parsed<T> = Option<(T, nat)>

  predicate IsWs(c: char) { c in " \t\n\r" }

  predicate IsDigit(c: char) { '0' <= c <= '9' }

  function SkipWs(s: string, i: nat): (j: nat)
    requires i <= |s|
    ensures i <= j <= |s|
    ensures forall k | i <= k < j :: IsWs(s[k])
    ensures j < |s| ==> !IsWs(s[j])
    decreases |s| - i
  {
    if i < |s| && IsWs(s[i]) then SkipWs(s, i + 1) else i
  }

  function SkipDigits(s: string, i: nat): (j: nat)
    requires i <= |s|
    ensures i <= j <= |s|
    decreases |s| - i
  {
    if i < |s| && IsDigit(s[i]) then SkipDigits(s, i + 1) else i
  }

  // ---- numbers and literals ----

  function Fraction(s: string, i: nat): (r: Option<nat>)
    requires i <= |s|
    ensures r.Some? ==> i <= r.value <= |s|
  {
    if i < |s| && s[i] == '.' then
      var j := SkipDigits(s, i + 1);
      if j > i + 1 then Some(j) else None
    else Some(i)
  }

  function Exponent(s: string, i: nat): (r: Option<nat>)
    requires i <= |s|
    ensures r.Some? ==> i <= r.value <= |s|
  {
    if i < |s| && s[i] in "eE" then
      var k := if i + 1 < |s| && s[i + 1] in "+-" then i + 2 else i + 1;
      var j := SkipDigits(s, k);
      if j > k then Some(j) else None
    else Some(i)
  }

  function NumberEnd(s: string, i: nat): (r: Option<nat>)
    requires i < |s|
    ensures r.Some? ==> i < r.value <= |s|
  {
    var start := if s[i] == '-' then i + 1 else i;
    if start == |s| || !IsDigit(s[start]) then None
    else
      var whole := if s[start] == '0' then start + 1 else SkipDigits(s, start + 1);
      match Fraction(s, whole)
      case None => None
      case Some(f) => Exponent(s, f)
  }

  function Literal(s: string, i: nat, word: string, v: Value): (r: Parsed<Value>)
    requires i <= |s|
    ensures r.Some? ==> r.value == (v, i + |word|) && i + |word| <= |s|
  {
    if i + |word| <= |s| && s[i..i + |word|] == word then Some((v, i + |word|)) else None
  }

  // ---- strings ----

  function HexDigit(c: char): Option<nat> {
    if '0' <= c <= '9' then Some(c as int - '0' as int)
    else if 'a' <= c <= 'f' then Some(c as int - 'a' as int + 10)
    else if 'A' <= c <= 'F' then Some(c as int - 'A' as int + 10)
    else None
  }

  function Hex4(s: string, i: nat): (r: Option<nat>)
    requires i <= |s|
    ensures r.Some? ==> i + 4 <= |s| && r.value < 0x1_0000
  {
    if i + 4 > |s| then None
    else match (HexDigit(s[i]), HexDigit(s[i + 1]), HexDigit(s[i + 2]), HexDigit(s[i + 3]))
      case (Some(a), Some(b), Some(c), Some(d)) =>
        assert a < 16 && b < 16 && c < 16 && d < 16;
        Some(((a * 16 + b) * 16 + c) * 16 + d)
      case _ => None
  }

  const REPLACEMENT: char := 0xFFFD as char

  /** The code unit of a second \uXXXX escape that starts at i, if there is one. */
  function SecondUnit(s: string, i: nat): (r: Option<nat>)
    requires i <= |s|
    ensures r.Some? ==> i + 6 <= |s|
  {
    if i + 2 <= |s| && s[i] == '\\' && s[i + 1] == 'u' then Hex4(s, i + 2) else None
  }

  /** One \uXXXX escape whose digits start at i, joined with a following low
      surrogate where there is one; a lone surrogate becomes U+FFFD. */
  function Unicode(s: string, i: nat): (r: Parsed<char>)
    requires i <= |s|
    ensures r.Some? ==> i + 4 <= r.value.1 <= |s|
  {
    match Hex4(s, i)
    case None => None
    case Some(u) =>
      if !(0xD800 <= u < 0xE000) then Some((u as char, i + 4))
      else
        var low := SecondUnit(s, i + 4);
        if u < 0xDC00 && low.Some? && 0xDC00 <= low.value < 0xE000
        then Some(((0x1_0000 + (u - 0xD800) * 0x400 + (low.value - 0xDC00)) as char, i + 10))
        else Some((REPLACEMENT, i + 4))
  }

  function Escape(s: string, i: nat): (r: Parsed<char>)
    requires i < |s|
    ensures r.Some? ==> i < r.value.1 <= |s|
  {
    match s[i]
    case '"' => Some(('"', i + 1))
    case '\\' => Some(('\\', i + 1))
    case '/' => Some(('/', i + 1))
    case 'b' => Some((0x08 as char, i + 1))
    case 'f' => Some((0x0C as char, i + 1))
    case 'n' => Some(('\n', i + 1))
    case 'r' => Some(('\r', i + 1))
    case 't' => Some(('\t', i + 1))
    case 'u' => Unicode(s, i + 1)
    case _ => None
  }

  /** The characters of a string literal from i up to its closing quote.  The
      decoded text is never longer than its source. */
  function Chars(s: string, i: nat): (r: Parsed<string>)
    requires i <= |s|
    ensures r.Some? ==> i < r.value.1 <= |s| && |r.value.0| < r.value.1 - i
    decreases |s| - i
  {
    if i == |s| || (s[i] as int) < 0x20 then None
    else if s[i] == '"' then Some(("", i + 1))
    else if s[i] == '\\' then
      if i + 1 == |s| then None
      else match Escape(s, i + 1)
        case None => None
        case Some((c, j)) => Prepend(c, Chars(s, j))
    else Prepend(s[i], Chars(s, i + 1))
  }

  function Prepend(c: char, rest: Parsed<string>): Parsed<string> {
    match rest
    case None => None
    case Some((text, j)) => Some(([c] + text, j))
  }

  // ---- values ----

  function ParseValue(s: string, i: nat): (r: Parsed<Value>)
    requires i <= |s|
    ensures r.Some? ==> i < r.value.1 <= |s|
    decreases |s| - i, 0
  {
    if i == |s| then None
    else match s[i]
      case '{' =>
        var j := SkipWs(s, i + 1);
        if j < |s| && s[j] == '}' then Some((Obj([]), j + 1)) else
        (match ParseMembers(s, j)
         case None => None
         case Some((fields, k)) => Some((Obj(fields), k)))
      case '[' =>
        var j := SkipWs(s, i + 1);
        if j < |s| && s[j] == ']' then Some((Other, j + 1)) else
        (match ParseElements(s, j)
         case None => None
         case Some(k) => Some((Other, k)))
      case '"' =>
        (match Chars(s, i + 1)
         case None => None
         case Some((text, j)) => Some((Str(text), j)))
      case 't' => Literal(s, i, "true", Other)
      case 'f' => Literal(s, i, "false", Other)
      case 'n' => Literal(s, i, "null", Null)
      case _ =>
        (match NumberEnd(s, i)
         case None => None
         case Some(j) => Some((Other, j)))
  }

  /** A key and its colon; the position is where the value starts. */
  function ParseKey(s: string, i: nat): (r: Parsed<string>)
    requires i <= |s|
    ensures r.Some? ==> i < r.value.1 <= |s|
  {
    if i == |s| || s[i] != '"' then None
    else match Chars(s, i + 1)
      case None => None
      case Some((key, j)) =>
        var colon := SkipWs(s, j);
        if colon == |s| || s[colon] != ':' then None
        else Some((key, SkipWs(s, colon + 1)))
  }

  function ParseMember(s: string, i: nat): (r: Parsed<(string, Value)>)
    requires i <= |s|
    ensures r.Some? ==> i < r.value.1 <= |s|
    decreases |s| - i, 1
  {
    match ParseKey(s, i)
    case None => None
    case Some((key, j)) =>
      match ParseValue(s, j)
      case None => None
      case Some((v, k)) => Some(((key, v), k))
  }

  datatype Separator = End(next: nat) | More(next: nat) | Bad

  /** What follows an item that ended at j: the closing bracket or a comma. */
  function Separate(s: string, j: nat, close: char): (r: Separator)
    requires j <= |s|
    ensures !r.Bad? ==> j < r.next <= |s|
  {
    var k := SkipWs(s, j);
    if k == |s| then Bad
    else if s[k] == close then End(k + 1)
    else if s[k] == ',' then More(SkipWs(s, k + 1))
    else Bad
  }

  /** The members of a non-empty object from its first key to its closing brace. */
  function ParseMembers(s: string, i: nat): (r: Parsed<seq<(string, Value)>>)
    requires i <= |s|
    ensures r.Some? ==> i < r.value.1 <= |s|
    decreases |s| - i, 2
  {
    match ParseMember(s, i)
    case None => None
    case Some((field, j)) =>
      match Separate(s, j, '}')
      case End(k) => Some(([field], k))
      case Bad => None
      case More(k) =>
        match ParseMembers(s, k)
        case None => None
        case Some((rest, m)) => Some(([field] + rest, m))
  }

  function ParseElements(s: string, i: nat): (r: Option<nat>)
    requires i <= |s|
    ensures r.Some? ==> i < r.value <= |s|
    decreases |s| - i, 2
  {
    match ParseValue(s, i)
    case None => None
    case Some((_, j)) =>
      match Separate(s, j, ']')
      case End(k) => Some(k)
      case Bad => None
      case More(k) => ParseElements(s, k)
  }

  /** A whole document: one value with nothing but white space around it. */
  function Decode(doc: string): Option<Value> {
    match ParseValue(doc, SkipWs(doc, 0))
    case None => None
    case Some((v, j)) => if SkipWs(doc, j) == |doc| then Some(v) else None
  }

  // ---- the custom tool wrapper ----

  function Lower(c: char): char {
    if 'A' <= c <= 'Z' then (c as int + 32) as char else c
  }

  /** encoding/json matches struct fields without regard to case. */
  predicate IsInputKey(key: string) {
    |key| == 5 && Lower(key[0]) == 'i' && Lower(key[1]) == 'n' && Lower(key[2]) == 'p'
    && Lower(key[3]) == 'u' && Lower(key[4]) == 't'
  }

  /** The value that decoding the fields leaves in the optional string field
      "input": the last occurrence wins, null clears it, and any other kind of
      value fails the whole decode (the result is then None outside). */
  function InputField(fields: seq<(string, Value)>): Option<Option<string>> {
    if fields == [] then Some(None)
    else
      var (key, v) := fields[|fields| - 1];
      match InputField(fields[..|fields| - 1])
      case None => None
      case Some(earlier) =>
        if !IsInputKey(key) then Some(earlier)
        else match v
          case Str(text) => Some(Some(text))
          case Null => Some(None)
          case _ => None
  }

  /** The string under "input", when the arguments decode to an object with one. */
  function WrappedInput(args: string): Option<string> {
    match Decode(args)
    case Some(Obj(fields)) =>
      (match InputField(fields)
       case Some(Some(text)) => Some(text)
       case _ => None)
    case _ => None
  }

  /** Arguments without a string "input" property pass through verbatim. */
  function UnwrapCustomToolInput(args: string): string {
    match WrappedInput(args)
    case Some(text) => text
    case None => args
  }

  // ---- a decoded object document has no proper prefix that decodes ----

  lemma {:induction false} SkipWsExtends(s: string, u: string, i: nat)
    requires s <= u && i <= |s| && SkipWs(s, i) < |s|
    ensures SkipWs(u, i) == SkipWs(s, i)
    decreases |s| - i
  {
    if IsWs(s[i]) { SkipWsExtends(s, u, i + 1); }
  }

  lemma {:induction false} SkipDigitsExtends(s: string, u: string, i: nat)
    requires s <= u && i <= |s| && SkipDigits(s, i) < |s|
    ensures SkipDigits(u, i) == SkipDigits(s, i)
    decreases |s| - i
  {
    if IsDigit(s[i]) { SkipDigitsExtends(s, u, i + 1); }
  }

  lemma FractionExtends(s: string, u: string, i: nat)
    requires s <= u && i <= |s| && Fraction(s, i).Some? && Fraction(s, i).value < |s|
    ensures Fraction(u, i) == Fraction(s, i)
  {
    if s[i] == '.' { SkipDigitsExtends(s, u, i + 1); }
  }

  lemma ExponentExtends(s: string, u: string, i: nat)
    requires s <= u && i <= |s| && Exponent(s, i).Some? && Exponent(s, i).value < |s|
    ensures Exponent(u, i) == Exponent(s, i)
  {
    if s[i] in "eE" {
      SkipDigitsExtends(s, u, if i + 1 < |s| && s[i + 1] in "+-" then i + 2 else i + 1);
    }
  }

  lemma NumberExtends(s: string, u: string, i: nat)
    requires s <= u && i < |s| && NumberEnd(s, i).Some? && NumberEnd(s, i).value < |s|
    ensures NumberEnd(u, i) == NumberEnd(s, i)
  {
    var start := if s[i] == '-' then i + 1 else i;
    var whole := if s[start] == '0' then start + 1 else SkipDigits(s, start + 1);
    assert u[i] == s[i] && u[start] == s[start];
    if s[start] != '0' { SkipDigitsExtends(s, u, start + 1); }
    FractionExtends(s, u, whole);
    ExponentExtends(s, u, Fraction(s, whole).value);
  }

  lemma Hex4Extends(s: string, u: string, i: nat)
    requires s <= u && i <= |s| && Hex4(s, i).Some?
    ensures Hex4(u, i) == Hex4(s, i)
  {
  }

  lemma {:induction false} CharsExtends(s: string, u: string, i: nat)
    requires s <= u && i <= |s| && Chars(s, i).Some?
    ensures Chars(u, i) == Chars(s, i)
    decreases |s| - i
  {
    assert u[i] == s[i];
    if s[i] == '"' {
    } else if s[i] == '\\' {
      assert u[i + 1] == s[i + 1];
      var j := Escape(s, i + 1).value.1;
      CharsExtends(s, u, j);
      if s[i + 1] == 'u' {
        SecondUnitExtends(s, u, i + 6);
        UnicodeExtends(s, u, i + 2);
      }
    } else {
      CharsExtends(s, u, i + 1);
    }
  }

  /** The lookahead for a second escape does not depend on what follows a
      terminated string. */
  lemma SecondUnitExtends(s: string, u: string, i: nat)
    requires s <= u && i <= |s| && (SecondUnit(s, i).Some? || Chars(s, i).Some?)
    ensures SecondUnit(u, i) == SecondUnit(s, i)
  {
    if SecondUnit(s, i).Some? {
      assert u[i] == s[i] && u[i + 1] == s[i + 1];
      Hex4Extends(s, u, i + 2);
      return;
    }
    assert u[i] == s[i];
    if s[i] == '\\' { assert u[i + 1] == s[i + 1]; }
  }

  lemma UnicodeExtends(s: string, u: string, i: nat)
    requires s <= u && i + 4 <= |s| && Unicode(s, i).Some?
    requires SecondUnit(u, i + 4) == SecondUnit(s, i + 4)
    ensures Unicode(u, i) == Unicode(s, i)
  {
    Hex4Extends(s, u, i);
  }

  predicate SelfDelimiting(c: char) { c in "{[\"tfn" }

  lemma {:induction false} ValueExtends(s: string, u: string, i: nat)
    requires s <= u && i < |s| && ParseValue(s, i).Some?
    requires SelfDelimiting(s[i]) || ParseValue(s, i).value.1 < |s|
    ensures ParseValue(u, i) == ParseValue(s, i)
    decreases |s| - i, 0
  {
    assert u[i] == s[i];
    match s[i]
    case '{' =>
      SkipWsExtends(s, u, i + 1);
      var j := SkipWs(s, i + 1);
      assert u[j] == s[j];
      if s[j] != '}' { MembersExtend(s, u, j); }
    case '[' =>
      SkipWsExtends(s, u, i + 1);
      var j := SkipWs(s, i + 1);
      assert u[j] == s[j];
      if s[j] != ']' { ElementsExtend(s, u, j); }
    case '"' => CharsExtends(s, u, i + 1);
    case 't' => assert u[i..i + 4] == s[i..i + 4];
    case 'f' => assert u[i..i + 5] == s[i..i + 5];
    case 'n' => assert u[i..i + 4] == s[i..i + 4];
    case _ => NumberExtends(s, u, i);
  }

  lemma KeyExtends(s: string, u: string, i: nat)
    requires s <= u && i <= |s| && ParseKey(s, i).Some? && ParseKey(s, i).value.1 < |s|
    ensures ParseKey(u, i) == ParseKey(s, i)
  {
    assert u[i] == s[i];
    CharsExtends(s, u, i + 1);
    var j := Chars(s, i + 1).value.1;
    SkipWsExtends(s, u, j);
    var colon := SkipWs(s, j);
    assert u[colon] == s[colon];
    SkipWsExtends(s, u, colon + 1);
  }

  lemma {:induction false} MemberExtends(s: string, u: string, i: nat)
    requires s <= u && i <= |s| && ParseMember(s, i).Some? && ParseMember(s, i).value.1 < |s|
    ensures ParseMember(u, i) == ParseMember(s, i)
    decreases |s| - i, 1
  {
    KeyExtends(s, u, i);
    ValueExtends(s, u, ParseKey(s, i).value.1);
  }

  lemma SeparateExtends(s: string, u: string, j: nat, close: char)
    requires s <= u && j <= |s|
    requires Separate(s, j, close).End? || (Separate(s, j, close).More? && Separate(s, j, close).next < |s|)
    ensures Separate(u, j, close) == Separate(s, j, close)
  {
    SkipWsExtends(s, u, j);
    var k := SkipWs(s, j);
    assert u[k] == s[k];
    if s[k] != close { SkipWsExtends(s, u, k + 1); }
  }

  lemma {:induction false} MembersExtend(s: string, u: string, i: nat)
    requires s <= u && i <= |s| && ParseMembers(s, i).Some?
    ensures ParseMembers(u, i) == ParseMembers(s, i)
    decreases |s| - i, 2
  {
    var j := ParseMember(s, i).value.1;
    MemberExtends(s, u, i);
    var sep := Separate(s, j, '}');
    SeparateExtends(s, u, j, '}');
    if sep.More? { MembersExtend(s, u, sep.next); }
  }

  lemma {:induction false} ElementsExtend(s: string, u: string, i: nat)
    requires s <= u && i <= |s| && ParseElements(s, i).Some?
    ensures ParseElements(u, i) == ParseElements(s, i)
    decreases |s| - i, 2
  {
    var j := ParseValue(s, i).value.1;
    ValueExtends(s, u, i);
    var sep := Separate(s, j, ']');
    SeparateExtends(s, u, j, ']');
    if sep.More? { ElementsExtend(s, u, sep.next); }
  }

  /** Every longer text that still decodes holds the same object. */
  lemma ObjectIsFinal(p: string, t: string)
    requires Decode(p).Some? && Decode(p).value.Obj?
    ensures Decode(p + t) in {None, Decode(p)}
  {
    var i := SkipWs(p, 0);
    SkipWsExtends(p, p + t, 0);
    assert p[i] == '{';
    ValueExtends(p, p + t, i);
  }

  /** The partner of the decoder: once the wrapped input is known, no further
      fragment changes it without making the arguments undecodable. */
  lemma WrappedInputIsFinal(p: string, t: string)
    requires WrappedInput(p).Some? && Decode(p + t).Some?
    ensures WrappedInput(p + t) == WrappedInput(p)
  {
    ObjectIsFinal(p, t);
  }

  // ---- a wrapped input is shorter than its wrapper ----

  lemma MemberIsLonger(s: string, i: nat)
    requires i <= |s| && ParseMember(s, i).Some? && ParseMember(s, i).value.0.1.Str?
    ensures |ParseMember(s, i).value.0.1.text| < ParseMember(s, i).value.1 - i
  {
  }

  lemma {:induction false} MembersAreLonger(s: string, i: nat)
    requires i <= |s| && ParseMembers(s, i).Some?
    ensures forall f | f in ParseMembers(s, i).value.0 && f.1.Str? :: |f.1.text| < ParseMembers(s, i).value.1 - i
    decreases |s| - i
  {
    if ParseMember(s, i).value.0.1.Str? { MemberIsLonger(s, i); }
    var sep := Separate(s, ParseMember(s, i).value.1, '}');
    if sep.More? { MembersAreLonger(s, sep.next); }
  }

  lemma {:induction false} InputFieldIsAField(fields: seq<(string, Value)>)
    requires InputField(fields).Some? && InputField(fields).value.Some?
    ensures exists f :: f in fields && f.1 == Str(InputField(fields).value.value)
  {
    var (key, v) := fields[|fields| - 1];
    if IsInputKey(key) && v.Str? {
      assert fields[|fields| - 1] in fields;
    } else {
      InputFieldIsAField(fields[..|fields| - 1]);
    }
  }

  lemma WrappedInputIsShorter(args: string)
    requires WrappedInput(args).Some?
    ensures |WrappedInput(args).value| < |args|
  {
    var i := SkipWs(args, 0);
    var fields := Decode(args).value.fields;
    InputFieldIsAField(fields);
    assert args[i] == '{';
    var j := SkipWs(args, i + 1);
    MembersAreLonger(args, j);
  }

  // ---- which member is the input ----

  /** The key "input" in upper and lower case letters. */
  lemma InputKeyIff(key: string)
    ensures IsInputKey(key) <==>
            |key| == 5 && forall k | 0 <= k < 5 :: key[k] == "input"[k] || key[k] == "INPUT"[k]
  {
    if |key| == 5 {
      assert IsInputKey(key) <==> forall k | 0 <= k < 5 :: Lower(key[k]) == "input"[k];
      forall k | 0 <= k < 5 ensures Lower(key[k]) == "input"[k] <==> key[k] == "input"[k] || key[k] == "INPUT"[k] {
        LowerIs(key[k], "input"[k], "INPUT"[k]);
      }
    }
  }

  lemma LowerIs(c: char, small: char, large: char)
    requires 'a' <= small <= 'z' && large as int == small as int - 32
    ensures Lower(c) == small <==> c == small || c == large
  {
  }

  /** The k-th field is the last one under such a key. */
  predicate LastInput(fields: seq<(string, Value)>, k: nat) {
    k < |fields| && IsInputKey(fields[k].0) && forall j | k < j < |fields| :: !IsInputKey(fields[j].0)
  }

  /** The input is the string of the last such field, and none if that is null or there
      is none; any other value under such a key spoils the whole. */
  lemma {:induction false} InputFieldSays(fields: seq<(string, Value)>)
    ensures InputField(fields).None? <==>
            exists k :: 0 <= k < |fields| && IsInputKey(fields[k].0) && !fields[k].1.Str? && !fields[k].1.Null?
    ensures InputField(fields).Some? ==>
              && (forall k: nat | LastInput(fields, k) ::
                    InputField(fields).value == if fields[k].1.Str? then Some(fields[k].1.text) else None)
              && ((forall k | 0 <= k < |fields| :: !IsInputKey(fields[k].0)) ==> InputField(fields).value == None)
    decreases |fields|
  {
    hide IsInputKey;
    if fields != [] {
      var n := |fields| - 1;
      var init := fields[..n];
      InputFieldSays(init);
      assert forall k | 0 <= k < n :: init[k] == fields[k];
      forall k: nat | LastInput(fields, k) && k < n ensures LastInput(init, k) {
      }
    }
  }
}
