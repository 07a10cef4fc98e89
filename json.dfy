/**
 * The values that the preference store persists and a text form for them.
 *
 * `Serialise` and `Parse` stand for `JSON.stringify` and `JSON.parse`.
 * The text form is a JSON-like one of this model's own: it covers null,
 * booleans, numbers, strings and objects, but numbers are written as a
 * mantissa with an optional `e-` exponent and strings escape only `"` and
 * `\`. `Parse` may fail on any other text, and `Parse(Serialise(v)) ==
 * Some(v)` holds for every value.
 */
module Json {
  import opened Wrappers

  /** A JSON number, as the decimal `mantissa * 10^-exponent`. */
  datatype Number = Decimal(mantissa: int, exponent: nat)

  datatype Value =
    | Null
    | Bool(b: bool)
    | Num(n: Number)
    | Str(s: string)
    | Obj(members: Members)

  /** The members of an object, in the order they are written. */
  datatype Members = NoMembers | Member(name: string, value: Value, next: Members)

  /** JavaScript truthiness: `null`, `false`, `0` and `""` are falsy. */
  predicate Truthy(v: Value) {
    match v
    case Null => false
    case Bool(b) => b
    case Num(n) => n.mantissa != 0
    case Str(s) => s != []
    case Obj(_) => true
  }

  /** `v?.name`: the property of an object, `None` (undefined) otherwise. */
  function Property(v: Value, name: string): Option<Value> {
    if v.Obj? then Lookup(v.members, name) else None
  }

  /** The value of the last member called `name`, as `JSON.parse` keeps the last duplicate. */
  function Lookup(ms: Members, name: string): (r: Option<Value>)
    ensures r.None? <==> !HasMember(ms, name)
  {
    match ms
    case NoMembers => None
    case Member(k, x, next) =>
      var later := Lookup(next, name);
      if later.Some? then later else if k == name then Some(x) else None
  }

  predicate HasMember(ms: Members, name: string) {
    ms.Member? && (ms.name == name || HasMember(ms.next, name))
  }

  // ---------------------------------------------------------------------
  // Digits

  predicate IsDigit(c: char) {
    '0' <= c <= '9'
  }

  predicate AllDigits(ds: string) {
    forall i :: 0 <= i < |ds| ==> IsDigit(ds[i])
  }

  function DigitValue(c: char): nat
    requires IsDigit(c)
  {
    c as int - '0' as int
  }

  function DigitChar(d: nat): (c: char)
    requires d < 10
    ensures IsDigit(c) && DigitValue(c) == d
  {
    ('0' as int + d) as char
  }

  /** The number a run of decimal digits denotes. */
  function DigitsValue(ds: string): nat
    requires AllDigits(ds)
  {
    if ds == [] then 0 else DigitsValue(ds[..|ds| - 1]) * 10 + DigitValue(ds[|ds| - 1])
  }

  /** The decimal digits of `n`, without leading zeros. */
  function NatDigits(n: nat): (ds: string)
    ensures ds != [] && AllDigits(ds)
    ensures DigitsValue(ds) == n
  {
    if n < 10 then [DigitChar(n)]
    else
      var ds := NatDigits(n / 10) + [DigitChar(n % 10)];
      assert ds[..|ds| - 1] == NatDigits(n / 10);
      ds
  }

  /** The length of the run of digits that `s` starts with. */
  function DigitSpan(s: string): (k: nat)
    ensures k <= |s| && AllDigits(s[..k])
    ensures k == |s| || !IsDigit(s[k])
  {
    if s == [] || !IsDigit(s[0]) then 0
    else
      var k := 1 + DigitSpan(s[1..]);
      assert s[..k] == [s[0]] + s[1..][..k - 1];
      k
  }

  function ParseNat(s: string): (r: Option<(nat, string)>)
    ensures r.Some? ==> |r.value.1| < |s|
  {
    var k := DigitSpan(s);
    if k == 0 then None else Some((DigitsValue(s[..k]), s[k..]))
  }

  lemma NatRoundTrip(n: nat, rest: string)
    requires rest == [] || !IsDigit(rest[0])
    ensures ParseNat(NatDigits(n) + rest) == Some((n, rest))
  {
    var ds := NatDigits(n);
    var s := ds + rest;
    assert s[..|ds|] == ds;
    assert s[|ds|..] == rest;
    assert DigitSpan(s) == |ds|;
  }

  // ---------------------------------------------------------------------
  // Numbers
  //
  // The text functions below take the text that follows (`rest`) and return
  // the value's text followed by it, so that reading a value back is a matter
  // of peeling characters off the front.

  function Magnitude(m: int): nat {
    if m < 0 then -m else m
  }

  /** `-`, if negative, then the digits of the mantissa and, unless it is 0, `e-` and the exponent. */
  function NumberText(n: Number, rest: string): string {
    var unsigned := NatDigits(Magnitude(n.mantissa)) + ExponentText(n.exponent, rest);
    if n.mantissa < 0 then ['-'] + unsigned else unsigned
  }

  function ExponentText(e: nat, rest: string): string {
    if e == 0 then rest else ['e', '-'] + (NatDigits(e) + rest)
  }

  function ParseNumber(s: string): (r: Option<(Number, string)>)
    ensures r.Some? ==> |r.value.1| < |s|
  {
    if s != [] && s[0] == '-' then ParseUnsigned(s[1..], true) else ParseUnsigned(s, false)
  }

  /** Reads the digits of the mantissa, whose sign is already known, and the exponent. */
  function ParseUnsigned(s: string, negative: bool): (r: Option<(Number, string)>)
    ensures r.Some? ==> |r.value.1| < |s|
  {
    match ParseNat(s)
    case None => None
    case Some((magnitude, afterMantissa)) =>
      ParseExponent(if negative then -(magnitude as int) else magnitude, afterMantissa)
  }

  /** Reads an optional negative exponent `e-<digits>` after the mantissa `m`. */
  function ParseExponent(m: int, s: string): (r: Option<(Number, string)>)
    ensures r.Some? ==> |r.value.1| <= |s|
  {
    if s != [] && s[0] == 'e' then
      if |s| >= 2 && s[1] == '-' then
        match ParseNat(s[2..])
        case None => None
        case Some((e, rest)) => Some((Decimal(m, e), rest))
      else None
    else Some((Decimal(m, 0), s))
  }

  /** What may follow a value inside the text of an enclosing value. */
  predicate Delimited(rest: string) {
    rest == [] || rest[0] == ',' || rest[0] == '}'
  }

  lemma ExponentRoundTrip(m: int, e: nat, rest: string)
    requires Delimited(rest)
    ensures ParseExponent(m, ExponentText(e, rest)) == Some((Decimal(m, e), rest))
    ensures ExponentText(e, rest) == [] || !IsDigit(ExponentText(e, rest)[0])
  {
    if e != 0 {
      var t := ExponentText(e, rest);
      assert t[2..] == NatDigits(e) + rest;
      NatRoundTrip(e, rest);
    }
  }

  lemma NumberRoundTrip(n: Number, rest: string)
    requires Delimited(rest)
    ensures ParseNumber(NumberText(n, rest)) == Some((n, rest))
    ensures var t := NumberText(n, rest); t != [] && (t[0] == '-' || IsDigit(t[0]))
  {
    var digits := NatDigits(Magnitude(n.mantissa));
    var after := ExponentText(n.exponent, rest);
    ExponentRoundTrip(n.mantissa, n.exponent, rest);
    NatRoundTrip(Magnitude(n.mantissa), after);
    var unsigned := digits + after;
    assert unsigned[0] == digits[0];
    if n.mantissa < 0 {
      assert NumberText(n, rest)[1..] == unsigned;
    }
  }

  // ---------------------------------------------------------------------
  // Strings

  /** A character of a string literal's body: quotes and backslashes are escaped. */
  function Escaped(c: char): string {
    if c == '"' || c == '\\' then ['\\', c] else [c]
  }

  /** The body of a string literal and its closing quote. */
  function StringText(s: string, rest: string): string {
    if s == [] then ['"'] + rest else Escaped(s[0]) + StringText(s[1..], rest)
  }

  /** Reads a string literal's body up to and including its closing quote. */
  function ParseStringBody(s: string): (r: Option<(string, string)>)
    ensures r.Some? ==> |r.value.1| < |s|
  {
    if s == [] then None
    else if s[0] == '"' then Some(([], s[1..]))
    else if s[0] == '\\' then
      if |s| < 2 then None
      else match ParseStringBody(s[2..])
        case None => None
        case Some((body, rest)) => Some(([s[1]] + body, rest))
    else match ParseStringBody(s[1..])
      case None => None
      case Some((body, rest)) => Some(([s[0]] + body, rest))
  }

  lemma {:induction false} StringRoundTrip(s: string, rest: string)
    ensures ParseStringBody(StringText(s, rest)) == Some((s, rest))
  {
    if s != [] {
      var more := StringText(s[1..], rest);
      StringRoundTrip(s[1..], rest);
      var t := StringText(s, rest);
      if s[0] == '"' || s[0] == '\\' {
        assert t[2..] == more;
      } else {
        assert t[1..] == more;
      }
      assert [s[0]] + s[1..] == s;
    }
  }

  // ---------------------------------------------------------------------
  // Values

  /** `JSON.stringify(v)`. */
  function Serialise(v: Value): string {
    Text(v, [])
  }

  /** The text of `v` followed by `rest`. */
  function Text(v: Value, rest: string): (t: string)
    ensures t != []
    decreases v, 2
  {
    match v
    case Null => "null" + rest
    case Bool(b) => (if b then "true" else "false") + rest
    case Num(n) => NumberText(n, rest)
    case Str(s) => ['"'] + StringText(s, rest)
    case Obj(NoMembers) => ['{', '}'] + rest
    case Obj(ms) => ['{'] + MembersText(ms, rest)
  }

  /** The members of an object, `"name":value` separated by commas, and the closing brace. */
  function MembersText(ms: Members, rest: string): (t: string)
    requires ms.Member?
    ensures t != [] && t[0] == '"'
    decreases ms, 0
  {
    ['"'] + StringText(ms.name, [':'] + Text(ms.value, MembersTail(ms.next, rest)))
  }

  /** What follows a member's value: the closing brace, or a comma and the further members. */
  function MembersTail(next: Members, rest: string): (t: string)
    ensures t != [] && (t[0] == '}' || t[0] == ',')
    decreases next, 1
  {
    if next.NoMembers? then ['}'] + rest else [','] + MembersText(next, rest)
  }

  function ParseValue(s: string): (r: Option<(Value, string)>)
    ensures r.Some? ==> |r.value.1| < |s|
    decreases |s|, 1
  {
    if s == [] then None
    else match s[0]
      case 'n' => ParseWord(s, "null", Null)
      case 't' => ParseWord(s, "true", Bool(true))
      case 'f' => ParseWord(s, "false", Bool(false))
      case '"' => ParseString(s)
      case '{' => ParseObject(s)
      case _ =>
        match ParseNumber(s)
        case None => None
        case Some((n, rest)) => Some((Num(n), rest))
  }

  /** Reads the literal `word`, which stands for `v`. */
  function ParseWord(s: string, word: string, v: Value): (r: Option<(Value, string)>)
    requires word != []
    ensures r.Some? ==> |r.value.1| < |s|
  {
    if |s| >= |word| && s[..|word|] == word then Some((v, s[|word|..])) else None
  }

  function ParseString(s: string): (r: Option<(Value, string)>)
    requires s != [] && s[0] == '"'
    ensures r.Some? ==> |r.value.1| < |s|
  {
    match ParseStringBody(s[1..])
    case None => None
    case Some((body, rest)) => Some((Str(body), rest))
  }

  function ParseObject(s: string): (r: Option<(Value, string)>)
    requires s != [] && s[0] == '{'
    ensures r.Some? ==> |r.value.1| < |s|
    decreases |s|, 0
  {
    if |s| >= 2 && s[1] == '}' then Some((Obj(NoMembers), s[2..]))
    else match ParseMembers(s[1..])
      case None => None
      case Some((ms, rest)) => Some((Obj(ms), rest))
  }

  /** Reads the members of an object and its closing brace. */
  function ParseMembers(s: string): (r: Option<(Members, string)>)
    ensures r.Some? ==> |r.value.1| < |s|
    decreases |s|, 2
  {
    if s == [] || s[0] != '"' then None
    else match ParseStringBody(s[1..])
      case None => None
      case Some((name, afterName)) =>
        if afterName == [] || afterName[0] != ':' then None
        else match ParseValue(afterName[1..])
          case None => None
          case Some((x, afterValue)) =>
            if afterValue == [] then None
            else if afterValue[0] == '}' then Some((Member(name, x, NoMembers), afterValue[1..]))
            else if afterValue[0] == ',' then
              match ParseMembers(afterValue[1..])
              case None => None
              case Some((next, rest)) => Some((Member(name, x, next), rest))
            else None
  }

  /** `JSON.parse`: a whole text holding exactly one value. */
  function Parse(s: string): Option<Value> {
    match ParseValue(s)
    case Some((v, rest)) => if rest == [] then Some(v) else None
    case None => None
  }

  lemma WordRoundTrip(word: string, v: Value, rest: string)
    requires word != []
    ensures ParseWord(word + rest, word, v) == Some((v, rest))
  {
  }

  /** A text that starts with a sign or a digit is read as a number. */
  lemma NumberDispatch(s: string)
    requires s != [] && (s[0] == '-' || IsDigit(s[0]))
    ensures ParseValue(s) ==
      match ParseNumber(s)
      case None => None
      case Some((n, rest)) => Some((Num(n), rest))
  {
  }

  lemma {:induction false} ValueRoundTrip(v: Value, rest: string)
    requires Delimited(rest)
    ensures ParseValue(Text(v, rest)) == Some((v, rest))
    decreases v, 2
  {
    var t := Text(v, rest);
    match v
    case Null =>
      WordRoundTrip("null", v, rest);
    case Bool(b) =>
      WordRoundTrip(if b then "true" else "false", v, rest);
    case Num(n) =>
      NumberRoundTrip(n, rest);
      NumberDispatch(t);
    case Str(x) =>
      StringRoundTrip(x, rest);
      assert t[1..] == StringText(x, rest);
    case Obj(ms) =>
      if ms.NoMembers? {
        assert t[2..] == rest;
      } else {
        MembersRoundTrip(ms, rest);
        assert t[1..] == MembersText(ms, rest);
      }
  }

  lemma {:induction false} MembersRoundTrip(ms: Members, rest: string)
    requires ms.Member? && Delimited(rest)
    ensures ParseMembers(MembersText(ms, rest)) == Some((ms, rest))
    decreases ms, 1
  {
    var tail := MembersTail(ms.next, rest);
    var afterName := [':'] + Text(ms.value, tail);
    var t := MembersText(ms, rest);
    assert t[1..] == StringText(ms.name, afterName);
    StringRoundTrip(ms.name, afterName);
    assert afterName[1..] == Text(ms.value, tail);
    ValueRoundTrip(ms.value, tail);
    if ms.next.NoMembers? {
      assert tail[1..] == rest;
    } else {
      assert tail[1..] == MembersText(ms.next, rest);
      MembersRoundTrip(ms.next, rest);
    }
  }

  /** Parsing what was serialised gives back the value. */
  lemma RoundTrip(v: Value)
    ensures Parse(Serialise(v)) == Some(v)
  {
    ValueRoundTrip(v, []);
  }
}
