/** JSON text as RFC 8259 defines it, over UTF-16 code units: a reference decoder, written
    independently of the printer. */
module JsonText {

  type Unit = u: int | 0 <= u < 0x10000

  type Text = seq<Unit>

  /** What the printer is given. `Undefined` stands for values JSON has no text for, `NonFinite` for
      NaN and the infinities; a number is known by its literal. */
  datatype Json =
    | Undefined | Null | Bool(b: bool) | NonFinite | Number(literal: Text) | String(s: Text)
    | Array(elements: seq<Json>) | Object(members: seq<Member>)

  datatype Member = Member(key: Text, value: Json)

  const QUOTE: Unit := 0x22
  const BACKSLASH: Unit := 0x5C
  const COMMA: Unit := 0x2C
  const COLON: Unit := 0x3A
  const LBRACKET: Unit := 0x5B
  const RBRACKET: Unit := 0x5D
  const LBRACE: Unit := 0x7B
  const RBRACE: Unit := 0x7D
  const LF: Unit := 0x0A
  const SPACE: Unit := 0x20
  const MINUS: Unit := 0x2D

  const NULL: Text := [0x6E, 0x75, 0x6C, 0x6C]
  const TRUE: Text := [0x74, 0x72, 0x75, 0x65]
  const FALSE: Text := [0x66, 0x61, 0x6C, 0x73, 0x65]

  // ---- Whitespace (section 2) -------------------------------------------------------------

  predicate IsSpace(u: Unit) { u in {0x20, 0x09, 0x0A, 0x0D} }

  predicate AllSpace(t: Text) { forall i :: 0 <= i < |t| ==> IsSpace(t[i]) }

  function SkipSpace(t: Text): (s: Text)
    ensures |s| <= |t| && (s != [] ==> !IsSpace(s[0]))
    decreases |t|
  {
    if t != [] && IsSpace(t[0]) then SkipSpace(t[1..]) else t
  }

  lemma {:induction false} SpaceSkipped(w: Text, t: Text)
    requires AllSpace(w)
    ensures SkipSpace(w + t) == SkipSpace(t)
    decreases |w|
  {
    if w == [] {
      assert w + t == t;
    } else {
      assert (w + t)[1..] == w[1..] + t;
      SpaceSkipped(w[1..], t);
    }
  }

  // ---- Numbers (section 6) ------------------------------------------------------------------

  predicate IsDigit(u: Unit) { 0x30 <= u <= 0x39 }

  /** Where the digits that start at position `i` end. */
  function Digits(t: Text, i: nat): (e: nat)
    requires i <= |t|
    ensures i <= e <= |t| && (e < |t| ==> !IsDigit(t[e]))
    decreases |t| - i
  {
    if i < |t| && IsDigit(t[i]) then Digits(t, i + 1) else i
  }

  /** Where the integer part that starts at `i` ends; `i` itself if there is none. */
  function IntegerEnd(t: Text, i: nat): (e: nat)
    requires i <= |t|
    ensures i <= e <= |t|
  {
    if i < |t| && t[i] == 0x30 then i + 1 else Digits(t, i)
  }

  function FractionEnd(t: Text, i: nat): (e: nat)
    requires i <= |t|
    ensures i <= e <= |t|
  {
    if i < |t| && t[i] == 0x2E && Digits(t, i + 1) > i + 1 then Digits(t, i + 1) else i
  }

  function ExponentEnd(t: Text, i: nat): (e: nat)
    requires i <= |t|
    ensures i <= e <= |t|
  {
    if i == |t| || t[i] !in {0x65, 0x45} then i
    else
      var digits := if i + 1 < |t| && t[i + 1] in {0x2B, 0x2D} then i + 2 else i + 1;
      if Digits(t, digits) > digits then Digits(t, digits) else i
  }

  /** The length of the number `t` starts with, 0 if it starts with none. */
  function NumberLength(t: Text): (n: nat)
    ensures n <= |t|
  {
    var sign := if t != [] && t[0] == MINUS then 1 else 0;
    var whole := IntegerEnd(t, sign);
    if whole == sign then 0 else ExponentEnd(t, FractionEnd(t, whole))
  }

  predicate IsNumber(t: Text) { t != [] && NumberLength(t) == |t| }

  /** Text that cannot prolong a number. */
  predicate Delimits(t: Text) {
    t == [] || !(IsDigit(t[0]) || t[0] in {0x2E, 0x65, 0x45, 0x2B, 0x2D})
  }

  lemma {:induction false} DigitsStop(t: Text, i: nat, rest: Text)
    requires i <= |t| && Delimits(rest)
    ensures Digits(t + rest, i) == Digits(t, i)
    decreases |t| - i
  {
    if i < |t| && IsDigit(t[i]) { DigitsStop(t, i + 1, rest); }
  }

  lemma FractionStops(t: Text, i: nat, rest: Text)
    requires i <= |t| && Delimits(rest)
    ensures FractionEnd(t + rest, i) == FractionEnd(t, i)
  {
    if i < |t| { DigitsStop(t, i + 1, rest); }
  }

  lemma ExponentStops(t: Text, i: nat, rest: Text)
    requires i <= |t| && Delimits(rest)
    ensures ExponentEnd(t + rest, i) == ExponentEnd(t, i)
  {
    if i < |t| { DigitsStop(t, i + 1, rest); }
    if i + 1 < |t| { DigitsStop(t, i + 2, rest); }
  }

  /** A number followed by text that cannot prolong it is read up to its end. */
  lemma NumberStops(t: Text, rest: Text)
    requires IsNumber(t) && Delimits(rest)
    ensures NumberLength(t + rest) == |t|
  {
    var sign := if t[0] == MINUS then 1 else 0;
    DigitsStop(t, sign, rest);
    var whole := IntegerEnd(t, sign);
    FractionStops(t, whole, rest);
    ExponentStops(t, FractionEnd(t, whole), rest);
  }

  // ---- Strings (section 7) ------------------------------------------------------------------

  datatype Parsed<T> = Fail | Ok(value: T, rest: Text)

  function HexValue(u: Unit): int {
    if 0x30 <= u <= 0x39 then u - 0x30
    else if 0x61 <= u <= 0x66 then u - 0x61 + 10
    else if 0x41 <= u <= 0x46 then u - 0x41 + 10
    else -1
  }

  /** The unit that four hexadecimal digits stand for, -1 if they are none. */
  function Hex4(t: Text): (v: int)
    requires |t| == 4
    ensures -1 <= v < 0x10000
  {
    var a, b, c, d := HexValue(t[0]), HexValue(t[1]), HexValue(t[2]), HexValue(t[3]);
    if a < 0 || b < 0 || c < 0 || d < 0 then -1 else ((a * 16 + b) * 16 + c) * 16 + d
  }

  function Escape(u: Unit): int {
    match u
    case 0x22 => 0x22
    case 0x5C => 0x5C
    case 0x2F => 0x2F
    case 0x62 => 0x08
    case 0x66 => 0x0C
    case 0x6E => 0x0A
    case 0x72 => 0x0D
    case 0x74 => 0x09
    case _ => -1
  }

  /** The rest of a string, after its opening quote. */
  function ParseString(t: Text): (p: Parsed<Text>)
    ensures p.Ok? ==> |p.rest| < |t|
    decreases |t|
  {
    if t == [] || t[0] < 0x20 then Fail
    else if t[0] == QUOTE then Ok([], t[1..])
    else if t[0] != BACKSLASH then Prefixed(t[0], ParseString(t[1..]))
    else if |t| < 2 then Fail
    else if t[1] == 0x75 then
      if |t| < 6 || Hex4(t[2..6]) < 0 then Fail else Prefixed(Hex4(t[2..6]), ParseString(t[6..]))
    else if Escape(t[1]) < 0 then Fail
    else Prefixed(Escape(t[1]), ParseString(t[2..]))
  }

  function Prefixed(u: Unit, p: Parsed<Text>): Parsed<Text> {
    if p.Ok? then Ok([u] + p.value, p.rest) else Fail
  }

  // ---- Values, arrays and objects (sections 3 to 5) --------------------------------------------

  function ParseValue(t: Text): (p: Parsed<Json>)
    ensures p.Ok? ==> |p.rest| < |t|
    decreases |t|, 1
  {
    var s := SkipSpace(t);
    if s == [] then Fail
    else if s[0] == QUOTE then
      var p := ParseString(s[1..]);
      if p.Ok? then Ok(String(p.value), p.rest) else Fail
    else if s[0] == LBRACKET then
      var u := SkipSpace(s[1..]);
      if u != [] && u[0] == RBRACKET then Ok(Array([]), u[1..])
      else
        var p := ParseElements(s[1..]);
        if p.Ok? then Ok(Array(p.value), p.rest) else Fail
    else if s[0] == LBRACE then
      var u := SkipSpace(s[1..]);
      if u != [] && u[0] == RBRACE then Ok(Object([]), u[1..])
      else
        var p := ParseMembers(s[1..]);
        if p.Ok? then Ok(Object(p.value), p.rest) else Fail
    else if NULL <= s then Ok(Null, s[4..])
    else if TRUE <= s then Ok(Bool(true), s[4..])
    else if FALSE <= s then Ok(Bool(false), s[5..])
    else if NumberLength(s) > 0 then Ok(Number(s[..NumberLength(s)]), s[NumberLength(s)..])
    else Fail
  }

  /** One or more elements and the closing bracket. */
  function ParseElements(t: Text): (p: Parsed<seq<Json>>)
    ensures p.Ok? ==> |p.rest| < |t| && p.value != []
    decreases |t|, 2
  {
    var v := ParseValue(t);
    if v.Fail? then Fail
    else
      var s := SkipSpace(v.rest);
      if s == [] then Fail
      else if s[0] == RBRACKET then Ok([v.value], s[1..])
      else if s[0] != COMMA then Fail
      else
        var more := ParseElements(s[1..]);
        if more.Ok? then Ok([v.value] + more.value, more.rest) else Fail
  }

  /** One or more members and the closing brace. */
  function ParseMembers(t: Text): (p: Parsed<seq<Member>>)
    ensures p.Ok? ==> |p.rest| < |t|
    decreases |t|, 2
  {
    var m := ParseMember(t);
    if m.Fail? then Fail
    else
      var s := SkipSpace(m.rest);
      if s == [] then Fail
      else if s[0] == RBRACE then Ok([m.value], s[1..])
      else if s[0] != COMMA then Fail
      else
        var more := ParseMembers(s[1..]);
        if more.Ok? then Ok([m.value] + more.value, more.rest) else Fail
  }

  function ParseMember(t: Text): (p: Parsed<Member>)
    ensures p.Ok? ==> |p.rest| < |t|
    decreases |t|, 1
  {
    var s := SkipSpace(t);
    if s == [] || s[0] != QUOTE then Fail
    else
      var key := ParseString(s[1..]);
      if key.Fail? then Fail
      else
        var c := SkipSpace(key.rest);
        if c == [] || c[0] != COLON then Fail
        else
          var v := ParseValue(c[1..]);
          if v.Ok? then Ok(Member(key.value, v.value), v.rest) else Fail
  }

  /** A whole JSON text. */
  function Decode(t: Text): Parsed<Json> {
    var p := ParseValue(t);
    if p.Ok? && SkipSpace(p.rest) == [] then Ok(p.value, []) else Fail
  }
}
