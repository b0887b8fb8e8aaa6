/** The JSON printer: strings escaped unit by unit, and arrays and objects laid out with a gap
    that nested calls lengthen and put back. */
module JsonPrinter {
  import opened JsonText
  import opened Wrappers

  // ---- Strings ----------------------------------------------------------------------------

  /** The units the printer never leaves as they are. */
  predicate Escapable(u: Unit) {
    u == BACKSLASH || u == QUOTE || u <= 0x1F || 0x7F <= u <= 0x9F || u == 0xAD || 0x600 <= u <= 0x604
    || u == 0x70F || 0x17B4 <= u <= 0x17B5 || 0x200C <= u <= 0x200F || 0x2028 <= u <= 0x202F
    || 0x2060 <= u <= 0x206F || u == 0xFEFF || 0xFFF0 <= u
  }

  function HexDigit(n: nat): Unit
    requires n < 16
  {
    if n < 10 then 0x30 + n else 0x61 + n - 10
  }

  function Hex(u: Unit): Text {
    var a := u / 16;
    var b := a / 16;
    [HexDigit(b / 16), HexDigit(b % 16), HexDigit(a % 16), HexDigit(u % 16)]
  }

  /** One unit inside quotes: itself, a short escape, or four hexadecimal digits. */
  function QuoteUnit(u: Unit): Text {
    if !Escapable(u) then [u]
    else
      match u
      case 0x08 => [BACKSLASH, 0x62]
      case 0x09 => [BACKSLASH, 0x74]
      case 0x0A => [BACKSLASH, 0x6E]
      case 0x0C => [BACKSLASH, 0x66]
      case 0x0D => [BACKSLASH, 0x72]
      case 0x22 => [BACKSLASH, QUOTE]
      case 0x5C => [BACKSLASH, BACKSLASH]
      case _ => [BACKSLASH, 0x75] + Hex(u)
  }

  function QuoteUnits(s: Text): Text
    decreases |s|
  {
    if s == [] then [] else QuoteUnit(s[0]) + QuoteUnits(s[1..])
  }

  function Quote(s: Text): Text { [QUOTE] + QuoteUnits(s) + [QUOTE] }

  lemma HexRead(u: Unit)
    ensures Hex4(Hex(u)) == u
  {
    var a := u / 16;
    var b := a / 16;
    assert u == a * 16 + u % 16 && a == b * 16 + a % 16 && b == b / 16 * 16 + b % 16;
  }

  lemma UnitRead(u: Unit, t: Text)
    ensures ParseString(QuoteUnit(u) + t) == Prefixed(u, ParseString(t))
  {
    var q := QuoteUnit(u) + t;
    if |QuoteUnit(u)| == 1 {
      assert q[1..] == t;
    } else if |QuoteUnit(u)| == 2 {
      assert q[2..] == t;
    } else {
      HexUnitRead(u, t);
    }
  }

  lemma HexUnitRead(u: Unit, t: Text)
    ensures ParseString([BACKSLASH, 0x75] + Hex(u) + t) == Prefixed(u, ParseString(t))
  {
    var q := [BACKSLASH, 0x75] + Hex(u) + t;
    HexRead(u);
    assert q[2..6] == Hex(u) && q[6..] == t && q[0] == BACKSLASH && q[1] == 0x75;
  }

  /** Every string of UTF-16 units is read back from its quotes. */
  lemma {:induction false} QuoteRead(s: Text, t: Text)
    ensures ParseString(QuoteUnits(s) + [QUOTE] + t) == Ok(s, t)
    decreases |s|
  {
    if s == [] {
      assert QuoteUnits(s) + [QUOTE] + t == [QUOTE] + t && ([QUOTE] + t)[1..] == t;
    } else {
      var rest := QuoteUnits(s[1..]) + [QUOTE] + t;
      assert QuoteUnits(s) + [QUOTE] + t == QuoteUnit(s[0]) + rest;
      UnitRead(s[0], rest);
      QuoteRead(s[1..], t);
      assert [s[0]] + s[1..] == s;
    }
  }

  // ---- Values -----------------------------------------------------------------------------

  function Join(parts: seq<Text>, sep: Text): Text
    decreases |parts|
  {
    if parts == [] then [] else if |parts| == 1 then parts[0] else parts[0] + sep + Join(parts[1..], sep)
  }

  /** Parts between brackets: on one line, or one line each, indented by `gap`. */
  function Wrap(open: Unit, parts: seq<Text>, close: Unit, gap: Text, mind: Text): Text {
    if parts == [] then [open, close]
    else if gap != [] then [open, LF] + gap + Join(parts, [COMMA, LF] + gap) + [LF] + mind + [close]
    else [open] + Join(parts, [COMMA]) + [close]
  }

  function Colon(gap: Text): Text { if gap != [] then [COLON, SPACE] else [COLON] }

  /** The text of a value where the gap is `mind`; None where the printer yields nothing. */
  function Print(v: Json, mind: Text, indent: Text): (text: Option<Text>)
    ensures text.Some? <==> !v.Undefined?
    decreases v, 1, 0
  {
    match v
    case Undefined => None
    case Null => Some(NULL)
    case NonFinite => Some(NULL)
    case Bool(b) => Some(if b then TRUE else FALSE)
    case Number(literal) => Some(literal)
    case String(s) => Some(Quote(s))
    case Array(_) => Some(Wrap(LBRACKET, ElementTexts(v, 0, mind + indent, indent), RBRACKET, mind + indent, mind))
    case Object(_) => Some(Wrap(LBRACE, MemberTexts(v, 0, mind + indent, indent), RBRACE, mind + indent, mind))
  }

  /** The texts of the elements from `k` on, `null` for a value without text. */
  function ElementTexts(v: Json, k: nat, gap: Text, indent: Text): (parts: seq<Text>)
    requires v.Array? && k <= |v.elements|
    ensures |parts| == |v.elements| - k
    decreases v, 0, |v.elements| - k
  {
    if k == |v.elements| then []
    else
      var t := Print(v.elements[k], gap, indent);
      [if t.Some? then t.value else NULL] + ElementTexts(v, k + 1, gap, indent)
  }

  /** The texts of the members from `k` on, without those whose value has no text. */
  function MemberTexts(v: Json, k: nat, gap: Text, indent: Text): seq<Text>
    requires v.Object? && k <= |v.members|
    decreases v, 0, |v.members| - k
  {
    if k == |v.members| then []
    else
      var m := v.members[k];
      var t := Print(m.value, gap, indent);
      if t.Some? then [Quote(m.key) + Colon(gap) + t.value] + MemberTexts(v, k + 1, gap, indent)
      else MemberTexts(v, k + 1, gap, indent)
  }

  // ---- What decoding should give back ---------------------------------------------------------

  /** JSON cannot say `Undefined` or a number that is not finite: in arrays, and for the latter
      anywhere, it says null; members without text are left out. */
  function Normal(v: Json): Json
    decreases v, 1, 0
  {
    match v
    case Undefined => Null
    case NonFinite => Null
    case Array(elements) => Array(seq(|elements|, i requires 0 <= i < |elements| => Normal(elements[i])))
    case Object(_) => Object(NormalMembers(v, 0))
    case _ => v
  }

  function NormalMembers(v: Json, k: nat): seq<Member>
    requires v.Object? && k <= |v.members|
    decreases v, 0, |v.members| - k
  {
    if k == |v.members| then []
    else
      var m := v.members[k];
      if m.value.Undefined? then NormalMembers(v, k + 1)
      else [Member(m.key, Normal(m.value))] + NormalMembers(v, k + 1)
  }

  /** All numbers are RFC 8259 literals. */
  predicate Literal(v: Json)
    decreases v
  {
    match v
    case Number(literal) => IsNumber(literal)
    case Array(elements) => forall i :: 0 <= i < |elements| ==> Literal(elements[i])
    case Object(members) => forall i :: 0 <= i < |members| ==> Literal(members[i].value)
    case _ => true
  }

  // ---- Decoding what was printed -----------------------------------------------------------------

  function Lead(gap: Text): Text { if gap != [] then [LF] + gap else [] }

  function Tail(gap: Text, mind: Text): Text { if gap != [] then [LF] + mind else [] }

  lemma Regroup(a: Text, b: Text, c: Text)
    ensures a + b + c == a + (b + c)
  {}

  lemma WrapShape(open: Unit, parts: seq<Text>, close: Unit, gap: Text, mind: Text)
    requires parts != []
    ensures Wrap(open, parts, close, gap, mind) == [open] + (Lead(gap)
      + (Join(parts, [COMMA] + Lead(gap)) + (Tail(gap, mind) + [close])))
  {
    if gap != [] {
      WrapLines(open, Join(parts, [COMMA, LF] + gap), close, gap, mind);
      assert [COMMA, LF] + gap == [COMMA] + ([LF] + gap);
    } else {
      var inner := Join(parts, [COMMA]) + [close];
      Regroup([open], Join(parts, [COMMA]), [close]);
      assert [COMMA] + [] == [COMMA] && [] + [close] == [close] && [] + inner == inner;
    }
  }

  lemma WrapLines(open: Unit, joined: Text, close: Unit, gap: Text, mind: Text)
    ensures [open, LF] + gap + joined + [LF] + mind + [close]
      == [open] + (([LF] + gap) + (joined + (([LF] + mind) + [close])))
  {}

  lemma WrapThen(open: Text, lead: Text, joined: Text, tail: Text, close: Text, rest: Text)
    ensures open + (lead + (joined + (tail + close))) + rest == open + (lead + (joined + (tail + (close + rest))))
  {}

  lemma SpaceBefore(w: Text, t: Text)
    requires AllSpace(w)
    ensures ParseValue(w + t) == ParseValue(t) && ParseElements(w + t) == ParseElements(t)
    ensures ParseMember(w + t) == ParseMember(t) && ParseMembers(w + t) == ParseMembers(t)
  {
    SpaceSkipped(w, t);
  }

  lemma SpaceOnly(w: Text, u: Unit, t: Text)
    requires AllSpace(w) && !IsSpace(u)
    ensures SkipSpace(w + ([u] + t)) == [u] + t
  {
    SpaceSkipped(w, [u] + t);
  }

  lemma NumberBranch(t: Text)
    requires t != [] && (IsDigit(t[0]) || t[0] == MINUS)
    ensures ParseValue(t) ==
      if NumberLength(t) > 0 then Ok(Number(t[..NumberLength(t)]), t[NumberLength(t)..]) else Fail
  {}

  lemma NumberParses(literal: Text, rest: Text)
    requires IsNumber(literal) && Delimits(rest)
    ensures ParseValue(literal + rest) == Ok(Number(literal), rest)
  {
    NumberStops(literal, rest);
    NumberStart(literal);
    NumberBranch(literal + rest);
    assert (literal + rest)[..|literal|] == literal && (literal + rest)[|literal|..] == rest;
  }

  lemma NumberStart(literal: Text)
    requires IsNumber(literal)
    ensures IsDigit(literal[0]) || literal[0] == MINUS
  {}

  // How the decoder puts pieces together.

  lemma LastElement(x: Text, v: Json, tail: Text, rest: Text)
    requires ParseValue(x) == Ok(v, tail + ([RBRACKET] + rest)) && AllSpace(tail)
    ensures ParseElements(x) == Ok([v], rest)
  {
    SpaceOnly(tail, RBRACKET, rest);
    assert ([RBRACKET] + rest)[1..] == rest;
  }

  lemma OneMoreElement(x: Text, v: Json, lead: Text, more: Text, vs: seq<Json>, rest: Text)
    requires ParseValue(x) == Ok(v, [COMMA] + (lead + more)) && AllSpace(lead) && ParseElements(more) == Ok(vs, rest)
    ensures ParseElements(x) == Ok([v] + vs, rest)
  {
    var after := [COMMA] + (lead + more);
    assert SkipSpace(after) == after && after[1..] == lead + more;
    SpaceBefore(lead, more);
  }

  lemma LastMember(x: Text, m: Member, tail: Text, rest: Text)
    requires ParseMember(x) == Ok(m, tail + ([RBRACE] + rest)) && AllSpace(tail)
    ensures ParseMembers(x) == Ok([m], rest)
  {
    SpaceOnly(tail, RBRACE, rest);
    assert ([RBRACE] + rest)[1..] == rest;
  }

  lemma OneMoreMember(x: Text, m: Member, lead: Text, more: Text, ms: seq<Member>, rest: Text)
    requires ParseMember(x) == Ok(m, [COMMA] + (lead + more)) && AllSpace(lead) && ParseMembers(more) == Ok(ms, rest)
    ensures ParseMembers(x) == Ok([m] + ms, rest)
  {
    var after := [COMMA] + (lead + more);
    assert SkipSpace(after) == after && after[1..] == lead + more;
    SpaceBefore(lead, more);
  }

  lemma WholeArray(lead: Text, inner: Text, vs: seq<Json>, rest: Text)
    requires AllSpace(lead) && ParseElements(inner) == Ok(vs, rest) && inner != [] && !IsSpace(inner[0])
      && inner[0] != RBRACKET
    ensures ParseValue([LBRACKET] + (lead + inner)) == Ok(Array(vs), rest)
  {
    var text := [LBRACKET] + (lead + inner);
    assert SkipSpace(text) == text && text[1..] == lead + inner;
    SpaceBefore(lead, inner);
    SpaceSkipped(lead, inner);
  }

  lemma WholeObject(lead: Text, inner: Text, ms: seq<Member>, rest: Text)
    requires AllSpace(lead) && ParseMembers(inner) == Ok(ms, rest) && inner != [] && inner[0] == QUOTE
    ensures ParseValue([LBRACE] + (lead + inner)) == Ok(Object(ms), rest)
  {
    var text := [LBRACE] + (lead + inner);
    assert SkipSpace(text) == text && text[1..] == lead + inner;
    SpaceBefore(lead, inner);
    SpaceSkipped(lead, inner);
  }

  lemma WholeMember(key: Text, space: Text, value: Text, v: Json, rest: Text)
    requires AllSpace(space) && ParseValue(value) == Ok(v, rest)
    ensures ParseMember([QUOTE] + (QuoteUnits(key) + [QUOTE] + ([COLON] + (space + value)))) == Ok(Member(key, v), rest)
  {
    var colon := [COLON] + (space + value);
    var text := [QUOTE] + (QuoteUnits(key) + [QUOTE] + colon);
    QuoteRead(key, colon);
    assert SkipSpace(text) == text && text[1..] == QuoteUnits(key) + [QUOTE] + colon;
    assert SkipSpace(colon) == colon && colon[1..] == space + value;
    SpaceBefore(space, value);
  }

  lemma ConstantsParse(v: Json, rest: Text)
    requires v in {Null, NonFinite, Bool(true), Bool(false)}
    ensures Print(v, [], []).Some? && ParseValue(Print(v, [], []).value + rest) == Ok(Normal(v), rest)
  {}

  lemma StringParses(s: Text, rest: Text)
    ensures ParseValue(Quote(s) + rest) == Ok(String(s), rest)
  {
    QuoteRead(s, rest);
    assert Quote(s) + rest == [QUOTE] + (QuoteUnits(s) + [QUOTE] + rest);
    assert ([QUOTE] + (QuoteUnits(s) + [QUOTE] + rest))[1..] == QuoteUnits(s) + [QUOTE] + rest;
  }

  function ElementText(v: Json, k: nat, gap: Text, indent: Text): Text
    requires v.Array? && k < |v.elements|
  {
    var t := Print(v.elements[k], gap, indent);
    if t.Some? then t.value else NULL
  }

  lemma {:induction false} PrintParses(v: Json, mind: Text, indent: Text, rest: Text)
    requires Literal(v) && AllSpace(mind) && AllSpace(indent) && !v.Undefined? && Delimits(rest)
    ensures Print(v, mind, indent).Some? && ParseValue(Print(v, mind, indent).value + rest) == Ok(Normal(v), rest)
    decreases v, 2, 0
  {
    match v
    case Number(literal) => NumberParses(literal, rest);
    case String(s) => StringParses(s, rest);
    case Array(elements) => ArrayParses(v, mind, indent, rest);
    case Object(members) => ObjectParses(v, mind, indent, rest);
    case _ => ConstantsParse(v, rest);
  }

  lemma {:induction false} ArrayParses(v: Json, mind: Text, indent: Text, rest: Text)
    requires v.Array? && Literal(v) && AllSpace(mind) && AllSpace(indent)
    ensures ParseValue(Print(v, mind, indent).value + rest) == Ok(Normal(v), rest)
    decreases v, 1, 0
  {
    var gap := mind + indent;
    var text := Print(v, mind, indent).value + rest;
    if v.elements == [] {
      assert text[1..] == [RBRACKET] + rest && text[1..][1..] == rest;
      assert Normal(v).elements == [];
    } else {
      var parts := ElementTexts(v, 0, gap, indent);
      var inner := Join(parts, [COMMA] + Lead(gap)) + (Tail(gap, mind) + ([RBRACKET] + rest));
      WrapShape(LBRACKET, parts, RBRACKET, gap, mind);
      WrapThen([LBRACKET], Lead(gap), Join(parts, [COMMA] + Lead(gap)), Tail(gap, mind), [RBRACKET], rest);
      ElementsParse(v, 0, gap, indent, Lead(gap), Tail(gap, mind), rest);
      ElementStart(v, gap, indent, Lead(gap), Tail(gap, mind) + ([RBRACKET] + rest));
      assert Normal(v).elements[0..] == Normal(v).elements;
      WholeArray(Lead(gap), inner, Normal(v).elements, rest);
    }
  }

  /** The text of an element does not start with a closing bracket. */
  lemma ElementStart(v: Json, gap: Text, indent: Text, lead: Text, after: Text)
    requires v.Array? && Literal(v) && v.elements != []
    ensures var s := Join(ElementTexts(v, 0, gap, indent), [COMMA] + lead) + after;
      s != [] && !IsSpace(s[0]) && s[0] != RBRACKET
  {
    var t := ElementText(v, 0, gap, indent);
    assert Literal(v.elements[0]);
    FirstUnit(v.elements[0], gap, indent);
    assert ElementTexts(v, 0, gap, indent)[0] == t;
    var all := Join(ElementTexts(v, 0, gap, indent), [COMMA] + lead) + after;
    assert all[0] == t[0];
  }

  lemma FirstUnit(v: Json, gap: Text, indent: Text)
    requires Literal(v)
    ensures Print(v, gap, indent).Some? ==>
      var t := Print(v, gap, indent).value; t != [] && !IsSpace(t[0]) && t[0] != RBRACKET && t[0] != RBRACE
  {}

  lemma {:induction false} ElementsParse(v: Json, k: nat, gap: Text, indent: Text, lead: Text, tail: Text, rest: Text)
    requires v.Array? && Literal(v) && k < |v.elements| && AllSpace(gap) && AllSpace(indent) && AllSpace(lead)
      && AllSpace(tail)
    ensures ParseElements(Join(ElementTexts(v, k, gap, indent), [COMMA] + lead) + (tail + ([RBRACKET] + rest)))
      == Ok(Normal(v).elements[k..], rest)
    decreases v, 0, |v.elements| - k
  {
    var end := tail + ([RBRACKET] + rest);
    if k + 1 == |v.elements| {
      ElementParses(v, k, gap, indent, end);
      assert Join(ElementTexts(v, k, gap, indent), [COMMA] + lead) == ElementText(v, k, gap, indent);
      assert Normal(v).elements[k..] == [Normal(v.elements[k])];
      LastElement(ElementText(v, k, gap, indent) + end, Normal(v.elements[k]), tail, rest);
    } else {
      var more := Join(ElementTexts(v, k + 1, gap, indent), [COMMA] + lead) + end;
      ElementParses(v, k, gap, indent, [COMMA] + (lead + more));
      ElementsParse(v, k + 1, gap, indent, lead, tail, rest);
      ElementJoin(v, k, gap, indent, lead, end);
      ElementThenMore(v, k, ElementText(v, k, gap, indent), lead, more, rest);
    }
  }

  lemma ElementThenMore(v: Json, k: nat, t: Text, lead: Text, more: Text, rest: Text)
    requires v.Array? && k + 1 < |v.elements| && AllSpace(lead)
      && ParseElements(more) == Ok(Normal(v).elements[k + 1..], rest)
    requires ParseValue(t + ([COMMA] + (lead + more))) == Ok(Normal(v.elements[k]), [COMMA] + (lead + more))
    ensures ParseElements(t + ([COMMA] + (lead + more))) == Ok(Normal(v).elements[k..], rest)
  {
    var e, es := Normal(v.elements[k]), Normal(v).elements;
    OneMoreElement(t + ([COMMA] + (lead + more)), e, lead, more, es[k + 1..], rest);
    assert es[k..] == [e] + es[k + 1..];
  }

  lemma {:induction false} ElementParses(v: Json, k: nat, gap: Text, indent: Text, after: Text)
    requires v.Array? && Literal(v) && k < |v.elements| && AllSpace(gap) && AllSpace(indent) && Delimits(after)
    ensures ParseValue(ElementText(v, k, gap, indent) + after) == Ok(Normal(v.elements[k]), after)
    decreases v, 0, 0
  {
    assert Literal(v.elements[k]);
    if v.elements[k].Undefined? {
      ConstantsParse(Null, after);
    } else {
      PrintParses(v.elements[k], gap, indent, after);
    }
  }

  lemma {:induction false} ObjectParses(v: Json, mind: Text, indent: Text, rest: Text)
    requires v.Object? && Literal(v) && AllSpace(mind) && AllSpace(indent)
    ensures ParseValue(Print(v, mind, indent).value + rest) == Ok(Normal(v), rest)
    decreases v, 1, 0
  {
    var gap := mind + indent;
    var text := Print(v, mind, indent).value + rest;
    var parts := MemberTexts(v, 0, gap, indent);
    SameMembers(v, 0, gap, indent);
    if parts == [] {
      assert text[1..] == [RBRACE] + rest && text[1..][1..] == rest;
    } else {
      var inner := Join(parts, [COMMA] + Lead(gap)) + (Tail(gap, mind) + ([RBRACE] + rest));
      WrapShape(LBRACE, parts, RBRACE, gap, mind);
      WrapThen([LBRACE], Lead(gap), Join(parts, [COMMA] + Lead(gap)), Tail(gap, mind), [RBRACE], rest);
      MembersParse(v, 0, gap, indent, Lead(gap), Tail(gap, mind), rest);
      MemberStart(v, 0, gap, indent);
      assert inner[0] == parts[0][0] == QUOTE;
      WholeObject(Lead(gap), inner, NormalMembers(v, 0), rest);
    }
  }

  lemma {:induction false} SameMembers(v: Json, k: nat, gap: Text, indent: Text)
    requires v.Object? && k <= |v.members|
    ensures MemberTexts(v, k, gap, indent) == [] <==> NormalMembers(v, k) == []
    decreases |v.members| - k
  {
    if k < |v.members| { SameMembers(v, k + 1, gap, indent); }
  }

  lemma {:induction false} MemberStart(v: Json, k: nat, gap: Text, indent: Text)
    requires v.Object? && k <= |v.members| && MemberTexts(v, k, gap, indent) != []
    ensures var first := MemberTexts(v, k, gap, indent)[0]; first != [] && first[0] == QUOTE
    decreases |v.members| - k
  {
    if v.members[k].value.Undefined? { MemberStart(v, k + 1, gap, indent); }
  }

  lemma {:induction false} MembersParse(v: Json, k: nat, gap: Text, indent: Text, lead: Text, tail: Text, rest: Text)
    requires v.Object? && Literal(v) && k <= |v.members| && MemberTexts(v, k, gap, indent) != []
    requires AllSpace(gap) && AllSpace(indent) && AllSpace(lead) && AllSpace(tail)
    ensures ParseMembers(Join(MemberTexts(v, k, gap, indent), [COMMA] + lead) + (tail + ([RBRACE] + rest)))
      == Ok(NormalMembers(v, k), rest)
    decreases v, 0, |v.members| - k
  {
    var parts, sep, m := MemberTexts(v, k, gap, indent), [COMMA] + lead, v.members[k];
    if m.value.Undefined? {
      MembersParse(v, k + 1, gap, indent, lead, tail, rest);
    } else {
      var others := MemberTexts(v, k + 1, gap, indent);
      SameMembers(v, k + 1, gap, indent);
      assert parts[1..] == others;
      if others == [] {
        var after := tail + ([RBRACE] + rest);
        MemberParses(v, k, gap, indent, after);
        assert Join(parts, sep) == parts[0];
        LastMember(parts[0] + after, Member(m.key, Normal(m.value)), tail, rest);
        assert NormalMembers(v, k) == [Member(m.key, Normal(m.value))];
      } else {
        var more := Join(others, sep) + (tail + ([RBRACE] + rest));
        var after := [COMMA] + (lead + more);
        assert Join(parts, sep) + (tail + ([RBRACE] + rest)) == parts[0] + after;
        MemberParses(v, k, gap, indent, after);
        MembersParse(v, k + 1, gap, indent, lead, tail, rest);
        OneMoreMember(parts[0] + after, Member(m.key, Normal(m.value)), lead, more, NormalMembers(v, k + 1), rest);
      }
    }
  }

  lemma {:induction false} MemberParses(v: Json, k: nat, gap: Text, indent: Text, after: Text)
    requires v.Object? && Literal(v) && k < |v.members| && !v.members[k].value.Undefined?
    requires AllSpace(gap) && AllSpace(indent) && Delimits(after)
    ensures MemberTexts(v, k, gap, indent) != []
    ensures var m := v.members[k];
      ParseMember(MemberTexts(v, k, gap, indent)[0] + after) == Ok(Member(m.key, Normal(m.value)), after)
    decreases v, 0, 0
  {
    var m := v.members[k];
    assert Literal(m.value);
    PrintParses(m.value, gap, indent, after);
    var t := Print(m.value, gap, indent).value;
    var space := if gap != [] then [SPACE] else [];
    WholeMember(m.key, space, t + after, Normal(m.value), after);
    assert Colon(gap) == [COLON] + space;
    MemberShape(m.key, space, t, after);
  }

  lemma MemberShape(key: Text, space: Text, t: Text, after: Text)
    ensures Quote(key) + ([COLON] + space) + t + after == [QUOTE]
      + (QuoteUnits(key) + [QUOTE] + ([COLON] + (space + (t + after))))
  {}

  lemma JoinShape(t: Text, lead: Text, more: Text, end: Text)
    ensures t + ([COMMA] + lead) + more + end == t + ([COMMA] + (lead + (more + end)))
  {}

  lemma ElementJoin(v: Json, k: nat, gap: Text, indent: Text, lead: Text, end: Text)
    requires v.Array? && k + 1 < |v.elements|
    ensures var sep := [COMMA] + lead;
      Join(ElementTexts(v, k, gap, indent), sep) + end
        == ElementText(v, k, gap, indent) + ([COMMA] + (lead + (Join(ElementTexts(v, k + 1, gap, indent), sep) + end)))
  {
    var parts := ElementTexts(v, k, gap, indent);
    assert parts[0] == ElementText(v, k, gap, indent) && parts[1..] == ElementTexts(v, k + 1, gap, indent);
    JoinShape(parts[0], lead, Join(parts[1..], [COMMA] + lead), end);
  }

  // ---- The promises ------------------------------------------------------------------------------

  function SpaceIndent(n: nat): Text { seq(n, _ => SPACE) }

  /** Decoding the printed text gives the value back, whatever whitespace it was indented with. */
  lemma RoundTrip(v: Json, indent: Text)
    requires Literal(v) && AllSpace(indent) && !v.Undefined?
    ensures Print(v, [], indent).Some? && Decode(Print(v, [], indent).value) == Ok(Normal(v), [])
  {
    PrintParses(v, [], indent, []);
    assert Print(v, [], indent).value + [] == Print(v, [], indent).value;
  }

  // ---- The printer as an object ------------------------------------------------------------------

  datatype Space = NoSpace | Count(n: int) | Chosen(indent: Text)

  lemma {:induction false} ElementsMore(v: Json, k: nat, gap: Text, indent: Text, before: seq<Text>)
    requires v.Array? && k < |v.elements|
    ensures before + ElementTexts(v, k, gap, indent) == before + [ElementText(v, k, gap, indent)]
      + ElementTexts(v, k + 1, gap, indent)
  {}

  lemma {:induction false} PartsMore(v: Json, k: nat, gap: Text, indent: Text)
    requires v.Object? && k < |v.members|
    ensures var m := v.members[k];
      var t := Print(m.value, gap, indent);
      MemberTexts(v, k, gap, indent) == (if t.Some? then [Quote(m.key) + Colon(gap) + t.value] else [])
          + MemberTexts(v, k + 1, gap, indent)
  {}

  class Printer {
    var gap: Text
    var indent: Text

    constructor ()
      ensures gap == [] && indent == []
    {
      gap, indent := [], [];
    }

    method QuoteText(s: Text) returns (text: Text)
      ensures text == Quote(s)
    {
      text := [];
      var i := 0;
      while i < |s|
        invariant 0 <= i <= |s| && text + QuoteUnits(s[i..]) == QuoteUnits(s)
      {
        assert s[i..][1..] == s[i + 1..];
        Regroup(text, QuoteUnit(s[i]), QuoteUnits(s[i + 1..]));
        text := text + QuoteUnit(s[i]);
        i := i + 1;
      }
      text := [QUOTE] + text + [QUOTE];
    }

    method JoinParts(parts: seq<Text>, sep: Text) returns (text: Text)
      ensures text == Join(parts, sep)
    {
      text := [];
      var i := |parts|;
      while i > 0
        invariant 0 <= i <= |parts| && text == Join(parts[i..], sep)
      {
        i := i - 1;
        assert parts[i..][1..] == parts[i + 1..];
        text := if i + 1 == |parts| then parts[i] else parts[i] + sep + text;
      }
    }

    /** Parts between brackets, in the present gap. */
    method WrapParts(open: Unit, parts: seq<Text>, close: Unit, mind: Text) returns (text: Text)
      ensures text == Wrap(open, parts, close, gap, mind)
    {
      if parts == [] {
        text := [open, close];
      } else if gap != [] {
        var joined := JoinParts(parts, [COMMA, LF] + gap);
        text := [open, LF] + gap + joined + [LF] + mind + [close];
      } else {
        var joined := JoinParts(parts, [COMMA]);
        text := [open] + joined + [close];
      }
    }

    /** The text of a value; the gap, lengthened for what is nested, is put back. */
    method Str(v: Json) returns (text: Option<Text>)
      modifies this`gap
      ensures gap == old(gap) && text == Print(v, old(gap), indent)
      decreases v, 1
    {
      var mind := gap;
      match v {
        case Undefined => text := None;
        case Null => text := Some(NULL);
        case NonFinite => text := Some(NULL);
        case Bool(b) => text := Some(if b then TRUE else FALSE);
        case Number(literal) => text := Some(literal);
        case String(s) =>
          var quoted := QuoteText(s);
          text := Some(quoted);
        case Array(_) =>
          gap := gap + indent;
          var partial := StrElements(v);
          var wrapped := WrapParts(LBRACKET, partial, RBRACKET, mind);
          gap := mind;
          text := Some(wrapped);
        case Object(_) =>
          gap := gap + indent;
          var partial := StrMembers(v);
          var wrapped := WrapParts(LBRACE, partial, RBRACE, mind);
          gap := mind;
          text := Some(wrapped);
      }
    }

    method StrElements(v: Json) returns (partial: seq<Text>)
      requires v.Array?
      modifies this`gap
      ensures gap == old(gap) && partial == ElementTexts(v, 0, gap, indent)
      decreases v, 0
    {
      partial := [];
      for i := 0 to |v.elements|
        invariant gap == old(gap) && partial + ElementTexts(v, i, gap, indent) == ElementTexts(v, 0, gap, indent)
      {
        ghost var before := partial;
        var t := Str(v.elements[i]);
        partial := partial + [if t.Some? then t.value else NULL];
        ElementsMore(v, i, gap, indent, before);
      }
    }

    method StrMembers(v: Json) returns (partial: seq<Text>)
      requires v.Object?
      modifies this`gap
      ensures gap == old(gap) && partial == MemberTexts(v, 0, gap, indent)
      decreases v, 0
    {
      partial := [];
      for i := 0 to |v.members|
        invariant gap == old(gap) && partial + MemberTexts(v, i, gap, indent) == MemberTexts(v, 0, gap, indent)
      {
        PartsMore(v, i, gap, indent);
        var t := Str(v.members[i].value);
        if t.Some? {
          var key := QuoteText(v.members[i].key);
          partial := partial + [key + Colon(gap) + t.value];
        }
      }
    }

    method Stringify(v: Json, space: Space) returns (text: Option<Text>)
      modifies this
      ensures gap == []
      ensures indent == match space
                        case NoSpace => []
                        case Count(n) => SpaceIndent(if n < 0 then 0 else n)
                        case Chosen(s) => s
      ensures text == Print(v, [], indent)
      ensures text.Some? && Literal(v) && AllSpace(indent) ==> Decode(text.value) == Ok(Normal(v), [])
    {
      gap, indent := [], [];
      match space {
        case NoSpace =>
        case Count(n) =>
          var i := 0;
          while i < n
            invariant 0 <= i && (i <= n || i == 0) && indent == SpaceIndent(i) && gap == []
          {
            indent := indent + [SPACE];
            i := i + 1;
          }
        case Chosen(s) => indent := s;
      }
      text := Str(v);
      if Literal(v) && AllSpace(indent) && !v.Undefined? { RoundTrip(v, indent); }
    }
  }
}
