/** Indentation only adds whitespace outside strings, and only whitespace will do. */
module JsonLayout {
  import opened JsonText
  import opened JsonPrinter
  import opened Wrappers

  /** The text without the whitespace outside its strings. */
  function Strip(t: Text, inside: bool): Text
    decreases |t|
  {
    if t == [] then []
    else if inside then
      if t[0] == BACKSLASH && |t| > 1 then [t[0], t[1]] + Strip(t[2..], true)
      else [t[0]] + Strip(t[1..], t[0] != QUOTE)
    else if IsSpace(t[0]) then Strip(t[1..], false)
    else [t[0]] + Strip(t[1..], t[0] == QUOTE)
  }

  lemma {:induction false} StripSpace(w: Text, rest: Text)
    requires AllSpace(w)
    ensures Strip(w + rest, false) == Strip(rest, false)
    decreases |w|
  {
    if w == [] {
      assert w + rest == rest;
    } else {
      assert (w + rest)[1..] == w[1..] + rest;
      StripSpace(w[1..], rest);
    }
  }

  predicate Plain(t: Text) { forall i :: 0 <= i < |t| ==> !IsSpace(t[i]) && t[i] != QUOTE }

  lemma {:induction false} StripPlain(t: Text, rest: Text)
    requires Plain(t)
    ensures Strip(t + rest, false) == t + Strip(rest, false)
    decreases |t|
  {
    if t == [] {
      assert t + rest == rest && t + Strip(rest, false) == Strip(rest, false);
    } else {
      assert (t + rest)[1..] == t[1..] + rest;
      StripPlain(t[1..], rest);
      assert [t[0]] + (t[1..] + Strip(rest, false)) == t + Strip(rest, false);
    }
  }

  // ---- Numbers and strings -----------------------------------------------------------------

  lemma {:induction false} DigitsAre(t: Text, i: nat, k: nat)
    requires i <= |t| && i <= k < Digits(t, i)
    ensures IsDigit(t[k])
    decreases k - i
  {
    if i < k { DigitsAre(t, i + 1, k); }
  }

  predicate InNumber(u: Unit) { IsDigit(u) || u in {0x2D, 0x2E, 0x65, 0x45, 0x2B} }

  lemma IntegerUnits(t: Text, i: nat, k: nat)
    requires i <= |t| && i <= k < IntegerEnd(t, i)
    ensures InNumber(t[k])
  {
    if t[i] != 0x30 { DigitsAre(t, i, k); }
  }

  lemma FractionUnits(t: Text, i: nat, k: nat)
    requires i <= |t| && i <= k < FractionEnd(t, i)
    ensures InNumber(t[k])
  {
    if i < k { DigitsAre(t, i + 1, k); }
  }

  lemma ExponentUnits(t: Text, i: nat, k: nat)
    requires i <= |t| && i <= k < ExponentEnd(t, i)
    ensures InNumber(t[k])
  {
    var digits := if i + 1 < |t| && t[i + 1] in {0x2B, 0x2D} then i + 2 else i + 1;
    if digits <= k { DigitsAre(t, digits, k); }
  }

  lemma NumberPlain(t: Text)
    requires IsNumber(t)
    ensures Plain(t)
  {
    var sign := if t[0] == MINUS then 1 else 0;
    var whole := IntegerEnd(t, sign);
    var e := FractionEnd(t, whole);
    forall k | 0 <= k < |t| ensures InNumber(t[k]) {
      if k < sign {
      } else if k < whole {
        IntegerUnits(t, sign, k);
      } else if k < e {
        FractionUnits(t, whole, k);
      } else {
        ExponentUnits(t, e, k);
      }
    }
  }

  lemma UnitInside(u: Unit, rest: Text)
    ensures Strip(QuoteUnit(u) + rest, true) == QuoteUnit(u) + Strip(rest, true)
  {
    var q := QuoteUnit(u);
    var t := q + rest;
    if |q| == 1 {
      assert t[1..] == rest;
    } else if |q| == 2 {
      assert t[2..] == rest;
    } else {
      HexUnitInside(u, rest);
    }
  }

  lemma HexUnitInside(u: Unit, rest: Text)
    ensures Strip([BACKSLASH, 0x75] + Hex(u) + rest, true) == [BACKSLASH, 0x75] + Hex(u) + Strip(rest, true)
  {
    var q, h := [BACKSLASH, 0x75], Hex(u);
    Regroup(q, h, rest);
    Regroup(q, h, Strip(rest, true));
    assert (q + (h + rest))[2..] == h + rest;
    PlainInside(h, rest);
  }

  lemma {:induction false} PlainInside(t: Text, rest: Text)
    requires forall i :: 0 <= i < |t| ==> t[i] != BACKSLASH && t[i] != QUOTE
    ensures Strip(t + rest, true) == t + Strip(rest, true)
    decreases |t|
  {
    if t == [] {
      assert t + rest == rest && t + Strip(rest, true) == Strip(rest, true);
    } else {
      assert (t + rest)[1..] == t[1..] + rest;
      PlainInside(t[1..], rest);
      assert [t[0]] + (t[1..] + Strip(rest, true)) == t + Strip(rest, true);
    }
  }

  lemma {:induction false} UnitsInside(s: Text, rest: Text)
    ensures Strip(QuoteUnits(s) + ([QUOTE] + rest), true) == QuoteUnits(s) + ([QUOTE] + Strip(rest, false))
    decreases |s|
  {
    if s == [] {
      assert QuoteUnits(s) + ([QUOTE] + rest) == [QUOTE] + rest && ([QUOTE] + rest)[1..] == rest;
      assert QuoteUnits(s) + ([QUOTE] + Strip(rest, false)) == [QUOTE] + Strip(rest, false);
    } else {
      var more := QuoteUnits(s[1..]) + ([QUOTE] + rest);
      assert QuoteUnits(s) + ([QUOTE] + rest) == QuoteUnit(s[0]) + more;
      UnitInside(s[0], more);
      UnitsInside(s[1..], rest);
      assert QuoteUnit(s[0]) + (QuoteUnits(s[1..]) + ([QUOTE] + Strip(rest, false)))
          == QuoteUnits(s) + ([QUOTE] + Strip(rest, false));
    }
  }

  lemma QuoteThen(s: Text, rest: Text)
    ensures Quote(s) + rest == [QUOTE] + (QuoteUnits(s) + ([QUOTE] + rest))
  {}

  lemma StripQuoted(s: Text, rest: Text)
    ensures Strip(Quote(s) + rest, false) == Quote(s) + Strip(rest, false)
  {
    var t := QuoteUnits(s) + ([QUOTE] + rest);
    QuoteThen(s, rest);
    QuoteThen(s, Strip(rest, false));
    assert ([QUOTE] + t)[1..] == t;
    UnitsInside(s, rest);
  }

  // ---- Values ------------------------------------------------------------------------------

  /** The compact text. */
  function Compact(v: Json): Text
    requires !v.Undefined?
  {
    Print(v, [], []).value
  }

  lemma {:induction false} StripPrint(v: Json, mind: Text, indent: Text, rest: Text)
    requires Literal(v) && AllSpace(mind) && AllSpace(indent) && !v.Undefined?
    ensures Print(v, mind, indent).Some? && Strip(Print(v, mind, indent).value + rest, false)
      == Compact(v) + Strip(rest, false)
    decreases v, 2, 0
  {
    match v
    case String(s) => StripQuoted(s, rest);
    case Array(elements) => StripArray(v, mind, indent, rest);
    case Object(members) => StripObject(v, mind, indent, rest);
    case Number(literal) => NumberPlain(literal); StripPlain(literal, rest);
    case Null => StripPlain(NULL, rest);
    case NonFinite => StripPlain(NULL, rest);
    case Bool(b) => StripPlain(if b then TRUE else FALSE, rest);
  }

  lemma StripWrap(open: Unit, close: Unit, lead: Text, joined: Text, tail: Text, plain: Text, rest: Text)
    requires AllSpace(lead) && AllSpace(tail) && Plain([open]) && Plain([close])
    requires Strip(joined + (tail + ([close] + rest)), false) == plain + Strip(tail + ([close] + rest), false)
    ensures Strip([open] + (lead + (joined + (tail + [close]))) + rest, false)
      == [open] + (plain + [close]) + Strip(rest, false)
  {
    var inner := joined + (tail + ([close] + rest));
    WrapThen([open], lead, joined, tail, [close], rest);
    StripPlain([open], lead + inner);
    StripSpace(lead, inner);
    StripSpace(tail, [close] + rest);
    StripPlain([close], rest);
    assert [open] + (plain + ([close] + Strip(rest, false))) == [open] + (plain + [close]) + Strip(rest, false);
  }

  lemma {:induction false} StripArray(v: Json, mind: Text, indent: Text, rest: Text)
    requires v.Array? && Literal(v) && AllSpace(mind) && AllSpace(indent)
    ensures Strip(Print(v, mind, indent).value + rest, false) == Compact(v) + Strip(rest, false)
    decreases v, 1, 0
  {
    var gap := mind + indent;
    var none: Text := [];
    assert none + none == none;
    if v.elements == [] {
      StripPlain([LBRACKET, RBRACKET], rest);
    } else {
      var parts, plain := ElementTexts(v, 0, gap, indent), ElementTexts(v, 0, [], []);
      WrapShape(LBRACKET, parts, RBRACKET, gap, mind);
      StripElements(v, 0, gap, indent, Lead(gap), Tail(gap, mind) + ([RBRACKET] + rest));
      StripWrap(LBRACKET, RBRACKET, Lead(gap), Join(parts, [COMMA] + Lead(gap)), Tail(gap, mind),
          Join(plain, [COMMA]), rest);
      assert Compact(v) == [LBRACKET] + (Join(plain, [COMMA]) + [RBRACKET]);
    }
  }

  lemma {:induction false} StripElements(v: Json, k: nat, gap: Text, indent: Text, lead: Text, rest: Text)
    requires v.Array? && Literal(v) && k < |v.elements| && AllSpace(gap) && AllSpace(indent) && AllSpace(lead)
    ensures Strip(Join(ElementTexts(v, k, gap, indent), [COMMA] + lead) + rest, false)
      == Join(ElementTexts(v, k, [], []), [COMMA]) + Strip(rest, false)
    decreases v, 0, |v.elements| - k
  {
    var t, p := ElementText(v, k, gap, indent), ElementText(v, k, [], []);
    assert ElementTexts(v, k, gap, indent)[0] == t && ElementTexts(v, k, [], [])[0] == p;
    if k + 1 == |v.elements| {
      StripElement(v, k, gap, indent, rest);
    } else {
      var more := Join(ElementTexts(v, k + 1, gap, indent), [COMMA] + lead) + rest;
      ElementJoin(v, k, gap, indent, lead, rest);
      StripElement(v, k, gap, indent, [COMMA] + (lead + more));
      StripElements(v, k + 1, gap, indent, lead, rest);
      StripSeparator(lead, more);
      ElementJoin(v, k, [], [], [], Strip(rest, false));
      assert [COMMA] + [] == [COMMA];
      assert [] + (Join(ElementTexts(v, k + 1, [], []), [COMMA]) + Strip(rest, false))
          == Join(ElementTexts(v, k + 1, [], []), [COMMA]) + Strip(rest, false);
    }
  }

  lemma StripSeparator(lead: Text, more: Text)
    requires AllSpace(lead)
    ensures Strip([COMMA] + (lead + more), false) == [COMMA] + Strip(more, false)
  {
    StripPlain([COMMA], lead + more);
    StripSpace(lead, more);
  }

  lemma {:induction false} StripElement(v: Json, k: nat, gap: Text, indent: Text, rest: Text)
    requires v.Array? && Literal(v) && k < |v.elements| && AllSpace(gap) && AllSpace(indent)
    ensures Strip(ElementText(v, k, gap, indent) + rest, false) == ElementText(v, k, [], []) + Strip(rest, false)
    decreases v, 0, 0
  {
    assert Literal(v.elements[k]);
    if v.elements[k].Undefined? {
      StripPlain(NULL, rest);
    } else {
      StripPrint(v.elements[k], gap, indent, rest);
    }
  }

  lemma {:induction false} StripObject(v: Json, mind: Text, indent: Text, rest: Text)
    requires v.Object? && Literal(v) && AllSpace(mind) && AllSpace(indent)
    ensures Strip(Print(v, mind, indent).value + rest, false) == Compact(v) + Strip(rest, false)
    decreases v, 1, 0
  {
    var gap := mind + indent;
    var none: Text := [];
    assert none + none == none;
    var parts, plain := MemberTexts(v, 0, gap, indent), MemberTexts(v, 0, none, none);
    SameMembers(v, 0, gap, indent);
    SameMembers(v, 0, none, none);
    if parts == [] {
      StripPlain([LBRACE, RBRACE], rest);
    } else {
      WrapShape(LBRACE, parts, RBRACE, gap, mind);
      StripMembers(v, 0, gap, indent, Lead(gap), Tail(gap, mind) + ([RBRACE] + rest));
      StripWrap(LBRACE, RBRACE, Lead(gap), Join(parts, [COMMA] + Lead(gap)), Tail(gap, mind), Join(plain, [COMMA]),
          rest);
      assert Compact(v) == [LBRACE] + (Join(plain, [COMMA]) + [RBRACE]);
    }
  }

  lemma {:induction false} StripMembers(v: Json, k: nat, gap: Text, indent: Text, lead: Text, rest: Text)
    requires v.Object? && Literal(v) && k <= |v.members| && MemberTexts(v, k, gap, indent) != []
    requires AllSpace(gap) && AllSpace(indent) && AllSpace(lead)
    ensures Strip(Join(MemberTexts(v, k, gap, indent), [COMMA] + lead) + rest, false)
      == Join(MemberTexts(v, k, [], []), [COMMA]) + Strip(rest, false)
    decreases v, 0, |v.members| - k
  {
    if v.members[k].value.Undefined? {
      StripMembers(v, k + 1, gap, indent, lead, rest);
    } else {
      var parts, plain := MemberTexts(v, k, gap, indent), MemberTexts(v, k, [], []);
      var others, bare := MemberTexts(v, k + 1, gap, indent), MemberTexts(v, k + 1, [], []);
      assert parts[1..] == others && plain[1..] == bare;
      SameMembers(v, k + 1, gap, indent);
      SameMembers(v, k + 1, [], []);
      if others == [] {
        StripMember(v, k, gap, indent, rest);
      } else {
        var more := Join(others, [COMMA] + lead) + rest;
        JoinShape(parts[0], lead, Join(others, [COMMA] + lead), rest);
        StripMember(v, k, gap, indent, [COMMA] + (lead + more));
        StripMembers(v, k + 1, gap, indent, lead, rest);
        StripSeparator(lead, more);
        PlainJoin(plain[0], Join(bare, [COMMA]), Strip(rest, false));
      }
    }
  }

  lemma PlainJoin(t: Text, more: Text, end: Text)
    ensures t + ([COMMA] + (more + end)) == t + [COMMA] + more + end
  {}

  lemma {:induction false} StripMember(v: Json, k: nat, gap: Text, indent: Text, rest: Text)
    requires v.Object? && Literal(v) && k < |v.members| && !v.members[k].value.Undefined? && AllSpace(gap)
      && AllSpace(indent)
    ensures MemberTexts(v, k, gap, indent) != [] && MemberTexts(v, k, [], []) != []
    ensures Strip(MemberTexts(v, k, gap, indent)[0] + rest, false) == MemberTexts(v, k, [], [])[0] + Strip(rest, false)
    decreases v, 0, 0
  {
    var m := v.members[k];
    assert Literal(m.value);
    var t := Print(m.value, gap, indent).value;
    var space := if gap != [] then [SPACE] else [];
    StripPrint(m.value, gap, indent, rest);
    assert Colon(gap) == [COLON] + space;
    MemberParts(m.key, space, t, rest);
    var value := t + rest;
    StripQuoted(m.key, [COLON] + (space + value));
    StripPlain([COLON], space + value);
    StripSpace(space, value);
    var bare, end := Compact(m.value), Strip(rest, false);
    assert MemberTexts(v, k, gap, indent)[0] + rest == Quote(m.key) + ([COLON] + (space + value));
    assert MemberTexts(v, k, [], [])[0] == Quote(m.key) + [COLON] + bare;
    BareMember(Quote(m.key), bare, end);
  }

  lemma BareMember(key: Text, bare: Text, end: Text)
    ensures key + ([COLON] + (bare + end)) == key + [COLON] + bare + end
  {}

  lemma MemberParts(key: Text, space: Text, t: Text, rest: Text)
    ensures Quote(key) + ([COLON] + space) + t + rest == Quote(key) + ([COLON] + (space + (t + rest)))
  {}

  /** Printing with any whitespace indent differs from compact printing only in whitespace
      outside strings. */
  lemma LayoutOnly(v: Json, indent: Text)
    requires Literal(v) && AllSpace(indent) && !v.Undefined?
    ensures Print(v, [], indent).Some? && Strip(Print(v, [], indent).value, false) == Compact(v)
  {
    StripPrint(v, [], indent, []);
    var text := Print(v, [], indent).value;
    assert text + [] == text && Compact(v) + Strip([], false) == Compact(v);
  }

  // ---- Only whitespace indents will do -----------------------------------------------------------

  function NonSpace(t: Text): Text
    decreases |t|
  {
    if t == [] then [] else if IsSpace(t[0]) then NonSpace(t[1..]) else [t[0]] + NonSpace(t[1..])
  }

  lemma {:induction false} NonSpaceAppend(a: Text, b: Text)
    ensures NonSpace(a + b) == NonSpace(a) + NonSpace(b)
    decreases |a|
  {
    if a == [] {
      assert a + b == b;
    } else {
      assert (a + b)[1..] == a[1..] + b;
      NonSpaceAppend(a[1..], b);
    }
  }

  lemma {:induction false} NonSpaceSkip(t: Text)
    ensures NonSpace(SkipSpace(t)) == NonSpace(t)
    decreases |t|
  {
    if t != [] && IsSpace(t[0]) { NonSpaceSkip(t[1..]); }
  }

  lemma {:induction false} NonSpaceNone(t: Text)
    requires NonSpace(t) == []
    ensures AllSpace(t)
    decreases |t|
  {
    if t != [] { NonSpaceNone(t[1..]); }
  }

  lemma NullTaken(t: Text)
    requires ParseValue(t).Ok? && ParseValue(t).value == Null
    ensures NonSpace(t) == NULL + NonSpace(ParseValue(t).rest)
  {
    var s := SkipSpace(t);
    NonSpaceSkip(t);
    assert s == NULL + s[4..];
    NonSpaceAppend(NULL, s[4..]);
    assert NULL[1..] == [0x75, 0x6C, 0x6C] && NULL[1..][1..] == [0x6C, 0x6C] && NULL[1..][1..][1..] == [0x6C]
        && NULL[1..][1..][1..][1..] == [];
    assert NonSpace(NULL) == NULL;
  }

  lemma NullArrayTaken(t: Text)
    requires Decode(t) == Ok(Array([Null]), [])
    ensures |NonSpace(t)| == 6
  {
    var s := SkipSpace(t);
    NonSpaceSkip(t);
    assert s[0] == LBRACKET;
    var inner := s[1..];
    var p := ParseElements(inner);
    assert p.value == [Null];
    var v := ParseValue(inner);
    var u := SkipSpace(v.rest);
    assert u[0] == RBRACKET;
    NullTaken(inner);
    NonSpaceSkip(v.rest);
    NonSpaceSkip(u[1..]);
    assert NonSpace(s) == [LBRACKET] + NonSpace(inner) && NonSpace(u) == [RBRACKET] + NonSpace(u[1..]);
    assert NonSpace([]) == [];
  }

  /** The printed text decodes to its value for every value exactly if the indent is whitespace. */
  lemma OnlyWhitespaceIndents(indent: Text)
    ensures AllSpace(indent) <==>
      forall v :: Literal(v) && !v.Undefined? ==> Decode(Print(v, [], indent).value) == Ok(Normal(v), [])
  {
    forall v | AllSpace(indent) && Literal(v) && !v.Undefined?
      ensures Decode(Print(v, [], indent).value) == Ok(Normal(v), [])
    {
      RoundTrip(v, indent);
    }
    var one := Array([Null]);
    if Decode(Print(one, [], indent).value) == Ok(Normal(one), []) && indent != [] {
      assert Normal(one).elements == [Null];
      var text := Print(one, [], indent).value;
      NullArrayTaken(text);
      NullArrayText(indent);
      NonSpaceNone(indent);
    }
  }

  lemma NullArrayText(indent: Text)
    requires indent != []
    ensures |NonSpace(Print(Array([Null]), [], indent).value)| == 6 + |NonSpace(indent)|
  {
    var v := Array([Null]);
    var none: Text := [];
    assert none + indent == indent && ElementTexts(v, 0, indent, indent) == [NULL];
    var text := Print(v, none, indent).value;
    var end := NULL + [LF, RBRACKET];
    assert text == [LBRACKET, LF] + (indent + end);
    NonSpaceAppend([LBRACKET, LF], indent + end);
    NonSpaceAppend(indent, end);
    assert [LBRACKET, LF][1..] == [LF] && [LF][1..] == none;
    NonSpaceAppend(NULL, [LF, RBRACKET]);
    assert [LF, RBRACKET][1..] == [RBRACKET] && [RBRACKET][1..] == none;
    NullTaken(NULL);
    assert NULL[4..] == none;
  }
}
