/** Where the printer breaks lines and what it escapes: the indented text is the compact text spread
    over lines by a formatter that knows nothing of the printer, and no text holds a unit that
    some reader might mistake. */
module JsonFormat {
  import opened JsonText
  import opened JsonPrinter
  import opened JsonLayout
  import opened Wrappers

  // ---- A formatter for compact texts -----------------------------------------------------------

  function Times(indent: Text, d: nat): Text { if d == 0 then [] else Times(indent, d - 1) + indent }

  function NewLine(indent: Text, d: nat): Text { [LF] + Times(indent, d) }

  predicate Opens(u: Unit) { u == LBRACKET || u == LBRACE }

  predicate Closes(u: Unit) { u == RBRACKET || u == RBRACE }

  /** What becomes of a unit outside strings at depth `d`: a line begins after a bracket that opens
      and after a comma, and before a bracket that closes; a colon is followed by a space. */
  function Spaced(u: Unit, d: nat, indent: Text): Text {
    if Opens(u) then [u] + NewLine(indent, d + 1)
    else if Closes(u) then NewLine(indent, if d > 0 then d - 1 else 0) + [u]
    else if u == COMMA then [u] + NewLine(indent, d)
    else if u == COLON then [u, SPACE]
    else [u]
  }

  function Deeper(u: Unit, d: nat): nat { if Opens(u) then d + 1 else if Closes(u) && d > 0 then d - 1 else d }

  /** The text at depth `d`, spread over lines; empty brackets stay together, strings are untouched. */
  function Spread(t: Text, inside: bool, d: nat, indent: Text): Text
    decreases |t|
  {
    if t == [] then []
    else if inside then
      if t[0] == BACKSLASH && |t| > 1 then [t[0], t[1]] + Spread(t[2..], true, d, indent)
      else [t[0]] + Spread(t[1..], t[0] != QUOTE, d, indent)
    else if Opens(t[0]) && |t| > 1 && Closes(t[1]) then [t[0], t[1]] + Spread(t[2..], false, d, indent)
    else Spaced(t[0], d, indent) + Spread(t[1..], t[0] == QUOTE, Deeper(t[0], d), indent)
  }

  // ---- Numbers, words and strings ----------------------------------------------------------------

  predicate Still(u: Unit) { !Opens(u) && !Closes(u) && u != COMMA && u != COLON && u != QUOTE }

  lemma {:induction false} SpreadStill(t: Text, d: nat, indent: Text, rest: Text)
    requires forall i :: 0 <= i < |t| ==> Still(t[i])
    ensures Spread(t + rest, false, d, indent) == t + Spread(rest, false, d, indent)
    decreases |t|
  {
    if t == [] {
      assert t + rest == rest && t + Spread(rest, false, d, indent) == Spread(rest, false, d, indent);
    } else {
      assert (t + rest)[0] == t[0] && (t + rest)[1..] == t[1..] + rest;
      SpreadStill(t[1..], d, indent, rest);
      Grouped([t[0]], t[1..], Spread(rest, false, d, indent));
      assert [t[0]] + t[1..] == t;
    }
  }

  lemma Grouped(a: Text, b: Text, c: Text)
    ensures a + b + c == a + (b + c)
  {}

  lemma NumberStill(t: Text)
    requires IsNumber(t)
    ensures forall i :: 0 <= i < |t| ==> Still(t[i])
  {
    forall i | 0 <= i < |t| ensures InNumber(t[i]) { NumberUnits(t, i); }
  }

  lemma NumberUnits(t: Text, k: nat)
    requires IsNumber(t) && k < |t|
    ensures InNumber(t[k])
  {
    var sign := if t[0] == MINUS then 1 else 0;
    var whole := IntegerEnd(t, sign);
    var e := FractionEnd(t, whole);
    if k < sign {
    } else if k < whole {
      IntegerUnits(t, sign, k);
    } else if k < e {
      FractionUnits(t, whole, k);
    } else {
      ExponentUnits(t, e, k);
    }
  }

  lemma UnitSpread(u: Unit, d: nat, indent: Text, rest: Text)
    ensures Spread(QuoteUnit(u) + rest, true, d, indent) == QuoteUnit(u) + Spread(rest, true, d, indent)
  {
    var q := QuoteUnit(u);
    var t := q + rest;
    if |q| == 1 {
      assert t[1..] == rest;
    } else if |q| == 2 {
      assert t[2..] == rest;
    } else {
      HexUnitSpread(u, d, indent, rest);
    }
  }

  lemma HexUnitSpread(u: Unit, d: nat, indent: Text, rest: Text)
    ensures Spread([BACKSLASH, 0x75] + Hex(u) + rest, true, d, indent)
      == [BACKSLASH, 0x75] + Hex(u) + Spread(rest, true, d, indent)
  {
    var q, h := [BACKSLASH, 0x75], Hex(u);
    Grouped(q, h, rest);
    Grouped(q, h, Spread(rest, true, d, indent));
    assert (q + (h + rest))[2..] == h + rest;
    InsideSpread(h, d, indent, rest);
  }

  lemma {:induction false} InsideSpread(t: Text, d: nat, indent: Text, rest: Text)
    requires forall i :: 0 <= i < |t| ==> t[i] != BACKSLASH && t[i] != QUOTE
    ensures Spread(t + rest, true, d, indent) == t + Spread(rest, true, d, indent)
    decreases |t|
  {
    if t == [] {
      assert t + rest == rest && t + Spread(rest, true, d, indent) == Spread(rest, true, d, indent);
    } else {
      assert (t + rest)[0] == t[0] && (t + rest)[1..] == t[1..] + rest;
      InsideSpread(t[1..], d, indent, rest);
      Grouped([t[0]], t[1..], Spread(rest, true, d, indent));
      assert [t[0]] + t[1..] == t;
    }
  }

  lemma {:induction false} UnitsSpread(s: Text, d: nat, indent: Text, rest: Text)
    ensures Spread(QuoteUnits(s) + ([QUOTE] + rest), true, d, indent)
      == QuoteUnits(s) + ([QUOTE] + Spread(rest, false, d, indent))
    decreases |s|
  {
    var after := [QUOTE] + Spread(rest, false, d, indent);
    if s == [] {
      assert QuoteUnits(s) + ([QUOTE] + rest) == [QUOTE] + rest && ([QUOTE] + rest)[1..] == rest;
      assert QuoteUnits(s) + after == after;
    } else {
      var more := QuoteUnits(s[1..]) + ([QUOTE] + rest);
      Grouped(QuoteUnit(s[0]), QuoteUnits(s[1..]), [QUOTE] + rest);
      UnitSpread(s[0], d, indent, more);
      UnitsSpread(s[1..], d, indent, rest);
      Grouped(QuoteUnit(s[0]), QuoteUnits(s[1..]), after);
    }
  }

  lemma SpreadQuoted(s: Text, d: nat, indent: Text, rest: Text)
    ensures Spread(Quote(s) + rest, false, d, indent) == Quote(s) + Spread(rest, false, d, indent)
  {
    var t := QuoteUnits(s) + ([QUOTE] + rest);
    QuoteThen(s, rest);
    QuoteThen(s, Spread(rest, false, d, indent));
    assert ([QUOTE] + t)[0] == QUOTE && ([QUOTE] + t)[1..] == t;
    UnitsSpread(s, d, indent, rest);
  }

  // ---- Values ------------------------------------------------------------------------------------

  /** The text of a value does not begin with a bracket that closes. */
  lemma CompactStarts(v: Json)
    requires Literal(v) && !v.Undefined?
    ensures Compact(v) != [] && !Closes(Compact(v)[0])
  {
    match v
    case Number(literal) => NumberStill(literal);
    case _ =>
  }

  lemma {:induction false} SpreadPrint(v: Json, d: nat, indent: Text, rest: Text)
    requires Literal(v) && indent != [] && !v.Undefined?
    ensures Spread(Compact(v) + rest, false, d, indent)
      == Print(v, Times(indent, d), indent).value + Spread(rest, false, d, indent)
    decreases v, 2, 0
  {
    match v
    case String(s) => SpreadQuoted(s, d, indent, rest);
    case Array(elements) => SpreadArray(v, d, indent, rest);
    case Object(members) => SpreadObject(v, d, indent, rest);
    case Number(literal) => NumberStill(literal); SpreadStill(literal, d, indent, rest);
    case Null => SpreadStill(NULL, d, indent, rest);
    case NonFinite => SpreadStill(NULL, d, indent, rest);
    case Bool(b) => SpreadStill(if b then TRUE else FALSE, d, indent, rest);
  }

  /** One unit outside strings that is not the beginning of empty brackets. */
  lemma SpreadUnit(u: Unit, t: Text, d: nat, indent: Text)
    requires u != QUOTE && (Opens(u) ==> t != [] && !Closes(t[0]))
    ensures Spread([u] + t, false, d, indent) == Spaced(u, d, indent) + Spread(t, false, Deeper(u, d), indent)
  {
    assert ([u] + t)[0] == u && ([u] + t)[1..] == t;
    if t != [] { assert ([u] + t)[1] == t[0]; }
  }

  lemma SpreadEmpty(open: Unit, close: Unit, d: nat, indent: Text, rest: Text)
    requires Opens(open) && Closes(close)
    ensures Spread([open, close] + rest, false, d, indent) == [open, close] + Spread(rest, false, d, indent)
  {
    assert ([open, close] + rest)[2..] == rest;
  }

  /** Brackets around parts that are spread at the next depth. */
  lemma SpreadWrap(open: Unit, close: Unit, plain: Text, joined: Text, d: nat, indent: Text, rest: Text)
    requires Opens(open) && Closes(close) && plain != [] && !Closes(plain[0])
    requires Spread(plain + ([close] + rest), false, d + 1, indent)
      == joined + Spread([close] + rest, false, d + 1, indent)
    ensures Spread([open] + (plain + [close]) + rest, false, d, indent)
      == [open] + (NewLine(indent, d + 1) + (joined + (NewLine(indent, d) + [close]))) + Spread(rest, false, d, indent)
  {
    var inner := plain + ([close] + rest);
    Grouped(plain, [close], rest);
    Grouped([open], plain + [close], rest);
    assert inner[0] == plain[0];
    SpreadUnit(open, inner, d, indent);
    SpreadUnit(close, rest, d + 1, indent);
    WrapThen([open], NewLine(indent, d + 1), joined, NewLine(indent, d), [close], Spread(rest, false, d, indent));
    var end := [close] + Spread(rest, false, d, indent);
    Grouped([open], NewLine(indent, d + 1), joined + (NewLine(indent, d) + end));
    Grouped(NewLine(indent, d), [close], Spread(rest, false, d, indent));
  }

  lemma TimesGap(indent: Text, d: nat)
    requires indent != []
    ensures Times(indent, d) + indent == Times(indent, d + 1) != []
    ensures Lead(Times(indent, d + 1)) == NewLine(indent, d + 1)
    ensures Tail(Times(indent, d + 1), Times(indent, d)) == NewLine(indent, d)
  {}

  /** The two texts of an array with elements. */
  lemma ArrayShapes(v: Json, d: nat, indent: Text)
    requires v.Array? && v.elements != [] && indent != []
    ensures Compact(v) == [LBRACKET] + (Join(ElementTexts(v, 0, [], []), [COMMA]) + [RBRACKET])
    ensures var parts := ElementTexts(v, 0, Times(indent, d + 1), indent);
      Print(v, Times(indent, d), indent).value
        == [LBRACKET] + (NewLine(indent, d + 1)
             + (Join(parts, [COMMA] + NewLine(indent, d + 1)) + (NewLine(indent, d) + [RBRACKET])))
  {
    var gap := Times(indent, d + 1);
    TimesGap(indent, d);
    var none: Text := [];
    assert none + none == none;
    WrapShape(LBRACKET, ElementTexts(v, 0, gap, indent), RBRACKET, gap, Times(indent, d));
    Grouped([LBRACKET], Join(ElementTexts(v, 0, none, none), [COMMA]), [RBRACKET]);
  }

  lemma {:induction false} SpreadArray(v: Json, d: nat, indent: Text, rest: Text)
    requires v.Array? && Literal(v) && indent != []
    ensures Spread(Compact(v) + rest, false, d, indent)
      == Print(v, Times(indent, d), indent).value + Spread(rest, false, d, indent)
    decreases v, 1, 0
  {
    if v.elements == [] {
      SpreadEmpty(LBRACKET, RBRACKET, d, indent, rest);
    } else {
      var parts, plain := ElementTexts(v, 0, Times(indent, d + 1), indent), ElementTexts(v, 0, [], []);
      ArrayShapes(v, d, indent);
      SpreadElements(v, 0, d + 1, indent, [RBRACKET] + rest);
      ElementsStart(v, 0);
      SpreadWrap(LBRACKET, RBRACKET, Join(plain, [COMMA]), Join(parts, [COMMA] + NewLine(indent, d + 1)), d, indent,
          rest);
    }
  }

  lemma ElementsStart(v: Json, k: nat)
    requires v.Array? && Literal(v) && k < |v.elements|
    ensures var t := Join(ElementTexts(v, k, [], []), [COMMA]); t != [] && !Closes(t[0])
  {
    var parts := ElementTexts(v, k, [], []);
    assert parts[0] == ElementText(v, k, [], []) && Literal(v.elements[k]);
    if !v.elements[k].Undefined? { CompactStarts(v.elements[k]); }
  }

  lemma {:induction false} SpreadElement(v: Json, k: nat, d: nat, indent: Text, rest: Text)
    requires v.Array? && Literal(v) && k < |v.elements| && indent != []
    ensures Spread(ElementText(v, k, [], []) + rest, false, d, indent)
      == ElementText(v, k, Times(indent, d), indent) + Spread(rest, false, d, indent)
    decreases v, 0, 0
  {
    assert Literal(v.elements[k]);
    if v.elements[k].Undefined? {
      SpreadStill(NULL, d, indent, rest);
    } else {
      SpreadPrint(v.elements[k], d, indent, rest);
    }
  }

  lemma {:induction false} SpreadElements(v: Json, k: nat, d: nat, indent: Text, rest: Text)
    requires v.Array? && Literal(v) && k < |v.elements| && indent != []
    ensures Spread(Join(ElementTexts(v, k, [], []), [COMMA]) + rest, false, d, indent)
      == Join(ElementTexts(v, k, Times(indent, d), indent), [COMMA] + NewLine(indent, d))
        + Spread(rest, false, d, indent)
    decreases v, 0, |v.elements| - k
  {
    var gap, lead, end := Times(indent, d), NewLine(indent, d), Spread(rest, false, d, indent);
    assert ElementTexts(v, k, gap, indent)[0] == ElementText(v, k, gap, indent);
    assert ElementTexts(v, k, [], [])[0] == ElementText(v, k, [], []);
    if k + 1 == |v.elements| {
      SpreadElement(v, k, d, indent, rest);
    } else {
      var more := Join(ElementTexts(v, k + 1, [], []), [COMMA]) + rest;
      ElementJoin(v, k, [], [], [], rest);
      assert [COMMA] + [] == [COMMA] && [] + more == more;
      SpreadElement(v, k, d, indent, [COMMA] + more);
      SpreadUnit(COMMA, more, d, indent);
      SpreadElements(v, k + 1, d, indent, rest);
      ElementJoin(v, k, gap, indent, lead, end);
      Grouped([COMMA], lead, Join(ElementTexts(v, k + 1, gap, indent), [COMMA] + lead) + end);
    }
  }

  lemma {:induction false} SpreadObject(v: Json, d: nat, indent: Text, rest: Text)
    requires v.Object? && Literal(v) && indent != []
    ensures Spread(Compact(v) + rest, false, d, indent)
      == Print(v, Times(indent, d), indent).value + Spread(rest, false, d, indent)
    decreases v, 1, 0
  {
    var gap := Times(indent, d + 1);
    TimesGap(indent, d);
    var none: Text := [];
    assert none + none == none;
    var parts, plain := MemberTexts(v, 0, gap, indent), MemberTexts(v, 0, none, none);
    SameMembers(v, 0, gap, indent);
    SameMembers(v, 0, none, none);
    if parts == [] {
      SpreadEmpty(LBRACE, RBRACE, d, indent, rest);
    } else {
      WrapShape(LBRACE, parts, RBRACE, gap, Times(indent, d));
      SpreadMembers(v, 0, d + 1, indent, [RBRACE] + rest);
      MemberStart(v, 0, none, none);
      SpreadWrap(LBRACE, RBRACE, Join(plain, [COMMA]), Join(parts, [COMMA] + NewLine(indent, d + 1)), d, indent, rest);
      assert Compact(v) == [LBRACE] + (Join(plain, [COMMA]) + [RBRACE]);
    }
  }

  lemma {:induction false} SpreadMember(v: Json, k: nat, d: nat, indent: Text, rest: Text)
    requires v.Object? && Literal(v) && k < |v.members| && !v.members[k].value.Undefined? && indent != [] && d > 0
    ensures MemberTexts(v, k, Times(indent, d), indent) != [] && MemberTexts(v, k, [], []) != []
    ensures Spread(MemberTexts(v, k, [], [])[0] + rest, false, d, indent)
      == MemberTexts(v, k, Times(indent, d), indent)[0] + Spread(rest, false, d, indent)
    decreases v, 0, 0
  {
    var m, gap := v.members[k], Times(indent, d);
    TimesGap(indent, d - 1);
    assert Literal(m.value);
    var bare, t, end := Compact(m.value), Print(m.value, gap, indent).value, Spread(rest, false, d, indent);
    assert MemberTexts(v, k, [], [])[0] == Quote(m.key) + [COLON] + bare;
    assert MemberTexts(v, k, gap, indent)[0] == Quote(m.key) + [COLON, SPACE] + t;
    BareMember(Quote(m.key), bare, rest);
    SpreadQuoted(m.key, d, indent, [COLON] + (bare + rest));
    SpreadUnit(COLON, bare + rest, d, indent);
    SpreadPrint(m.value, d, indent, rest);
    Grouped(Quote(m.key) + [COLON, SPACE], t, end);
    Grouped(Quote(m.key), [COLON, SPACE], t + end);
  }

  lemma {:induction false} SpreadMembers(v: Json, k: nat, d: nat, indent: Text, rest: Text)
    requires v.Object? && Literal(v) && k <= |v.members| && indent != [] && d > 0
    requires MemberTexts(v, k, [], []) != []
    ensures Spread(Join(MemberTexts(v, k, [], []), [COMMA]) + rest, false, d, indent)
      == Join(MemberTexts(v, k, Times(indent, d), indent), [COMMA] + NewLine(indent, d))
        + Spread(rest, false, d, indent)
    decreases v, 0, |v.members| - k
  {
    if v.members[k].value.Undefined? {
      SpreadMembers(v, k + 1, d, indent, rest);
    } else {
      var gap, lead, end := Times(indent, d), NewLine(indent, d), Spread(rest, false, d, indent);
      var parts, plain := MemberTexts(v, k, gap, indent), MemberTexts(v, k, [], []);
      var others, bare := MemberTexts(v, k + 1, gap, indent), MemberTexts(v, k + 1, [], []);
      assert parts[1..] == others && plain[1..] == bare;
      SameMembers(v, k + 1, gap, indent);
      SameMembers(v, k + 1, [], []);
      if others == [] {
        SpreadMember(v, k, d, indent, rest);
      } else {
        var more := Join(bare, [COMMA]) + rest;
        PlainJoin(plain[0], Join(bare, [COMMA]), rest);
        SpreadMember(v, k, d, indent, [COMMA] + more);
        SpreadUnit(COMMA, more, d, indent);
        SpreadMembers(v, k + 1, d, indent, rest);
        JoinShape(parts[0], lead, Join(others, [COMMA] + lead), end);
        Grouped([COMMA], lead, Join(others, [COMMA] + lead) + end);
      }
    }
  }

  /** Printing with an indent is printing without one and spreading the text over lines. */
  lemma IndentedIsSpread(v: Json, indent: Text)
    requires Literal(v) && indent != [] && !v.Undefined?
    ensures Print(v, [], indent).value == Spread(Compact(v), false, 0, indent)
  {
    SpreadPrint(v, 0, indent, []);
    assert Compact(v) + [] == Compact(v) && Print(v, [], indent).value + [] == Print(v, [], indent).value;
  }

  // ---- What is escaped ----------------------------------------------------------------------------

  /** The units the printer keeps out of its texts: controls, and what some readers drop or take for
      something else. */
  predicate Unsafe(u: Unit) {
    || u < 0x20 || 0x7F <= u <= 0x9F || u == 0xAD || 0x600 <= u <= 0x604 || u == 0x70F || u in {0x17B4, 0x17B5}
    || 0x200C <= u <= 0x200F || 0x2028 <= u <= 0x202F || 0x2060 <= u <= 0x206F || u == 0xFEFF || u >= 0xFFF0
  }

  const SHORT: set<Unit> := {0x08, 0x09, 0x0A, 0x0C, 0x0D, QUOTE, BACKSLASH}

  lemma DigitSafe(n: nat)
    requires n < 16
    ensures !Unsafe(HexDigit(n))
  {}

  lemma HexSafe(u: Unit)
    ensures forall i :: 0 <= i < |Hex(u)| ==> !Unsafe(Hex(u)[i])
  {
    var a := u / 16;
    var b := a / 16;
    DigitSafe(b / 16);
    DigitSafe(b % 16);
    DigitSafe(a % 16);
    DigitSafe(u % 16);
  }

  lemma LongShape(u: Unit)
    ensures var q := [BACKSLASH, 0x75] + Hex(u);
      |q| == 6 && q[..2] == [BACKSLASH, 0x75] && Hex4(q[2..]) == u && forall i :: 0 <= i < |q| ==> !Unsafe(q[i])
  {
    var q := [BACKSLASH, 0x75] + Hex(u);
    HexRead(u);
    HexSafe(u);
    assert q[2..] == Hex(u);
  }

  /** A unit is printed as itself unless it is unsafe, a quote or a backslash; seven have a short
      escape, the others the long one. */
  lemma UnitShape(u: Unit)
    ensures var q := QuoteUnit(u);
      if u in SHORT then |q| == 2 && q[0] == BACKSLASH
      else if Unsafe(u) then |q| == 6 && q[..2] == [BACKSLASH, 0x75] && Hex4(q[2..]) == u
      else q == [u]
    ensures forall i :: 0 <= i < |QuoteUnit(u)| ==> !Unsafe(QuoteUnit(u)[i])
  {
    assert Escapable(u) <==> Unsafe(u) || u == QUOTE || u == BACKSLASH;
    if Unsafe(u) && u !in SHORT {
      LongShape(u);
      assert QuoteUnit(u) == [BACKSLASH, 0x75] + Hex(u);
    }
  }

  /** No quoted string holds an unsafe unit, and a string without such, quotes and backslashes is
      printed as it is. */
  lemma {:induction false} QuoteSafe(s: Text)
    ensures forall i :: 0 <= i < |QuoteUnits(s)| ==> !Unsafe(QuoteUnits(s)[i])
    ensures (forall i :: 0 <= i < |s| ==> !Unsafe(s[i]) && s[i] != QUOTE && s[i] != BACKSLASH) ==> QuoteUnits(s) == s
    decreases |s|
  {
    if s != [] {
      UnitShape(s[0]);
      QuoteSafe(s[1..]);
      assert s == [s[0]] + s[1..];
    }
  }
}
