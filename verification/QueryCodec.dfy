/** The page's state in the address bar: selections joined with '-', fields joined with '_'. */
module QueryCodec {
  import opened Text

  /** An integer of the script, within the exact range, or NaN. */
  datatype Number = NaN | Int(v: int)

  // ---- Reading and writing numbers -----------------------------------------------------------

  function Show(n: Number): string {
    match n
    case NaN => "NaN"
    case Int(v) => if v < 0 then "-" + Decimal(-v) else Decimal(v)
  }

  function Leading(s: string, digit: char -> bool): (n: nat)
    ensures n <= |s| && forall i :: 0 <= i < n ==> digit(s[i])
  {
    if s == "" || !digit(s[0]) then 0 else 1 + Leading(s[1..], digit)
  }

  predicate IsHex(c: char) { IsDigit(c) || 'a' <= c <= 'f' || 'A' <= c <= 'F' }

  function HexDigit(c: char): nat
    requires IsHex(c)
  {
    if IsDigit(c) then c as int - '0' as int
    else if 'a' <= c then c as int - 'a' as int + 10
    else c as int - 'A' as int + 10
  }

  function HexValue(s: string): nat
    requires forall i :: 0 <= i < |s| ==> IsHex(s[i])
  {
    if s == "" then 0 else HexValue(s[..|s| - 1]) * 16 + HexDigit(s[|s| - 1])
  }

  /** `parseInt`: blanks, a sign, and the leading digits, hexadecimal after "0x". */
  function ParseInt(s: string): Number {
    var t := TrimLeft(s);
    var sign := if t != "" && t[0] == '-' then -1 else 1;
    var u := if t != "" && (t[0] == '-' || t[0] == '+') then t[1..] else t;
    if "0x" <= u || "0X" <= u then
      var n := Leading(u[2..], IsHex);
      if n == 0 then NaN else Int(sign * HexValue(u[2..][..n]))
    else
      var n := Leading(u, IsDigit);
      if n == 0 then NaN else Int(sign * DigitsValue(u[..n]))
  }

  lemma {:induction false} LeadingAll(s: string)
    requires AllDigits(s)
    ensures Leading(s, IsDigit) == |s|
  {
    if s != "" { LeadingAll(s[1..]); }
  }

  lemma NotHexadecimal(s: string)
    requires s != "" && AllDigits(s)
    ensures !("0x" <= s) && !("0X" <= s)
  {
    if |s| > 1 { assert IsDigit(s[1]) && s[1] != "0x"[1] && s[1] != "0X"[1]; }
  }

  lemma DigitsRead(s: string)
    requires s != "" && AllDigits(s)
    ensures ParseInt(s) == Int(DigitsValue(s)) && !Blank(s)
  {
    LeadingAll(s);
    NotHexadecimal(s);
    assert IsDigit(s[0]) && !IsBlank(s[0]);
    assert TrimLeft(s) == s && s[..|s|] == s;
  }

  lemma NegativeRead(s: string)
    requires s != "" && AllDigits(s)
    ensures ParseInt("-" + s) == Int(0 - DigitsValue(s))
  {
    LeadingAll(s);
    NotHexadecimal(s);
    var t := "-" + s;
    assert TrimLeft(t) == t && t[1..] == s && s[..|s|] == s;
  }

  lemma NaNRead()
    ensures ParseInt("NaN") == NaN && !Blank("NaN")
  {}

  lemma ShowPlain(n: Number)
    ensures '_' !in Show(n) && Show(n) != "" && !IsBlank(Show(n)[0])
    ensures !(n.Int? && n.v < 0) ==> '-' !in Show(n)
  {}

  /** Every number's text is read back. */
  lemma ShowRead(n: Number)
    ensures ParseInt(Show(n)) == n && !Blank(Show(n))
  {
    ShowPlain(n);
    match n
    case NaN => NaNRead();
    case Int(v) =>
      var m := if v < 0 then -v else v;
      DecimalValue(m);
      if v < 0 { NegativeRead(Decimal(m)); } else { DigitsRead(Decimal(m)); }
  }

  // ---- Arrays ------------------------------------------------------------------------------

  function Shown(values: seq<Number>): seq<string> {
    seq(|values|, i requires 0 <= i < |values| => Show(values[i]))
  }

  function EncodedArray(values: seq<Number>): string { Join(Shown(values), '-') }

  function DecodedPart(part: string): seq<Number> { if Blank(part) then [] else [ParseInt(part)] }

  function DecodedParts(parts: seq<string>): seq<Number> {
    if parts == [] then [] else DecodedPart(parts[0]) + DecodedParts(parts[1..])
  }

  function DecodedArray(encoded: string): seq<Number> { DecodedParts(Split(encoded, '-')) }

  method EncodeArray(values: seq<Number>) returns (encoded: string)
    ensures encoded == EncodedArray(values)
  {
    encoded := "";
    var last_index := |values| - 1;
    var index := 0;
    while index < |values|
      invariant 0 <= index <= |values|
      invariant encoded + Join(Shown(values)[index..], '-') == EncodedArray(values)
    {
      assert Shown(values)[index..][1..] == Shown(values)[index + 1..];
      encoded := encoded + Show(values[index]);
      encoded := encoded + if index != last_index then "-" else "";
      index := index + 1;
    }
  }

  lemma DecodedNext(parts: seq<string>, k: nat, before: seq<Number>)
    requires k < |parts|
    ensures before + DecodedParts(parts[k..]) == before + DecodedPart(parts[k]) + DecodedParts(parts[k + 1..])
  {}

  method DecodeArray(encoded: string) returns (decoded: seq<Number>)
    ensures decoded == DecodedArray(encoded)
  {
    decoded := [];
    var parts := Split(encoded, '-');
    var k := 0;
    while k < |parts|
      invariant 0 <= k <= |parts| && decoded + DecodedParts(parts[k..]) == DecodedParts(parts)
    {
      DecodedNext(parts, k, decoded);
      ghost var longer := decoded + DecodedPart(parts[k]);
      if !Blank(parts[k]) { decoded := decoded + [ParseInt(parts[k])]; }
      assert decoded == longer;
      k := k + 1;
    }
  }

  function Magnitude(n: Number): Number { if n.Int? && n.v < 0 then Int(-n.v) else n }

  function Magnitudes(values: seq<Number>): seq<Number> {
    seq(|values|, i requires 0 <= i < |values| => Magnitude(values[i]))
  }

  lemma DecodedCons(part: string, rest: seq<string>)
    ensures DecodedParts([part] + rest) == DecodedPart(part) + DecodedParts(rest)
  {
    assert ([part] + rest)[1..] == rest;
  }

  lemma Regroup(a: seq<Number>, b: seq<Number>, c: seq<Number>)
    ensures a + b + c == a + (b + c)
  {}

  lemma {:induction false} DecodedAppend(a: seq<string>, b: seq<string>)
    ensures DecodedParts(a + b) == DecodedParts(a) + DecodedParts(b)
    decreases |a|
  {
    if a == [] {
      assert a + b == b && [] + DecodedParts(b) == DecodedParts(b);
    } else {
      var rest := a[1..];
      DecodedAppend(rest, b);
      assert a == [a[0]] + rest && a + b == [a[0]] + (rest + b);
      DecodedCons(a[0], rest);
      DecodedCons(a[0], rest + b);
      Regroup(DecodedPart(a[0]), DecodedParts(rest), DecodedParts(b));
    }
  }

  /** The text of one number, split at '-', decodes to its magnitude. */
  lemma OneDecoded(n: Number)
    ensures DecodedParts(Split(Show(n), '-')) == [Magnitude(n)]
  {
    var m := Magnitude(n);
    var text := Show(m);
    ShowRead(m);
    ShowPlain(m);
    SplitWhole(text, '-');
    DecodedOne(text);
    if m != n {
      SplitFirst("", text, '-');
      assert "" + ['-'] + text == Show(n);
      DecodedAppend([""], [text]);
      DecodedOne("");
    }
  }

  lemma DecodedOne(s: string)
    ensures DecodedParts([s]) == DecodedPart(s)
  {}

  lemma EncodedNext(values: seq<Number>)
    requires |values| > 1
    ensures EncodedArray(values) == Show(values[0]) + ['-'] + EncodedArray(values[1..])
  {
    assert Shown(values)[1..] == Shown(values[1..]);
  }

  lemma DecodedJoin(a: string, b: string)
    ensures DecodedArray(a + ['-'] + b) == DecodedArray(a) + DecodedArray(b)
  {
    SplitJoined(a, b, '-');
    DecodedAppend(Split(a, '-'), Split(b, '-'));
  }

  lemma RoundTripNext(values: seq<Number>)
    requires |values| > 1 && DecodedArray(EncodedArray(values[1..])) == Magnitudes(values[1..])
    ensures DecodedArray(EncodedArray(values)) == Magnitudes(values)
  {
    EncodedNext(values);
    DecodedJoin(Show(values[0]), EncodedArray(values[1..]));
    OneDecoded(values[0]);
    assert Magnitudes(values) == [Magnitude(values[0])] + Magnitudes(values[1..]);
  }

  /** Decoding an encoded array gives its magnitudes: minus signs are lost among the separators. */
  lemma {:induction false} ArrayRoundTrip(values: seq<Number>)
    ensures DecodedArray(EncodedArray(values)) == Magnitudes(values)
  {
    if values == [] {
      DecodedOne("");
    } else if |values| == 1 {
      OneDecoded(values[0]);
      assert Magnitudes(values) == [Magnitude(values[0])];
    } else {
      ArrayRoundTrip(values[1..]);
      RoundTripNext(values);
    }
  }

  predicate NoneNegative(values: seq<Number>) { forall i :: 0 <= i < |values| ==> values[i].Int? ==> values[i].v >= 0 }

  /** An array comes back unchanged exactly if it holds no negative number. */
  lemma ArrayRestored(values: seq<Number>)
    ensures DecodedArray(EncodedArray(values)) == values <==> NoneNegative(values)
  {
    ArrayRoundTrip(values);
    if NoneNegative(values) { assert Magnitudes(values) == values; }
    if Magnitudes(values) == values {
      forall i | 0 <= i < |values| ensures values[i].Int? ==> values[i].v >= 0 {
        assert Magnitudes(values)[i] == values[i];
      }
    }
  }

  // ---- The whole query -----------------------------------------------------------------------

  /** The state kept in the address bar: the metric, seven selections, and the data type. */
  datatype State = State(metric: Number, selections: seq<seq<Number>>, dataType: string)

  predicate Shaped(q: State) { |q.selections| == 7 }

  /** The fields' texts but the last, which is the data type. */
  function Fields(q: State): seq<string> {
    [Show(q.metric)] + seq(|q.selections|, i requires 0 <= i < |q.selections| => EncodedArray(q.selections[i]))
  }

  function Encoded(q: State): string { Join(Fields(q), '_') + "_" + q.dataType }

  /** What `decode` does with the value at `index`; values beyond the ninth are ignored. */
  function Assigned(q: State, index: nat, value: string): State
    requires Shaped(q)
  {
    if index == 0 then q.(metric := ParseInt(value))
    else if index < 8 then q.(selections := q.selections[index - 1 := DecodedArray(value)])
    else if index == 8 then q.(dataType := value)
    else q
  }

  function AssignedAll(q: State, index: nat, values: seq<string>): (r: State)
    requires Shaped(q)
    ensures Shaped(r)
    decreases |values|
  {
    if values == [] then q else AssignedAll(Assigned(q, index, values[0]), index + 1, values[1..])
  }

  lemma AssignedNext(q: State, index: nat, values: seq<string>)
    requires Shaped(q) && index < |values|
    ensures AssignedAll(q, index, values[index..])
      == AssignedAll(Assigned(q, index, values[index]), index + 1, values[index + 1..])
  {
    assert values[index..][1..] == values[index + 1..];
  }

  const NOTHING: seq<seq<Number>> := [[], [], [], [], [], [], []]

  /** Decoding an empty text resets all but the data type; fields that are missing keep their value. */
  function Decoded(q: State, encoded: string): State
    requires Shaped(q)
  {
    if Blank(encoded) then State(Int(0), NOTHING, q.dataType) else AssignedAll(q, 0, Split(encoded, '_'))
  }

  class Query {
    var metric: Number
    var selections: seq<seq<Number>>
    var dataType: string

    ghost function View(): State
      reads this
    {
      State(metric, selections, dataType)
    }

    constructor (dataType: string)
      ensures View() == State(Int(0), NOTHING, dataType)
    {
      metric, selections, this.dataType := Int(0), NOTHING, dataType;
    }

    method Encode() returns (encoded: string)
      ensures encoded == Encoded(View())
    {
      encoded := Show(metric) + "_";
      ghost var fields := Fields(View());
      assert fields[0] == Show(metric) && Join(fields[..1], '_') == Show(metric);
      var i := 0;
      while i < |selections|
        invariant 0 <= i <= |selections| && encoded == Join(fields[..i + 1], '_') + "_"
      {
        var field := EncodeArray(selections[i]);
        JoinLast(fields[..i + 1], field, '_');
        assert fields[..i + 1] + [field] == fields[..i + 2];
        encoded := encoded + field + "_";
        i := i + 1;
      }
      assert fields[..i + 1] == fields;
      encoded := encoded + dataType;
    }

    method Decode(encoded: string)
      requires Shaped(View())
      modifies this
      ensures View() == Decoded(old(View()), encoded) && Shaped(View())
    {
      if Blank(encoded) {
        metric, selections := Int(0), NOTHING;
      } else {
        var values := Split(encoded, '_');
        var index := 0;
        while index < |values|
          invariant 0 <= index <= |values| && Shaped(View())
          invariant AssignedAll(View(), index, values[index..]) == AssignedAll(old(View()), 0, values)
        {
          AssignedNext(View(), index, values);
          ghost var after := Assigned(View(), index, values[index]);
          if index == 0 {
            metric := ParseInt(values[index]);
          } else if index < 8 {
            var selection := DecodeArray(values[index]);
            selections := selections[index - 1 := selection];
          } else if index == 8 {
            dataType := values[index];
          }
          assert View() == after;
          index := index + 1;
        }
      }
    }
  }

  lemma {:induction false} JoinLast(parts: seq<string>, last: string, sep: char)
    requires parts != []
    ensures Join(parts + [last], sep) == Join(parts, sep) + [sep] + last
  {
    if |parts| == 1 {
      assert (parts + [last])[1..] == [last];
    } else {
      assert (parts + [last])[1..] == parts[1..] + [last];
      JoinLast(parts[1..], last, sep);
    }
  }

  // ---- Round trip ------------------------------------------------------------------------------

  lemma FieldsPlain(q: State)
    ensures forall i :: 0 <= i < |Fields(q)| ==> '_' !in Fields(q)[i]
  {
    ShowPlain(q.metric);
    forall i | 0 <= i < |q.selections| ensures '_' !in EncodedArray(q.selections[i]) {
      var values := q.selections[i];
      forall k | 0 <= k < |values| ensures '_' !in Shown(values)[k] { ShowPlain(values[k]); }
      JoinHasNo(Shown(values), '-', '_');
    }
  }

  /** The encoded text splits into the fields and the pieces of the data type. */
  lemma EncodedSplits(q: State)
    ensures Split(Encoded(q), '_') == Fields(q) + Split(q.dataType, '_') && !Blank(Encoded(q))
  {
    FieldsPlain(q);
    SplitJoined(Join(Fields(q), '_'), q.dataType, '_');
    SplitJoin(Fields(q), '_');
    var n := |Join(Fields(q), '_')|;
    assert Encoded(q)[n] == '_' && !IsBlank('_');
  }

  /** What comes back: magnitudes, and the data type up to its first '_'. */
  function Restored(q: State): State {
    State(q.metric, seq(|q.selections|, i requires 0 <= i < |q.selections| => Magnitudes(q.selections[i])),
        Split(q.dataType, '_')[0])
  }

  lemma {:induction false} SelectionsAssigned(q: State, p: State, k: nat, rest: seq<string>)
    requires Shaped(q) && Shaped(p) && k <= 7
    requires forall i :: 0 <= i < k ==> p.selections[i] == Magnitudes(q.selections[i])
    ensures AssignedAll(p, k + 1, Fields(q)[k + 1..] + rest)
      == AssignedAll(p.(selections := Restored(q).selections), 8, rest)
    decreases 7 - k
  {
    if k == 7 {
      assert p.selections == Restored(q).selections;
      assert Fields(q)[8..] + rest == rest;
    } else {
      var value := Fields(q)[k + 1];
      var values := Fields(q)[k + 1..] + rest;
      assert values[0] == value == EncodedArray(q.selections[k]) && values[1..] == Fields(q)[k + 2..] + rest;
      ArrayRoundTrip(q.selections[k]);
      var next := Assigned(p, k + 1, value);
      SelectionsAssigned(q, next, k + 1, rest);
      assert next.(selections := Restored(q).selections) == p.(selections := Restored(q).selections);
    }
  }

  lemma MetricAssigned(q: State, into: State, rest: seq<string>)
    requires Shaped(into)
    ensures AssignedAll(into, 0, Fields(q) + rest) == AssignedAll(into.(metric := q.metric), 1, Fields(q)[1..] + rest)
  {
    ShowRead(q.metric);
    assert (Fields(q) + rest)[1..] == Fields(q)[1..] + rest && (Fields(q) + rest)[0] == Show(q.metric);
  }

  lemma {:induction false} Ignored(q: State, index: nat, values: seq<string>)
    requires Shaped(q) && index > 8
    ensures AssignedAll(q, index, values) == q
    decreases |values|
  {
    if values != [] { Ignored(q, index + 1, values[1..]); }
  }

  /** Decoding an encoded query, into whatever state, gives every field back but for signs in
      selections and whatever follows the first '_' of the data type. */
  lemma RoundTrip(q: State, into: State)
    requires Shaped(q) && Shaped(into)
    ensures Decoded(into, Encoded(q)) == Restored(q)
  {
    EncodedSplits(q);
    var tail := Split(q.dataType, '_');
    var first := into.(metric := q.metric);
    MetricAssigned(q, into, tail);
    SelectionsAssigned(q, first, 0, tail);
    TypeAssigned(first.(selections := Restored(q).selections), tail);
  }

  lemma TypeAssigned(p: State, tail: seq<string>)
    requires Shaped(p) && tail != []
    ensures AssignedAll(p, 8, tail) == p.(dataType := tail[0])
  {
    Ignored(p.(dataType := tail[0]), 9, tail[1..]);
  }

  /** A query comes back unchanged exactly if no selection is negative and the data type has no '_'. */
  lemma QueryRestored(q: State, into: State)
    requires Shaped(q) && Shaped(into)
    ensures Decoded(into, Encoded(q)) == q <==>
      '_' !in q.dataType && forall i :: 0 <= i < 7 ==> NoneNegative(q.selections[i])
  {
    RoundTrip(q, into);
    var r := Restored(q);
    forall i | 0 <= i < 7 ensures r.selections[i] == q.selections[i] <==> NoneNegative(q.selections[i]) {
      ArrayRoundTrip(q.selections[i]);
      ArrayRestored(q.selections[i]);
    }
    if '_' !in q.dataType { SplitWhole(q.dataType, '_'); }
    if r.selections == q.selections {
      forall i | 0 <= i < 7 ensures NoneNegative(q.selections[i]) { assert r.selections[i] == q.selections[i]; }
    }
    if forall i :: 0 <= i < 7 ==> NoneNegative(q.selections[i]) {
      assert r.selections == q.selections;
    }
  }

  // ---- Any text ---------------------------------------------------------------------------------

  /** The fields of a text, by position; a field that is missing keeps its value. */
  predicate ByPosition(q: State, values: seq<string>, r: State)
    requires Shaped(q) && Shaped(r) && values != []
  {
    && r.metric == ParseInt(values[0])
    && (forall i :: 0 <= i < 7 ==>
         r.selections[i] == if i + 1 < |values| then DecodedArray(values[i + 1]) else q.selections[i])
    && r.dataType == if |values| > 8 then values[8] else q.dataType
  }

  lemma {:induction false} SelectionAssigned(q: State, index: nat, values: seq<string>, i: nat)
    requires Shaped(q) && index > 0 && i < 7
    ensures AssignedAll(q, index, values).selections[i]
      == if index <= i + 1 < index + |values| then DecodedArray(values[i + 1 - index]) else q.selections[i]
    decreases |values|
  {
    if values != [] {
      SelectionAssigned(Assigned(q, index, values[0]), index + 1, values[1..], i);
      if index < i + 1 < index + |values| { assert values[1..][i - index] == values[i + 1 - index]; }
    }
  }

  lemma {:induction false} OthersAssigned(q: State, index: nat, values: seq<string>)
    requires Shaped(q) && index > 0
    ensures var r := AssignedAll(q, index, values);
      r.metric == q.metric
      && r.dataType == if index <= 8 < index + |values| then values[8 - index] else q.dataType
    decreases |values|
  {
    if values != [] { OthersAssigned(Assigned(q, index, values[0]), index + 1, values[1..]); }
  }

  /** A blank text gives the query without selections, of the same data type; any other gives the
      fields between its '_' by position. */
  lemma AnyText(q: State, encoded: string)
    requires Shaped(q)
    ensures var r := Decoded(q, encoded);
      if forall i :: 0 <= i < |encoded| ==> IsBlank(encoded[i])
      then r == State(Int(0), [[], [], [], [], [], [], []], q.dataType)
      else Shaped(r) && Split(encoded, '_') != [] && ByPosition(q, Split(encoded, '_'), r)
  {
    if !Blank(encoded) {
      var values := Split(encoded, '_');
      TextOthers(q, values);
      forall i | 0 <= i < 7 ensures
        Decoded(q, encoded).selections[i] == if i + 1 < |values| then DecodedArray(values[i + 1]) else q.selections[i]
      {
        TextSelection(q, values, i);
      }
    }
  }

  lemma TextSelection(q: State, values: seq<string>, i: nat)
    requires Shaped(q) && values != [] && i < 7
    ensures AssignedAll(q, 0, values).selections[i]
      == if i + 1 < |values| then DecodedArray(values[i + 1]) else q.selections[i]
  {
    SelectionAssigned(Assigned(q, 0, values[0]), 1, values[1..], i);
  }

  lemma TextOthers(q: State, values: seq<string>)
    requires Shaped(q) && values != []
    ensures var r := AssignedAll(q, 0, values);
      r.metric == ParseInt(values[0]) && r.dataType == if |values| > 8 then values[8] else q.dataType
  {
    OthersAssigned(Assigned(q, 0, values[0]), 1, values[1..]);
  }

  /** So a blank text stands for the query without selections, if the data type can be written at all. */
  lemma BlankIsEmpty(q: State, encoded: string)
    requires Shaped(q) && Blank(encoded)
    ensures var empty := State(Int(0), NOTHING, q.dataType);
      Decoded(q, encoded) == empty && (Decoded(q, Encoded(empty)) == empty <==> '_' !in q.dataType)
  {
    QueryRestored(State(Int(0), NOTHING, q.dataType), q);
  }

  // ---- Reading any number -----------------------------------------------------------------------

  function Signed(sign: string, n: nat): Number
    requires sign in {"", "+", "-"}
  {
    Int(if sign == "-" then 0 - n else n)
  }

  lemma {:induction false} TrimmedLeft(blanks: string, s: string)
    requires Blank(blanks) && (s != "" ==> !IsBlank(s[0]))
    ensures TrimLeft(blanks + s) == s
    decreases |blanks|
  {
    if blanks == "" {
      assert blanks + s == s;
    } else {
      assert (blanks + s)[1..] == blanks[1..] + s;
      TrimmedLeft(blanks[1..], s);
    }
  }

  lemma {:induction false} LeadingOf(digits: string, rest: string, digit: char -> bool)
    requires (forall i :: 0 <= i < |digits| ==> digit(digits[i])) && (rest != "" ==> !digit(rest[0]))
    ensures Leading(digits + rest, digit) == |digits|
    decreases |digits|
  {
    if digits == "" {
      assert digits + rest == rest;
    } else {
      assert (digits + rest)[1..] == digits[1..] + rest;
      LeadingOf(digits[1..], rest, digit);
    }
  }

  /** What follows the blanks and the sign. */
  lemma SignRead(blanks: string, sign: string, body: string)
    requires Blank(blanks) && sign in {"", "+", "-"} && body != "" && !IsBlank(body[0]) && body[0] !in {'+', '-'}
    ensures var t := TrimLeft(blanks + (sign + body));
      && t == sign + body && t != "" && (t[0] == '-' <==> sign == "-")
      && (if t[0] == '-' || t[0] == '+' then t[1..] else t) == body
  {
    TrimmedLeft(blanks, sign + body);
    if sign != "" { assert (sign + body)[1..] == body; } else { assert sign + body == body; }
  }

  /** What `parseInt` makes of the text after the blanks and the sign. */
  function Digits(sign: string, u: string): Number
    requires sign in {"", "+", "-"}
  {
    if "0x" <= u || "0X" <= u then
      var n := Leading(u[2..], IsHex);
      if n == 0 then NaN else Signed(sign, HexValue(u[2..][..n]))
    else
      var n := Leading(u, IsDigit);
      if n == 0 then NaN else Signed(sign, DigitsValue(u[..n]))
  }

  lemma ParsedAfter(blanks: string, sign: string, body: string)
    requires Blank(blanks) && sign in {"", "+", "-"} && body != "" && !IsBlank(body[0]) && body[0] !in {'+', '-'}
    ensures ParseInt(blanks + (sign + body)) == Digits(sign, body)
  {
    SignRead(blanks, sign, body);
  }

  /** A number is read from its leading decimal digits, after blanks and a sign, whatever follows. */
  lemma DecimalRead(blanks: string, sign: string, digits: string, rest: string)
    requires Blank(blanks) && sign in {"", "+", "-"} && digits != "" && AllDigits(digits)
    requires rest != "" ==> !IsDigit(rest[0]) && !(digits == "0" && rest[0] in {'x', 'X'})
    ensures ParseInt(blanks + (sign + (digits + rest))) == Signed(sign, DigitsValue(digits))
  {
    var u := digits + rest;
    assert u[0] == digits[0] && IsDigit(u[0]);
    ParsedAfter(blanks, sign, u);
    LeadingOf(digits, rest, IsDigit);
    assert u[..|digits|] == digits;
    if |digits| > 1 { assert u[1] == digits[1] && IsDigit(u[1]); } else if rest != "" { assert u[1] == rest[0]; }
  }

  /** After "0x" the digits are hexadecimal. */
  lemma HexadecimalRead(blanks: string, sign: string, x: char, digits: string, rest: string)
    requires Blank(blanks) && sign in {"", "+", "-"} && x in {'x', 'X'} && digits != ""
    requires (forall i :: 0 <= i < |digits| ==> IsHex(digits[i])) && (rest != "" ==> !IsHex(rest[0]))
    ensures ParseInt(blanks + (sign + (['0', x] + (digits + rest)))) == Signed(sign, HexValue(digits))
  {
    var u := ['0', x] + (digits + rest);
    ParsedAfter(blanks, sign, u);
    LeadingOf(digits, rest, IsHex);
    assert u[2..] == digits + rest && (digits + rest)[..|digits|] == digits;
  }

  /** A hexadecimal digit counts as its place among the sixteen. */
  lemma HexDigits(c: char)
    requires IsHex(c)
    ensures HexDigit(c) < 16 && ("0123456789abcdef"[HexDigit(c)] == c || "0123456789ABCDEF"[HexDigit(c)] == c)
  {}

  /** Without a digit where one is needed there is no number. */
  lemma NothingRead(blanks: string, sign: string, rest: string)
    requires Blank(blanks) && sign in {"", "+", "-"}
    requires rest != "" ==> !IsDigit(rest[0]) && (sign == "" ==> !IsBlank(rest[0]) && rest[0] !in {'+', '-'})
    ensures ParseInt(blanks + (sign + rest)) == NaN
  {
    if sign == "" { assert sign + rest == rest; } else { assert (sign + rest)[1..] == rest; }
    TrimmedLeft(blanks, sign + rest);
  }
}
