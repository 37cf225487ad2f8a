/** Printing a value as canonical JSON: keys sorted, no spaces. The text determines the value up to key
    order, but for three things: an array holding a single undefined prints like the empty array, a number
    that is not finite like null, and negative zero like zero.

    Text is UTF-16 code units. A finite number is its printed form, as the language prints it. */
module CanonicalJson {
  import opened Chain

  type Unit = x: int | 0 <= x < 0x1_0000
  type Text = seq<Unit>

  datatype Field<T> = Field(key: Text, value: T)

  datatype Extreme = NotANumber | PlusInfinity | MinusInfinity

  datatype Json =
    | Null
    | Undefined
    | Bool(b: bool)
    | Num(text: Text)
    | NegativeZero
    | NonFinite(which: Extreme)
    | Str(s: Text)
    | Arr(items: seq<Json>)
    | Obj(fields: seq<Field<Json>>)

  const QUOTE: Unit := 0x22
  const COMMA: Unit := 0x2C
  const COLON: Unit := 0x3A
  const OPEN_ARR: Unit := 0x5B
  const BACKSLASH: Unit := 0x5C
  const CLOSE_ARR: Unit := 0x5D
  const LOWER_U: Unit := 0x75
  const OPEN_OBJ: Unit := 0x7B
  const CLOSE_OBJ: Unit := 0x7D
  const NULL_TEXT: Text := [0x6E, 0x75, 0x6C, 0x6C]
  const ZERO_TEXT: Text := [0x30]
  const TRUE_TEXT: Text := [0x74, 0x72, 0x75, 0x65]
  const FALSE_TEXT: Text := [0x66, 0x61, 0x6C, 0x73, 0x65]
  const UNDEFINED_TEXT: Text := [0x75, 0x6E, 0x64, 0x65, 0x66, 0x69, 0x6E, 0x65, 0x64]

  predicate NumberUnit(u: Unit) {
    0x30 <= u <= 0x39 || u == 0x2B || u == 0x2D || u == 0x2E || u == 0x45 || u == 0x65
  }

  /** A printed number: digits, signs, points and exponents, starting with a digit or a minus. */
  predicate NumberText(t: Text) {
    t != [] && (0x30 <= t[0] <= 0x39 || t[0] == 0x2D) && forall i :: 0 <= i < |t| ==> NumberUnit(t[i])
  }

  predicate DistinctKeys<T>(fields: seq<Field<T>>) {
    forall i, j :: 0 <= i < j < |fields| ==> fields[i].key != fields[j].key
  }

  /** Finite numbers print as numbers, and no object has a key twice. */
  predicate WellFormed(v: Json) {
    match v
    case Num(text) => NumberText(text)
    case Arr(items) => forall i :: 0 <= i < |items| ==> WellFormed(items[i])
    case Obj(fields) => DistinctKeys(fields) && forall i :: 0 <= i < |fields| ==> WellFormed(fields[i].value)
    case _ => true
  }

  // ----- strings

  predicate High(u: Unit) { 0xD800 <= u < 0xDC00 }
  predicate Low(u: Unit) { 0xDC00 <= u < 0xE000 }

  function HexDigit(n: nat): Unit
    requires n < 16
  {
    if n < 10 then 0x30 + n else 0x61 + n - 10
  }

  function HexValue(u: Unit): int {
    if 0x30 <= u <= 0x39 then u - 0x30 else if 0x61 <= u <= 0x66 then u - 0x61 + 10 else -1
  }

  function UnicodeEscape(u: Unit): Text {
    [BACKSLASH, LOWER_U, HexDigit(u / 0x1000), HexDigit(u / 0x100 % 16), HexDigit(u / 16 % 16), HexDigit(u % 16)]
  }

  /** The letter a control character is escaped by, or 0. */
  function ShortEscape(u: Unit): Unit {
    if u == 8 then 0x62 else if u == 9 then 0x74 else if u == 10 then 0x6E
    else if u == 12 then 0x66 else if u == 13 then 0x72 else 0
  }

  function EscapeUnit(u: Unit): Text {
    if u == QUOTE || u == BACKSLASH then [BACKSLASH, u]
    else if ShortEscape(u) != 0 then [BACKSLASH, ShortEscape(u)]
    else if u < 0x20 || High(u) || Low(u) then UnicodeEscape(u)
    else [u]
  }

  /** The inside of a quoted string: surrogate pairs stand as they are, lone surrogates are escaped. */
  function EscapeText(s: Text): Text {
    if s == [] then []
    else if |s| > 1 && High(s[0]) && Low(s[1]) then [s[0], s[1]] + EscapeText(s[2..])
    else EscapeUnit(s[0]) + EscapeText(s[1..])
  }

  function Quoted(s: Text): Text {
    [QUOTE] + EscapeText(s) + [QUOTE]
  }

  // ----- sorting by key

  predicate Before(a: Text, b: Text) {
    if b == [] then false
    else if a == [] then true
    else if a[0] != b[0] then a[0] < b[0]
    else Before(a[1..], b[1..])
  }

  function InsertField<T>(sorted: seq<Field<T>>, f: Field<T>): seq<Field<T>> {
    if sorted == [] || Before(f.key, sorted[0].key) then [f] + sorted
    else [sorted[0]] + InsertField(sorted[1..], f)
  }

  function SortFields<T>(fields: seq<Field<T>>): (r: seq<Field<T>>) {
    if fields == [] then [] else InsertField(SortFields(fields[1..]), fields[0])
  }

  // ----- printing

  function PrintAll(items: seq<Json>): (r: seq<Text>)
    ensures |r| == |items|
  {
    if items == [] then [] else [if items[0].Undefined? then [] else Print(items[0])] + PrintAll(items[1..])
  }

  function PrintFields(fields: seq<Field<Json>>): (r: seq<Field<Text>>)
    ensures |r| == |fields|
  {
    if fields == [] then [] else [Field(fields[0].key, Print(fields[0].value))] + PrintFields(fields[1..])
  }

  function Join(parts: seq<Text>): Text {
    if parts == [] then [] else if |parts| == 1 then parts[0] else parts[0] + [COMMA] + Join(parts[1..])
  }

  function Members(fields: seq<Field<Text>>): (r: seq<Text>)
    ensures |r| == |fields|
  {
    if fields == [] then [] else [Quoted(fields[0].key) + [COLON] + fields[0].value] + Members(fields[1..])
  }

  /** The canonical text. An undefined array element prints as nothing, an undefined field as its name. */
  function Print(v: Json): Text {
    match v
    case Null => NULL_TEXT
    case Undefined => UNDEFINED_TEXT
    case Bool(b) => if b then TRUE_TEXT else FALSE_TEXT
    case Num(text) => text
    case NegativeZero => ZERO_TEXT
    case NonFinite(_) => NULL_TEXT
    case Str(s) => Quoted(s)
    case Arr(items) => [OPEN_ARR] + Join(PrintAll(items)) + [CLOSE_ARR]
    case Obj(fields) => [OPEN_OBJ] + Join(Members(SortFields(PrintFields(fields)))) + [CLOSE_OBJ]
  }

  // ----- the value up to what the text cannot show

  function NormalAll(items: seq<Json>): (r: seq<Json>)
    ensures |r| == |items|
  {
    if items == [] then [] else [Normal(items[0])] + NormalAll(items[1..])
  }

  function NormalFields(fields: seq<Field<Json>>): (r: seq<Field<Json>>)
    ensures |r| == |fields|
  {
    if fields == [] then [] else [Field(fields[0].key, Normal(fields[0].value))] + NormalFields(fields[1..])
  }

  /** Keys in order throughout, an array of one undefined emptied, what is not finite made null, and
      negative zero made zero. */
  function Normal(v: Json): Json {
    match v
    case NegativeZero => Num(ZERO_TEXT)
    case NonFinite(_) => Null
    case Arr(items) => if items == [Undefined] then Arr([]) else Arr(NormalAll(items))
    case Obj(fields) => Obj(SortFields(NormalFields(fields)))
    case _ => v
  }

  // ----- reading the text back

  datatype Parse<+T> = Got(value: T, rest: Text) | Failed

  function ParseEscape(t: Text): (r: Parse<Unit>)
    ensures r.Got? ==> |r.rest| < |t|
  {
    if |t| >= 6 && t[1] == LOWER_U && HexValue(t[2]) >= 0 && HexValue(t[3]) >= 0 && HexValue(t[4]) >= 0 && HexValue(t[5]) >= 0 then
      Got(HexValue(t[2]) * 0x1000 + HexValue(t[3]) * 0x100 + HexValue(t[4]) * 16 + HexValue(t[5]), t[6..])
    else if |t| < 2 then Failed
    else if t[1] == QUOTE || t[1] == BACKSLASH then Got(t[1], t[2..])
    else if t[1] == 0x62 then Got(8, t[2..])
    else if t[1] == 0x74 then Got(9, t[2..])
    else if t[1] == 0x6E then Got(10, t[2..])
    else if t[1] == 0x66 then Got(12, t[2..])
    else if t[1] == 0x72 then Got(13, t[2..])
    else Failed
  }

  /** The rest of a string up to its closing quote. */
  function ParseText(t: Text): (r: Parse<Text>)
    ensures r.Got? ==> |r.rest| < |t|
    decreases |t|
  {
    if t == [] then Failed
    else if t[0] == QUOTE then Got([], t[1..])
    else if t[0] == BACKSLASH then
      var u := ParseEscape(t);
      if u.Failed? then Failed
      else
        var more := ParseText(u.rest);
        if more.Failed? then Failed else Got([u.value] + more.value, more.rest)
    else
      var more := ParseText(t[1..]);
      if more.Failed? then Failed else Got([t[0]] + more.value, more.rest)
  }

  function ParseNumber(t: Text): (r: Parse<Text>)
    ensures r.Got? && |r.rest| <= |t| && (t != [] && NumberUnit(t[0]) ==> |r.rest| < |t|)
  {
    if t == [] || !NumberUnit(t[0]) then Got([], t)
    else var more := ParseNumber(t[1..]); Got([t[0]] + more.value, more.rest)
  }

  predicate StartsWith(t: Text, p: Text) {
    |p| <= |t| && t[..|p|] == p
  }

  function ParseValue(t: Text): (r: Parse<Json>)
    ensures r.Got? ==> |r.rest| < |t|
    decreases |t|, 0
  {
    if t == [] then Failed
    else if t[0] == QUOTE then
      var s := ParseText(t[1..]);
      if s.Failed? then Failed else Got(Str(s.value), s.rest)
    else if StartsWith(t, NULL_TEXT) then Got(Null, t[4..])
    else if StartsWith(t, TRUE_TEXT) then Got(Bool(true), t[4..])
    else if StartsWith(t, FALSE_TEXT) then Got(Bool(false), t[5..])
    else if StartsWith(t, UNDEFINED_TEXT) then Got(Undefined, t[9..])
    else if t[0] == OPEN_ARR then
      if |t| > 1 && t[1] == CLOSE_ARR then Got(Arr([]), t[2..])
      else
        var items := ParseItems(t[1..]);
        if items.Failed? then Failed else Got(Arr(items.value), items.rest)
    else if t[0] == OPEN_OBJ then
      if |t| > 1 && t[1] == CLOSE_OBJ then Got(Obj([]), t[2..])
      else
        var fields := ParseFields(t[1..]);
        if fields.Failed? then Failed else Got(Obj(fields.value), fields.rest)
    else if NumberUnit(t[0]) then
      var n := ParseNumber(t);
      Got(Num(n.value), n.rest)
    else Failed
  }

  /** Array elements up to the closing bracket; nothing between commas is undefined. */
  function ParseItems(t: Text): (r: Parse<seq<Json>>)
    ensures r.Got? ==> |r.rest| < |t|
    decreases |t|, 1
  {
    if t == [] then Failed
    else
      var item := if t[0] == COMMA || t[0] == CLOSE_ARR then Got(Undefined, t) else ParseValue(t);
      if item.Failed? || item.rest == [] then Failed
      else if item.rest[0] == CLOSE_ARR then Got([item.value], item.rest[1..])
      else if item.rest[0] != COMMA then Failed
      else
        var more := ParseItems(item.rest[1..]);
        if more.Failed? then Failed else Got([item.value] + more.value, more.rest)
  }

  function ParseFields(t: Text): (r: Parse<seq<Field<Json>>>)
    ensures r.Got? ==> |r.rest| < |t|
    decreases |t|, 1
  {
    if t == [] || t[0] != QUOTE then Failed
    else
      var key := ParseText(t[1..]);
      if key.Failed? || key.rest == [] || key.rest[0] != COLON then Failed
      else
        var value := ParseValue(key.rest[1..]);
        if value.Failed? || value.rest == [] then Failed
        else if value.rest[0] == CLOSE_OBJ then Got([Field(key.value, value.value)], value.rest[1..])
        else if value.rest[0] != COMMA then Failed
        else
          var more := ParseFields(value.rest[1..]);
          if more.Failed? then Failed else Got([Field(key.value, value.value)] + more.value, more.rest)
  }

  // ----- strings read back

  lemma HexBack(u: Unit, rest: Text)
    ensures ParseEscape(UnicodeEscape(u) + rest) == Got(u, rest)
  {
    var t := UnicodeEscape(u) + rest;
    assert t[6..] == rest && t[1] == LOWER_U;
    assert t[2] == HexDigit(u / 0x1000) && t[3] == HexDigit(u / 0x100 % 16);
    assert t[4] == HexDigit(u / 16 % 16) && t[5] == HexDigit(u % 16);
    hide HexDigit, HexValue, UnicodeEscape;
    Nibbles(u);
  }

  lemma Nibbles(u: Unit)
    ensures u == u / 0x1000 * 0x1000 + u / 0x100 % 16 * 0x100 + u / 16 % 16 * 16 + u % 16
  {
    assert u == u / 0x1000 * 0x1000 + u / 0x100 % 16 * 0x100 + u / 16 % 16 * 16 + u % 16;
  }

  lemma UnitBack(u: Unit, rest: Text)
    ensures var t := EscapeUnit(u) + rest;
      if EscapeUnit(u) == [u] then u != QUOTE && u != BACKSLASH
      else t[0] == BACKSLASH && ParseEscape(t) == Got(u, rest)
  {
    var t := EscapeUnit(u) + rest;
    if EscapeUnit(u) == UnicodeEscape(u) {
      HexBack(u, rest);
    } else if |EscapeUnit(u)| == 2 {
      assert t[2..] == rest;
    }
  }

  lemma {:induction false} TextBack(s: Text, rest: Text)
    ensures ParseText(EscapeText(s) + [QUOTE] + rest) == Got(s, rest)
    decreases |s|
  {
    hide EscapeUnit, ParseEscape;
    var t := EscapeText(s) + [QUOTE] + rest;
    if s == [] {
      assert t == [QUOTE] + rest;
    } else if |s| > 1 && High(s[0]) && Low(s[1]) {
      var tail := EscapeText(s[2..]) + [QUOTE] + rest;
      assert t == [s[0]] + ([s[1]] + tail);
      assert s == [s[0]] + ([s[1]] + s[2..]);
      TextBack(s[2..], rest);
      hide ParseText;
    } else {
      var tail := EscapeText(s[1..]) + [QUOTE] + rest;
      assert t == EscapeUnit(s[0]) + tail && s == [s[0]] + s[1..];
      TextBack(s[1..], rest);
      hide ParseText;
      UnitBack(s[0], tail);
      if EscapeUnit(s[0]) == [s[0]] {
      } else {
      }
    }
  }

  /** What may follow a value. */
  predicate Delimited(rest: Text) {
    rest == [] || rest[0] == COMMA || rest[0] == CLOSE_ARR || rest[0] == CLOSE_OBJ
  }

  lemma {:induction false} NumberBack(text: Text, rest: Text)
    requires (forall i :: 0 <= i < |text| ==> NumberUnit(text[i])) && Delimited(rest)
    ensures ParseNumber(text + rest) == Got(text, rest)
  {
    if text == [] {
      assert text + rest == rest;
    } else {
      assert (text + rest)[1..] == text[1..] + rest && text == [text[0]] + text[1..];
      NumberBack(text[1..], rest);
    }
  }

  // ----- values read back

  /** Wherever the text stands before a delimiter, it reads as this value. */
  ghost predicate ReadsAs(text: Text, v: Json) {
    forall rest :: Delimited(rest) ==> ParseValue(text + rest) == Got(v, rest)
  }

  lemma PrintHead(v: Json)
    requires WellFormed(v)
    ensures Print(v) != [] && Print(v)[0] != COMMA && Print(v)[0] != CLOSE_ARR && Print(v)[0] != CLOSE_OBJ
  {
  }

  lemma WordBack(word: Text, rest: Text)
    ensures StartsWith(word + rest, word) && (word + rest)[|word|..] == rest
  {
  }

  lemma StringBack(s: Text, rest: Text)
    ensures ParseValue(Quoted(s) + rest) == Got(Str(s), rest)
  {
    assert (Quoted(s) + rest)[1..] == EscapeText(s) + [QUOTE] + rest;
    TextBack(s, rest);
    hide EscapeText, ParseText, ParseItems, ParseFields;
  }

  lemma WordHead(t: Text, word: Text)
    requires t != [] && word != []
    ensures StartsWith(t, word) ==> t[0] == word[0]
  {
    if StartsWith(t, word) {
      assert t[..|word|][0] == t[0];
    }
  }

  lemma NumBack(text: Text, rest: Text)
    requires NumberText(text) && Delimited(rest)
    ensures ParseValue(text + rest) == Got(Num(text), rest)
  {
    NumberBack(text, rest);
    var t := text + rest;
    assert t[0] == text[0] && NumberUnit(text[0]);
    WordHead(t, NULL_TEXT);
    WordHead(t, TRUE_TEXT);
    WordHead(t, FALSE_TEXT);
    WordHead(t, UNDEFINED_TEXT);
    hide ParseText, ParseItems, ParseFields, ParseNumber, StartsWith, NumberText;
  }

  lemma ZeroBack(rest: Text)
    requires Delimited(rest)
    ensures ParseValue(ZERO_TEXT + rest) == Got(Num(ZERO_TEXT), rest)
  {
    NumBack(ZERO_TEXT, rest);
  }

  lemma LiteralBack(v: Json, rest: Text)
    requires WellFormed(v) && !v.Arr? && !v.Obj? && Delimited(rest)
    ensures ParseValue(Print(v) + rest) == Got(Normal(v), rest)
  {
    hide ParseText, ParseItems, ParseFields, ParseNumber, NumberText;
    match v
    case Null => WordBack(NULL_TEXT, rest);
    case Undefined => WordBack(UNDEFINED_TEXT, rest);
    case Bool(b) => WordBack(if b then TRUE_TEXT else FALSE_TEXT, rest);
    case Num(text) => NumBack(text, rest);
    case NegativeZero => ZeroBack(rest);
    case NonFinite(_) => WordBack(NULL_TEXT, rest);
    case Str(s) => StringBack(s, rest);
  }

  lemma ReadBack(text: Text, v: Json, rest: Text)
    requires ReadsAs(text, v) && Delimited(rest)
    ensures ParseValue(text + rest) == Got(v, rest)
  {
  }

  /** Elements that read as their normal forms: an undefined one prints as nothing. */
  ghost predicate ItemReads(v: Json) {
    !v.Undefined? ==> ReadsAs(Print(v), Normal(v)) && Print(v) != [] && Print(v)[0] != COMMA && Print(v)[0] != CLOSE_ARR
  }

  lemma ItemBack(v: Json, rest: Text)
    requires ItemReads(v) && rest != [] && (rest[0] == COMMA || rest[0] == CLOSE_ARR)
    ensures var t := (if v.Undefined? then [] else Print(v)) + rest;
      t != [] && (if t[0] == COMMA || t[0] == CLOSE_ARR then Got(Undefined, t) else ParseValue(t)) == Got(Normal(v), rest)
  {
    hide Print, ParseValue;
    if v.Undefined? {
      assert [] + rest == rest;
    } else {
      ReadBack(Print(v), Normal(v), rest);
    }
  }

  /** One element read, and what comes after it. */
  lemma ItemStep(t: Text, v: Json, after: Text)
    requires t != [] && (if t[0] == COMMA || t[0] == CLOSE_ARR then Got(Undefined, t) else ParseValue(t)) == Got(v, after)
    requires after != []
    ensures after[0] == CLOSE_ARR ==> ParseItems(t) == Got([v], after[1..])
    ensures after[0] == COMMA && |after| <= |t| && ParseItems(after[1..]).Got? ==>
      ParseItems(t) == Got([v] + ParseItems(after[1..]).value, ParseItems(after[1..]).rest)
  {
    hide ParseValue;
  }

  function ItemText(v: Json): Text {
    if v.Undefined? then [] else Print(v)
  }

  lemma JoinedItems(items: seq<Json>)
    requires items != []
    ensures |items| == 1 ==>
      Join(PrintAll(items)) == ItemText(items[0]) && NormalAll(items) == [Normal(items[0])]
    ensures |items| > 1 ==>
      Join(PrintAll(items)) == ItemText(items[0]) + [COMMA] + Join(PrintAll(items[1..]))
      && NormalAll(items) == [Normal(items[0])] + NormalAll(items[1..])
  {
    hide Print, Normal;
    assert |items| == 1 ==> items[1..] == [];
    assert |items| > 1 ==> PrintAll(items)[1..] == PrintAll(items[1..]);
  }

  /** An item's text is read, and the reading goes on behind the comma or bracket after it. */
  lemma ItemThen(v: Json, mark: Text, tail: Text)
    requires ItemReads(v) && (mark == [CLOSE_ARR] || mark == [COMMA])
    ensures mark == [CLOSE_ARR] ==> ParseItems(ItemText(v) + mark + tail) == Got([Normal(v)], tail)
    ensures mark == [COMMA] && ParseItems(tail).Got? ==>
      ParseItems(ItemText(v) + mark + tail) == Got([Normal(v)] + ParseItems(tail).value, ParseItems(tail).rest)
  {
    hide ItemReads, Print, ParseValue, ParseItems, Normal;
    var t, after := ItemText(v) + mark + tail, mark + tail;
    assert t == ItemText(v) + after && after[1..] == tail;
    ItemBack(v, after);
    ItemStep(t, Normal(v), after);
  }

  lemma {:induction false} ItemsBack(items: seq<Json>, rest: Text)
    requires items != [] && forall i :: 0 <= i < |items| ==> ItemReads(items[i])
    ensures ParseItems(Join(PrintAll(items)) + [CLOSE_ARR] + rest) == Got(NormalAll(items), rest)
    decreases |items|
  {
    hide ItemReads, Print, ParseValue, ParseItems, Join, PrintAll, NormalAll, ItemText;
    JoinedItems(items);
    if |items| == 1 {
      ItemThen(items[0], [CLOSE_ARR], rest);
    } else {
      var tail := Join(PrintAll(items[1..])) + [CLOSE_ARR] + rest;
      ItemsBack(items[1..], rest);
      ItemThen(items[0], [COMMA], tail);
      assert Join(PrintAll(items)) + [CLOSE_ARR] + rest == ItemText(items[0]) + [COMMA] + tail;
    }
  }

  /** Two field lists in step: the same keys, and each text reads as its value. */
  ghost predicate Matches(texts: seq<Field<Text>>, values: seq<Field<Json>>) {
    |texts| == |values|
    && forall i :: 0 <= i < |texts| ==> texts[i].key == values[i].key && ReadsAs(texts[i].value, values[i].value)
  }

  lemma {:induction false} InsertMatches(texts: seq<Field<Text>>, values: seq<Field<Json>>, f: Field<Text>, g: Field<Json>)
    requires Matches(texts, values) && f.key == g.key && ReadsAs(f.value, g.value)
    ensures Matches(InsertField(texts, f), InsertField(values, g))
    decreases |texts|
  {
    hide ReadsAs;
    if texts == [] || Before(f.key, texts[0].key) {
    } else {
      InsertMatches(texts[1..], values[1..], f, g);
    }
  }

  lemma {:induction false} FieldsMatch(fields: seq<Field<Json>>)
    requires forall i :: 0 <= i < |fields| ==> ReadsAs(Print(fields[i].value), Normal(fields[i].value))
    ensures Matches(SortFields(PrintFields(fields)), SortFields(NormalFields(fields)))
    decreases |fields|
  {
    hide ReadsAs, Print, Normal, InsertField;
    if fields != [] {
      FieldsMatch(fields[1..]);
      var f, g := Field(fields[0].key, Print(fields[0].value)), Field(fields[0].key, Normal(fields[0].value));
      assert PrintFields(fields)[1..] == PrintFields(fields[1..]);
      assert NormalFields(fields)[1..] == NormalFields(fields[1..]);
      InsertMatches(SortFields(PrintFields(fields[1..])), SortFields(NormalFields(fields[1..])), f, g);
    }
  }

  /** One field read, and what comes after it. */
  lemma FieldStep(k: Text, x: Text, v: Json, after: Text)
    requires ReadsAs(x, v) && after != [] && Delimited(after)
    ensures var t := Quoted(k) + [COLON] + x + after;
      && (after[0] == CLOSE_OBJ ==> ParseFields(t) == Got([Field(k, v)], after[1..]))
      && (after[0] == COMMA && ParseFields(after[1..]).Got? ==>
            ParseFields(t) == Got([Field(k, v)] + ParseFields(after[1..]).value, ParseFields(after[1..]).rest))
  {
    hide ReadsAs, ParseValue, EscapeText, ParseText;
    var t := Quoted(k) + [COLON] + x + after;
    assert t[1..] == EscapeText(k) + [QUOTE] + ([COLON] + (x + after));
    TextBack(k, [COLON] + (x + after));
    assert ([COLON] + (x + after))[1..] == x + after;
    ReadBack(x, v, after);
  }

  lemma JoinedFields(texts: seq<Field<Text>>)
    requires texts != []
    ensures |texts| == 1 ==> Join(Members(texts)) == Quoted(texts[0].key) + [COLON] + texts[0].value
    ensures |texts| > 1 ==>
      Join(Members(texts)) == Quoted(texts[0].key) + [COLON] + texts[0].value + [COMMA] + Join(Members(texts[1..]))
  {
    hide Quoted;
    assert |texts| == 1 ==> texts[1..] == [];
    assert |texts| > 1 ==> Members(texts)[1..] == Members(texts[1..]);
  }

  lemma {:induction false} FieldsBack(texts: seq<Field<Text>>, values: seq<Field<Json>>, rest: Text)
    requires texts != [] && Matches(texts, values)
    ensures ParseFields(Join(Members(texts)) + [CLOSE_OBJ] + rest) == Got(values, rest)
    decreases |texts|
  {
    hide ReadsAs, ParseFields, Quoted, Join, Members;
    var k, x, v := texts[0].key, texts[0].value, values[0].value;
    var t := Join(Members(texts)) + [CLOSE_OBJ] + rest;
    JoinedFields(texts);
    assert values == [Field(k, v)] + values[1..];
    if |texts| == 1 {
      var after := [CLOSE_OBJ] + rest;
      assert t == Quoted(k) + [COLON] + x + after && after[1..] == rest && values == [Field(k, v)];
      FieldStep(k, x, v, after);
    } else {
      var tail := Join(Members(texts[1..])) + [CLOSE_OBJ] + rest;
      var after := [COMMA] + tail;
      FieldsBack(texts[1..], values[1..], rest);
      assert t == Quoted(k) + [COLON] + x + after && after[1..] == tail;
      FieldStep(k, x, v, after);
    }
  }

  // ----- the whole value

  lemma {:induction false} ValueBack(v: Json)
    requires WellFormed(v)
    ensures ReadsAs(Print(v), Normal(v))
    decreases v, 1
  {
    match v
    case Arr(items) =>
      ItemsBackAll(items);
      ArrReads(items);
    case Obj(fields) =>
      FieldsBackAll(fields);
      ObjReads(fields);
    case _ =>
      forall rest | Delimited(rest) ensures ParseValue(Print(v) + rest) == Got(Normal(v), rest) {
        LiteralBack(v, rest);
      }
  }

  lemma {:induction false} ItemsBackAll(items: seq<Json>)
    requires forall i :: 0 <= i < |items| ==> WellFormed(items[i])
    ensures forall i :: 0 <= i < |items| ==> ItemReads(items[i])
    decreases items, 0
  {
    hide Print, Normal, ParseValue, ReadsAs;
    forall i | 0 <= i < |items| ensures ItemReads(items[i]) {
      ValueBack(items[i]);
      PrintHead(items[i]);
    }
  }

  lemma {:induction false} FieldsBackAll(fields: seq<Field<Json>>)
    requires forall i :: 0 <= i < |fields| ==> WellFormed(fields[i].value)
    ensures forall i :: 0 <= i < |fields| ==> ReadsAs(Print(fields[i].value), Normal(fields[i].value))
    decreases fields, 0
  {
    hide Print, Normal, ParseValue, ReadsAs;
    forall i | 0 <= i < |fields| ensures ReadsAs(Print(fields[i].value), Normal(fields[i].value)) {
      ValueBack(fields[i].value);
    }
  }

  lemma OpenArr(t: Text, rest: Text)
    requires t == [OPEN_ARR] + rest
    ensures ParseValue(t) ==
      if rest != [] && rest[0] == CLOSE_ARR then Got(Arr([]), rest[1..])
      else if ParseItems(rest).Failed? then Failed
      else Got(Arr(ParseItems(rest).value), ParseItems(rest).rest)
  {
    assert t[1..] == rest && t[0] == OPEN_ARR;
    WordHead(t, NULL_TEXT);
    WordHead(t, TRUE_TEXT);
    WordHead(t, FALSE_TEXT);
    WordHead(t, UNDEFINED_TEXT);
    assert rest != [] ==> t[2..] == rest[1..];
    hide ParseItems, ParseFields, ParseText, ParseNumber, StartsWith;
  }

  lemma OpenObj(t: Text, rest: Text)
    requires t == [OPEN_OBJ] + rest
    ensures ParseValue(t) ==
      if rest != [] && rest[0] == CLOSE_OBJ then Got(Obj([]), rest[1..])
      else if ParseFields(rest).Failed? then Failed
      else Got(Obj(ParseFields(rest).value), ParseFields(rest).rest)
  {
    assert t[1..] == rest && t[0] == OPEN_OBJ;
    WordHead(t, NULL_TEXT);
    WordHead(t, TRUE_TEXT);
    WordHead(t, FALSE_TEXT);
    WordHead(t, UNDEFINED_TEXT);
    assert rest != [] ==> t[2..] == rest[1..];
    hide ParseItems, ParseFields, ParseText, ParseNumber, StartsWith;
  }

  /** The first character inside the brackets tells an empty array, or one of a single undefined. */
  lemma ArrHead(items: seq<Json>, rest: Text)
    requires items != [] && forall i :: 0 <= i < |items| ==> ItemReads(items[i])
    ensures (Join(PrintAll(items)) + [CLOSE_ARR] + rest)[0] == CLOSE_ARR <==> items == [Undefined]
  {
    hide Print, Normal, ReadsAs, PrintAll, NormalAll, Join;
    JoinedItems(items);
    assert ItemReads(items[0]);
    assert items == [items[0]] + items[1..];
  }

  lemma ArrReads(items: seq<Json>)
    requires forall i :: 0 <= i < |items| ==> ItemReads(items[i])
    ensures ReadsAs(Print(Arr(items)), Normal(Arr(items)))
  {
    forall rest | Delimited(rest) ensures ParseValue(Print(Arr(items)) + rest) == Got(Normal(Arr(items)), rest) {
      ArrReadsBefore(items, rest);
    }
  }

  lemma ArrReadsBefore(items: seq<Json>, rest: Text)
    requires forall i :: 0 <= i < |items| ==> ItemReads(items[i])
    ensures ParseValue(Print(Arr(items)) + rest) == Got(Normal(Arr(items)), rest)
  {
    hide ItemReads, ParseValue, ParseItems, Join, PrintAll, NormalAll;
    var inside := Join(PrintAll(items)) + [CLOSE_ARR] + rest;
    assert Print(Arr(items)) + rest == [OPEN_ARR] + inside;
    OpenArr(Print(Arr(items)) + rest, inside);
    if items == [] {
      NoItems();
      assert inside == [CLOSE_ARR] + rest;
    } else {
      ItemsBack(items, rest);
      ArrHead(items, rest);
      OneUndefined(items);
      assert items == [Undefined] ==> inside == [CLOSE_ARR] + rest;
    }
  }

  lemma NoItems()
    ensures Join(PrintAll([])) == [] && NormalAll([]) == []
  {
  }

  lemma OneUndefined(items: seq<Json>)
    ensures items == [Undefined] ==> Join(PrintAll(items)) == []
  {
    if items == [Undefined] {
      assert items[1..] == [];
      assert PrintAll(items) == [[]];
    }
  }

  lemma ObjReads(fields: seq<Field<Json>>)
    requires forall i :: 0 <= i < |fields| ==> ReadsAs(Print(fields[i].value), Normal(fields[i].value))
    ensures ReadsAs(Print(Obj(fields)), Normal(Obj(fields)))
  {
    FieldsMatch(fields);
    hide ReadsAs, SortFields, PrintFields, NormalFields, ParseValue;
    forall rest | Delimited(rest) ensures ParseValue(Print(Obj(fields)) + rest) == Got(Normal(Obj(fields)), rest) {
      ObjReadsBefore(fields, SortFields(PrintFields(fields)), SortFields(NormalFields(fields)), rest);
    }
  }

  lemma ObjReadsBefore(fields: seq<Field<Json>>, texts: seq<Field<Text>>, values: seq<Field<Json>>, rest: Text)
    requires Matches(texts, values)
    ensures ParseValue([OPEN_OBJ] + Join(Members(texts)) + [CLOSE_OBJ] + rest) == Got(Obj(values), rest)
  {
    hide Matches, ParseValue, ParseFields, Join, Members;
    var inside := Join(Members(texts)) + [CLOSE_OBJ] + rest;
    assert [OPEN_OBJ] + Join(Members(texts)) + [CLOSE_OBJ] + rest == [OPEN_OBJ] + inside;
    OpenObj([OPEN_OBJ] + inside, inside);
    MatchesSize(texts, values);
    if texts == [] {
      NoMembers();
      assert inside == [CLOSE_OBJ] + rest;
    } else {
      FieldsBack(texts, values, rest);
      MembersHead(texts, rest);
    }
  }

  lemma MatchesSize(texts: seq<Field<Text>>, values: seq<Field<Json>>)
    requires Matches(texts, values)
    ensures |texts| == |values|
  {
  }

  lemma NoMembers()
    ensures Join(Members([])) == []
  {
  }

  lemma MembersHead(texts: seq<Field<Text>>, rest: Text)
    requires texts != []
    ensures (Join(Members(texts)) + [CLOSE_OBJ] + rest)[0] == QUOTE
  {
    JoinedFields(texts);
    hide Join, Members, EscapeText;
  }

  /** Equal texts come from values with one normal form. */
  lemma TextDeterminesNormal(v: Json, w: Json)
    requires WellFormed(v) && WellFormed(w) && Print(v) == Print(w)
    ensures Normal(v) == Normal(w)
  {
    ValueBack(v);
    ValueBack(w);
    hide Print, Normal, ParseValue;
    ReadBack(Print(v), Normal(v), []);
    ReadBack(Print(w), Normal(w), []);
  }

  // ----- equal normal forms print alike

  lemma {:induction false} BeforeTotal(a: Text, b: Text)
    ensures a != b ==> Before(a, b) == !Before(b, a)
    ensures !Before(a, a)
  {
    if a != [] && b != [] {
      BeforeTotal(a[1..], b[1..]);
      assert a == [a[0]] + a[1..] && b == [b[0]] + b[1..];
    }
    if a != [] {
      BeforeTotal(a[1..], a[1..]);
    }
  }

  lemma {:induction false} BeforeTrans(a: Text, b: Text, c: Text)
    requires Before(a, b) && Before(b, c)
    ensures Before(a, c)
  {
    if a != [] && b != [] && c != [] && a[0] == b[0] == c[0] {
      BeforeTrans(a[1..], b[1..], c[1..]);
    }
  }

  ghost predicate Strict<T>(fields: seq<Field<T>>) {
    forall i, j :: 0 <= i < j < |fields| ==> Before(fields[i].key, fields[j].key)
  }

  lemma {:induction false} InsertStrict<T(!new)>(sorted: seq<Field<T>>, f: Field<T>)
    requires Strict(sorted) && forall x :: x in sorted ==> x.key != f.key
    ensures Strict(InsertField(sorted, f))
    ensures forall x :: x in InsertField(sorted, f) <==> x in sorted || x == f
    decreases |sorted|
  {
    if sorted != [] {
      assert sorted == [sorted[0]] + sorted[1..];
      assert sorted[0] in sorted;
      BeforeTotal(f.key, sorted[0].key);
      if Before(f.key, sorted[0].key) {
        forall j | 0 < j < |sorted| ensures Before(f.key, sorted[j].key) {
          BeforeTrans(f.key, sorted[0].key, sorted[j].key);
        }
      } else {
        InsertStrict(sorted[1..], f);
        HeadBefore(sorted, InsertField(sorted[1..], f), f);
      }
    }
  }

  lemma HeadBefore<T(!new)>(sorted: seq<Field<T>>, rest: seq<Field<T>>, f: Field<T>)
    requires sorted != [] && Strict(sorted) && Strict(rest) && Before(sorted[0].key, f.key)
    requires forall x :: x in rest <==> x in sorted[1..] || x == f
    ensures Strict([sorted[0]] + rest)
  {
    forall j | 0 <= j < |rest| ensures Before(sorted[0].key, rest[j].key) {
      assert rest[j] in rest;
      if rest[j] != f {
        var i :| 0 <= i < |sorted[1..]| && sorted[1..][i] == rest[j];
        assert sorted[i + 1] == rest[j];
      }
    }
  }

  lemma {:induction false} SortStrict<T(!new)>(fields: seq<Field<T>>)
    requires DistinctKeys(fields)
    ensures Strict(SortFields(fields))
    ensures forall x :: x in SortFields(fields) <==> x in fields
  {
    if fields != [] {
      assert fields == [fields[0]] + fields[1..];
      SortStrict(fields[1..]);
      forall x | x in SortFields(fields[1..]) ensures x.key != fields[0].key {
        var i :| 0 <= i < |fields[1..]| && fields[1..][i] == x;
        assert fields[i + 1] == x;
      }
      InsertStrict(SortFields(fields[1..]), fields[0]);
    }
  }

  lemma {:induction false} StrictSame<T(!new)>(a: seq<Field<T>>, b: seq<Field<T>>)
    requires Strict(a) && Strict(b) && forall x :: x in a <==> x in b
    ensures a == b
    decreases |a|
  {
    if b != [] {
      assert b[0] in b;
    }
    if a != [] {
      assert a[0] in a;
      assert a[0] in b && a == [a[0]] + a[1..];
      assert b[0] in a && b == [b[0]] + b[1..];
      StrictHeads(a, b);
      forall x ensures x in a[1..] <==> x in b[1..] {
        NotInTail(a, x);
        NotInTail(b, x);
      }
      StrictSame(a[1..], b[1..]);
    }
  }

  lemma StrictHeads<T(!new)>(a: seq<Field<T>>, b: seq<Field<T>>)
    requires a != [] && b != [] && Strict(a) && Strict(b) && a[0] in b && b[0] in a
    ensures a[0] == b[0]
  {
    var i :| 0 <= i < |b| && b[i] == a[0];
    var j :| 0 <= j < |a| && a[j] == b[0];
    BeforeTotal(a[0].key, b[0].key);
    BeforeTotal(a[0].key, a[0].key);
  }

  lemma NotInTail<T(!new)>(a: seq<Field<T>>, x: Field<T>)
    requires a != [] && Strict(a)
    ensures x in a[1..] <==> x in a && x != a[0]
  {
    assert a == [a[0]] + a[1..];
    if x in a[1..] {
      var i :| 0 <= i < |a[1..]| && a[1..][i] == x;
      assert a[i + 1] == x;
      BeforeTotal(x.key, x.key);
    }
  }

  lemma StrictDistinct<T(!new)>(fields: seq<Field<T>>)
    requires Strict(fields)
    ensures DistinctKeys(fields)
  {
    forall i, j | 0 <= i < j < |fields| ensures fields[i].key != fields[j].key {
      BeforeTotal(fields[i].key, fields[j].key);
    }
  }

  lemma {:induction false} PrintFieldsAt(fields: seq<Field<Json>>, i: nat)
    requires i < |fields|
    ensures PrintFields(fields)[i] == Field(fields[i].key, Print(fields[i].value))
    ensures NormalFields(fields)[i] == Field(fields[i].key, Normal(fields[i].value))
  {
    hide Print, Normal;
    if i > 0 {
      PrintFieldsAt(fields[1..], i - 1);
    }
  }

  lemma FieldKeysKept(fields: seq<Field<Json>>)
    requires DistinctKeys(fields)
    ensures DistinctKeys(PrintFields(fields)) && DistinctKeys(NormalFields(fields))
  {
    hide Print, Normal, PrintFields, NormalFields;
    forall i, j | 0 <= i < j < |fields|
      ensures PrintFields(fields)[i].key != PrintFields(fields)[j].key
      ensures NormalFields(fields)[i].key != NormalFields(fields)[j].key
    {
      PrintFieldsAt(fields, i);
      PrintFieldsAt(fields, j);
    }
  }

  /** The members of a printed field list, from those of the list it prints. */
  lemma PrintedMembers(fields: seq<Field<Json>>, x: Field<Text>)
    ensures x in PrintFields(fields) <==> exists i :: 0 <= i < |fields| && x == Field(fields[i].key, Print(fields[i].value))
  {
    hide Print, PrintFields, NormalFields, Normal;
    forall i | 0 <= i < |fields| ensures PrintFields(fields)[i] == Field(fields[i].key, Print(fields[i].value)) {
      PrintFieldsAt(fields, i);
    }
  }

  lemma NormalMembers(fields: seq<Field<Json>>, x: Field<Json>)
    ensures x in NormalFields(fields) <==> exists i :: 0 <= i < |fields| && x == Field(fields[i].key, Normal(fields[i].value))
  {
    hide Print, PrintFields, NormalFields, Normal;
    forall i | 0 <= i < |fields| ensures NormalFields(fields)[i] == Field(fields[i].key, Normal(fields[i].value)) {
      PrintFieldsAt(fields, i);
    }
  }

  lemma SamePrintedFields(fields: seq<Field<Json>>, sorted: seq<Field<Json>>)
    requires DistinctKeys(fields) && sorted == SortFields(NormalFields(fields))
    requires forall i :: 0 <= i < |fields| ==> Print(Normal(fields[i].value)) == Print(fields[i].value)
    ensures SortFields(PrintFields(sorted)) == SortFields(PrintFields(fields))
  {
    FieldKeysKept(fields);
    SortStrict(NormalFields(fields));
    StrictDistinct(sorted);
    FieldKeysKept(sorted);
    SortStrict(PrintFields(sorted));
    SortStrict(PrintFields(fields));
    hide Print, Normal, PrintFields, NormalFields, SortFields;
    forall x ensures x in PrintFields(sorted) <==> x in PrintFields(fields) {
      SamePrintedMember(fields, sorted, x);
    }
    StrictSame(SortFields(PrintFields(sorted)), SortFields(PrintFields(fields)));
  }

  lemma SamePrintedMember(fields: seq<Field<Json>>, sorted: seq<Field<Json>>, x: Field<Text>)
    requires forall y :: y in sorted <==> y in NormalFields(fields)
    requires forall i :: 0 <= i < |fields| ==> Print(Normal(fields[i].value)) == Print(fields[i].value)
    ensures x in PrintFields(sorted) <==> x in PrintFields(fields)
  {
    hide Print, Normal, PrintFields, NormalFields;
    PrintedMembers(sorted, x);
    PrintedMembers(fields, x);
    if x in PrintFields(sorted) {
      var i :| 0 <= i < |sorted| && x == Field(sorted[i].key, Print(sorted[i].value));
      assert sorted[i] in sorted;
      NormalMembers(fields, sorted[i]);
    }
    if x in PrintFields(fields) {
      var i :| 0 <= i < |fields| && x == Field(fields[i].key, Print(fields[i].value));
      var y := Field(fields[i].key, Normal(fields[i].value));
      NormalMembers(fields, y);
      var j :| 0 <= j < |sorted| && sorted[j] == y;
    }
  }

  lemma {:induction false} PrintNormal(v: Json)
    requires WellFormed(v)
    ensures Print(Normal(v)) == Print(v)
    decreases v, 1
  {
    match v
    case Arr(items) =>
      if items == [Undefined] {
        OneUndefined(items);
        NoItems();
      } else {
        PrintNormalAll(items);
      }
    case Obj(fields) =>
      PrintNormalFields(fields);
      SamePrintedFields(fields, SortFields(NormalFields(fields)));
    case _ =>
  }

  lemma {:induction false} PrintNormalAll(items: seq<Json>)
    requires forall i :: 0 <= i < |items| ==> WellFormed(items[i])
    ensures PrintAll(NormalAll(items)) == PrintAll(items)
    decreases items, 0
  {
    if items != [] {
      PrintNormal(items[0]);
      PrintNormalAll(items[1..]);
      hide Print;
      assert NormalAll(items)[1..] == NormalAll(items[1..]) && NormalAll(items)[0] == Normal(items[0]);
    }
  }

  lemma {:induction false} PrintNormalFields(fields: seq<Field<Json>>)
    requires forall i :: 0 <= i < |fields| ==> WellFormed(fields[i].value)
    ensures forall i :: 0 <= i < |fields| ==> Print(Normal(fields[i].value)) == Print(fields[i].value)
    decreases fields, 0
  {
    hide Print, Normal;
    forall i | 0 <= i < |fields| ensures Print(Normal(fields[i].value)) == Print(fields[i].value) {
      PrintNormal(fields[i].value);
    }
  }

  /** Two values print alike exactly when they have the same normal form, so the text, or an injective
      hash of it, pins a value up to key order and the three exceptions below. */
  lemma TextEqualIffNormalEqual(v: Json, w: Json)
    requires WellFormed(v) && WellFormed(w)
    ensures Print(v) == Print(w) <==> Normal(v) == Normal(w)
  {
    if Print(v) == Print(w) {
      TextDeterminesNormal(v, w);
    }
    PrintNormal(v);
    PrintNormal(w);
  }

  /** The order an object lists its keys in does not show. */
  lemma KeyOrderHidden(a: seq<Field<Json>>, b: seq<Field<Json>>)
    requires DistinctKeys(a) && DistinctKeys(b) && forall f :: f in a <==> f in b
    ensures Print(Obj(a)) == Print(Obj(b))
  {
    FieldKeysKept(a);
    FieldKeysKept(b);
    SortStrict(PrintFields(a));
    SortStrict(PrintFields(b));
    hide PrintFields, SortFields;
    forall x ensures x in PrintFields(a) <==> x in PrintFields(b) {
      PrintedMembers(a, x);
      PrintedMembers(b, x);
      SameMembersPrinted(a, b, x);
      SameMembersPrinted(b, a, x);
    }
    StrictSame(SortFields(PrintFields(a)), SortFields(PrintFields(b)));
  }

  lemma SameMembersPrinted(a: seq<Field<Json>>, b: seq<Field<Json>>, x: Field<Text>)
    requires forall f :: f in a ==> f in b
    ensures (exists i :: 0 <= i < |a| && x == Field(a[i].key, Print(a[i].value))) ==>
      (exists i :: 0 <= i < |b| && x == Field(b[i].key, Print(b[i].value)))
  {
    hide Print;
    if i :| 0 <= i < |a| && x == Field(a[i].key, Print(a[i].value)) {
      assert a[i] in a && a[i] in b;
      var j :| 0 <= j < |b| && b[j] == a[i];
    }
  }

  /** A number that is not finite prints as null, wherever it stands. */
  lemma NonFinitePrintsAsNull(which: Extreme, k: Text)
    ensures Print(NonFinite(which)) == Print(Null)
    ensures Print(Obj([Field(k, NonFinite(which))])) == Print(Obj([Field(k, Null)]))
    ensures Obj([Field(k, NonFinite(which))]) != Obj([Field(k, Null)])
  {
    var a, b := [Field(k, NonFinite(which))], [Field(k, Null)];
    assert Print(NonFinite(which)) == Print(Null);
    hide Print, SortFields;
    assert NormalFields(a) == NormalFields(b);
    TextEqualIffNormalEqual(Obj(a), Obj(b));
  }

  /** Negative zero prints as zero. */
  lemma NegativeZeroPrintsAsZero()
    ensures Print(NegativeZero) == Print(Num(ZERO_TEXT)) && NegativeZero != Num(ZERO_TEXT)
  {
  }

  /** An array of a single undefined prints as the empty array. */
  lemma OneUndefinedPrintsAsEmpty()
    ensures Print(Arr([Undefined])) == Print(Arr([])) && Arr([Undefined]) != Arr([])
  {
    OneUndefined([Undefined]);
    NoItems();
  }

  // ----- the text itself

  /** The units of a string of plain characters. */
  function Units(t: string): (r: Text)
    requires forall i :: 0 <= i < |t| ==> t[i] as int < 0x80
    ensures |r| == |t| && forall i :: 0 <= i < |t| ==> r[i] == t[i] as int
  {
    seq(|t|, i requires 0 <= i < |t| => t[i] as int)
  }

  /** At the first difference the smaller unit, and a prefix before what continues it. */
  ghost predicate Smaller(a: Text, b: Text) {
    exists n: nat :: Parts(a, b, n) && (if n == |a| then n < |b| else n < |b| && a[n] < b[n])
  }

  predicate Parts(a: Text, b: Text, n: nat) {
    n <= |a| && n <= |b| && a[..n] == b[..n]
  }

  lemma {:induction false} BeforeIsSmaller(a: Text, b: Text)
    requires Before(a, b)
    ensures Smaller(a, b)
  {
    if a == [] || a[0] != b[0] {
      assert Parts(a, b, 0);
    } else {
      BeforeIsSmaller(a[1..], b[1..]);
      var n: nat :| Parts(a[1..], b[1..], n) && (if n == |a| - 1 then n < |b| - 1 else n < |b| - 1 && a[1..][n] < b[1..][n]);
      assert a[..n + 1] == [a[0]] + a[1..][..n] && b[..n + 1] == [b[0]] + b[1..][..n];
      assert Parts(a, b, n + 1);
    }
  }

  /** An object prints its members in ascending key order, each key once, with its value's own text. */
  lemma PrintedKeysAscend(fields: seq<Field<Json>>) returns (printed: seq<Field<Text>>)
    requires DistinctKeys(fields)
    ensures Print(Obj(fields)) == Units("{") + Join(Members(printed)) + Units("}")
    ensures forall i, j :: 0 <= i < j < |printed| ==> Smaller(printed[i].key, printed[j].key)
    ensures forall x :: x in printed <==> exists i :: 0 <= i < |fields| && x == Field(fields[i].key, Print(fields[i].value))
  {
    hide Print, Members, Join, Smaller;
    printed := SortFields(PrintFields(fields));
    PrintedObj(fields);
    PrintedDistinct(fields);
    SortStrict(PrintFields(fields));
    forall i, j | 0 <= i < j < |printed| ensures Smaller(printed[i].key, printed[j].key) {
      BeforeIsSmaller(printed[i].key, printed[j].key);
    }
    forall x ensures x in PrintFields(fields) <==> exists i :: 0 <= i < |fields| && x == Field(fields[i].key, Print(fields[i].value)) {
      PrintedMember(fields, x);
    }
  }

  lemma PrintedObj(fields: seq<Field<Json>>)
    ensures Print(Obj(fields)) == [OPEN_OBJ] + Join(Members(SortFields(PrintFields(fields)))) + [CLOSE_OBJ]
    ensures [OPEN_OBJ] == Units("{") && [CLOSE_OBJ] == Units("}")
  {
  }

  lemma {:induction false} PrintedAt(fields: seq<Field<Json>>, i: nat)
    requires i < |fields|
    ensures PrintFields(fields)[i] == Field(fields[i].key, Print(fields[i].value))
  {
    hide Print;
    if i > 0 {
      PrintedAt(fields[1..], i - 1);
    }
  }

  lemma PrintedDistinct(fields: seq<Field<Json>>)
    requires DistinctKeys(fields)
    ensures DistinctKeys(PrintFields(fields))
  {
    hide Print, PrintFields;
    forall i, j | 0 <= i < j < |fields| ensures PrintFields(fields)[i].key != PrintFields(fields)[j].key {
      PrintedAt(fields, i);
      PrintedAt(fields, j);
    }
  }

  lemma PrintedMember(fields: seq<Field<Json>>, x: Field<Text>)
    ensures x in PrintFields(fields) <==> exists i :: 0 <= i < |fields| && x == Field(fields[i].key, Print(fields[i].value))
  {
    hide Print, PrintFields;
    if x in PrintFields(fields) {
      var i :| 0 <= i < |PrintFields(fields)| && PrintFields(fields)[i] == x;
      PrintedAt(fields, i);
    }
    if i :| 0 <= i < |fields| && x == Field(fields[i].key, Print(fields[i].value)) {
      PrintedAt(fields, i);
    }
  }

  /** The words, brackets, commas and colons, spelled out. */
  lemma Spelling(k: Text, v: Text, parts: seq<Text>, s: Text)
    ensures Print(Null) == Units("null") && Print(Undefined) == Units("undefined")
    ensures Print(Bool(true)) == Units("true") && Print(Bool(false)) == Units("false") && Print(NegativeZero) == Units("0")
    ensures Print(Str(s)) == Units("\"") + EscapeText(s) + Units("\"")
    ensures Print(Arr([])) == Units("[]") && Print(Obj([])) == Units("{}")
    ensures Members([Field(k, v)]) == [Print(Str(k)) + Units(":") + v]
    ensures |parts| > 1 ==> Join(parts) == parts[0] + Units(",") + Join(parts[1..])
  {
    assert [QUOTE] == Units("\"") && [COLON] == Units(":") && [COMMA] == Units(",");
  }

  /** The two marks and the five controls that have a short escape. */
  lemma ShortEscapes()
    ensures EscapeUnit(0x22) == Units("\\\"") && EscapeUnit(0x5C) == Units("\\\\")
    ensures EscapeUnit(8) == Units("\\b") && EscapeUnit(9) == Units("\\t") && EscapeUnit(10) == Units("\\n")
    ensures EscapeUnit(12) == Units("\\f") && EscapeUnit(13) == Units("\\r")
  {
  }

  /** The other controls and lone surrogates are escaped by four lower-case hexadecimal digits; every other unit
      stands for itself. */
  lemma LongEscapes(u: Unit)
    requires u !in {0x22, 0x5C, 8, 9, 10, 12, 13}
    ensures EscapeUnit(u) ==
      if u < 0x20 || 0xD800 <= u < 0xE000
      then Units("\\u") + [Hex(u / 0x1000), Hex(u / 0x100 % 16), Hex(u / 16 % 16), Hex(u % 16)]
      else [u]
  {
    HexIs(u / 0x1000);
    HexIs(u / 0x100 % 16);
    HexIs(u / 16 % 16);
    HexIs(u % 16);
    hide HexDigit, Hex;
  }

  /** A high surrogate stands unescaped with the low one behind it; any other unit is escaped alone. */
  lemma SurrogatePairs(s: Text)
    requires s != []
    ensures EscapeText(s) ==
      if |s| > 1 && 0xD800 <= s[0] < 0xDC00 <= s[1] < 0xE000 then s[..2] + EscapeText(s[2..])
      else EscapeUnit(s[0]) + EscapeText(s[1..])
  {
    hide EscapeUnit;
  }

  /** A hexadecimal digit, in lower case. */
  function Hex(n: nat): Unit
    requires n < 16
  {
    Units("0123456789abcdef")[n]
  }

  lemma HexIs(n: nat)
    requires n < 16
    ensures HexDigit(n) == Hex(n)
  {
  }
}
