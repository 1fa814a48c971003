/**
 * The browser build's stand-in for SQLite (SQLiteDatabase in Database.ts): a
 * map from table name to `{columns, rows}` where each row is a JavaScript
 * object. Statements arrive here already parsed: the regular expressions that
 * split the SQL text are not part of this model, only what each statement
 * does to the tables once its pieces are known.
 */
module TableEmulator {
  import opened Wrappers
  import opened Seqs
  import opened Timestamps

  // ---------------------------------------------------------------- values

  /** The JavaScript values the tables hold: strings, numbers, null and undefined. */
  datatype Value = Text(s: string) | Num(n: real) | Null | Undefined

  /** A row object; a property it lacks reads as `undefined`. */
  type Row = map<string, Value>

  datatype Table = Table(name: string, columns: map<string, string>, rows: seq<Row>)

  /** `row[col]` */
  function Get(row: Row, col: string): Value
  {
    if col in row then row[col] else Undefined
  }

  /** JavaScript truthiness: "", 0, null and undefined are falsy. */
  predicate Truthy(v: Value)
  {
    match v
    case Text(s) => s != ""
    case Num(n) => n != 0.0
    case Null => false
    case Undefined => false
  }

  /** ASCII `toLowerCase()`. */
  function Lower(s: string): (r: string)
    ensures |r| == |s|
    ensures forall i :: 0 <= i < |s| ==> ('A' <= s[i] <= 'Z' ==> r[i] == s[i] + ' ') && (!('A' <= s[i] <= 'Z') ==> r[i] == s[i])
  {
    seq(|s|, i requires 0 <= i < |s| => if 'A' <= s[i] <= 'Z' then s[i] + ' ' else s[i])
  }

  /**
   * Decimal digits of a fraction in `[0, 1)`, most significant first, until
   * the rest is 0 or `fuel` digits are written.
   */
  function FractionDigits(f: real, fuel: nat): (r: string)
    requires 0.0 <= f < 1.0
    ensures |r| <= fuel
    ensures forall i :: 0 <= i < |r| ==> '0' <= r[i] <= '9'
    decreases fuel
  {
    if f == 0.0 || fuel == 0 then ""
    else
      var d := (f * 10.0).Floor;
      [(('0' as int) + d) as char] + FractionDigits(f * 10.0 - d as real, fuel - 1)
  }

  /** `String(n)` for a number: sign, integer digits, and the fraction's digits after a point when it has one. */
  function NumberToString(n: real): (r: string)
    ensures |r| >= 1
    ensures n == n.Floor as real && n >= 0.0 ==> r == NatToString(n.Floor)
  {
    var a := if n < 0.0 then -n else n;
    var frac := a - a.Floor as real;
    var body := NatToString(a.Floor) + (if frac == 0.0 then "" else "." + FractionDigits(frac, 20));
    if n < 0.0 then "-" + body else body
  }

  /** `String(v)` */
  function JsString(v: Value): string
  {
    match v
    case Text(s) => s
    case Num(n) => NumberToString(n)
    case Null => "null"
    case Undefined => "undefined"
  }

  // ---------------------------------------------------------------- Number(string)

  /** The ASCII white space `Number()` trims: tab, line feed, vertical tab, form feed, carriage return, space. */
  predicate IsSpace(c: char)
  {
    9 <= c as int <= 13 || c == ' '
  }

  function TrimStart(s: string): (r: string)
    ensures |r| <= |s|
    ensures r == [] || !IsSpace(r[0])
    ensures (forall i :: 0 <= i < |s| ==> !IsSpace(s[i])) ==> r == s
    decreases |s|
  {
    if s != [] && IsSpace(s[0]) then TrimStart(s[1..]) else s
  }

  function TrimEnd(s: string): (r: string)
    ensures |r| <= |s|
    ensures r == [] || !IsSpace(r[|r| - 1])
    ensures (forall i :: 0 <= i < |s| ==> !IsSpace(s[i])) ==> r == s
    decreases |s|
  {
    if s != [] && IsSpace(s[|s| - 1]) then TrimEnd(s[..|s| - 1]) else s
  }

  function Pow10(k: nat): (p: nat)
    ensures p >= 1
  {
    if k == 0 then 1 else 10 * Pow10(k - 1)
  }

  /** The first `.` of `s`, or -1. */
  function DotIndex(s: string): (k: int)
    ensures -1 <= k < |s|
    ensures k == -1 <==> '.' !in s
    ensures k >= 0 ==> s[k] == '.' && '.' !in s[..k]
    decreases |s|
  {
    if s == [] then -1
    else if s[0] == '.' then 0
    else
      var k := DotIndex(s[1..]);
      if k == -1 then -1
      else
        assert s[..k + 1] == [s[0]] + s[1..][..k];
        k + 1
  }

  /** The value of the literal `whole.fraction`. */
  function DecimalValue(whole: string, fraction: string): (r: real)
    requires AllDigits(whole) && AllDigits(fraction)
    ensures r >= 0.0
  {
    DigitsValue(whole) as real + DigitsValue(fraction) as real / Pow10(|fraction|) as real
  }

  /** An unsigned decimal literal `ddd`, `ddd.ddd`, `ddd.` or `.ddd`; None (NaN) for anything else. */
  function UnsignedDecimal(b: string): (r: Option<real>)
    ensures r.Some? ==> r.value >= 0.0
  {
    var k := DotIndex(b);
    if k == -1 then
      if b != [] && AllDigits(b) then Some(DigitsValue(b) as real) else None
    else
      var whole, fraction := b[..k], b[k + 1..];
      if AllDigits(whole) && AllDigits(fraction) && |whole| + |fraction| >= 1 then
        Some(DecimalValue(whole, fraction))
      else None
  }

  /**
   * `Number(s)` for a string: white space trimmed, the empty string is 0, an
   * optional sign before a decimal literal; None stands for NaN.
   */
  function StringToNumber(s: string): (r: Option<real>)
    ensures TrimEnd(TrimStart(s)) == [] ==> r == Some(0.0)
  {
    var t := TrimEnd(TrimStart(s));
    if t == [] then Some(0.0)
    else if t[0] == '-' then
      var u := UnsignedDecimal(t[1..]);
      if u.Some? then Some(-u.value) else None
    else if t[0] == '+' then UnsignedDecimal(t[1..])
    else UnsignedDecimal(t)
  }

  /** `ToNumber`, as `<`, `>` and `==` apply it: null is 0, undefined and unparsable strings are NaN (None). */
  function ToNumber(v: Value): (r: Option<real>)
    ensures v.Num? ==> r == Some(v.n)
    ensures v.Null? ==> r == Some(0.0)
    ensures v.Undefined? ==> r == None
    ensures v.Text? ==> r == StringToNumber(v.s)
  {
    match v
    case Text(s) => StringToNumber(s)
    case Num(n) => Some(n)
    case Null => Some(0.0)
    case Undefined => None
  }

  // ------------------------------------------------------- string order

  /**
   * The UTF-16 code units JavaScript sees in `s`: a character above U+FFFF
   * becomes a surrogate pair, the high half (0xD800-0xDBFF) first.
   */
  function Utf16(s: string): (u: seq<int>)
    ensures |u| >= |s|
  {
    if s == [] then []
    else
      var c := s[0] as int;
      (if c < 0x10000 then [c] else [0xD800 + (c - 0x10000) / 0x400, 0xDC00 + (c - 0x10000) % 0x400]) + Utf16(s[1..])
  }

  /** `a` sorts strictly before `b`: a proper prefix, or a smaller unit at the first difference. */
  predicate UnitsLt(a: seq<int>, b: seq<int>)
  {
    if |b| == 0 then false
    else if |a| == 0 then true
    else if a[0] != b[0] then a[0] < b[0]
    else UnitsLt(a[1..], b[1..])
  }

  /** JavaScript's `a < b` on two strings: lexicographic on UTF-16 code units. */
  predicate JsStrLt(a: string, b: string)
  {
    UnitsLt(Utf16(a), Utf16(b))
  }

  lemma {:induction false} UnitsLtIrreflexive(a: seq<int>)
    ensures !UnitsLt(a, a)
  {
    if |a| > 0 {
      UnitsLtIrreflexive(a[1..]);
    }
  }

  lemma {:induction false} UnitsLtTransitive(a: seq<int>, b: seq<int>, c: seq<int>)
    requires UnitsLt(a, b) && UnitsLt(b, c)
    ensures UnitsLt(a, c)
  {
    if |a| > 0 && a[0] == b[0] && b[0] == c[0] {
      UnitsLtTransitive(a[1..], b[1..], c[1..]);
    }
  }

  /** Any two distinct unit sequences are ordered one way or the other. */
  lemma {:induction false} UnitsLtTotal(a: seq<int>, b: seq<int>)
    ensures a == b || UnitsLt(a, b) || UnitsLt(b, a)
  {
    if |a| > 0 && |b| > 0 && a[0] == b[0] {
      UnitsLtTotal(a[1..], b[1..]);
      if a[1..] == b[1..] {
        assert a == [a[0]] + a[1..] && b == [b[0]] + b[1..];
      }
    }
  }

  lemma JsStrLtAsymmetric(a: string, b: string)
    requires JsStrLt(a, b)
    ensures !JsStrLt(b, a)
  {
    if JsStrLt(b, a) {
      UnitsLtTransitive(Utf16(a), Utf16(b), Utf16(a));
      UnitsLtIrreflexive(Utf16(a));
    }
  }

  /** Not being below is transitive too: ties under `<` are an equivalence. */
  lemma UnitsNotLtTransitive(a: seq<int>, b: seq<int>, c: seq<int>)
    requires !UnitsLt(a, b) && !UnitsLt(b, c)
    ensures !UnitsLt(a, c)
  {
    UnitsLtTotal(a, b);
    UnitsLtTotal(b, c);
    if UnitsLt(a, c) {
      if a != b && b != c {
        UnitsLtTransitive(c, b, a);
        UnitsLtTransitive(a, c, a);
      } else if a == b {
        if b != c { UnitsLtTransitive(a, c, b); } else { UnitsLtIrreflexive(a); }
      } else {
        UnitsLtTransitive(a, c, a);
      }
      UnitsLtIrreflexive(a);
    }
  }

  /**
   * On strings with no character above U+FFFF (every ISO-8601 timestamp, for
   * one) JavaScript's order is the code-point order `StrLt`.
   */
  lemma {:induction false} BmpOrderIsCodePointOrder(a: string, b: string)
    requires forall i :: 0 <= i < |a| ==> a[i] as int < 0x10000
    requires forall i :: 0 <= i < |b| ==> b[i] as int < 0x10000
    ensures JsStrLt(a, b) <==> StrLt(a, b)
  {
    if |a| > 0 && |b| > 0 {
      assert Utf16(a) == [a[0] as int] + Utf16(a[1..]);
      assert Utf16(b) == [b[0] as int] + Utf16(b[1..]);
      assert Utf16(a)[1..] == Utf16(a[1..]);
      assert Utf16(b)[1..] == Utf16(b[1..]);
      BmpOrderIsCodePointOrder(a[1..], b[1..]);
    }
  }

  /**
   * Above U+FFFF the two orders part: an emoji (a surrogate pair starting
   * 0xD83C) sorts before a full-width parenthesis U+FF08 in JavaScript, but
   * after it by code point.
   */
  lemma SurrogatesSortLow()
    ensures JsStrLt("\U{1F34E}", "\U{FF08}")
    ensures StrLt("\U{FF08}", "\U{1F34E}")
  {
    assert Utf16("\U{1F34E}") == [0xD83C, 0xDF4E];
    assert Utf16("\U{FF08}") == [0xFF08];
  }

  // ----------------------------------------------------------- comparison

  datatype Order = Below | Same | Above | Unordered

  /**
   * How `<` and `>` see two values: two strings by UTF-16 code unit;
   * otherwise both are converted to numbers, and a NaN on either side orders
   * nothing.
   */
  function Compare(a: Value, b: Value): (o: Order)
    ensures o == Below <==> (if a.Text? && b.Text? then JsStrLt(a.s, b.s) else ToNumber(a).Some? && ToNumber(b).Some? && ToNumber(a).value < ToNumber(b).value)
    ensures o == Above <==> (if a.Text? && b.Text? then JsStrLt(b.s, a.s) else ToNumber(a).Some? && ToNumber(b).Some? && ToNumber(a).value > ToNumber(b).value)
    ensures o == Unordered <==> !(a.Text? && b.Text?) && (ToNumber(a).None? || ToNumber(b).None?)
  {
    if a.Text? && b.Text? then
      if JsStrLt(a.s, b.s) then JsStrLtAsymmetric(a.s, b.s); Below
      else if JsStrLt(b.s, a.s) then Above
      else Same
    else if ToNumber(a).Some? && ToNumber(b).Some? then
      var x, y := ToNumber(a).value, ToNumber(b).value;
      if x < y then Below else if x > y then Above else Same
    else Unordered
  }

  predicate Nullish(v: Value)
  {
    v.Null? || v.Undefined?
  }

  /**
   * Loose equality `==`: values of one type compare as they are; null and
   * undefined equal each other and nothing else; a number and a string
   * compare as numbers.
   */
  predicate LooseEquals(a: Value, b: Value)
  {
    if a.Text? && b.Text? then a.s == b.s
    else if a.Num? && b.Num? then a.n == b.n
    else if Nullish(a) || Nullish(b) then Nullish(a) && Nullish(b)
    else ToNumber(a).Some? && ToNumber(a) == ToNumber(b)
  }

  /** A run of digits is an unsigned literal with that value. */
  lemma {:induction false} DigitsAreDecimal(d: string)
    requires d != [] && AllDigits(d)
    ensures UnsignedDecimal(d) == Some(DigitsValue(d) as real)
  {
  }

  /** Digits, with or without a leading minus sign, hold no white space to trim. */
  lemma {:induction false} DigitsUntrimmed(d: string)
    requires AllDigits(d)
    ensures TrimEnd(TrimStart(d)) == d
    ensures TrimEnd(TrimStart("-" + d)) == "-" + d
  {
    var m := "-" + d;
    forall i | 0 <= i < |m| ensures !IsSpace(m[i]) {
      if i > 0 {
        assert m[i] == d[i - 1] && IsDigit(d[i - 1]);
      }
    }
    forall i | 0 <= i < |d| ensures !IsSpace(d[i]) {
      assert IsDigit(d[i]);
    }
  }

  /** Unsigned digits parse back to their value. */
  lemma {:induction false} DigitsParse(d: string)
    requires d != [] && AllDigits(d)
    ensures StringToNumber(d) == Some(DigitsValue(d) as real)
  {
    DigitsAreDecimal(d);
    DigitsUntrimmed(d);
    assert IsDigit(d[0]);
  }

  /** Digits, a point and digits hold no white space to trim. */
  lemma DecimalUntrimmed(w: string, d: string)
    requires AllDigits(w) && AllDigits(d)
    ensures TrimEnd(TrimStart(w + "." + d)) == w + "." + d
  {
    var s := w + "." + d;
    forall i | 0 <= i < |s| ensures !IsSpace(s[i]) {
      if i < |w| {
        assert s[i] == w[i] && IsDigit(w[i]);
      } else if i > |w| {
        assert s[i] == d[i - |w| - 1] && IsDigit(d[i - |w| - 1]);
      }
    }
  }

  /** The first point of `w + "." + d`, for digits `w`, is right after `w`. */
  lemma {:induction false} DecimalDot(w: string, d: string)
    requires AllDigits(w)
    ensures DotIndex(w + "." + d) == |w|
    decreases |w|
  {
    var s := w + "." + d;
    if w != [] {
      assert IsDigit(w[0]) && s[0] == w[0];
      assert AllDigits(w[1..]) by {
        forall i | 0 <= i < |w[1..]| ensures IsDigit(w[1..][i]) {
          assert w[1..][i] == w[i + 1];
        }
      }
      DecimalDot(w[1..], d);
      assert s[1..] == w[1..] + "." + d;
    }
  }

  /** Digits, a point and digits are an unsigned literal: the whole part plus the fraction. */
  lemma DecimalUnsigned(w: string, d: string)
    requires AllDigits(w) && AllDigits(d) && |w| + |d| >= 1
    ensures UnsignedDecimal(w + "." + d) == Some(DecimalValue(w, d))
  {
    var s := w + "." + d;
    DecimalDot(w, d);
    var whole, fraction := s[..|w|], s[|w| + 1..];
    assert whole == w && fraction == d;
    assert AllDigits(whole) && AllDigits(fraction);
  }

  /** Digits, a point and digits parse to the whole part plus the fraction. */
  lemma DecimalParse(w: string, d: string)
    requires w != [] && AllDigits(w) && AllDigits(d)
    ensures StringToNumber(w + "." + d) == Some(DecimalValue(w, d))
  {
    DecimalUntrimmed(w, d);
    DecimalUnsigned(w, d);
    var s := w + "." + d;
    assert IsDigit(w[0]) && s[0] == w[0];
  }

  /** Digits after a minus sign parse back to the negated value. */
  lemma {:induction false} NegativeDigitsParse(d: string)
    requires d != [] && AllDigits(d)
    ensures StringToNumber("-" + d) == Some(-(DigitsValue(d) as real))
  {
    DigitsAreDecimal(d);
    DigitsUntrimmed(d);
    var m := "-" + d;
    assert m[1..] == d;
  }

  /** A whole number prints as its digits, after a minus sign when negative. */
  lemma WholeNumberToString(m: int)
    ensures m >= 0 ==> NumberToString(m as real) == NatToString(m)
    ensures m < 0 ==> NumberToString(m as real) == "-" + NatToString(-m)
  {
    var n := m as real;
    var a := if n < 0.0 then -n else n;
    var k: nat := if m < 0 then -m else m;
    assert a == k as real;
    assert a.Floor == k;
    assert a - a.Floor as real == 0.0;
  }

  /**
   * `Number(String(n))` gives back a whole number `n`, so `LIKE` on a numeric
   * column matches against the digits that spell the value.
   */
  lemma WholeNumberStringRoundTrip(m: int)
    ensures StringToNumber(NumberToString(m as real)) == Some(m as real)
  {
    WholeNumberToString(m);
    var k: nat := if m < 0 then -m else m;
    NatToStringValue(k);
    if m < 0 {
      NegativeDigitsParse(NatToString(k));
    } else {
      DigitsParse(NatToString(k));
    }
  }

  /**
   * A column holding a number matches a string that reads as that number:
   * `==` holds, and `<`, `>` order any number against the string as they
   * order it against the number (`5 == "5"`, `5 > "3"`, `-2 < " -1 "`).
   */
  lemma NumericStringCoercion(m: real, x: real, s: string)
    requires StringToNumber(s) == Some(x)
    ensures LooseEquals(Num(x), Text(s))
    ensures Compare(Num(m), Text(s)) == Compare(Num(m), Num(x))
  {
  }

  /** A string that is not a number is NaN: no number is `==`, `<` or `>` to it. */
  lemma NaNMatchesNothing(v: Value, s: string)
    requires StringToNumber(s).None? && !v.Text?
    ensures !LooseEquals(v, Text(s))
    ensures Compare(v, Text(s)) == Unordered
  {
  }

  /** Substring test behind `String.prototype.includes`. */
  predicate Contains(s: string, sub: string)
    decreases |s|
  {
    |sub| <= |s| && (s[..|sub|] == sub || (|s| > 0 && Contains(s[1..], sub)))
  }

  /** `replace(/%/g, '')` */
  function RemovePercent(s: string): (r: string)
    ensures forall c :: c in r <==> c in s && c != '%'
  {
    Filter(s, (c: char) => c != '%')
  }

  // ---------------------------------------------------------------- statements

  /** A `?` placeholder, or a literal with its quotes already removed. */
  datatype Operand = Placeholder | Literal(text: string)

  /** One `name type ...` column definition of CREATE TABLE; the type may be absent. */
  datatype ColumnDef = ColumnDef(name: string, colType: Option<string>)

  /** One `col = value` pair of an UPDATE's SET clause; `Missing` when the pair has no `=`. */
  datatype SetOperand = SetPlaceholder | SetLiteral(text: string) | Missing

  datatype Op = Eq | Ge | Le | Gt | Lt | Like

  datatype Condition = Condition(col: string, op: Op, operand: Operand)

  /** A condition whose operand has been bound to a value. */
  datatype Bound = Bound(col: string, op: Op, value: Value)

  datatype OrderKey = OrderKey(col: string, descending: bool)

  datatype Projection = AllColumns | Columns(names: seq<string>)

  datatype Select = Select(projection: Projection, table: string, conditions: seq<Condition>,
                           orderBy: seq<OrderKey>, limit: Option<nat>, offset: Option<nat>)

  datatype Statement =
    | CreateTable(table: string, defs: seq<ColumnDef>)
    | Insert(table: string, columns: seq<string>, values: seq<Operand>)
    | Update(table: string, sets: seq<(string, SetOperand)>, whereColumn: string)
    | Delete(table: string, whereColumn: string)
    | Unsupported

  const NotConnected := "Database not connected"

  function NotFound(table: string): string
  {
    "Table " + table + " not found"
  }

  // ---------------------------------------------------------------- CREATE TABLE

  /** The column map CREATE TABLE builds: lower-cased names, type 'TEXT' when none is given; a later definition of the same name wins. */
  function ColumnsOf(defs: seq<ColumnDef>): (m: map<string, string>)
    ensures forall c :: c in m <==> exists i :: 0 <= i < |defs| && Lower(defs[i].name) == c
  {
    if defs == [] then map[]
    else
      var d := defs[|defs| - 1];
      var m := ColumnsOf(defs[..|defs| - 1])[Lower(d.name) := d.colType.GetOr("TEXT")];
      assert forall i :: 0 <= i < |defs| - 1 ==> defs[..|defs| - 1][i] == defs[i];
      m
  }

  // ---------------------------------------------------------------- INSERT

  /** The i-th VALUES entry: a placeholder takes `params[i]`, with undefined turned into null. */
  function InsertValue(values: seq<Operand>, i: nat, params: seq<Value>): Value
  {
    if i >= |values| then Undefined
    else match values[i]
      case Placeholder => if i < |params| && params[i] != Undefined then params[i] else Null
      case Literal(t) => Text(t)
  }

  /** The row object before the id rule: `row[col.toLowerCase()] = values[i]` for each listed column. */
  function BuildRow(columns: seq<string>, values: seq<Operand>, params: seq<Value>): (row: Row)
    ensures forall c :: c in row <==> exists i :: 0 <= i < |columns| && Lower(columns[i]) == c
  {
    if columns == [] then map[]
    else
      var n := |columns| - 1;
      assert forall i :: 0 <= i < n ==> columns[..n][i] == columns[i];
      BuildRow(columns[..n], values, params)[Lower(columns[n]) := InsertValue(values, n, params)]
  }

  /** `row.id = row.id || crypto.randomUUID()` */
  function WithId(row: Row, freshId: string): (r: Row)
    requires freshId != ""
    ensures Truthy(Get(r, "id"))
    ensures Truthy(Get(row, "id")) ==> r == row
    ensures !Truthy(Get(row, "id")) ==> r == row["id" := Text(freshId)]
  {
    if Truthy(Get(row, "id")) then row else row["id" := Text(freshId)]
  }

  // ---------------------------------------------------------------- UPDATE

  /** The i-th SET value: a placeholder takes `params[i]` as it is, undefined included. */
  function SetValue(v: SetOperand, i: nat, params: seq<Value>): Value
  {
    match v
    case SetPlaceholder => if i < |params| then params[i] else Undefined
    case SetLiteral(t) => Text(t)
    case Missing => Undefined
  }

  /** The `updates` object of an UPDATE; a later assignment to the same column wins. */
  function Updates(sets: seq<(string, SetOperand)>, params: seq<Value>): (u: Row)
    ensures forall c :: c in u <==> exists i :: 0 <= i < |sets| && Lower(sets[i].0) == c
  {
    if sets == [] then map[]
    else
      var n := |sets| - 1;
      assert forall i :: 0 <= i < n ==> sets[..n][i] == sets[i];
      Updates(sets[..n], params)[Lower(sets[n].0) := SetValue(sets[n].1, n, params)]
  }

  /** The value an UPDATE's WHERE compares with: the last parameter. */
  function LastParam(params: seq<Value>): Value
  {
    if params == [] then Undefined else params[|params| - 1]
  }

  /** The value a DELETE's WHERE compares with: the first parameter. */
  function FirstParam(params: seq<Value>): Value
  {
    if params == [] then Undefined else params[0]
  }

  /** `findIndex(r => r[col] === value)`: the first row whose column is strictly equal, or -1. */
  function FindIndex(rows: seq<Row>, col: string, value: Value): (k: int)
    ensures -1 <= k < |rows|
    ensures k == -1 <==> forall i :: 0 <= i < |rows| ==> Get(rows[i], col) != value
    ensures k >= 0 ==> Get(rows[k], col) == value && forall i :: 0 <= i < k ==> Get(rows[i], col) != value
  {
    if rows == [] then -1
    else if Get(rows[0], col) == value then 0
    else
      var k := FindIndex(rows[1..], col, value);
      if k == -1 then -1 else k + 1
  }

  /** `{ ...row, ...updates }` */
  function Merge(row: Row, updates: Row): (r: Row)
    ensures forall c :: Get(r, c) == if c in updates then updates[c] else Get(row, c)
  {
    row + updates
  }

  /** The rows after an UPDATE: only the first strictly matching row is rewritten. */
  function UpdateRows(rows: seq<Row>, col: string, value: Value, updates: Row): (r: seq<Row>)
    ensures |r| == |rows|
  {
    var k := FindIndex(rows, col, value);
    if k == -1 then rows else rows[k := Merge(rows[k], updates)]
  }

  /**
   * UPDATE merges the SET values into the first row whose WHERE column equals
   * the value, and into no other; without a match the rows stay as they were.
   */
  lemma UpdateFirstMatchOnly(rows: seq<Row>, col: string, value: Value, updates: Row)
    ensures var r := UpdateRows(rows, col, value, updates);
            && (forall i :: 0 <= i < |rows| && Get(rows[i], col) != value ==> r[i] == rows[i])
            && ((forall i :: 0 <= i < |rows| ==> Get(rows[i], col) != value) ==> r == rows)
            && (forall i, j :: 0 <= i < j < |rows| && Get(rows[i], col) == value ==> r[j] == rows[j])
            && (forall i :: 0 <= i < |rows| && Get(rows[i], col) == value && (forall j :: 0 <= j < i ==> Get(rows[j], col) != value) ==>
                  r[i] == Merge(rows[i], updates))
  {
    var k := FindIndex(rows, col, value);
    forall i, j | 0 <= i < j < |rows| && Get(rows[i], col) == value ensures UpdateRows(rows, col, value, updates)[j] == rows[j] {
      assert k <= i;
    }
  }

  // ---------------------------------------------------------------- DELETE

  /** The rows a DELETE keeps: those whose column is not strictly equal to the value. */
  function KeepUnless(col: string, value: Value): Row -> bool
  {
    (r: Row) => Get(r, col) != value
  }

  /** DELETE removes every matching row and keeps the others, in their original order. */
  lemma DeleteAllMatches(rows: seq<Row>, col: string, value: Value)
    ensures var r := Filter(rows, KeepUnless(col, value));
            && (forall x :: x in r <==> x in rows && Get(x, col) != value)
            && Subseq(r, rows)
            && Filter(r, KeepUnless(col, value)) == r
  {
    FilterSubseq(rows, KeepUnless(col, value));
    FilterIdempotent(rows, KeepUnless(col, value));
  }

  // ---------------------------------------------------------------- SELECT

  /** Whether a row satisfies one bound condition. */
  predicate Holds(row: Row, b: Bound)
  {
    var v := Get(row, b.col);
    match b.op
    case Eq => LooseEquals(v, b.value)
    case Ge => Compare(v, b.value) == Above || Compare(v, b.value) == Same
    case Le => Compare(v, b.value) == Below || Compare(v, b.value) == Same
    case Gt => Compare(v, b.value) == Above
    case Lt => Compare(v, b.value) == Below
    case Like => Contains(JsString(v), RemovePercent(JsString(b.value)))
  }

  /** `WHERE x = 5` and `WHERE x > 3`, whose literals bind as the strings "5" and "3", both keep a row `{x: 5}`. */
  lemma LiteralConditionsCoerce()
    ensures Holds(map["x" := Num(5.0)], Bound("x", Eq, Text("5")))
    ensures Holds(map["x" := Num(5.0)], Bound("x", Gt, Text("3")))
    ensures !Holds(map["x" := Num(5.0)], Bound("x", Lt, Text("3")))
  {
    var row: Row := map["x" := Num(5.0)];
    assert Get(row, "x") == Num(5.0);
    assert AllDigits("5") && AllDigits("3");
    assert DigitsValue("5") == 5 && DigitsValue("3") == 3;
    DigitsParse("5");
    DigitsParse("3");
    NumericStringCoercion(5.0, 5.0, "5");
    NumericStringCoercion(5.0, 3.0, "3");
    assert Compare(Num(5.0), Text("3")) == Above;
  }

  /** "5.5" and "5.6" read as 5.5 and 5.6. */
  lemma FractionalLiteralsParse()
    ensures StringToNumber("5.5") == Some(5.5)
    ensures StringToNumber("5.6") == Some(5.6)
  {
    assert AllDigits("5") && AllDigits("6");
    assert DigitsValue("5") == 5 && DigitsValue("6") == 6;
    assert Pow10(1) == 10;
    assert DecimalValue("5", "5") == 5.5 && DecimalValue("5", "6") == 5.6;
    DecimalParse("5", "5");
    DecimalParse("5", "6");
    assert "5" + "." + "5" == "5.5" && "5" + "." + "6" == "5.6";
  }

  /** `WHERE v > 5.5` keeps a reading of 5.6 and `WHERE v = 5.6` matches it, the literals binding as strings. */
  lemma FractionalConditionsCoerce()
    ensures Holds(map["v" := Num(5.6)], Bound("v", Gt, Text("5.5")))
    ensures Holds(map["v" := Num(5.6)], Bound("v", Eq, Text("5.6")))
  {
    var row: Row := map["v" := Num(5.6)];
    assert Get(row, "v") == Num(5.6);
    FractionalLiteralsParse();
    NumericStringCoercion(5.6, 5.5, "5.5");
    NumericStringCoercion(5.6, 5.6, "5.6");
    assert Compare(Num(5.6), Text("5.5")) == Above;
  }

  function HoldsFn(b: Bound): Row -> bool
  {
    (r: Row) => Holds(r, b)
  }

  predicate HoldsAll(row: Row, bound: seq<Bound>)
  {
    forall k :: 0 <= k < |bound| ==> Holds(row, bound[k])
  }

  function HoldsAllFn(bound: seq<Bound>): Row -> bool
  {
    (r: Row) => HoldsAll(r, bound)
  }

  /**
   * Binds the conditions' operands in order: each placeholder takes the next
   * parameter (`params.shift()`, undefined once they run out). Returns the
   * bound conditions and the parameters left over.
   */
  function Bind(conds: seq<Condition>, params: seq<Value>): (r: (seq<Bound>, seq<Value>))
    ensures |r.0| == |conds|
    ensures forall k :: 0 <= k < |conds| ==> r.0[k].col == Lower(conds[k].col) && r.0[k].op == conds[k].op
  {
    if conds == [] then ([], params)
    else
      var n := |conds| - 1;
      var (bound, rest) := Bind(conds[..n], params);
      var c := conds[n];
      var (v, rest') := match c.operand
        case Placeholder => (FirstParam(rest), if rest == [] then [] else rest[1..])
        case Literal(t) => (Text(t), rest);
      (bound + [Bound(Lower(c.col), c.op, v)], rest')
  }

  /** Applies the WHERE conditions one after the other, as the loop over them does. */
  function WhereEach(rows: seq<Row>, bound: seq<Bound>): seq<Row>
  {
    if bound == [] then rows
    else Filter(WhereEach(rows, bound[..|bound| - 1]), HoldsFn(bound[|bound| - 1]))
  }

  lemma HoldsAllSnoc(x: Row, bound: seq<Bound>)
    requires bound != []
    ensures HoldsAll(x, bound) == (HoldsAll(x, bound[..|bound| - 1]) && Holds(x, bound[|bound| - 1]))
  {
    var n := |bound| - 1;
    assert forall k :: 0 <= k < n ==> bound[..n][k] == bound[k];
  }

  /** Filtering by each condition in turn is filtering by their conjunction. */
  lemma {:induction false} WhereConjunctive(rows: seq<Row>, bound: seq<Bound>)
    ensures WhereEach(rows, bound) == Filter(rows, HoldsAllFn(bound))
  {
    if bound == [] {
      FilterKeepsAll(rows, HoldsAllFn(bound));
    } else {
      var n := |bound| - 1;
      var p, q := HoldsAllFn(bound[..n]), HoldsFn(bound[n]);
      WhereConjunctive(rows, bound[..n]);
      FilterConjunction(rows, p, q);
      forall x | x in rows ensures And(p, q)(x) == HoldsAllFn(bound)(x) {
        HoldsAllSnoc(x, bound);
      }
      FilterExtensional(rows, And(p, q), HoldsAllFn(bound));
    }
  }

  /** "`a` sorts ahead of `b`": the comparator's negative result for ORDER BY `key`. */
  function KeyLt(key: OrderKey): (Row, Row) -> bool
  {
    var col := Lower(key.col);
    (a: Row, b: Row) => if key.descending then Compare(Get(a, col), Get(b, col)) == Above
                        else Compare(Get(a, col), Get(b, col)) == Below
  }

  /** Sorts by each ORDER BY key in turn with the stable Array.prototype.sort. */
  function OrderEach(rows: seq<Row>, keys: seq<OrderKey>): (r: seq<Row>)
    ensures multiset(r) == multiset(rows)
  {
    if keys == [] then rows
    else SortBy(OrderEach(rows, keys[..|keys| - 1]), KeyLt(keys[|keys| - 1]))
  }

  /** The column holds only strings, or only numbers and nulls, so `<` orders it totally. */
  predicate Comparable(rows: seq<Row>, col: string)
  {
    (forall r :: r in rows ==> Get(r, col).Text?) || (forall r :: r in rows ==> Get(r, col).Num? || Get(r, col).Null?)
  }

  lemma KeyLtStrictWeak(rows: seq<Row>, key: OrderKey)
    requires Comparable(rows, Lower(key.col))
    ensures StrictWeakOn(KeyLt(key), rows)
  {
    var col := Lower(key.col);
    var lt := KeyLt(key);
    if forall r :: r in rows ==> Get(r, col).Text? {
      var units := (r: Row) => if Get(r, col).Text? then Utf16(Get(r, col).s) else [];
      assert forall a, b :: a in rows && b in rows ==>
        lt(a, b) == if key.descending then UnitsLt(units(b), units(a)) else UnitsLt(units(a), units(b));
      forall a | a in rows ensures !lt(a, a) {
        UnitsLtIrreflexive(units(a));
      }
      forall a, b, c | a in rows && b in rows && c in rows && lt(a, b) && lt(b, c) ensures lt(a, c) {
        if key.descending {
          UnitsLtTransitive(units(c), units(b), units(a));
        } else {
          UnitsLtTransitive(units(a), units(b), units(c));
        }
      }
      forall a, b, c | a in rows && b in rows && c in rows && !lt(a, b) && !lt(b, c) ensures !lt(a, c) {
        if key.descending {
          UnitsNotLtTransitive(units(c), units(b), units(a));
        } else {
          UnitsNotLtTransitive(units(a), units(b), units(c));
        }
      }
    }
  }

  /**
   * With several ORDER BY keys the sorts run one after another, so the result
   * is ordered by the LAST key; earlier keys only break its ties.
   */
  lemma OrderByLastKey(rows: seq<Row>, keys: seq<OrderKey>)
    requires keys != []
    requires Comparable(rows, Lower(keys[|keys| - 1].col))
    ensures SortedBy(OrderEach(rows, keys), KeyLt(keys[|keys| - 1]))
  {
    var n := |keys| - 1;
    var before := OrderEach(rows, keys[..n]);
    var col := Lower(keys[n].col);
    assert forall r :: r in before ==> r in rows by {
      forall r | r in before ensures r in rows {
        assert r in multiset(before);
      }
    }
    KeyLtStrictWeak(before, keys[n]);
    SortBySorted(before, KeyLt(keys[n]));
  }

  /** `if (offset) slice(offset); if (limit) slice(0, limit)`: an absent or zero count is ignored. */
  function OffsetLimit(rows: seq<Row>, limit: Option<nat>, offset: Option<nat>): (r: seq<Row>)
    ensures limit.Some? && limit.value != 0 ==> |r| <= limit.value
    ensures (limit.None? || limit.value == 0) && (offset.None? || offset.value == 0) ==> r == rows
  {
    var skipped := if offset.Some? && offset.value != 0 then Drop(rows, offset.value) else rows;
    if limit.Some? && limit.value != 0 then Take(skipped, limit.value) else skipped
  }

  /** Keeps the listed (lower-cased) columns whose value is not undefined. */
  function Project(names: seq<string>, row: Row): (r: Row)
    ensures forall c :: c in r <==> (exists i :: 0 <= i < |names| && Lower(names[i]) == c) && Get(row, c) != Undefined
    ensures forall c :: c in r ==> r[c] == Get(row, c)
  {
    var cols := Map(names, Lower);
    map c | c in cols && c in row && row[c] != Undefined :: row[c]
  }

  function ProjectFn(p: Projection): Row -> Row
  {
    (row: Row) => if p.AllColumns? then row else Project(p.names, row)
  }

  /** The rows a SELECT returns from a table's rows. */
  function SelectRows(q: Select, rows: seq<Row>, params: seq<Value>): seq<Row>
  {
    var filtered := WhereEach(rows, Bind(q.conditions, params).0);
    Map(OffsetLimit(OrderEach(filtered, q.orderBy), q.limit, q.offset), ProjectFn(q.projection))
  }

  /**
   * Before ordering, the WHERE stage keeps exactly the rows satisfying every
   * condition, in table order; ordering only permutes them.
   */
  lemma SelectWhereSound(q: Select, rows: seq<Row>, params: seq<Value>)
    ensures var bound := Bind(q.conditions, params).0;
            var filtered := WhereEach(rows, bound);
            && Subseq(filtered, rows)
            && (forall r :: r in filtered <==> r in rows && HoldsAll(r, bound))
            && multiset(OrderEach(filtered, q.orderBy)) == multiset(filtered)
  {
    var bound := Bind(q.conditions, params).0;
    WhereConjunctive(rows, bound);
    FilterSubseq(rows, HoldsAllFn(bound));
  }

  /** OFFSET and LIMIT keep a contiguous run of the rows: its rows come from them, in their order. */
  lemma OffsetLimitWindow(rows: seq<Row>, limit: Option<nat>, offset: Option<nat>, lt: (Row, Row) -> bool)
    ensures forall x :: x in OffsetLimit(rows, limit, offset) ==> x in rows
    ensures SortedBy(rows, lt) ==> SortedBy(OffsetLimit(rows, limit, offset), lt)
  {
    var off := if offset.Some? && offset.value != 0 then offset.value else 0;
    var lim := if limit.Some? && limit.value != 0 then limit.value else |rows|;
    assert Drop(rows, 0) == rows;
    assert Take(Drop(rows, off), |rows|) == Drop(rows, off);
    assert OffsetLimit(rows, limit, offset) == Take(Drop(rows, off), lim);
    WindowMembers(rows, off, lim);
    if SortedBy(rows, lt) {
      WindowSorted(rows, off, lim, lt);
    }
  }

  /** Every row a SELECT returns is the projection of a table row that satisfies all the conditions. */
  lemma SelectRowsMatch(q: Select, rows: seq<Row>, params: seq<Value>)
    ensures var bound := Bind(q.conditions, params).0;
            forall x :: x in SelectRows(q, rows, params) ==>
              exists y :: y in rows && HoldsAll(y, bound) && x == ProjectFn(q.projection)(y)
  {
    var bound := Bind(q.conditions, params).0;
    var filtered := WhereEach(rows, bound);
    WhereConjunctive(rows, bound);
    var ordered := OrderEach(filtered, q.orderBy);
    var window := OffsetLimit(ordered, q.limit, q.offset);
    var r := SelectRows(q, rows, params);
    assert r == Map(window, ProjectFn(q.projection));
    OffsetLimitWindow(ordered, q.limit, q.offset, (a: Row, b: Row) => false);
    forall x | x in r ensures exists y :: y in rows && HoldsAll(y, bound) && x == ProjectFn(q.projection)(y) {
      var i :| 0 <= i < |r| && r[i] == x;
      var y := window[i];
      assert y in ordered && y in multiset(ordered);
      assert y in filtered;
    }
  }

  /** `SELECT *` without OFFSET or LIMIT returns the matching rows, each as often as it occurs. */
  lemma SelectAllMatching(q: Select, rows: seq<Row>, params: seq<Value>)
    requires q.projection.AllColumns?
    requires (q.limit.None? || q.limit.value == 0) && (q.offset.None? || q.offset.value == 0)
    ensures multiset(SelectRows(q, rows, params)) == multiset(Filter(rows, HoldsAllFn(Bind(q.conditions, params).0)))
  {
    var bound := Bind(q.conditions, params).0;
    var filtered := WhereEach(rows, bound);
    WhereConjunctive(rows, bound);
    var ordered := OrderEach(filtered, q.orderBy);
    assert OffsetLimit(ordered, q.limit, q.offset) == ordered by {
      assert Drop(ordered, 0) == ordered;
      assert Take(ordered, |ordered|) == ordered;
    }
    assert SelectRows(q, rows, params) == ordered;
  }

  /** `SELECT *` comes back ordered by the last ORDER BY key when that column is comparable throughout the table. */
  lemma SelectOrdered(q: Select, rows: seq<Row>, params: seq<Value>)
    requires q.projection.AllColumns? && q.orderBy != []
    requires Comparable(rows, Lower(q.orderBy[|q.orderBy| - 1].col))
    ensures SortedBy(SelectRows(q, rows, params), KeyLt(q.orderBy[|q.orderBy| - 1]))
  {
    var bound := Bind(q.conditions, params).0;
    var filtered := WhereEach(rows, bound);
    WhereConjunctive(rows, bound);
    var ordered := OrderEach(filtered, q.orderBy);
    var key := q.orderBy[|q.orderBy| - 1];
    assert Comparable(filtered, Lower(key.col)) by {
      FilterSubseq(rows, HoldsAllFn(bound));
    }
    OrderByLastKey(filtered, q.orderBy);
    OffsetLimitWindow(ordered, q.limit, q.offset, KeyLt(key));
    assert SelectRows(q, rows, params) == OffsetLimit(ordered, q.limit, q.offset);
  }

  /**
   * What a SELECT returns: every row is the projection of a table row that
   * satisfies all the conditions; a non-zero LIMIT bounds their number; for
   * `SELECT *` without OFFSET or LIMIT they are the matching rows, each as
   * often as it occurs; and `SELECT *` comes back ordered by the last ORDER BY
   * key when that column is comparable throughout the table.
   */
  lemma SelectSound(q: Select, rows: seq<Row>, params: seq<Value>)
    ensures var bound := Bind(q.conditions, params).0;
            var r := SelectRows(q, rows, params);
            && (forall x :: x in r ==> exists y :: y in rows && HoldsAll(y, bound) && x == ProjectFn(q.projection)(y))
            && (q.limit.Some? && q.limit.value != 0 ==> |r| <= q.limit.value)
            && (q.projection.AllColumns? && (q.limit.None? || q.limit.value == 0) && (q.offset.None? || q.offset.value == 0) ==>
                  multiset(r) == multiset(Filter(rows, HoldsAllFn(bound))))
            && (q.projection.AllColumns? && q.orderBy != [] && Comparable(rows, Lower(q.orderBy[|q.orderBy| - 1].col)) ==>
                  SortedBy(r, KeyLt(q.orderBy[|q.orderBy| - 1])))
  {
    SelectRowsMatch(q, rows, params);
    if q.projection.AllColumns? && (q.limit.None? || q.limit.value == 0) && (q.offset.None? || q.offset.value == 0) {
      SelectAllMatching(q, rows, params);
    }
    if q.projection.AllColumns? && q.orderBy != [] && Comparable(rows, Lower(q.orderBy[|q.orderBy| - 1].col)) {
      SelectOrdered(q, rows, params);
    }
  }

  /** `LIMIT 0` and `OFFSET 0` are ignored: without ORDER BY and projection the whole filtered table comes back. */
  lemma SelectZeroLimitIgnored(q: Select, rows: seq<Row>, params: seq<Value>)
    requires q.projection.AllColumns? && q.orderBy == []
    requires q.limit == Some(0) && (q.offset.None? || q.offset == Some(0))
    ensures SelectRows(q, rows, params) == WhereEach(rows, Bind(q.conditions, params).0)
  {
  }

  /** `SELECT *` returns whole rows; a column list keeps only the listed, defined columns. */
  lemma ProjectionSound(p: Projection, row: Row)
    ensures p.AllColumns? ==> ProjectFn(p)(row) == row
    ensures p.Columns? ==> forall c :: c in ProjectFn(p)(row) <==>
              (exists i :: 0 <= i < |p.names| && Lower(p.names[i]) == c) && Get(row, c) != Undefined
  {
  }

  /** The loop over the WHERE conditions, shifting a parameter off for each placeholder. */
  method ApplyWhere(rows: seq<Row>, conds: seq<Condition>, params: seq<Value>) returns (results: seq<Row>)
    ensures results == WhereEach(rows, Bind(conds, params).0)
  {
    results := rows;
    var remaining := params;
    ghost var bound: seq<Bound> := [];
    for i := 0 to |conds|
      invariant (bound, remaining) == Bind(conds[..i], params)
      invariant results == WhereEach(rows, bound)
    {
      assert conds[..i + 1][..i] == conds[..i];
      var c := conds[i];
      var v: Value;
      match c.operand {
        case Placeholder =>
          v := FirstParam(remaining);
          remaining := if remaining == [] then [] else remaining[1..];
        case Literal(t) =>
          v := Text(t);
      }
      var b := Bound(Lower(c.col), c.op, v);
      results := Filter(results, HoldsFn(b));
      assert (bound + [b])[..|bound|] == bound;
      bound := bound + [b];
    }
    assert conds[..|conds|] == conds;
  }

  /** The loop over the ORDER BY keys, one stable sort per key. */
  method ApplyOrder(rows: seq<Row>, keys: seq<OrderKey>) returns (results: seq<Row>)
    ensures results == OrderEach(rows, keys)
  {
    results := rows;
    for i := 0 to |keys|
      invariant results == OrderEach(rows, keys[..i])
    {
      assert keys[..i + 1][..i] == keys[..i];
      results := SortBy(results, KeyLt(keys[i]));
    }
    assert keys[..|keys|] == keys;
  }

  // ---------------------------------------------------------------- the database

  class SQLiteDatabase {
    /** `null` before `connect` and after `close`; otherwise the tables by name. */
    var db: Option<map<string, Table>>

    constructor ()
      ensures db == None
    {
      db := None;
    }

    /** `connect`: the tables loaded from storage, or none when nothing could be loaded. */
    method Connect(saved: Option<map<string, Table>>)
      modifies this
      ensures db == Some(saved.GetOr(map[]))
    {
      db := Some(saved.GetOr(map[]));
    }

    /** `close`: the handle is dropped; further statements fail. */
    method Close()
      modifies this
      ensures db == None
    {
      db := None;
    }

    /** CREATE TABLE: installs an empty table under that name, replacing any table already there. */
    method CreateTableStmt(name: string, defs: seq<ColumnDef>)
      requires db.Some?
      modifies this
      ensures db == Some(old(db).value[name := Table(name, ColumnsOf(defs), [])])
    {
      var columns: map<string, string> := map[];
      for i := 0 to |defs|
        invariant columns == ColumnsOf(defs[..i])
      {
        assert defs[..i + 1][..i] == defs[..i];
        columns := columns[Lower(defs[i].name) := defs[i].colType.GetOr("TEXT")];
      }
      assert defs[..|defs|] == defs;
      db := Some(db.value[name := Table(name, columns, [])]);
    }

    /** INSERT: appends one row to the named table; a missing table is an error. */
    method InsertStmt(name: string, columns: seq<string>, values: seq<Operand>, params: seq<Value>, freshId: string)
      returns (r: Result<(), string>)
      requires db.Some? && freshId != ""
      modifies this
      ensures name !in old(db).value ==> r == Err(NotFound(name)) && db == old(db)
      ensures name in old(db).value ==> r == Ok(())
      ensures name in old(db).value ==>
                db == Some(old(db).value[name := old(db).value[name].(rows := old(db).value[name].rows
                                                  + [WithId(BuildRow(columns, values, params), freshId)])])
    {
      if name !in db.value {
        return Err(NotFound(name));
      }
      var table := db.value[name];
      var row: Row := map[];
      for i := 0 to |columns|
        invariant row == BuildRow(columns[..i], values, params)
      {
        assert columns[..i + 1][..i] == columns[..i];
        row := row[Lower(columns[i]) := InsertValue(values, i, params)];
      }
      assert columns[..|columns|] == columns;
      row := WithId(row, freshId);
      db := Some(db.value[name := table.(rows := table.rows + [row])]);
      r := Ok(());
    }

    /** UPDATE: merges the SET values into the first row whose WHERE column is `===` the last parameter. */
    method UpdateStmt(name: string, sets: seq<(string, SetOperand)>, whereColumn: string, params: seq<Value>)
      returns (r: Result<(), string>)
      requires db.Some?
      modifies this
      ensures name !in old(db).value ==> r == Err(NotFound(name)) && db == old(db)
      ensures name in old(db).value ==> r == Ok(())
      ensures name in old(db).value ==>
                db == Some(old(db).value[name := old(db).value[name].(rows :=
                        UpdateRows(old(db).value[name].rows, Lower(whereColumn), LastParam(params), Updates(sets, params)))])
    {
      if name !in db.value {
        return Err(NotFound(name));
      }
      var table := db.value[name];
      var updates: Row := map[];
      for i := 0 to |sets|
        invariant updates == Updates(sets[..i], params)
      {
        assert sets[..i + 1][..i] == sets[..i];
        updates := updates[Lower(sets[i].0) := SetValue(sets[i].1, i, params)];
      }
      assert sets[..|sets|] == sets;
      var k := FindIndex(table.rows, Lower(whereColumn), LastParam(params));
      if k != -1 {
        db := Some(db.value[name := table.(rows := table.rows[k := Merge(table.rows[k], updates)])]);
      } else {
        assert db.value[name := table.(rows := table.rows)] == db.value;
      }
      r := Ok(());
    }

    /** DELETE: drops every row whose WHERE column is `===` the first parameter. */
    method DeleteStmt(name: string, whereColumn: string, params: seq<Value>) returns (r: Result<(), string>)
      requires db.Some?
      modifies this
      ensures name !in old(db).value ==> r == Err(NotFound(name)) && db == old(db)
      ensures name in old(db).value ==> r == Ok(())
      ensures name in old(db).value ==>
                db == Some(old(db).value[name := old(db).value[name].(rows :=
                        Filter(old(db).value[name].rows, KeepUnless(Lower(whereColumn), FirstParam(params))))])
    {
      if name !in db.value {
        return Err(NotFound(name));
      }
      var table := db.value[name];
      db := Some(db.value[name := table.(rows := Filter(table.rows, KeepUnless(Lower(whereColumn), FirstParam(params))))]);
      r := Ok(());
    }

    /** `execute`: fails before `connect` and after `close`; an unsupported statement changes nothing. */
    method Execute(stmt: Statement, params: seq<Value>, freshId: string) returns (r: Result<(), string>)
      requires freshId != ""
      modifies this
      ensures old(db).None? ==> r == Err(NotConnected) && db == None
      ensures stmt.Unsupported? ==> db == old(db) && (old(db).Some? ==> r == Ok(()))
      ensures old(db).Some? && stmt.CreateTable? ==>
                r == Ok(()) && db == Some(old(db).value[stmt.table := Table(stmt.table, ColumnsOf(stmt.defs), [])])
      ensures old(db).Some? && !stmt.CreateTable? && !stmt.Unsupported? && stmt.table !in old(db).value ==>
                r == Err(NotFound(stmt.table)) && db == old(db)
      ensures old(db).Some? && stmt.Insert? && stmt.table in old(db).value ==>
                r == Ok(()) && db == Some(old(db).value[stmt.table := old(db).value[stmt.table].(rows :=
                  old(db).value[stmt.table].rows + [WithId(BuildRow(stmt.columns, stmt.values, params), freshId)])])
      ensures old(db).Some? && stmt.Update? && stmt.table in old(db).value ==>
                r == Ok(()) && db == Some(old(db).value[stmt.table := old(db).value[stmt.table].(rows :=
                  UpdateRows(old(db).value[stmt.table].rows, Lower(stmt.whereColumn), LastParam(params), Updates(stmt.sets, params)))])
      ensures old(db).Some? && stmt.Delete? && stmt.table in old(db).value ==>
                r == Ok(()) && db == Some(old(db).value[stmt.table := old(db).value[stmt.table].(rows :=
                  Filter(old(db).value[stmt.table].rows, KeepUnless(Lower(stmt.whereColumn), FirstParam(params))))])
      ensures old(db).Some? ==> db.Some? && forall t :: t in old(db).value ==> t in db.value
      ensures old(db).Some? && !stmt.CreateTable? && !stmt.Unsupported? ==>
                db.value.Keys == old(db).value.Keys
                && (forall t :: t in db.value && t != stmt.table ==> db.value[t] == old(db).value[t])
    {
      if db.None? {
        return Err(NotConnected);
      }
      match stmt
      case CreateTable(name, defs) =>
        CreateTableStmt(name, defs);
        r := Ok(());
      case Insert(name, columns, values) =>
        r := InsertStmt(name, columns, values, params, freshId);
      case Update(name, sets, whereColumn) =>
        r := UpdateStmt(name, sets, whereColumn, params);
      case Delete(name, whereColumn) =>
        r := DeleteStmt(name, whereColumn, params);
      case Unsupported =>
        r := Ok(());
    }

    /** `query`: WHERE, then ORDER BY, then OFFSET and LIMIT, then the projection. */
    method Query(q: Select, params: seq<Value>) returns (r: Result<seq<Row>, string>)
      ensures db.None? ==> r == Err(NotConnected)
      ensures db.Some? && q.table !in db.value ==> r == Err(NotFound(q.table))
      ensures db.Some? && q.table in db.value ==> r == Ok(SelectRows(q, db.value[q.table].rows, params))
    {
      if db.None? {
        return Err(NotConnected);
      }
      if q.table !in db.value {
        return Err(NotFound(q.table));
      }
      var rows := db.value[q.table].rows;
      var results := ApplyWhere(rows, q.conditions, params);
      results := ApplyOrder(results, q.orderBy);
      if q.offset.Some? && q.offset.value != 0 {
        results := Drop(results, q.offset.value);
      }
      if q.limit.Some? && q.limit.value != 0 {
        results := Take(results, q.limit.value);
      }
      if q.projection.Columns? {
        results := Map(results, ProjectFn(q.projection));
      } else {
        assert Map(results, ProjectFn(q.projection)) == results;
      }
      r := Ok(results);
    }
  }
}
