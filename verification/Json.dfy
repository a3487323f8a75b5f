/** JSON values as the Python code holds them, and the compact sorted-key text that
    `json.dumps(..., sort_keys=True, separators=(",", ":"))` makes of them. */
module Json {
  import opened Options

  /** An object is a list of fields in insertion order, as a Python dict is.
      A float is kept as its printed text (see `FloatText`). */
  datatype Json =
    | Null
    | Bool(b: bool)
    | Int(n: int)
    | Float(text: string)
    | Str(s: string)
    | Arr(items: seq<Json>)
    | Obj(fields: Fields)

  datatype Field = Field(key: string, value: Json)

  type Fields = seq<Field>

  /** Characters of a printed number. */
  predicate NumberChar(c: char) {
    '0' <= c <= '9' || c in "-+.e"
  }

  /** Python prints a finite float with a point or an exponent, which no int has. */
  predicate FloatText(t: string) {
    && t != ""
    && (forall c | c in t :: NumberChar(c))
    && ('0' <= t[0] <= '9' || t[0] == '-')
    && ('.' in t || 'e' in t)
  }

  /** Keys of a Python dict are distinct. */
  ghost predicate DistinctKeys(fs: Fields) {
    forall i, j | 0 <= i < j < |fs| :: fs[i].key != fs[j].key
  }

  ghost predicate WellFormed(v: Json) {
    match v
    case Float(t) => FloatText(t)
    case Arr(items) => forall i | 0 <= i < |items| :: WellFormed(items[i])
    case Obj(fs) => DistinctKeys(fs) && forall i | 0 <= i < |fs| :: WellFormed(fs[i].value)
    case _ => true
  }

  /** Python's `dict.get`. */
  function Lookup(fs: Fields, key: string): (v: Option<Json>)
    ensures v.Some? ==> exists i | 0 <= i < |fs| :: fs[i] == Field(key, v.value)
    ensures v.None? <==> forall i | 0 <= i < |fs| :: fs[i].key != key
  {
    if fs == [] then None
    else if fs[0].key == key then Some(fs[0].value)
    else
      var v := Lookup(fs[1..], key);
      assert v.Some? ==> exists i | 1 <= i < |fs| :: fs[i] == Field(key, v.value) by {
        if v.Some? {
          var i :| 0 <= i < |fs[1..]| && fs[1..][i] == Field(key, v.value);
          assert fs[i + 1] == Field(key, v.value);
        }
      }
      assert forall i | 0 <= i < |fs| :: fs[i] == if i == 0 then fs[0] else fs[1..][i - 1];
      v
  }

  /** Python equality of JSON values: two dicts are equal when they hold equal values
      under the same keys, in whatever order. */
  ghost predicate Same(a: Json, b: Json) {
    match a
    case Arr(xs) =>
      && b.Arr? && |xs| == |b.items|
      && forall i | 0 <= i < |xs| :: Same(xs[i], b.items[i])
    case Obj(fs) =>
      && b.Obj? && |fs| == |b.fields|
      && forall i | 0 <= i < |fs| :: SameIn(fs[i], b.fields)
    case _ => a == b
  }

  /** One of the fields has the same key and an equal value. */
  ghost predicate SameIn(f: Field, gs: Fields) {
    exists j | 0 <= j < |gs| :: f.key == gs[j].key && Same(f.value, gs[j].value)
  }

  /** Code-point order of strings, as Python's sort uses. */
  predicate Before(a: string, b: string) {
    if b == "" then false
    else if a == "" then true
    else if a[0] != b[0] then a[0] < b[0]
    else Before(a[1..], b[1..])
  }

  ghost predicate Sorted(fs: Fields) {
    forall i, j | 0 <= i < j < |fs| :: Before(fs[i].key, fs[j].key)
  }

  function InsertField(f: Field, fs: Fields): Fields {
    if fs == [] then [f]
    else if Before(f.key, fs[0].key) then [f] + fs
    else [fs[0]] + InsertField(f, fs[1..])
  }

  function SortFields(fs: Fields): Fields {
    if fs == [] then [] else InsertField(fs[0], SortFields(fs[1..]))
  }

  /** The same value with the fields of every object in key order. */
  function Normalize(v: Json): Json
    decreases v, 1
  {
    match v
    case Arr(items) => Arr(NormalizeItems(items))
    case Obj(fs) => Obj(SortFields(NormalizeFields(fs)))
    case _ => v
  }

  function NormalizeItems(items: seq<Json>): (r: seq<Json>)
    decreases items, 0
  {
    if items == [] then [] else [Normalize(items[0])] + NormalizeItems(items[1..])
  }

  function NormalizeFields(fs: Fields): (r: Fields)
    decreases fs, 0
  {
    if fs == [] then []
    else
      [Field(fs[0].key, Normalize(fs[0].value))] + NormalizeFields(fs[1..])
  }

  // ---------------------------------------------------------------------
  // Printing

  function Digit(n: nat): char
    requires n < 16
  {
    "0123456789abcdef"[n]
  }

  function Decimal(n: nat): string {
    if n < 10 then [Digit(n)] else Decimal(n / 10) + [Digit(n % 10)]
  }

  function Integer(n: int): string {
    if n < 0 then "-" + Decimal(-n) else Decimal(n)
  }

  function Hex4(n: nat): string
    requires n < 0x1_0000
  {
    [Digit(n / 0x1000), Digit(n / 0x100 % 16), Digit(n / 16 % 16), Digit(n % 16)]
  }

  function Unicode(n: nat): string
    requires n < 0x1_0000
  {
    "\\u" + Hex4(n)
  }

  /** The letter of a two-character escape, section 7 of RFC 8259. */
  function ShortEscape(c: char): Option<char> {
    if c == '"' then Some('"')
    else if c == '\\' then Some('\\')
    else if c == '\n' then Some('n')
    else if c == '\r' then Some('r')
    else if c == '\t' then Some('t')
    else if c as int == 8 then Some('b')
    else if c as int == 12 then Some('f')
    else None
  }

  /** Escaping of one character; `ascii` is json.dumps's `ensure_ascii`. A character beyond
      the basic plane is then written as a surrogate pair. */
  function Escape(c: char, ascii: bool): string {
    var n := c as int;
    if ShortEscape(c).Some? then ['\\', ShortEscape(c).value]
    else if n < 0x20 then Unicode(n)
    else if !ascii || n < 0x7f then [c]
    else if n < 0x1_0000 then Unicode(n)
    else Unicode(0xd800 + (n - 0x1_0000) / 0x400) + Unicode(0xdc00 + (n - 0x1_0000) % 0x400)
  }

  /** The characters of a string and its closing quote. */
  function Quoted(s: string, ascii: bool): string {
    if s == "" then "\"" else Escape(s[0], ascii) + Quoted(s[1..], ascii)
  }

  function Quote(s: string, ascii: bool): string {
    "\"" + Quoted(s, ascii)
  }

  /** The compact text of a value, fields in the order they stand. */
  function Plain(v: Json, ascii: bool): string
    decreases v, 1
  {
    match v
    case Null => "null"
    case Bool(b) => if b then "true" else "false"
    case Int(n) => Integer(n)
    case Float(t) => t
    case Str(s) => Quote(s, ascii)
    case Arr(items) => "[" + PlainItems(items, ascii)
    case Obj(fs) => "{" + PlainFields(fs, ascii)
  }

  function PlainItems(items: seq<Json>, ascii: bool): string
    decreases items, 0
  {
    if items == [] then "]"
    else Plain(items[0], ascii) + if |items| == 1 then "]" else "," + PlainItems(items[1..], ascii)
  }

  function PlainFields(fs: Fields, ascii: bool): string
    decreases fs, 0
  {
    if fs == [] then "}"
    else
      Quote(fs[0].key, ascii) + ":" + Plain(fs[0].value, ascii)
      + if |fs| == 1 then "}" else "," + PlainFields(fs[1..], ascii)
  }

  /** `json.dumps(v, sort_keys=True, separators=(",", ":"), ensure_ascii=ascii)`. */
  function Dumps(v: Json, ascii: bool): string {
    Plain(Normalize(v), ascii)
  }
}
