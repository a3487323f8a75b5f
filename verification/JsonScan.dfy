/** Reading compact JSON text character by character: a whole value never reads on from the
    colon inside another one. */
module JsonScan {
  import opened Options
  import opened Json
  import JsonFaithful

  /** Outside strings at some nesting depth, inside a string, behind a backslash inside one, or
      past something no value's text contains: a backslash outside strings, or a colon or a
      closing bracket outside all brackets. */
  datatype Mode = Outside(depth: nat) | Inside(depth: nat) | Escaped(depth: nat) | Broken

  function Read(m: Mode, c: char): Mode {
    match m
    case Outside(d) =>
      if c == '"' then Inside(d)
      else if c == '{' || c == '[' then Outside(d + 1)
      else if c == '}' || c == ']' then if d == 0 then Broken else Outside(d - 1)
      else if c == '\\' || (c == ':' && d == 0) then Broken
      else m
    case Inside(d) => if c == '"' then Outside(d) else if c == '\\' then Escaped(d) else m
    case Escaped(d) => Inside(d)
    case Broken => m
  }

  function Scan(m: Mode, text: string): Mode
    decreases text
  {
    if text == "" then m else Scan(Read(m, text[0]), text[1..])
  }

  lemma {:induction false} ScanConcat(m: Mode, p: string, q: string)
    ensures Scan(m, p + q) == Scan(Scan(m, p), q)
    decreases p
  {
    if p == "" {
      assert p + q == q;
    } else {
      assert (p + q)[1..] == p[1..] + q;
      ScanConcat(Read(m, p[0]), p[1..], q);
    }
  }

  lemma ScanOne(m: Mode, c: char)
    ensures Scan(m, [c]) == Read(m, c)
  {
  }

  lemma {:induction false} BrokenStays(text: string)
    ensures Scan(Broken, text) == Broken
  {
    if text != "" {
      BrokenStays(text[1..]);
    }
  }

  // ---------------------------------------------------------------------
  // The text of a value leaves the depth as it was

  /** Letters, digits and signs change nothing. */
  predicate Calm(c: char) {
    c != '"' && c != '\\' && c != '{' && c != '[' && c != '}' && c != ']' && c != ':'
  }

  lemma {:induction false} CalmScans(m: Mode, text: string)
    requires m.Outside? || m.Inside?
    requires forall c | c in text :: Calm(c)
    ensures Scan(m, text) == m
  {
    if text != "" {
      assert Calm(text[0]);
      CalmScans(m, text[1..]);
    }
  }

  lemma EscapeScans(c: char, ascii: bool, d: nat)
    ensures Scan(Inside(d), Escape(c, ascii)) == Inside(d)
  {
    var e := Escape(c, ascii);
    JsonFaithful.EscapeShape(c, ascii);
    if ShortEscape(c).Some? {
      assert e == ['\\'] + [ShortEscape(c).value];
      ScanConcat(Inside(d), ['\\'], [ShortEscape(c).value]);
    } else if e[0] != '\\' {
      assert e == [c];
    } else if c as int < 0x1_0000 {
      UnicodeScans(c as int, d);
    } else {
      PairScans(c, d);
    }
  }

  lemma PairScans(c: char, d: nat)
    requires c as int >= 0x1_0000
    ensures Scan(Inside(d), Unicode(0xd800 + (c as int - 0x1_0000) / 0x400) +
                              Unicode(0xdc00 + (c as int - 0x1_0000) % 0x400))
            == Inside(d)
  {
    var high, low := 0xd800 + (c as int - 0x1_0000) / 0x400, 0xdc00 + (c as int - 0x1_0000) % 0x400;
    UnicodeScans(high, d);
    UnicodeScans(low, d);
    ScanConcat(Inside(d), Unicode(high), Unicode(low));
  }

  lemma DigitIsCalm(n: nat)
    requires n < 16
    ensures Calm(Digit(n))
  {
  }

  lemma HexIsCalm(n: nat)
    requires n < 0x1_0000
    ensures forall c | c in Hex4(n) :: Calm(c)
  {
    hide Digit, Calm;
    DigitIsCalm(n / 0x1000);
    DigitIsCalm(n / 0x100 % 16);
    DigitIsCalm(n / 16 % 16);
    DigitIsCalm(n % 16);
  }

  lemma UnicodeScans(n: nat, d: nat)
    requires n < 0x1_0000
    ensures Scan(Inside(d), Unicode(n)) == Inside(d)
  {
    hide Hex4, Calm;
    HexIsCalm(n);
    assert Unicode(n) == ['\\'] + (['u'] + Hex4(n));
    ScanConcat(Inside(d), ['\\'], ['u'] + Hex4(n));
    ScanConcat(Escaped(d), ['u'], Hex4(n));
    ScanOne(Inside(d), '\\');
    ScanOne(Escaped(d), 'u');
    CalmScans(Inside(d), Hex4(n));
  }

  lemma {:induction false} QuotedScans(s: string, ascii: bool, d: nat)
    ensures Scan(Inside(d), Quoted(s, ascii)) == Outside(d)
  {
    hide Escape;
    if s == "" {
      ScanOne(Inside(d), '"');
    } else {
      EscapeScans(s[0], ascii, d);
      ScanConcat(Inside(d), Escape(s[0], ascii), Quoted(s[1..], ascii));
      QuotedScans(s[1..], ascii, d);
    }
  }

  lemma QuoteScans(s: string, ascii: bool, d: nat)
    ensures Scan(Outside(d), Quote(s, ascii)) == Outside(d)
  {
    hide Quoted;
    ScanOne(Outside(d), '"');
    ScanConcat(Outside(d), "\"", Quoted(s, ascii));
    QuotedScans(s, ascii, d);
  }

  lemma NumberIsCalm(text: string)
    requires forall c | c in text :: NumberChar(c)
    ensures forall c | c in text :: Calm(c)
  {
  }

  lemma IntegerIsCalm(n: int)
    ensures forall c | c in Integer(n) :: Calm(c)
  {
    hide Integer;
    JsonFaithful.IntegerShape(n);
  }

  lemma WordsAreCalm()
    ensures forall c | c in "null" :: Calm(c)
    ensures forall c | c in "true" :: Calm(c)
    ensures forall c | c in "false" :: Calm(c)
  {
  }

  /** At any depth, the text of a value is read to its end and leaves the depth unchanged. */
  lemma {:induction false} PlainScans(v: Json, ascii: bool, d: nat)
    requires WellFormed(v)
    ensures Scan(Outside(d), Plain(v, ascii)) == Outside(d)
    decreases v, 1
  {
    hide Scan, Calm, Integer;
    match v
    case Null => WordsAreCalm(); CalmScans(Outside(d), "null");
    case Bool(b) => WordsAreCalm(); CalmScans(Outside(d), if b then "true" else "false");
    case Int(n) => IntegerIsCalm(n); CalmScans(Outside(d), Integer(n));
    case Float(t) => NumberIsCalm(t); CalmScans(Outside(d), t);
    case Str(s) => QuoteScans(s, ascii, d);
    case Arr(items) =>
      ScanOne(Outside(d), '[');
      ScanConcat(Outside(d), "[", PlainItems(items, ascii));
      ItemsScan(items, ascii, d);
    case Obj(fs) =>
      ScanOne(Outside(d), '{');
      ScanConcat(Outside(d), "{", PlainFields(fs, ascii));
      FieldsScan(fs, ascii, d);
  }

  lemma {:induction false} ItemsScan(items: seq<Json>, ascii: bool, d: nat)
    requires forall i | 0 <= i < |items| :: WellFormed(items[i])
    ensures Scan(Outside(d + 1), PlainItems(items, ascii)) == Outside(d)
    decreases items, 0
  {
    hide Scan, Plain, WellFormed;
    ScanOne(Outside(d + 1), ']');
    if items != [] {
      var rest := PlainItems(items[1..], ascii);
      PlainScans(items[0], ascii, d + 1);
      ScanConcat(Outside(d + 1), Plain(items[0], ascii), "]");
      ScanConcat(Outside(d + 1), Plain(items[0], ascii), "," + rest);
      ScanOne(Outside(d + 1), ',');
      ScanConcat(Outside(d + 1), ",", rest);
      ItemsScan(items[1..], ascii, d);
    }
  }

  lemma {:induction false} FieldsScan(fs: Fields, ascii: bool, d: nat)
    requires forall i | 0 <= i < |fs| :: WellFormed(fs[i].value)
    ensures Scan(Outside(d + 1), PlainFields(fs, ascii)) == Outside(d)
    decreases fs, 0
  {
    hide Scan, Plain, WellFormed, Quote;
    ScanOne(Outside(d + 1), '}');
    if fs != [] {
      FieldScans(fs[0], ascii, d);
      var field := Quote(fs[0].key, ascii) + ":" + Plain(fs[0].value, ascii);
      var rest := PlainFields(fs[1..], ascii);
      ScanConcat(Outside(d + 1), field, "}");
      ScanConcat(Outside(d + 1), field, "," + rest);
      ScanOne(Outside(d + 1), ',');
      ScanConcat(Outside(d + 1), ",", rest);
      FieldsScan(fs[1..], ascii, d);
      assert PlainFields(fs, ascii) == field + if |fs| == 1 then "}" else "," + rest;
    }
  }

  lemma {:induction false} FieldScans(f: Field, ascii: bool, d: nat)
    requires WellFormed(f.value)
    ensures Scan(Outside(d + 1), Quote(f.key, ascii) + ":" + Plain(f.value, ascii)) == Outside(d + 1)
    decreases f.value, 2
  {
    hide Scan, Plain, WellFormed, Quote;
    var key, value := Quote(f.key, ascii), Plain(f.value, ascii);
    QuoteScans(f.key, ascii, d + 1);
    ScanConcat(Outside(d + 1), key, ":");
    ScanOne(Outside(d + 1), ':');
    ScanConcat(Outside(d + 1), key + ":", value);
    PlainScans(f.value, ascii, d + 1);
  }

  // ---------------------------------------------------------------------
  // Reading on inside a string

  /** `m` is outside strings exactly where `n` is inside one; neither stands behind a backslash. */
  predicate Opposite(m: Mode, n: Mode) {
    (m.Outside? && n.Inside?) || (m.Inside? && n.Outside?)
  }

  /** Read once from outside and once from inside a string, a text that breaks neither reading
      holds no backslash, so the two stay opposite to its end. */
  lemma {:induction false} OppositesStay(m: Mode, n: Mode, text: string)
    requires Opposite(m, n) && Scan(m, text) != Broken && Scan(n, text) != Broken
    ensures Opposite(Scan(m, text), Scan(n, text))
    decreases text
  {
    if text != "" {
      BrokenStays(text[1..]);
      OppositesStay(Read(m, text[0]), Read(n, text[0]), text[1..]);
    }
  }

  /** No text of a value is another one's text behind a colon. */
  lemma NoValueBehindColon(a: Json, b: Json, ascii: bool, before: string)
    requires WellFormed(a) && WellFormed(b)
    ensures Plain(a, ascii) != before + ":" + Plain(b, ascii)
  {
    hide Scan, Plain, WellFormed;
    var y := Plain(b, ascii);
    if Plain(a, ascii) == before + ":" + y {
      PlainScans(a, ascii, 0);
      var m := Scan(Outside(0), before);
      ScanConcat(Outside(0), before, ":");
      ScanConcat(Outside(0), before + ":", y);
      ScanOne(m, ':');
      BrokenStays(y);
      match Read(m, ':')
      case Outside(d) => PlainScans(b, ascii, d);
      case Inside(d) => PlainScans(b, ascii, 0); OppositesStay(Outside(0), Inside(d), y);
      case Escaped(_) =>
      case Broken =>
    }
  }
}
