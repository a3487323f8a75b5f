/** The compact text of a JSON value determines the value: no two values that differ in
    more than the order of object keys are printed alike. */
module JsonFaithful {
  import opened Options
  import opened Json
  import opened JsonOrder

  lemma CancelPrefix(p: string, q: string, x: string, y: string)
    requires p + x == q + y && |p| == |q|
    ensures p == q && x == y
  {
    assert (p + x)[..|p|] == p && (q + y)[..|q|] == q;
    assert (p + x)[|p|..] == x && (q + y)[|q|..] == y;
  }

  // ---------------------------------------------------------------------
  // Strings

  lemma UnicodeReadable(m: nat, n: nat, x: string, y: string)
    requires m < 0x1_0000 && n < 0x1_0000
    requires Unicode(m) + x == Unicode(n) + y
    ensures m == n && x == y
  {
    CancelPrefix(Unicode(m), Unicode(n), x, y);
    assert Unicode(m)[2..] == Hex4(m) && Unicode(n)[2..] == Hex4(n);
    HexInjective(m, n);
  }

  lemma HexInjective(m: nat, n: nat)
    requires m < 0x1_0000 && n < 0x1_0000 && Hex4(m) == Hex4(n)
    ensures m == n
  {
    forall i | 0 <= i < 4 ensures Hex4(m)[i] == Hex4(n)[i] {}
    DigitInjective(m / 0x1000, n / 0x1000);
    DigitInjective(m / 0x100 % 16, n / 0x100 % 16);
    DigitInjective(m / 16 % 16, n / 16 % 16);
    DigitInjective(m % 16, n % 16);
    HexValue(m);
    HexValue(n);
  }

  lemma DigitInjective(m: nat, n: nat)
    requires m < 16 && n < 16
    ensures Digit(m) == Digit(n) <==> m == n
  {
  }

  lemma HexValue(n: nat)
    requires n < 0x1_0000
    ensures n == 0x1000 * (n / 0x1000) + 0x100 * (n / 0x100 % 16) + 16 * (n / 16 % 16) + n % 16
  {
    assert n / 0x100 == n / 16 / 16 && n / 0x1000 == n / 0x100 / 16;
  }

  /** The escape written for a character, or a raw character that needs none. */
  lemma EscapeShape(c: char, ascii: bool)
    ensures Escape(c, ascii) != ""
    ensures Escape(c, ascii)[0] != '"'
    ensures Escape(c, ascii)[0] != '\\' ==> Escape(c, ascii) == [c]
    ensures Escape(c, ascii)[0] == '\\' ==>
              && |Escape(c, ascii)| >= 2
              && if ShortEscape(c).Some? then Escape(c, ascii) == ['\\', ShortEscape(c).value]
                 else Escape(c, ascii)[1] == 'u'
  {
  }

  lemma ShortEscapeInjective(c: char, d: char)
    requires ShortEscape(c).Some? && ShortEscape(c) == ShortEscape(d)
    ensures c == d && ShortEscape(c).value != 'u'
  {
  }

  lemma EscapeReadable(c: char, d: char, ascii: bool, x: string, y: string)
    requires Escape(c, ascii) + x == Escape(d, ascii) + y
    ensures c == d && x == y
  {
    var p, q := Escape(c, ascii), Escape(d, ascii);
    EscapeShape(c, ascii);
    EscapeShape(d, ascii);
    assert (p + x)[0] == p[0] && (q + y)[0] == q[0];
    if p[0] != '\\' {
      CancelPrefix(p, q, x, y);
    } else {
      assert (p + x)[1] == p[1] && (q + y)[1] == q[1];
      if ShortEscape(c).Some? && ShortEscape(d).Some? {
        CancelPrefix(p, q, x, y);
        ShortEscapeInjective(c, d);
      } else if ShortEscape(c).Some? {
        ShortEscapeInjective(c, c);
      } else if ShortEscape(d).Some? {
        ShortEscapeInjective(d, d);
      } else {
        LongEscapeReadable(c, d, ascii, x, y);
      }
    }
  }

  /** The first unit of a `\u` escape: the character itself, or the high surrogate of a pair. */
  function FirstUnit(c: char): (n: nat)
    ensures n < 0x1_0000
  {
    var n := c as int;
    if n < 0x1_0000 then n else 0xd800 + (n - 0x1_0000) / 0x400
  }

  lemma LongEscapeReadable(c: char, d: char, ascii: bool, x: string, y: string)
    requires Escape(c, ascii) + x == Escape(d, ascii) + y
    requires ShortEscape(c).None? && ShortEscape(d).None?
    requires Escape(c, ascii)[0] == '\\' == Escape(d, ascii)[0]
    ensures c == d && x == y
  {
    LongEscapeSplit(c, ascii, x);
    LongEscapeSplit(d, ascii, y);
    UnicodeReadable(FirstUnit(c), FirstUnit(d), LongEscapeTail(c) + x, LongEscapeTail(d) + y);
    if c as int < 0x1_0000 {
      CancelPrefix("", "", x, y);
    } else {
      UnicodeReadable(LowSurrogate(c), LowSurrogate(d), x, y);
      PairInjective(c as int - 0x1_0000, d as int - 0x1_0000);
    }
  }

  function LowSurrogate(c: char): (n: nat)
    requires c as int >= 0x1_0000
    ensures n < 0x1_0000
  {
    0xdc00 + (c as int - 0x1_0000) % 0x400
  }

  lemma PairInjective(m: nat, n: nat)
    requires m / 0x400 == n / 0x400 && m % 0x400 == n % 0x400
    ensures m == n
  {
  }

  /** The low surrogate of a pair. */
  function LongEscapeTail(c: char): string {
    if c as int < 0x1_0000 then "" else Unicode(LowSurrogate(c))
  }

  lemma LongEscapeSplit(c: char, ascii: bool, x: string)
    requires ShortEscape(c).None? && Escape(c, ascii)[0] == '\\'
    ensures Escape(c, ascii) + x == Unicode(FirstUnit(c)) + (LongEscapeTail(c) + x)
  {
    assert "" + x == x;
  }

  lemma {:induction false} QuotedReadable(s: string, t: string, ascii: bool, x: string, y: string)
    requires Quoted(s, ascii) + x == Quoted(t, ascii) + y
    ensures s == t && x == y
  {
    hide Escape;
    var p, q := Quoted(s, ascii) + x, Quoted(t, ascii) + y;
    if s != "" { EscapeShape(s[0], ascii); }
    if t != "" { EscapeShape(t[0], ascii); }
    if s == "" || t == "" {
      assert p[0] == q[0];
      assert s == "" && t == "";
      CancelPrefix("\"", "\"", x, y);
    } else {
      var s', t' := Quoted(s[1..], ascii) + x, Quoted(t[1..], ascii) + y;
      assert p == Escape(s[0], ascii) + s' && q == Escape(t[0], ascii) + t';
      EscapeReadable(s[0], t[0], ascii, s', t');
      QuotedReadable(s[1..], t[1..], ascii, x, y);
      assert s == [s[0]] + s[1..] && t == [t[0]] + t[1..];
    }
  }

  lemma QuoteReadable(s: string, t: string, ascii: bool, x: string, y: string)
    requires Quote(s, ascii) + x == Quote(t, ascii) + y
    ensures s == t && x == y
  {
    hide Quoted;
    assert Quote(s, ascii) + x == "\"" + (Quoted(s, ascii) + x);
    assert Quote(t, ascii) + y == "\"" + (Quoted(t, ascii) + y);
    CancelPrefix("\"", "\"", Quoted(s, ascii) + x, Quoted(t, ascii) + y);
    QuotedReadable(s, t, ascii, x, y);
  }

  // ---------------------------------------------------------------------
  // Numbers

  predicate IsDigit(c: char) { '0' <= c <= '9' }

  lemma {:induction false} DecimalDigits(n: nat)
    ensures Decimal(n) != "" && forall c | c in Decimal(n) :: IsDigit(c)
  {
    if n >= 10 {
      DecimalDigits(n / 10);
    }
  }

  lemma {:induction false} DecimalInjective(m: nat, n: nat)
    requires Decimal(m) == Decimal(n)
    ensures m == n
  {
    DecimalDigits(m / 10);
    DecimalDigits(n / 10);
    if m < 10 || n < 10 {
      assert |Decimal(m)| == 1 == |Decimal(n)|;
      DigitInjective(m % 10, n % 10);
    } else {
      var p, q := Decimal(m / 10), Decimal(n / 10);
      CancelPrefix(p, q, [Digit(m % 10)], [Digit(n % 10)]);
      DecimalInjective(m / 10, n / 10);
      DigitInjective(m % 10, n % 10);
    }
  }

  lemma IntegerShape(n: int)
    ensures Integer(n) != ""
    ensures forall c | c in Integer(n) :: IsDigit(c) || c == '-'
    ensures Integer(n)[0] == '-' <==> n < 0
  {
    DecimalDigits(if n < 0 then -n else n);
    var d := Decimal(if n < 0 then -n else n);
    assert d[0] in d;
  }

  lemma IntegerInjective(m: int, n: int)
    requires Integer(m) == Integer(n)
    ensures m == n
  {
    IntegerShape(m);
    IntegerShape(n);
    if m < 0 {
      assert Integer(m)[1..] == Decimal(-m) && Integer(n)[1..] == Decimal(-n);
      DecimalInjective(-m, -n);
    } else {
      DecimalInjective(m, n);
    }
  }

  /** What may follow a printed value. */
  predicate Stop(x: string) {
    x == "" || x[0] in ",]}"
  }

  /** The longest run of number characters a text starts with. */
  function NumberPrefix(w: string): string {
    if w != "" && NumberChar(w[0]) then [w[0]] + NumberPrefix(w[1..]) else ""
  }

  lemma {:induction false} NumberPrefixIsToken(t: string, x: string)
    requires (forall c | c in t :: NumberChar(c)) && Stop(x)
    ensures NumberPrefix(t + x) == t
  {
    if t == "" {
      assert t + x == x;
    } else {
      assert t[0] in t;
      assert (t + x)[1..] == t[1..] + x;
      NumberPrefixIsToken(t[1..], x);
    }
  }

  lemma TokenReadable(t: string, u: string, x: string, y: string)
    requires (forall c | c in t :: NumberChar(c)) && (forall c | c in u :: NumberChar(c))
    requires Stop(x) && Stop(y) && t + x == u + y
    ensures t == u && x == y
  {
    NumberPrefixIsToken(t, x);
    NumberPrefixIsToken(u, y);
    CancelPrefix(t, u, x, y);
  }

  lemma NumbersReadable(a: Json, b: Json, ascii: bool, x: string, y: string)
    requires (a.Int? || a.Float?) && (b.Int? || b.Float?) && WellFormed(a) && WellFormed(b)
    requires Stop(x) && Stop(y) && Plain(a, ascii) + x == Plain(b, ascii) + y
    ensures a == b && x == y
  {
    if a.Int? { IntegerShape(a.n); }
    if b.Int? { IntegerShape(b.n); }
    TokenReadable(Plain(a, ascii), Plain(b, ascii), x, y);
    if a.Int? && b.Int? {
      IntegerInjective(a.n, b.n);
    }
  }

  // ---------------------------------------------------------------------
  // Values

  /** The first character tells what kind of value follows. */
  lemma PlainStart(v: Json, ascii: bool)
    requires WellFormed(v)
    ensures Plain(v, ascii) != ""
    ensures var c := Plain(v, ascii)[0];
            match v
            case Null => c == 'n'
            case Bool(b) => c == if b then 't' else 'f'
            case Int(_) => IsDigit(c) || c == '-'
            case Float(_) => IsDigit(c) || c == '-'
            case Str(_) => c == '"'
            case Arr(_) => c == '['
            case Obj(_) => c == '{'
  {
    if v.Int? {
      IntegerShape(v.n);
      assert Integer(v.n)[0] in Integer(v.n);
    }
  }

  lemma {:induction false} PlainReadable(a: Json, b: Json, ascii: bool, x: string, y: string)
    requires WellFormed(a) && WellFormed(b) && Stop(x) && Stop(y)
    requires Plain(a, ascii) + x == Plain(b, ascii) + y
    ensures a == b && x == y
    decreases a, 2
  {
    SameKind(a, b, ascii, x, y);
    match a
    case Null => CancelPrefix(Plain(a, ascii), Plain(b, ascii), x, y);
    case Bool(_) => CancelPrefix(Plain(a, ascii), Plain(b, ascii), x, y);
    case Str(s) => QuoteReadable(s, b.s, ascii, x, y);
    case Arr(xs) =>
      CancelFirst('[', PlainItems(xs, ascii), x, PlainItems(b.items, ascii), y);
      ItemsReadable(xs, b.items, ascii, x, y);
    case Obj(fs) =>
      CancelFirst('{', PlainFields(fs, ascii), x, PlainFields(b.fields, ascii), y);
      FieldsReadable(fs, b.fields, ascii, x, y);
    case _ => NumbersReadable(a, b, ascii, x, y);
  }

  /** Values of one kind, as far as the first character shows it. */
  lemma SameKind(a: Json, b: Json, ascii: bool, x: string, y: string)
    requires WellFormed(a) && WellFormed(b)
    requires Plain(a, ascii) + x == Plain(b, ascii) + y
    ensures match a
            case Null => b.Null?
            case Bool(v) => b == Bool(v)
            case Str(_) => b.Str?
            case Arr(_) => b.Arr?
            case Obj(_) => b.Obj?
            case _ => b.Int? || b.Float?
  {
    PlainStart(a, ascii);
    PlainStart(b, ascii);
    assert (Plain(a, ascii) + x)[0] == Plain(a, ascii)[0];
    assert (Plain(b, ascii) + y)[0] == Plain(b, ascii)[0];
  }

  lemma CancelFirst(c: char, p: string, x: string, q: string, y: string)
    requires [c] + p + x == [c] + q + y
    ensures p + x == q + y
  {
    assert ([c] + p + x)[1..] == p + x && ([c] + q + y)[1..] == q + y;
  }

  function RestOfItems(xs: seq<Json>, ascii: bool): string
    requires xs != []
  {
    if |xs| == 1 then "]" else "," + PlainItems(xs[1..], ascii)
  }

  lemma ItemsSplit(xs: seq<Json>, ascii: bool, x: string)
    requires xs != []
    ensures PlainItems(xs, ascii) + x == Plain(xs[0], ascii) + (RestOfItems(xs, ascii) + x)
  {
  }

  /** A printed list is its bracket alone exactly when the list is empty. */
  lemma ItemsStart(xs: seq<Json>, ascii: bool, x: string)
    requires WellFormed(Arr(xs))
    ensures PlainItems(xs, ascii) != ""
    ensures (PlainItems(xs, ascii) + x)[0] == ']' <==> xs == []
  {
    if xs != [] {
      PlainStart(xs[0], ascii);
    }
  }

  lemma {:induction false} ItemsReadable(xs: seq<Json>, ys: seq<Json>, ascii: bool, x: string, y: string)
    requires WellFormed(Arr(xs)) && WellFormed(Arr(ys))
    requires PlainItems(xs, ascii) + x == PlainItems(ys, ascii) + y
    ensures xs == ys && x == y
    decreases xs, 0
  {
    ItemsStart(xs, ascii, x);
    ItemsStart(ys, ascii, y);
    if xs == [] {
      CancelPrefix("]", "]", x, y);
    } else {
      var p, q := RestOfItems(xs, ascii) + x, RestOfItems(ys, ascii) + y;
      ItemsSplit(xs, ascii, x);
      ItemsSplit(ys, ascii, y);
      assert Stop(p) && Stop(q);
      PlainReadable(xs[0], ys[0], ascii, p, q);
      RestOfItemsReadable(xs, ys, ascii, x, y);
    }
  }

  lemma {:induction false} RestOfItemsReadable(xs: seq<Json>, ys: seq<Json>, ascii: bool, x: string, y: string)
    requires xs != [] && ys != [] && xs[0] == ys[0]
    requires WellFormed(Arr(xs)) && WellFormed(Arr(ys))
    requires RestOfItems(xs, ascii) + x == RestOfItems(ys, ascii) + y
    ensures xs == ys && x == y
    decreases xs, 0, 0
  {
    assert (RestOfItems(xs, ascii) + x)[0] == RestOfItems(xs, ascii)[0];
    assert (RestOfItems(ys, ascii) + y)[0] == RestOfItems(ys, ascii)[0];
    if |xs| == 1 {
      CancelPrefix("]", "]", x, y);
    } else {
      CancelFirst(',', PlainItems(xs[1..], ascii), x, PlainItems(ys[1..], ascii), y);
      ItemsReadable(xs[1..], ys[1..], ascii, x, y);
      assert xs == [xs[0]] + xs[1..] && ys == [ys[0]] + ys[1..];
    }
  }

  function RestOfFields(fs: Fields, ascii: bool): string
    requires fs != []
  {
    if |fs| == 1 then "}" else "," + PlainFields(fs[1..], ascii)
  }

  lemma FieldsSplit(fs: Fields, ascii: bool, x: string)
    requires fs != []
    ensures PlainFields(fs, ascii) + x
         == Quote(fs[0].key, ascii) + ([':'] + Plain(fs[0].value, ascii) + (RestOfFields(fs, ascii) + x))
  {
    Regroup(Quote(fs[0].key, ascii), Plain(fs[0].value, ascii), RestOfFields(fs, ascii), x);
  }

  lemma Regroup(q: string, v: string, r: string, x: string)
    ensures q + ":" + v + r + x == q + ([':'] + v + (r + x))
  {
  }

  lemma FieldsStart(fs: Fields, ascii: bool, x: string)
    ensures PlainFields(fs, ascii) != ""
    ensures (PlainFields(fs, ascii) + x)[0] == '}' <==> fs == []
  {
  }

  lemma {:induction false} FieldsReadable(fs: Fields, gs: Fields, ascii: bool, x: string, y: string)
    requires forall i | 0 <= i < |fs| :: WellFormed(fs[i].value)
    requires forall i | 0 <= i < |gs| :: WellFormed(gs[i].value)
    requires PlainFields(fs, ascii) + x == PlainFields(gs, ascii) + y
    ensures fs == gs && x == y
    decreases fs, 0
  {
    FieldsStart(fs, ascii, x);
    FieldsStart(gs, ascii, y);
    if fs == [] {
      CancelPrefix("}", "}", x, y);
    } else {
      var v, w := Plain(fs[0].value, ascii), Plain(gs[0].value, ascii);
      var p, q := RestOfFields(fs, ascii) + x, RestOfFields(gs, ascii) + y;
      FieldsSplit(fs, ascii, x);
      FieldsSplit(gs, ascii, y);
      QuoteReadable(fs[0].key, gs[0].key, ascii, [':'] + v + p, [':'] + w + q);
      CancelFirst(':', v, p, w, q);
      assert Stop(p) && Stop(q);
      PlainReadable(fs[0].value, gs[0].value, ascii, p, q);
      RestOfFieldsReadable(fs, gs, ascii, x, y);
    }
  }

  lemma {:induction false} RestOfFieldsReadable(fs: Fields, gs: Fields, ascii: bool, x: string, y: string)
    requires fs != [] && gs != [] && fs[0] == gs[0]
    requires forall i | 0 <= i < |fs| :: WellFormed(fs[i].value)
    requires forall i | 0 <= i < |gs| :: WellFormed(gs[i].value)
    requires RestOfFields(fs, ascii) + x == RestOfFields(gs, ascii) + y
    ensures fs == gs && x == y
    decreases fs, 0, 0
  {
    assert (RestOfFields(fs, ascii) + x)[0] == RestOfFields(fs, ascii)[0];
    assert (RestOfFields(gs, ascii) + y)[0] == RestOfFields(gs, ascii)[0];
    if |fs| == 1 {
      CancelPrefix("}", "}", x, y);
    } else {
      CancelFirst(',', PlainFields(fs[1..], ascii), x, PlainFields(gs[1..], ascii), y);
      FieldsReadable(fs[1..], gs[1..], ascii, x, y);
      assert fs == [fs[0]] + fs[1..] && gs == [gs[0]] + gs[1..];
    }
  }

  // ---------------------------------------------------------------------

  lemma {:induction false} NormalizeWellFormed(v: Json)
    requires WellFormed(v)
    ensures WellFormed(Normalize(v))
  {
    match v
    case Arr(items) =>
      NormalizeItemsAt(items);
      forall i | 0 <= i < |items| ensures WellFormed(NormalizeItems(items)[i]) {
        NormalizeWellFormed(items[i]);
      }
    case Obj(fs) =>
      var nf := NormalizeFields(fs);
      NormalizeFieldsAt(fs);
      NormalizeFieldsDistinct(fs);
      SortFieldsSorts(nf);
      SortedIsDistinct(SortFields(nf));
      forall f | f in fs ensures WellFormed(Normalize(f.value)) {
        NormalizeWellFormed(f.value);
      }
      forall i | 0 <= i < |nf| ensures WellFormed(SortFields(nf)[i].value) {
        assert SortFields(nf)[i] in nf;
        var j :| 0 <= j < |nf| && nf[j] == SortFields(nf)[i];
        assert fs[j] in fs;
      }
    case _ =>
  }

  /** Two values have the same text exactly when Python calls them equal as dicts, lists and
      scalars are, that is up to the order of object keys. */
  lemma DumpsFaithful(a: Json, b: Json, ascii: bool)
    requires WellFormed(a) && WellFormed(b)
    ensures Dumps(a, ascii) == Dumps(b, ascii) <==> Same(a, b)
  {
    SameIffNormalFormsEqual(a, b);
    if Dumps(a, ascii) == Dumps(b, ascii) {
      NormalizeWellFormed(a);
      NormalizeWellFormed(b);
      assert Dumps(a, ascii) + "" == Dumps(a, ascii) && Dumps(b, ascii) + "" == Dumps(b, ascii);
      PlainReadable(Normalize(a), Normalize(b), ascii, "", "");
    }
  }
}
