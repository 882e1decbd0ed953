/** The canonical JSON text that cache keys are built from: json.dumps with sorted keys, the
    separators "," and ":", and non-ASCII text left as it is. */
module CanonicalJson {

  /** `Num` carries the text that is printed for a number. `Obj` lists a dictionary's items in
      key order, the order in which they are printed. */
  datatype Json =
    | Null
    | Bool(b: bool)
    | Num(text: string)
    | Str(s: string)
    | Arr(items: seq<Json>)
    | Obj(entries: seq<Entry>)

  datatype Entry = Entry(key: string, value: Json)

  const NUL: char := 0 as char

  predicate EndsToken(c: char) {
    c == ',' || c == ']' || c == '}'
  }

  /** What a printed number looks like: no separator in it, and no first character that
      another kind of value starts with. "NaN", "Infinity" and "-1.5e+20" are such texts. */
  predicate NumberText(text: string) {
    && text != []
    && text[0] !in {'"', '[', '{', 'n', 't', 'f'}
    && forall i :: 0 <= i < |text| ==> !EndsToken(text[i]) && text[i] != NUL
  }

  predicate Printable(v: Json)
    decreases v, 1
  {
    match v
    case Num(text) => NumberText(text)
    case Arr(items) => PrintableItems(items)
    case Obj(entries) => PrintableEntries(entries)
    case _ => true
  }

  predicate PrintableItems(items: seq<Json>)
    decreases items, 0
  {
    items == [] || (Printable(items[0]) && PrintableItems(items[1..]))
  }

  predicate PrintableEntries(entries: seq<Entry>)
    decreases entries, 0
  {
    entries == [] || (Printable(entries[0].value) && PrintableEntries(entries[1..]))
  }

  /** The values that occur: those whose numbers look like numbers. */
  type JsonValue = v: Json | Printable(v) witness Null

  // ---- printing ------------------------------------------------------------

  function HexDigit(n: nat): char
    requires n < 16
  {
    if n < 10 then '0' + n as char else 'a' + (n - 10) as char
  }

  /** One character inside a JSON string. */
  function Escaped(c: char): (r: string)
    ensures r != [] && r[0] != '"' && forall i :: 0 <= i < |r| ==> r[i] != NUL
  {
    var code := c as nat;
    if c == '"' then ['\\', '"']
    else if c == '\\' then ['\\', '\\']
    else if code == 0x08 then ['\\', 'b']
    else if code == 0x09 then ['\\', 't']
    else if code == 0x0A then ['\\', 'n']
    else if code == 0x0C then ['\\', 'f']
    else if code == 0x0D then ['\\', 'r']
    else if code < 0x20 then ['\\', 'u', '0', '0', HexDigit(code / 16), HexDigit(code % 16)]
    else [c]
  }

  function EscapedText(s: string): string {
    if s == [] then [] else Escaped(s[0]) + EscapedText(s[1..])
  }

  function Quoted(s: string): string {
    ['"'] + EscapedText(s) + ['"']
  }

  function Render(v: Json): string
    decreases v, 1
  {
    match v
    case Null => "null"
    case Bool(b) => if b then "true" else "false"
    case Num(text) => text
    case Str(s) => Quoted(s)
    case Arr(items) => ['['] + RenderItems(items) + [']']
    case Obj(entries) => ['{'] + RenderEntries(entries) + ['}']
  }

  function RenderItems(items: seq<Json>): string
    decreases items, 0
  {
    if items == [] then []
    else if |items| == 1 then Render(items[0])
    else Render(items[0]) + [','] + RenderItems(items[1..])
  }

  function RenderEntry(e: Entry): string
    decreases e, 2
  {
    Quoted(e.key) + [':'] + Render(e.value)
  }

  function RenderEntries(entries: seq<Entry>): string
    decreases entries, 0
  {
    if entries == [] then []
    else if |entries| == 1 then RenderEntry(entries[0])
    else RenderEntry(entries[0]) + [','] + RenderEntries(entries[1..])
  }

  // ---- strings decode uniquely ---------------------------------------------

  lemma EscapedUnique(c: char, d: char, x: string, y: string)
    requires Escaped(c) + x == Escaped(d) + y
    ensures c == d && x == y
  {
    var a, b := Escaped(c) + x, Escaped(d) + y;
    assert a[0] == Escaped(c)[0] && b[0] == Escaped(d)[0];
    if |Escaped(c)| > 1 && |Escaped(d)| > 1 {
      assert a[1] == Escaped(c)[1] && b[1] == Escaped(d)[1];
      if |Escaped(c)| == 6 && |Escaped(d)| == 6 {
        assert a[4] == Escaped(c)[4] && b[4] == Escaped(d)[4];
        assert a[5] == Escaped(c)[5] && b[5] == Escaped(d)[5];
        HexDigitUnique(c as nat / 16, d as nat / 16);
        HexDigitUnique(c as nat % 16, d as nat % 16);
      }
    }
    assert c == d;
    assert x == a[|Escaped(c)|..] && y == b[|Escaped(d)|..];
  }

  lemma HexDigitUnique(m: nat, n: nat)
    requires m < 16 && n < 16
    ensures HexDigit(m) == HexDigit(n) ==> m == n
  {
    if m < 10 && n >= 10 {
      assert HexDigit(m) < 'a' <= HexDigit(n);
    } else if n < 10 && m >= 10 {
      assert HexDigit(n) < 'a' <= HexDigit(m);
    }
  }

  lemma EscapedTextHead(s: string, x: string)
    ensures s == [] ==> (EscapedText(s) + ['"'] + x)[0] == '"'
    ensures s != [] ==>
              && (EscapedText(s) + ['"'] + x)[0] != '"'
              && EscapedText(s) + ['"'] + x == Escaped(s[0]) + (EscapedText(s[1..]) + ['"'] + x)
  {
    if s != [] {
      RegroupTail(Escaped(s[0]), EscapedText(s[1..]), ['"'], x);
      HeadOfConcat(Escaped(s[0]), EscapedText(s[1..]) + ['"'] + x);
    }
  }

  lemma RegroupTail(a: string, b: string, c: string, d: string)
    ensures ((a + b) + c) + d == a + ((b + c) + d)
  {
  }

  lemma HeadOfConcat(a: string, b: string)
    requires a != []
    ensures (a + b)[0] == a[0]
  {
  }

  /** Escaped text up to its closing quote determines the string and what follows. */
  lemma {:induction false} EscapedTextUnique(s: string, t: string, x: string, y: string)
    requires EscapedText(s) + ['"'] + x == EscapedText(t) + ['"'] + y
    ensures s == t && x == y
    decreases |s|
  {
    EscapedTextHead(s, x);
    EscapedTextHead(t, y);
    if s == [] {
      assert (EscapedText(s) + ['"'] + x)[1..] == x && (EscapedText(t) + ['"'] + y)[1..] == y;
    } else {
      EscapedUnique(s[0], t[0], EscapedText(s[1..]) + ['"'] + x, EscapedText(t[1..]) + ['"'] + y);
      EscapedTextUnique(s[1..], t[1..], x, y);
    }
  }

  lemma QuotedUnique(s: string, t: string, x: string, y: string)
    requires Quoted(s) + x == Quoted(t) + y
    ensures s == t && x == y
  {
    assert (Quoted(s) + x)[1..] == EscapedText(s) + ['"'] + x;
    assert (Quoted(t) + y)[1..] == EscapedText(t) + ['"'] + y;
    EscapedTextUnique(s, t, x, y);
  }

  // ---- values decode uniquely ----------------------------------------------

  /** What may follow a printed value inside a text. */
  predicate Follows(x: string) {
    x == [] || EndsToken(x[0])
  }

  /** Each kind of value shows in its first character. */
  lemma FirstCharacter(v: Json, x: string)
    requires Printable(v)
    ensures Render(v) != [] && (Render(v) + x)[0] == Render(v)[0]
    ensures !EndsToken(Render(v)[0])
    ensures match v
            case Null => Render(v)[0] == 'n'
            case Bool(b) => Render(v)[0] == if b then 't' else 'f'
            case Num(text) => Render(v)[0] !in {'"', '[', '{', 'n', 't', 'f'}
            case Str(_) => Render(v)[0] == '"'
            case Arr(_) => Render(v)[0] == '['
            case Obj(_) => Render(v)[0] == '{'
  {
  }

  lemma NumberNotLonger(s: string, t: string, x: string, y: string)
    requires NumberText(t) && Follows(x) && s + x == t + y
    ensures |t| <= |s|
  {
    assert forall i :: 0 <= i < |t| ==> (s + x)[i] == t[i];
    assert x != [] ==> (s + x)[|s|] == x[0];
  }

  /** A number ends at the first character that ends a token. */
  lemma NumberUnique(s: string, t: string, x: string, y: string)
    requires NumberText(s) && NumberText(t) && Follows(x) && Follows(y) && s + x == t + y
    ensures s == t && x == y
  {
    NumberNotLonger(s, t, x, y);
    NumberNotLonger(t, s, y, x);
    SameLengthSame(s, t, x, y);
  }

  lemma SameLengthSame(s: string, t: string, x: string, y: string)
    requires |s| == |t| && s + x == t + y
    ensures s == t && x == y
  {
    assert s == (s + x)[..|s|] && t == (t + y)[..|s|];
    assert x == (s + x)[|s|..] && y == (t + y)[|s|..];
  }

  lemma SameKind(v: Json, w: Json, x: string, y: string)
    requires Printable(v) && Printable(w) && Render(v) + x == Render(w) + y
    ensures v.Null? <==> w.Null?
    ensures v.Bool? <==> w.Bool?
    ensures v.Bool? ==> v == w
    ensures v.Num? <==> w.Num?
    ensures v.Str? <==> w.Str?
    ensures v.Arr? <==> w.Arr?
    ensures v.Obj? <==> w.Obj?
  {
    FirstCharacter(v, x);
    FirstCharacter(w, y);
  }

  /** A printed value determines the value, and what follows it. */
  lemma {:induction false} RenderUnique(v: Json, w: Json, x: string, y: string)
    requires Printable(v) && Printable(w) && Follows(x) && Follows(y)
    requires Render(v) + x == Render(w) + y
    ensures v == w && x == y
    decreases v, 1
  {
    SameKind(v, w, x, y);
    match v
    case Null => SameLengthSame(Render(v), Render(w), x, y);
    case Bool(b) => SameLengthSame(Render(v), Render(w), x, y);
    case Num(text) => NumberUnique(text, w.text, x, y);
    case Str(s) => QuotedUnique(s, w.s, x, y);
    case Arr(items) =>
      ArrayBody(items, x);
      ArrayBody(w.items, y);
      ItemsUnique(items, w.items, x, y);
    case Obj(entries) =>
      ObjectBody(entries, x);
      ObjectBody(w.entries, y);
      EntriesUnique(entries, w.entries, x, y);
  }

  lemma ArrayBody(items: seq<Json>, x: string)
    ensures (Render(Arr(items)) + x)[1..] == RenderItems(items) + ([']'] + x)
  {
  }

  lemma ObjectBody(entries: seq<Entry>, x: string)
    ensures (Render(Obj(entries)) + x)[1..] == RenderEntries(entries) + (['}'] + x)
  {
  }

  /** What follows the first item of a list. */
  function AfterItem(items: seq<Json>, x: string): (r: string)
    requires items != []
    ensures Follows(r) && r != []
  {
    if |items| == 1 then [']'] + x else [','] + (RenderItems(items[1..]) + ([']'] + x))
  }

  lemma ItemsHead(items: seq<Json>, x: string)
    requires PrintableItems(items)
    ensures items == [] ==> (RenderItems(items) + ([']'] + x))[0] == ']'
    ensures items != [] ==>
              && RenderItems(items) + ([']'] + x) == Render(items[0]) + AfterItem(items, x)
              && (RenderItems(items) + ([']'] + x))[0] != ']'
  {
    if items != [] {
      FirstCharacter(items[0], AfterItem(items, x));
      if |items| > 1 {
        Regroup(Render(items[0]), [','], RenderItems(items[1..]), [']'] + x);
      }
    }
  }

  lemma Regroup(a: string, b: string, c: string, d: string)
    ensures ((a + b) + c) + d == a + (b + (c + d))
  {
  }

  lemma {:induction false} ItemsUnique(a: seq<Json>, b: seq<Json>, x: string, y: string)
    requires PrintableItems(a) && PrintableItems(b)
    requires RenderItems(a) + ([']'] + x) == RenderItems(b) + ([']'] + y)
    ensures a == b && x == y
    decreases a, 0
  {
    ItemsHead(a, x);
    ItemsHead(b, y);
    if a == [] {
      assert (RenderItems(a) + ([']'] + x))[1..] == x && (RenderItems(b) + ([']'] + y))[1..] == y;
    } else {
      RenderUnique(a[0], b[0], AfterItem(a, x), AfterItem(b, y));
      AfterItemUnique(a, b, x, y);
      if |a| > 1 {
        ItemsUnique(a[1..], b[1..], x, y);
      } else {
        assert a == [a[0]] && b == [b[0]];
      }
    }
  }

  lemma AfterItemUnique(a: seq<Json>, b: seq<Json>, x: string, y: string)
    requires a != [] && b != [] && AfterItem(a, x) == AfterItem(b, y)
    ensures |a| == 1 <==> |b| == 1
    ensures |a| == 1 ==> x == y
    ensures |a| > 1 ==> RenderItems(a[1..]) + ([']'] + x) == RenderItems(b[1..]) + ([']'] + y)
  {
    assert AfterItem(a, x)[0] == AfterItem(b, y)[0];
    assert AfterItem(a, x)[1..] == AfterItem(b, y)[1..];
    assert |a| > 1 ==> AfterItem(a, x)[1..] == RenderItems(a[1..]) + ([']'] + x);
    assert |b| > 1 ==> AfterItem(b, y)[1..] == RenderItems(b[1..]) + ([']'] + y);
    assert |a| == 1 ==> AfterItem(a, x)[1..] == x;
    assert |b| == 1 ==> AfterItem(b, y)[1..] == y;
  }

  function AfterEntry(entries: seq<Entry>, x: string): (r: string)
    requires entries != []
    ensures Follows(r) && r != []
  {
    if |entries| == 1 then ['}'] + x else [','] + (RenderEntries(entries[1..]) + (['}'] + x))
  }

  lemma EntriesHead(entries: seq<Entry>, x: string)
    ensures entries == [] ==> (RenderEntries(entries) + (['}'] + x))[0] == '}'
    ensures entries != [] ==>
              && RenderEntries(entries) + (['}'] + x)
                 == Quoted(entries[0].key) + ([':'] + (Render(entries[0].value) + AfterEntry(entries, x)))
              && (RenderEntries(entries) + (['}'] + x))[0] == '"'
  {
    if entries != [] {
      Regroup(Quoted(entries[0].key), [':'], Render(entries[0].value), AfterEntry(entries, x));
      if |entries| > 1 {
        Regroup(RenderEntry(entries[0]), [','], RenderEntries(entries[1..]), ['}'] + x);
      }
    }
  }

  lemma {:induction false} EntriesUnique(a: seq<Entry>, b: seq<Entry>, x: string, y: string)
    requires PrintableEntries(a) && PrintableEntries(b)
    requires RenderEntries(a) + (['}'] + x) == RenderEntries(b) + (['}'] + y)
    ensures a == b && x == y
    decreases a, 0
  {
    EntriesHead(a, x);
    EntriesHead(b, y);
    if a == [] {
      assert (RenderEntries(a) + (['}'] + x))[1..] == x && (RenderEntries(b) + (['}'] + y))[1..] == y;
    } else {
      var u, v := Render(a[0].value) + AfterEntry(a, x), Render(b[0].value) + AfterEntry(b, y);
      QuotedUnique(a[0].key, b[0].key, [':'] + u, [':'] + v);
      assert ([':'] + u)[1..] == u && ([':'] + v)[1..] == v;
      RenderUnique(a[0].value, b[0].value, AfterEntry(a, x), AfterEntry(b, y));
      AfterEntryUnique(a, b, x, y);
      assert a[0] == Entry(a[0].key, a[0].value) == b[0];
      if |a| > 1 {
        EntriesUnique(a[1..], b[1..], x, y);
      } else {
        assert a == [a[0]] && b == [b[0]];
      }
    }
  }

  lemma AfterEntryUnique(a: seq<Entry>, b: seq<Entry>, x: string, y: string)
    requires a != [] && b != [] && AfterEntry(a, x) == AfterEntry(b, y)
    ensures |a| == 1 <==> |b| == 1
    ensures |a| == 1 ==> x == y
    ensures |a| > 1 ==> RenderEntries(a[1..]) + (['}'] + x) == RenderEntries(b[1..]) + (['}'] + y)
  {
    assert AfterEntry(a, x)[0] == AfterEntry(b, y)[0];
    assert AfterEntry(a, x)[1..] == AfterEntry(b, y)[1..];
    assert |a| > 1 ==> AfterEntry(a, x)[1..] == RenderEntries(a[1..]) + (['}'] + x);
    assert |b| > 1 ==> AfterEntry(b, y)[1..] == RenderEntries(b[1..]) + (['}'] + y);
    assert |a| == 1 ==> AfterEntry(a, x)[1..] == x;
    assert |b| == 1 ==> AfterEntry(b, y)[1..] == y;
  }

  /** Canonical texts are equal exactly for equal values. */
  lemma CanonicalIffEqual(v: JsonValue, w: JsonValue)
    ensures Render(v) == Render(w) <==> v == w
  {
    if Render(v) == Render(w) {
      assert Render(v) + [] == Render(w) + [];
      RenderUnique(v, w, [], []);
    }
  }

  // ---- no NUL --------------------------------------------------------------

  lemma {:induction false} QuotedHasNoNul(s: string)
    ensures NUL !in EscapedText(s) && NUL !in Quoted(s)
  {
    if s != [] {
      QuotedHasNoNul(s[1..]);
    }
  }

  /** No canonical text contains the character U+0000, whatever the value contains. */
  lemma {:induction false} RenderHasNoNul(v: Json)
    requires Printable(v)
    ensures NUL !in Render(v)
    decreases v, 1
  {
    match v
    case Str(s) => QuotedHasNoNul(s);
    case Arr(items) => ItemsHaveNoNul(items);
    case Obj(entries) => EntriesHaveNoNul(entries);
    case _ =>
  }

  lemma {:induction false} ItemsHaveNoNul(items: seq<Json>)
    requires PrintableItems(items)
    ensures NUL !in RenderItems(items)
    decreases items, 0
  {
    if items != [] {
      RenderHasNoNul(items[0]);
      ItemsHaveNoNul(items[1..]);
    }
  }

  lemma {:induction false} EntriesHaveNoNul(entries: seq<Entry>)
    requires PrintableEntries(entries)
    ensures NUL !in RenderEntries(entries)
    decreases entries, 0
  {
    if entries != [] {
      QuotedHasNoNul(entries[0].key);
      RenderHasNoNul(entries[0].value);
      EntriesHaveNoNul(entries[1..]);
    }
  }
}
