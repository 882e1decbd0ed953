/** The embedding cache's keys, cache.py: what is hashed, and when two requests share it. */
module CacheKey {
  import opened Common
  import opened CanonicalJson

  type Byte = b: int | 0 <= b < 256

  // ---- UTF-8 ---------------------------------------------------------------

  function Utf8Char(c: char): (r: seq<Byte>)
    ensures r != [] && (0 in r ==> c == NUL)
  {
    var code := c as int;
    if code < 0x80 then [code]
    else if code < 0x800 then [0xC0 + code / 0x40, 0x80 + code % 0x40]
    else if code < 0x1_0000 then [0xE0 + code / 0x1000, 0x80 + code / 0x40 % 0x40, 0x80 + code % 0x40]
    else [0xF0 + code / 0x4_0000, 0x80 + code / 0x1000 % 0x40, 0x80 + code / 0x40 % 0x40, 0x80 + code % 0x40]
  }

  function Utf8(s: string): seq<Byte> {
    if s == [] then [] else Utf8Char(s[0]) + Utf8(s[1..])
  }

  lemma Utf8CharUnique(c: char, d: char, x: seq<Byte>, y: seq<Byte>)
    requires Utf8Char(c) + x == Utf8Char(d) + y
    ensures c == d && x == y
  {
    var a, b := Utf8Char(c) + x, Utf8Char(d) + y;
    assert a[0] == Utf8Char(c)[0] && b[0] == Utf8Char(d)[0];
    assert |Utf8Char(c)| == |Utf8Char(d)|;
    assert forall i :: 0 <= i < |Utf8Char(c)| ==> Utf8Char(c)[i] == a[i] == b[i] == Utf8Char(d)[i];
    CodeFromBytes(c, d);
    assert x == a[|Utf8Char(c)|..] && y == b[|Utf8Char(d)|..];
  }

  /** A code point is the number that its six-bit groups spell. */
  lemma Groups(m: nat)
    ensures m == m / 0x40 * 0x40 + m % 0x40
    ensures m == m / 0x1000 * 0x1000 + m / 0x40 % 0x40 * 0x40 + m % 0x40
    ensures m == m / 0x4_0000 * 0x4_0000 + m / 0x1000 % 0x40 * 0x1000 + m / 0x40 % 0x40 * 0x40 + m % 0x40
  {
    assert m / 0x1000 == m / 0x40 / 0x40;
    assert m / 0x4_0000 == m / 0x1000 / 0x40;
  }

  lemma CodeFromBytes(c: char, d: char)
    requires Utf8Char(c) == Utf8Char(d)
    ensures c == d
  {
    var m, n := c as nat, d as nat;
    var a, b := Utf8Char(c), Utf8Char(d);
    assert a[0] == b[0] && a[|a| - 1] == b[|b| - 1];
    Groups(m);
    Groups(n);
    if |a| == 3 {
      assert a[1] == b[1];
      assert m / 0x1000 == n / 0x1000 && m / 0x40 % 0x40 == n / 0x40 % 0x40 && m % 0x40 == n % 0x40;
    } else if |a| == 4 {
      assert a[1] == b[1] && a[2] == b[2];
      assert m / 0x4_0000 == n / 0x4_0000 && m / 0x1000 % 0x40 == n / 0x1000 % 0x40;
      assert m / 0x40 % 0x40 == n / 0x40 % 0x40 && m % 0x40 == n % 0x40;
    } else if |a| == 2 {
      assert m / 0x40 == n / 0x40 && m % 0x40 == n % 0x40;
    }
    assert m == n;
  }

  lemma {:induction false} Utf8Unique(s: string, t: string)
    ensures Utf8(s) == Utf8(t) ==> s == t
  {
    if Utf8(s) == Utf8(t) && s != [] && t != [] {
      Utf8CharUnique(s[0], t[0], Utf8(s[1..]), Utf8(t[1..]));
      Utf8Unique(s[1..], t[1..]);
    }
  }

  lemma {:induction false} Utf8NoZero(s: string)
    ensures 0 in Utf8(s) ==> NUL in s
  {
    if s != [] {
      Utf8NoZero(s[1..]);
    }
  }

  // ---- the preimage --------------------------------------------------------

  function Preimage(model: string, payload: JsonValue): seq<Byte> {
    Utf8(model) + [0] + Utf8(Render(payload))
  }

  /** Where two byte strings that end in a zero-free part after a zero agree, that zero is in
      the same place. */
  lemma LastZeroNotLater(a: seq<Byte>, b: seq<Byte>, x: seq<Byte>, y: seq<Byte>)
    requires a + [0] + x == b + [0] + y && 0 !in x
    ensures |b| <= |a|
  {
    var all := a + [0] + x;
    assert (b + [0] + y)[|b|] == 0;
    assert forall i :: |a| < i < |all| ==> all[i] in x;
  }

  lemma SplitAtLastZero(a: seq<Byte>, b: seq<Byte>, x: seq<Byte>, y: seq<Byte>)
    requires a + [0] + x == b + [0] + y && 0 !in x && 0 !in y
    ensures a == b && x == y
  {
    LastZeroNotLater(a, b, x, y);
    LastZeroNotLater(b, a, y, x);
    assert a == (a + [0] + x)[..|a|] && b == (b + [0] + y)[..|b|];
    assert x == (a + [0] + x)[|a| + 1..] && y == (b + [0] + y)[|b| + 1..];
  }

  /** The preimage decodes uniquely for every model name, U+0000 included, and every payload:
      its last zero byte is the separator. */
  lemma PreimageUnique(model1: string, payload1: JsonValue, model2: string, payload2: JsonValue)
    ensures Preimage(model1, payload1) == Preimage(model2, payload2) <==> model1 == model2 && payload1 == payload2
  {
    if Preimage(model1, payload1) == Preimage(model2, payload2) {
      RenderHasNoNul(payload1);
      RenderHasNoNul(payload2);
      Utf8NoZero(Render(payload1));
      Utf8NoZero(Render(payload2));
      SplitAtLastZero(Utf8(model1), Utf8(model2), Utf8(Render(payload1)), Utf8(Render(payload2)));
      Utf8Unique(model1, model2);
      Utf8Unique(Render(payload1), Render(payload2));
      CanonicalIffEqual(payload1, payload2);
    }
  }

  // ---- the key -------------------------------------------------------------

  datatype Endpoint = Embed | Embeddings

  function EndpointOf(path: string): Option<Endpoint> {
    if path == "/api/embed" then Some(Embed)
    else if path == "/api/embeddings" then Some(Embeddings)
    else None
  }

  function Field(body: map<string, JsonValue>, name: string): JsonValue {
    if name in body then body[name] else Str("")
  }

  /** The part of the body that the key depends on; /api/embed takes a single string for a
      list of one. */
  function Payload(endpoint: Endpoint, body: map<string, JsonValue>): JsonValue {
    match endpoint
    case Embed => if Field(body, "input").Str? then Single(Field(body, "input")) else Field(body, "input")
    case Embeddings => Field(body, "prompt")
  }

  function Single(v: JsonValue): JsonValue {
    assert [v][1..] == [] && PrintableItems([]) && PrintableItems([v]);
    Arr([v])
  }

  function Namespace(endpoint: Endpoint): string {
    match endpoint
    case Embed => "v1:embed:"
    case Embeddings => "v1:embeddings:"
  }

  /** The key, for any digest function. */
  function KeyOf(prefix: string, digest: seq<Byte> -> string, endpoint: Endpoint, model: string, body: map<string, JsonValue>): string {
    prefix + Namespace(endpoint) + digest(Preimage(model, Payload(endpoint, body)))
  }

  /** Keys of different endpoints differ whatever the digests are. */
  lemma EndpointsNeverShareKeys(prefix: string, d1: string, d2: string)
    ensures prefix + Namespace(Embed) + d1 != prefix + Namespace(Embeddings) + d2
  {
    var a, b := prefix + Namespace(Embed) + d1, prefix + Namespace(Embeddings) + d2;
    assert a[|prefix| + 8] == Namespace(Embed)[8] == ':';
    assert b[|prefix| + 8] == Namespace(Embeddings)[8] == 'd';
  }

  lemma SameDigest(prefix: string, endpoint: Endpoint, d1: string, d2: string)
    ensures prefix + Namespace(endpoint) + d1 == prefix + Namespace(endpoint) + d2 ==> d1 == d2
  {
    var n := |prefix + Namespace(endpoint)|;
    assert (prefix + Namespace(endpoint) + d1)[n..] == d1 && (prefix + Namespace(endpoint) + d2)[n..] == d2;
  }

  /** Two requests share a cache key exactly when endpoint, model and normalised payload agree,
      as long as the digest does not collide on their two preimages. */
  lemma KeysAgreeIff(prefix: string, digest: seq<Byte> -> string, e1: Endpoint, model1: string, body1: map<string, JsonValue>,
                     e2: Endpoint, model2: string, body2: map<string, JsonValue>)
    requires digest(Preimage(model1, Payload(e1, body1))) == digest(Preimage(model2, Payload(e2, body2)))
             ==> Preimage(model1, Payload(e1, body1)) == Preimage(model2, Payload(e2, body2))
    ensures KeyOf(prefix, digest, e1, model1, body1) == KeyOf(prefix, digest, e2, model2, body2)
            <==> e1 == e2 && model1 == model2 && Payload(e1, body1) == Payload(e2, body2)
  {
    var p1, p2 := Payload(e1, body1), Payload(e2, body2);
    var d1, d2 := digest(Preimage(model1, p1)), digest(Preimage(model2, p2));
    EndpointsNeverShareKeys(prefix, d1, d2);
    EndpointsNeverShareKeys(prefix, d2, d1);
    SameDigest(prefix, e1, d1, d2);
    PreimageUnique(model1, p1, model2, p2);
  }
}
