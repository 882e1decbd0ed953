/** redact_backend_url of cache.py, on the raw string. */
module Redact {
  import opened Common

  /** Two library functions are parameters: percent- and plus-decoding, and the test for a
      decimal digit in any script. */
  datatype Library = Library(unquote: string -> string, digit: char -> bool)

  predicate Reserved(c: char) {
    c in {'?', '#', '@', '&', '=', '%', '+'}
  }

  /** What is assumed of them: text without '%' and '+' decodes to itself, and no reserved
      character is a digit. */
  ghost predicate Lawful(lib: Library) {
    && (forall s :: '%' !in s && '+' !in s ==> lib.unquote(s) == s)
    && (forall c :: Reserved(c) ==> !lib.digit(c))
  }

  const SEPARATOR := "://"
  const UNRECOGNISED := "<unrecognised backend URL>"
  const HIDDEN := "<redacted>"

  predicate SchemeChar(c: char, first: bool) {
    'a' <= c <= 'z' || 'A' <= c <= 'Z' || (!first && ('0' <= c <= '9' || c == '+' || c == '.' || c == '-'))
  }

  predicate ValidScheme(s: string) {
    s != [] && SchemeChar(s[0], true) && forall i :: 0 < i < |s| ==> SchemeChar(s[i], false)
  }

  /** Where the first "://" begins. */
  function FindSeparator(s: string): Option<nat> {
    if |s| < 3 then None
    else if s[..3] == SEPARATOR then Some(0)
    else match FindSeparator(s[1..]) case Some(i) => Some(i + 1) case None => None
  }

  predicate Ends(c: char) {
    c == '?' || c == '#'
  }

  /** The index of the first '?' or '#', or the length. */
  function Cut(s: string): (r: nat)
    ensures r <= |s|
  {
    if s == [] || Ends(s[0]) then 0 else 1 + Cut(s[1..])
  }

  /** rpartition("@")[2]: what follows the last '@', or everything. */
  function AfterLastAt(s: string): string {
    if '@' !in s then s else AfterLastAt(s[1..])
  }

  function Index(s: string, c: char): (r: nat)
    ensures r <= |s| && (r < |s| <==> c in s)
    ensures r < |s| ==> s[r] == c
    ensures forall i :: 0 <= i < r ==> s[i] != c
  {
    if s == [] || s[0] == c then 0 else 1 + Index(s[1..], c)
  }

  /** partition(c)[0]: what precedes the first `c`, or everything. */
  function Before(s: string, c: char): string {
    s[..Index(s, c)]
  }

  /** The value of a field of a query, if it is a non-blank "db" field. */
  function DbField(lib: Library, field: string): Option<string> {
    var i := Index(field, '=');
    if i == |field| || i + 1 == |field| || lib.unquote(field[..i]) != "db" then None
    else Some(lib.unquote(field[i + 1..]))
  }

  /** parse_qs(query).get("db", [""])[0]. */
  function FirstDb(lib: Library, query: string): string
    decreases |query|
  {
    var i := Index(query, '&');
    match DbField(lib, query[..i])
    case Some(value) => value
    case None => if i == |query| then "" else FirstDb(lib, query[i + 1..])
  }

  predicate IsDigits(lib: Library, s: string) {
    s != [] && forall i :: 0 <= i < |s| ==> lib.digit(s[i])
  }

  function Suffix(lib: Library, tail: string): string {
    var query := if tail != [] && tail[0] == '?' then Before(tail[1..], '#') else "";
    var db := FirstDb(lib, query);
    if IsDigits(lib, db) then "?db=" + db else ""
  }

  function RedactRest(lib: Library, rest: string): string {
    var location := AfterLastAt(rest[..Cut(rest)]);
    var tail := rest[Cut(rest)..];
    if '@' in location || '@' in tail then HIDDEN else location + Suffix(lib, tail)
  }

  function Redacted(lib: Library, url: string): string {
    match FindSeparator(url)
    case None => UNRECOGNISED
    case Some(i) =>
      FindSeparatorFits(url);
      if !ValidScheme(url[..i]) then UNRECOGNISED
      else url[..i] + SEPARATOR + RedactRest(lib, url[i + 3..])
  }

  // ---- pieces --------------------------------------------------------------

  lemma {:induction false} FindSeparatorFits(s: string)
    ensures FindSeparator(s).Some? ==> FindSeparator(s).value + 3 <= |s|
  {
    if |s| >= 3 && s[..3] != SEPARATOR {
      FindSeparatorFits(s[1..]);
    }
  }

  /** A valid scheme holds no ':', so the first "://" after it is the separator. */
  lemma {:induction false} SeparatorAfter(a: string, b: string)
    requires ':' !in a
    ensures FindSeparator(a + SEPARATOR + b) == Some(|a|)
  {
    var s := a + SEPARATOR + b;
    if a == [] {
      assert s[..3] == SEPARATOR;
    } else {
      assert s[0] == a[0] && a[0] in a;
      assert s[..3][0] != SEPARATOR[0];
      assert s[1..] == a[1..] + SEPARATOR + b;
      SeparatorAfter(a[1..], b);
    }
  }

  lemma RedactedForm(lib: Library, scheme: string, rest: string)
    requires ValidScheme(scheme)
    ensures Redacted(lib, scheme + SEPARATOR + rest) == scheme + SEPARATOR + RedactRest(lib, rest)
    ensures ':' !in scheme
  {
    SchemeHasNoColon(scheme);
    SeparatorAfter(scheme, rest);
    var url := scheme + SEPARATOR + rest;
    assert url[..|scheme|] == scheme && url[|scheme| + 3..] == rest;
  }

  lemma SchemeHasNoColon(scheme: string)
    requires ValidScheme(scheme)
    ensures ':' !in scheme && '@' !in scheme
  {
    assert forall i :: 0 <= i < |scheme| ==> SchemeChar(scheme[i], false);
  }

  lemma {:induction false} CutAppend(a: string, b: string)
    requires forall i :: 0 <= i < |a| ==> !Ends(a[i])
    ensures Cut(a + b) == |a| + Cut(b)
  {
    if a == [] {
      assert a + b == b;
    } else {
      assert (a + b)[1..] == a[1..] + b;
      CutAppend(a[1..], b);
    }
  }

  lemma {:induction false} CutFound(s: string)
    ensures forall i :: 0 <= i < Cut(s) ==> !Ends(s[i])
    ensures Cut(s) < |s| ==> Ends(s[Cut(s)])
  {
    if s != [] && !Ends(s[0]) {
      CutFound(s[1..]);
    }
  }

  lemma {:induction false} AfterLastAtFacts(s: string)
    ensures '@' !in AfterLastAt(s)
    ensures forall c :: c in AfterLastAt(s) ==> c in s
    decreases |s|
  {
    if '@' in s {
      AfterLastAtFacts(s[1..]);
    }
  }

  lemma {:induction false} AfterLastAtOf(u: string, h: string)
    requires '@' !in h
    ensures AfterLastAt(u + "@" + h) == h
  {
    var s := u + "@" + h;
    assert s[|u|] == '@';
    if u == [] {
      assert s[1..] == h;
    } else {
      assert s[1..] == u[1..] + "@" + h;
      AfterLastAtOf(u[1..], h);
    }
  }

  // ---- independence of the userinfo ----------------------------------------

  predicate Plain(s: string) {
    forall i :: 0 <= i < |s| ==> !Ends(s[i])
  }

  /** Userinfo without '?' and '#' leaves no trace: the output is that of the URL without it,
      whatever query or fragment follows the location. */
  lemma UserinfoLeavesNoTrace(lib: Library, scheme: string, u: string, h: string, tail: string)
    requires ValidScheme(scheme) && Plain(u) && Plain(h) && '@' !in h
    requires tail == [] || Ends(tail[0])
    ensures Redacted(lib, scheme + SEPARATOR + (u + "@" + h + tail)) == Redacted(lib, scheme + SEPARATOR + (h + tail))
  {
    RedactedForm(lib, scheme, u + "@" + h + tail);
    RedactedForm(lib, scheme, h + tail);
    CutAppend(u + "@" + h, tail);
    CutAppend(h, tail);
    assert Cut(tail) == 0;
    assert (u + "@" + h + tail)[..|u + "@" + h|] == u + "@" + h && (h + tail)[..|h|] == h;
    assert (u + "@" + h + tail)[|u + "@" + h|..] == tail && (h + tail)[|h|..] == tail;
    AfterLastAtOf(u, h);
    assert AfterLastAt(h) == h;
  }

  /** With a bare location the output is the location; userinfo with a '?' or '#' in it hides
      the whole location instead. Either way no other property of the userinfo matters. */
  lemma UserinfoIndependence(lib: Library, scheme: string, u: string, h: string)
    requires Lawful(lib) && ValidScheme(scheme) && Plain(h) && '@' !in h
    ensures Redacted(lib, scheme + SEPARATOR + (u + "@" + h))
            == scheme + SEPARATOR + (if Plain(u) then h else HIDDEN)
  {
    var rest := u + "@" + h;
    RedactedForm(lib, scheme, rest);
    if Plain(u) {
      CutAppend(rest, []);
      assert rest + [] == rest && rest[..|rest|] == rest && rest[|rest|..] == [];
      AfterLastAtOf(u, h);
      NoSuffix(lib);
    } else {
      var i :| 0 <= i < |u| && Ends(u[i]);
      assert rest[i] == u[i];
      CutFound(rest);
      assert Cut(rest) <= i;
      assert rest[Cut(rest)..][|u| - Cut(rest)] == '@';
    }
  }

  lemma NoSuffix(lib: Library)
    ensures Suffix(lib, []) == ""
  {
    assert FirstDb(lib, "") == "";
  }

  // ---- every output --------------------------------------------------------

  lemma SuffixHasNoAt(lib: Library, tail: string)
    requires Lawful(lib)
    ensures '@' !in Suffix(lib, tail)
  {
  }

  /** No output contains an '@', so none contains userinfo in URL syntax. */
  lemma OutputHasNoAt(lib: Library, url: string)
    requires Lawful(lib)
    ensures '@' !in Redacted(lib, url)
  {
    FindSeparatorFits(url);
    if FindSeparator(url).Some? && ValidScheme(url[..FindSeparator(url).value]) {
      var rest := url[FindSeparator(url).value + 3..];
      SchemeHasNoColon(url[..FindSeparator(url).value]);
      AfterLastAtFacts(rest[..Cut(rest)]);
      SuffixHasNoAt(lib, rest[Cut(rest)..]);
    }
  }

  lemma DigitsDecode(lib: Library, db: string)
    requires Lawful(lib) && IsDigits(lib, db)
    ensures FirstDb(lib, "db=" + db) == db
    ensures Suffix(lib, "?db=" + db) == "?db=" + db
  {
    var query := "db=" + db;
    assert forall i :: 0 <= i < |db| ==> !Reserved(db[i]);
    assert '&' !in query && '#' !in query && '%' !in db && '+' !in db;
    assert query[..|query|] == query;
    assert query[0] == 'd' && query[1] == 'b' && query[2] == '=';
    assert Index(query, '=') == 2;
    assert query[..2] == "db" && query[3..] == db;
    assert DbField(lib, query) == Some(db);
    assert ("?db=" + db)[1..] == query;
  }

  /** A location followed by a "db" suffix is left as it is. */
  lemma LocationIsFixed(lib: Library, location: string, tail: string)
    requires Lawful(lib) && Plain(location) && '@' !in location
    ensures RedactRest(lib, location + Suffix(lib, tail)) == location + Suffix(lib, tail)
  {
    var suffix := Suffix(lib, tail);
    var output := location + suffix;
    CutAppend(location, suffix);
    assert Cut(suffix) == 0;
    assert output[..|location|] == location && output[|location|..] == suffix;
    SuffixHasNoAt(lib, tail);
    SuffixIsFixed(lib, tail);
  }

  lemma BareLocationIsFixed(lib: Library, location: string)
    requires Lawful(lib) && Plain(location) && '@' !in location
    ensures RedactRest(lib, location) == location
  {
    NoSuffix(lib);
    LocationIsFixed(lib, location, []);
    assert location + Suffix(lib, []) == location;
  }

  lemma RestIsFixed(lib: Library, rest: string)
    requires Lawful(lib)
    ensures RedactRest(lib, RedactRest(lib, rest)) == RedactRest(lib, rest)
  {
    var before := rest[..Cut(rest)];
    var location := AfterLastAt(before);
    AfterLastAtFacts(before);
    CutFound(rest);
    if '@' in rest[Cut(rest)..] {
      BareLocationIsFixed(lib, HIDDEN);
    } else {
      assert Plain(location) by {
        forall i | 0 <= i < |location| ensures !Ends(location[i]) {
          assert location[i] in before;
        }
      }
      LocationIsFixed(lib, location, rest[Cut(rest)..]);
    }
  }

  lemma SuffixIsFixed(lib: Library, tail: string)
    requires Lawful(lib)
    ensures Suffix(lib, Suffix(lib, tail)) == Suffix(lib, tail)
  {
    var query := if tail != [] && tail[0] == '?' then Before(tail[1..], '#') else "";
    var db := FirstDb(lib, query);
    if IsDigits(lib, db) {
      DigitsDecode(lib, db);
    } else {
      NoSuffix(lib);
    }
  }

  /** Redacting twice is redacting once, on every string. */
  lemma Idempotent(lib: Library, url: string)
    requires Lawful(lib)
    ensures Redacted(lib, Redacted(lib, url)) == Redacted(lib, url)
  {
    FindSeparatorFits(url);
    if FindSeparator(url).Some? && ValidScheme(url[..FindSeparator(url).value]) {
      var scheme := url[..FindSeparator(url).value];
      var rest := url[FindSeparator(url).value + 3..];
      RedactedForm(lib, scheme, RedactRest(lib, rest));
      RestIsFixed(lib, rest);
    } else {
      NoColonNoSeparator(UNRECOGNISED);
    }
  }

  lemma {:induction false} NoColonNoSeparator(s: string)
    requires ':' !in s
    ensures FindSeparator(s) == None
  {
    if |s| >= 3 {
      assert s[..3][0] in s;
      NoColonNoSeparator(s[1..]);
    }
  }
}
