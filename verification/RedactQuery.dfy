/** What redaction keeps of a URL: the scheme, the location, and a numeric database number. */
module RedactQuery {
  import opened Common
  import opened Redact

  // ---- the location --------------------------------------------------------

  /** The location is what follows the last '@', or everything. */
  ghost predicate Located(before: string, location: string) {
    '@' !in location && (before == location || exists u :: before == u + "@" + location)
  }

  lemma {:induction false} SplitAtLastAt(s: string) returns (u: string)
    requires '@' in s
    ensures s == u + "@" + AfterLastAt(s)
  {
    if '@' in s[1..] {
      u := SplitAtLastAt(s[1..]);
      u := [s[0]] + u;
    } else {
      assert s[0] == '@';
      assert AfterLastAt(s) == s[1..];
      u := "";
    }
  }

  lemma LocatedIff(before: string, location: string)
    ensures Located(before, location) <==> location == AfterLastAt(before)
  {
    AfterLastAtFacts(before);
    if '@' in before {
      var u := SplitAtLastAt(before);
      assert Located(before, AfterLastAt(before));
    }
    if Located(before, location) && before != location {
      var u :| before == u + "@" + location;
      AfterLastAtOf(u, location);
    }
  }

  // ---- the form of every output --------------------------------------------

  lemma RestSplits(rest: string) returns (before: string, tail: string)
    ensures rest == before + tail && Plain(before) && (tail == [] || Ends(tail[0]))
    ensures before == rest[..Cut(rest)] && tail == rest[Cut(rest)..]
  {
    CutFound(rest);
    before, tail := rest[..Cut(rest)], rest[Cut(rest)..];
  }

  lemma RedactedParts(lib: Library, scheme: string, before: string, tail: string)
    requires ValidScheme(scheme) && Plain(before) && (tail == [] || Ends(tail[0]))
    ensures Redacted(lib, scheme + "://" + (before + tail))
            == scheme + "://" + (if '@' in tail then "<redacted>" else AfterLastAt(before) + Suffix(lib, tail))
  {
    var rest := before + tail;
    RedactedForm(lib, scheme, rest);
    CutAppend(before, tail);
    assert Cut(tail) == 0 && rest[..|before|] == before && rest[|before|..] == tail;
    AfterLastAtFacts(before);
    hide Redacted, Suffix;
  }

  lemma SuffixForm(lib: Library, tail: string)
    ensures Suffix(lib, tail) == "" || exists db :: IsDigits(lib, db) && Suffix(lib, tail) == "?db=" + db
  {
  }

  /** Nothing but the scheme, the location and a numeric database can be in the output. */
  lemma OutputForm(lib: Library, scheme: string, rest: string) returns (before: string, tail: string, location: string)
    requires ValidScheme(scheme)
    ensures rest == before + tail && Plain(before) && (tail == [] || Ends(tail[0])) && Located(before, location)
    ensures var out := Redacted(lib, scheme + "://" + rest);
            if '@' in tail then out == scheme + "://" + "<redacted>"
            else out == scheme + "://" + location
                 || exists db :: IsDigits(lib, db) && out == scheme + "://" + (location + ("?db=" + db))
  {
    before, tail := RestSplits(rest);
    location := AfterLastAt(before);
    LocatedIff(before, location);
    RedactedParts(lib, scheme, before, tail);
    SuffixForm(lib, tail);
    hide Redacted, Suffix, IsDigits, Located;
    if '@' !in tail && Suffix(lib, tail) == "" {
      assert location + "" == location;
    }
  }

  // ---- the query -----------------------------------------------------------

  function Join(fields: seq<string>): string {
    if fields == [] then ""
    else if |fields| == 1 then fields[0]
    else fields[0] + "&" + Join(fields[1..])
  }

  /** Text that can stand between the '&' of a query. */
  predicate IsField(field: string) {
    '&' !in field && '#' !in field && '@' !in field
  }

  /** The value of the first "db" field that is not blank. */
  function FirstNonblankDb(lib: Library, fields: seq<string>): Option<string> {
    if fields == [] then None
    else match DbField(lib, fields[0])
         case Some(v) => Some(v)
         case None => FirstNonblankDb(lib, fields[1..])
  }

  lemma {:induction false} IndexAppend(a: string, b: string, c: char)
    requires c !in a
    ensures Index(a + b, c) == |a| + Index(b, c)
  {
    if a == [] {
      assert a + b == b;
    } else {
      assert (a + b)[1..] == a[1..] + b && a[0] in a;
      IndexAppend(a[1..], b, c);
    }
  }

  lemma JoinSplits(fields: seq<string>)
    requires |fields| > 1 && '&' !in fields[0]
    ensures var f, query := fields[0], Join(fields);
            && Index(query, '&') == |f| < |query| && query[..|f|] == f && query[|f| + 1..] == Join(fields[1..])
  {
    var f, rest := fields[0], "&" + Join(fields[1..]);
    IndexAppend(f, rest, '&');
    assert Join(fields) == f + rest && Index(rest, '&') == 0;
    hide Join, Index;
  }

  lemma {:induction false} FirstDbOfFields(lib: Library, fields: seq<string>)
    requires forall f :: f in fields ==> IsField(f)
    ensures FirstDb(lib, Join(fields)) == match FirstNonblankDb(lib, fields) case Some(v) => v case None => ""
    decreases |fields|
  {
    if fields == [] {
      assert DbField(lib, "") == None;
    } else {
      var f, rest := fields[0], fields[1..];
      assert f in fields && forall g :: g in rest ==> g in fields;
      hide DbField;
      if rest == [] {
        assert f[..|f|] == f;
      } else {
        JoinSplits(fields);
        hide Join, Index;
        FirstDbOfFields(lib, rest);
      }
    }
  }

  lemma {:induction false} JoinHasNoMark(fields: seq<string>, c: char)
    requires c != '&' && forall f :: f in fields ==> c !in f
    ensures c !in Join(fields)
  {
    if |fields| > 1 {
      assert forall f :: f in fields[1..] ==> f in fields;
      JoinHasNoMark(fields[1..], c);
    }
  }

  /** A fragment: nothing, or text from a '#' on. */
  predicate Fragment(s: string) {
    (s == [] || s[0] == '#') && '@' !in s
  }

  lemma QueryOf(lib: Library, fields: seq<string>, fragment: string)
    requires Fragment(fragment) && forall f :: f in fields ==> IsField(f)
    ensures var tail := "?" + Join(fields) + fragment;
            '@' !in tail && Suffix(lib, tail) == match FirstNonblankDb(lib, fields)
                                                 case Some(v) => if IsDigits(lib, v) then "?db=" + v else ""
                                                 case None => ""
  {
    var query, tail := Join(fields), "?" + Join(fields) + fragment;
    JoinHasNoMark(fields, '#');
    JoinHasNoMark(fields, '@');
    assert tail[1..] == query + fragment;
    IndexAppend(query, fragment, '#');
    assert Index(fragment, '#') == 0;
    assert Before(tail[1..], '#') == query;
    FirstDbOfFields(lib, fields);
    hide FirstDb, Join, FirstNonblankDb;
  }

  /** The exact output for any URL with a query that holds no '@': the location, and the first
      non-blank "db" if it is a number. Whatever else the query and the fragment hold is gone. */
  lemma QueryOutput(lib: Library, scheme: string, before: string, location: string, fields: seq<string>, fragment: string)
    requires ValidScheme(scheme) && Plain(before) && Located(before, location)
    requires Fragment(fragment) && forall f :: f in fields ==> IsField(f)
    ensures Redacted(lib, scheme + "://" + (before + ("?" + Join(fields) + fragment)))
            == scheme + "://" + (location + match FirstNonblankDb(lib, fields)
                                            case Some(v) => (if IsDigits(lib, v) then "?db=" + v else "")
                                            case None => "")
  {
    LocatedIff(before, location);
    QueryOf(lib, fields, fragment);
    hide Redacted, Suffix, Join, FirstNonblankDb, IsDigits, Located;
    RedactedParts(lib, scheme, before, "?" + Join(fields) + fragment);
  }

  /** Without a query the location is all. */
  lemma NoQueryOutput(lib: Library, scheme: string, before: string, location: string, fragment: string)
    requires ValidScheme(scheme) && Plain(before) && Located(before, location) && Fragment(fragment)
    ensures Redacted(lib, scheme + "://" + (before + fragment)) == scheme + "://" + location
  {
    LocatedIff(before, location);
    NoSuffix(lib);
    assert Suffix(lib, fragment) == "";
    hide Redacted, Suffix, Located;
    RedactedParts(lib, scheme, before, fragment);
    assert location + "" == location;
  }

  // ---- consequences --------------------------------------------------------

  lemma {:induction false} FieldDropped(lib: Library, a: seq<string>, field: string, b: seq<string>)
    requires DbField(lib, field) == None
    ensures FirstNonblankDb(lib, a + [field] + b) == FirstNonblankDb(lib, a + b)
  {
    hide DbField;
    if a == [] {
      assert a + [field] + b == [field] + b && ([field] + b)[1..] == b && a + b == b;
    } else {
      assert (a + [field] + b)[1..] == a[1..] + [field] + b && (a + b)[1..] == a[1..] + b;
      FieldDropped(lib, a[1..], field, b);
    }
  }

  /** A field that is not a non-blank "db", such as a password, makes no difference wherever it
      stands, nor does the fragment. */
  lemma OtherFieldsLeaveNoTrace(lib: Library, scheme: string, before: string, a: seq<string>, field: string, b: seq<string>,
                                fragment1: string, fragment2: string)
    requires ValidScheme(scheme) && Plain(before) && Fragment(fragment1) && Fragment(fragment2)
    requires IsField(field) && DbField(lib, field) == None && (forall f :: f in a + b ==> IsField(f))
    ensures Redacted(lib, scheme + "://" + (before + ("?" + Join(a + [field] + b) + fragment1)))
            == Redacted(lib, scheme + "://" + (before + ("?" + Join(a + b) + fragment2)))
  {
    var location := AfterLastAt(before);
    LocatedIff(before, location);
    assert forall f :: f in a + [field] + b ==> f == field || f in a + b;
    FieldDropped(lib, a, field, b);
    hide Redacted, Join, FirstNonblankDb, DbField, Located;
    QueryOutput(lib, scheme, before, location, a + [field] + b, fragment1);
    QueryOutput(lib, scheme, before, location, a + b, fragment2);
  }

  /** A field whose plain name is not "db" is such a field. */
  lemma PlainNamesAreDropped(lib: Library, name: string, value: string)
    requires Lawful(lib) && name != "db" && '=' !in name && '%' !in name && '+' !in name
    ensures DbField(lib, name + "=" + value) == None
  {
    var field := name + "=" + value;
    assert field == name + ("=" + value);
    IndexAppend(name, "=" + value, '=');
    assert field[..|name|] == name;
  }

  /** So is a "db" field without a value, and a field without a '='. */
  lemma BlanksAreDropped(lib: Library, field: string)
    ensures DbField(lib, "db=") == None && ('=' !in field ==> DbField(lib, field) == None)
  {
    assert "db=" == "db" + "=";
    IndexAppend("db", "=", '=');
  }

  lemma {:induction false} FirstAfterOthers(lib: Library, a: seq<string>, field: string, b: seq<string>)
    requires DbField(lib, field).Some? && forall f :: f in a ==> DbField(lib, f) == None
    ensures FirstNonblankDb(lib, a + [field] + b) == DbField(lib, field)
  {
    hide DbField;
    if a == [] {
      assert a + [field] + b == [field] + b;
    } else {
      assert (a + [field] + b)[1..] == a[1..] + [field] + b && a[0] in a && forall f :: f in a[1..] ==> f in a;
      FirstAfterOthers(lib, a[1..], field, b);
    }
  }

  lemma DigitsAreUnreserved(lib: Library, digits: string, c: char)
    requires Lawful(lib) && IsDigits(lib, digits) && Reserved(c)
    ensures c !in digits
  {
    hide Reserved;
  }

  lemma DbOfDigits(lib: Library, digits: string)
    requires Lawful(lib) && IsDigits(lib, digits)
    ensures DbField(lib, "db=" + digits) == Some(digits) && IsField("db=" + digits)
  {
    DigitsAreUnreserved(lib, digits, '&');
    DigitsAreUnreserved(lib, digits, '#');
    DigitsAreUnreserved(lib, digits, '@');
    DigitsAreUnreserved(lib, digits, '%');
    DigitsAreUnreserved(lib, digits, '+');
    assert digits != "" && lib.unquote("db") == "db" && lib.unquote(digits) == digits;
    hide Lawful, IsDigits, Reserved;
    var field := "db=" + digits;
    assert field == "db" + ("=" + digits);
    IndexAppend("db", "=" + digits, '=');
    assert Index("=" + digits, '=') == 0;
    assert field[..2] == "db" && field[3..] == digits;
  }

  /** A numeric database survives behind any other fields, and in front of any. */
  lemma NumericDbSurvives(lib: Library, scheme: string, before: string, location: string, a: seq<string>, digits: string,
                          b: seq<string>, fragment: string)
    requires Lawful(lib) && ValidScheme(scheme) && Plain(before) && Located(before, location) && Fragment(fragment)
    requires IsDigits(lib, digits) && (forall f :: f in a + b ==> IsField(f)) && forall f :: f in a ==> DbField(lib, f) == None
    ensures Redacted(lib, scheme + "://" + (before + ("?" + Join(a + ["db=" + digits] + b) + fragment)))
            == scheme + "://" + (location + ("?db=" + digits))
  {
    var fields := a + ["db=" + digits] + b;
    DbOfDigits(lib, digits);
    FirstAfterOthers(lib, a, "db=" + digits, b);
    assert forall f :: f in fields ==> f == "db=" + digits || f in a + b;
    hide Redacted, Join, FirstNonblankDb, DbField, Located, Lawful;
    QueryOutput(lib, scheme, before, location, fields, fragment);
  }

  lemma JoinTwo(x: string, y: string)
    ensures Join([x, y]) == x + "&" + y
  {
    assert [x, y][1..] == [y] && Join([y]) == y;
  }

  /** A URL with credentials in both places: they are gone, the database stays. */
  lemma PasswordsAreDropped(lib: Library, scheme: string, u: string, h: string, password: string, digits: string, fragment: string)
    requires Lawful(lib) && ValidScheme(scheme) && Plain(u) && Plain(h) && '@' !in h && Fragment(fragment)
    requires IsField(password) && IsDigits(lib, digits)
    ensures Redacted(lib, scheme + "://" + (u + "@" + h + ("?" + (("password" + "=" + password) + "&" + ("db=" + digits)) + fragment)))
            == scheme + "://" + (h + ("?db=" + digits))
  {
    var field := "password" + "=" + password;
    PlainNamesAreDropped(lib, "password", password);
    JoinTwo(field, "db=" + digits);
    assert IsField(field) && Located(u + "@" + h, h);
    assert [field] + ["db=" + digits] + [] == [field, "db=" + digits] && [field] + [] == [field];
    hide Redacted, Join, Located, Lawful, DbField, IsField, IsDigits;
    NumericDbSurvives(lib, scheme, u + "@" + h, h, [field], digits, [], fragment);
  }

  // ---- what is not a URL ---------------------------------------------------

  /** A text is unrecognised exactly when it is not a valid scheme, "://" and something. */
  lemma UnrecognisedIff(lib: Library, url: string)
    ensures Redacted(lib, url) == "<unrecognised backend URL>"
            <==> !exists scheme, rest :: ValidScheme(scheme) && url == scheme + "://" + rest
  {
    FindSeparatorFits(url);
    if scheme, rest :| ValidScheme(scheme) && url == scheme + "://" + rest {
      RedactedForm(lib, scheme, rest);
      assert Redacted(lib, url)[0] == scheme[0] != '<';
    } else if FindSeparator(url).Some? {
      var i := FindSeparator(url).value;
      SeparatorFound(url);
      assert url == url[..i] + "://" + url[i + 3..];
    }
  }

  lemma {:induction false} SeparatorFound(s: string)
    requires FindSeparator(s).Some?
    ensures FindSeparator(s).value + 3 <= |s| && s[FindSeparator(s).value..FindSeparator(s).value + 3] == "://"
  {
    if s[..3] != SEPARATOR {
      SeparatorFound(s[1..]);
    }
  }
}
