/** The credential check of the price API (app/api/prices/route.ts:12-23):
    an `Authorization` header in the Basic scheme of section 2 of RFC 7617,
    whose base64 payload (section 4 of RFC 4648) is decoded, split on `:`
    and compared, trimmed, with the administrator's login and password from
    the environment.  The base64 decoder is a parameter. */
module BasicAuth {
  import opened Wrappers

  /** The characters JavaScript's `String.prototype.trim` removes: white
      space (tab, vertical tab, form feed, space, no-break space, the byte
      order mark and the other space separators) and line terminators. */
  predicate IsWhitespace(c: char) {
    c == '\t' || c == '\U{000B}' || c == '\U{000C}' || c == ' ' || c == '\U{00A0}'
    || c == '\U{FEFF}' || c == '\U{1680}' || ('\U{2000}' <= c <= '\U{200A}')
    || c == '\U{202F}' || c == '\U{205F}' || c == '\U{3000}'
    || c == '\n' || c == '\r' || c == '\U{2028}' || c == '\U{2029}'
  }

  /** `s` without its leading white space: the longest suffix of `s` that
      does not start with white space, everything cut being white space. */
  function TrimStart(s: string): (r: string)
    ensures |r| <= |s| && r == s[|s| - |r|..]
    ensures forall i :: 0 <= i < |s| - |r| ==> IsWhitespace(s[i])
    ensures |r| > 0 ==> !IsWhitespace(r[0])
  {
    if |s| > 0 && IsWhitespace(s[0]) then TrimStart(s[1..]) else s
  }

  /** `s` without its trailing white space: the longest prefix of `s` that
      does not end with white space, everything cut being white space. */
  function TrimEnd(s: string): (r: string)
    ensures |r| <= |s| && r == s[..|r|]
    ensures forall i :: |r| <= i < |s| ==> IsWhitespace(s[i])
    ensures |r| > 0 ==> !IsWhitespace(r[|r| - 1])
  {
    if |s| > 0 && IsWhitespace(s[|s| - 1]) then TrimEnd(s[..|s| - 1]) else s
  }

  /** `s.trim()`. */
  function Trim(s: string): string {
    TrimEnd(TrimStart(s))
  }

  /** Trimming keeps a contiguous piece of the string: it adds no character. */
  lemma TrimKeepsCharacters(s: string, c: char)
    requires c !in s
    ensures c !in Trim(s)
  {
    var t := TrimStart(s);
    assert forall i :: 0 <= i < |t| ==> t[i] == s[|s| - |t| + i];
    assert c !in t;
    var r := TrimEnd(t);
    assert forall i :: 0 <= i < |r| ==> r[i] == t[i];
  }

  /** A string with white space at neither end is its own trim. */
  lemma TrimOfTrimmed(s: string)
    requires |s| > 0 ==> !IsWhitespace(s[0]) && !IsWhitespace(s[|s| - 1])
    ensures Trim(s) == s
  {
  }

  predicate AllWhitespace(w: string) {
    forall i :: 0 <= i < |w| ==> IsWhitespace(w[i])
  }

  /** Trimming strips exactly the white space padded around a string that
      has none at its ends. */
  lemma TrimPadding(w1: string, s: string, w2: string)
    requires AllWhitespace(w1) && AllWhitespace(w2)
    requires |s| > 0 ==> !IsWhitespace(s[0]) && !IsWhitespace(s[|s| - 1])
    ensures Trim(w1 + s + w2) == s
  {
    if |s| == 0 {
      assert w1 + s + w2 == w1 + w2;
    } else {
      assert w1 + s + w2 == w1 + (s + w2);
      TrimStartPadding(w1, s + w2);
      TrimEndPadding(s, w2);
    }
  }

  lemma {:induction false} TrimStartPadding(w: string, s: string)
    requires AllWhitespace(w)
    requires |s| > 0 ==> !IsWhitespace(s[0])
    ensures TrimStart(w + s) == s
  {
    if |w| > 0 {
      assert (w + s)[1..] == w[1..] + s;
      TrimStartPadding(w[1..], s);
    } else {
      assert w + s == s;
    }
  }

  lemma {:induction false} TrimEndPadding(s: string, w: string)
    requires AllWhitespace(w)
    requires |s| > 0 ==> !IsWhitespace(s[|s| - 1])
    ensures TrimEnd(s + w) == s
  {
    if |w| > 0 {
      assert (s + w)[..|s + w| - 1] == s + w[..|w| - 1];
      TrimEndPadding(s, w[..|w| - 1]);
    } else {
      assert s + w == s;
    }
  }

  /** Trimming twice is trimming once. */
  lemma {:induction false} TrimIdempotent(s: string)
    ensures Trim(Trim(s)) == Trim(s)
  {
    var r := Trim(s);
    var t := TrimStart(s);
    if |r| > 0 {
      assert r[0] == t[0];
    }
    TrimOfTrimmed(r);
  }

  /** The fields are joined back with the separator between them. */
  function Join(fields: seq<string>, sep: char): string
    requires |fields| >= 1
  {
    if |fields| == 1 then fields[0] else fields[0] + [sep] + Join(fields[1..], sep)
  }

  /** `s.split(sep)` for a one-character separator: the pieces between the
      separators, at least one (possibly empty) piece, none holding the
      separator, and joining them gives back `s`. */
  function Split(s: string, sep: char): (r: seq<string>)
    ensures |r| >= 1
    ensures forall i :: 0 <= i < |r| ==> sep !in r[i]
    ensures Join(r, sep) == s
    ensures |r| == 1 <==> sep !in s
  {
    if |s| == 0 then [""]
    else
      var rest := Split(s[1..], sep);
      if s[0] == sep then
        assert s == [sep] + s[1..];
        [""] + rest
      else
        JoinConsHead(s[0], rest, sep);
        assert s == [s[0]] + s[1..];
        [[s[0]] + rest[0]] + rest[1..]
  }

  /** Putting a character in front of the first field puts it in front of the
      joined string. */
  lemma JoinConsHead(c: char, fields: seq<string>, sep: char)
    requires |fields| >= 1
    ensures Join([[c] + fields[0]] + fields[1..], sep) == [c] + Join(fields, sep)
  {
    var g := [[c] + fields[0]] + fields[1..];
    if |fields| > 1 {
      assert g[1..] == fields[1..];
      assert Join(g, sep) == ([c] + fields[0]) + [sep] + Join(fields[1..], sep);
    }
  }

  /** Splitting undoes joining, when no field holds the separator. */
  lemma {:induction false} SplitJoin(fields: seq<string>, sep: char)
    requires |fields| >= 1
    requires forall i :: 0 <= i < |fields| ==> sep !in fields[i]
    ensures Split(Join(fields, sep), sep) == fields
  {
    var s := Join(fields, sep);
    var r := Split(s, sep);
    if |fields| == 1 {
      assert r == [s];
    } else {
      var tail := fields[1..];
      SplitJoin(tail, sep);
      SplitFieldThenSep(fields[0], Join(tail, sep), sep);
      assert s == fields[0] + [sep] + Join(tail, sep);
    }
  }

  /** Splitting a separator-free field, a separator and a rest gives the
      field followed by the pieces of the rest. */
  lemma {:induction false} SplitFieldThenSep(f: string, rest: string, sep: char)
    requires sep !in f
    ensures Split(f + [sep] + rest, sep) == [f] + Split(rest, sep)
  {
    if |f| == 0 {
      assert f + [sep] + rest == [sep] + rest;
      assert ([sep] + rest)[1..] == rest;
    } else {
      var s := f + [sep] + rest;
      assert s[1..] == f[1..] + [sep] + rest;
      SplitFieldThenSep(f[1..], rest, sep);
      assert [f[0]] + f[1..] == f;
    }
  }

  /** The login and password taken from a decoded payload: the first two
      `:`-pieces, the second defaulting to the empty string when absent.
      Anything after a second `:` is dropped. */
  function Credentials(decoded: string): (r: (string, string))
    ensures ':' !in r.0 && ':' !in r.1
    ensures ':' !in decoded ==> r == (decoded, "")
  {
    var fields := Split(decoded, ':');
    (fields[0], if |fields| >= 2 then fields[1] else "")
  }

  /** With `:` in the payload the login is the text before the first `:`
      and the password the text up to the second; the rest is dropped. */
  lemma CredentialsFirstTwoFields(a: string, b: string, c: string)
    requires ':' !in a && ':' !in b
    ensures Credentials(a + ":" + b + ":" + c) == (a, b)
  {
    assert a + ":" + b + ":" + c == a + [':'] + (b + [':'] + c);
    SplitFieldThenSep(a, b + [':'] + c, ':');
    SplitFieldThenSep(b, c, ':');
  }

  /** With a single `:` the two sides are the login and the password. */
  lemma CredentialsTwoFields(a: string, b: string)
    requires ':' !in a && ':' !in b
    ensures Credentials(a + ":" + b) == (a, b)
  {
    SplitFieldThenSep(a, b, ':');
  }

  /** A configured value, or its default when the variable is unset (an
      empty value is kept), trimmed. */
  function EnvValue(value: Option<string>, default: string): string {
    Trim(value.GetOr(default))
  }

  const BasicPrefix: string := "Basic "

  /** Whether a header starts with `"Basic "`, case and space included. */
  predicate HasBasicPrefix(h: string) {
    |h| >= |BasicPrefix| && h[..|BasicPrefix|] == BasicPrefix
  }

  /** `isAuthed`: a missing header counts as the empty one; a header without
      the `"Basic "` prefix is refused; otherwise the decoded login and
      password, trimmed, must equal the trimmed `ADMIN_LOGIN` (default
      `admin`) and `ADMIN_PASSWORD` (default `admin123`). */
  function IsAuthed(header: Option<string>, envLogin: Option<string>, envPassword: Option<string>,
                    decode: string -> string): bool
  {
    var h := header.GetOr("");
    if !HasBasicPrefix(h) then false
    else
      var creds := Credentials(decode(h[|BasicPrefix|..]));
      Trim(creds.0) == EnvValue(envLogin, "admin") && Trim(creds.1) == EnvValue(envPassword, "admin123")
  }

  /** No header, or one in another scheme (even `basic` in lower case), is
      never authorised. */
  lemma WithoutBasicPrefixRefused(header: Option<string>, envLogin: Option<string>,
                                  envPassword: Option<string>, decode: string -> string)
    requires !HasBasicPrefix(header.GetOr(""))
    ensures !IsAuthed(header, envLogin, envPassword, decode)
  {
  }

  lemma MissingHeaderRefused(envLogin: Option<string>, envPassword: Option<string>, decode: string -> string)
    ensures !IsAuthed(None, envLogin, envPassword, decode)
    ensures !IsAuthed(Some("basic YWRtaW46YWRtaW4xMjM="), envLogin, envPassword, decode)
  {
    assert !HasBasicPrefix("");
    assert "basic YWRtaW46YWRtaW4xMjM="[..6] != BasicPrefix by {
      assert "basic YWRtaW46YWRtaW4xMjM="[0] != BasicPrefix[0];
    }
  }

  /** The token the login form sends (`'Basic ' + btoa(login + ':' +
      password)`), for a login without `:` and a password without `:`, is
      accepted exactly when the trimmed login and password equal the
      configured ones, provided the decoder inverts the encoder on it. */
  lemma ClientTokenAuthorised(login: string, password: string, envLogin: Option<string>,
                              envPassword: Option<string>, encode: string -> string,
                              decode: string -> string)
    requires ':' !in login && ':' !in password
    requires decode(encode(login + ":" + password)) == login + ":" + password
    ensures IsAuthed(Some(BasicPrefix + encode(login + ":" + password)), envLogin, envPassword, decode)
        <==> Trim(login) == EnvValue(envLogin, "admin") && Trim(password) == EnvValue(envPassword, "admin123")
  {
    var h := BasicPrefix + encode(login + ":" + password);
    assert h[..|BasicPrefix|] == BasicPrefix && h[|BasicPrefix|..] == encode(login + ":" + password);
    assert Join([login, password], ':') == login + ":" + password;
    SplitJoin([login, password], ':');
  }

  /** A decoded payload without `:` yields an empty password. */
  lemma NoColonEmptyPassword(decoded: string)
    requires ':' !in decoded
    ensures Credentials(decoded).1 == ""
  {
  }

  /** Anything after a second `:` is ignored: `admin:admin123:x` passes
      with the default credentials. */
  lemma TrailingFieldIgnored(token: string, decode: string -> string)
    requires decode(token) == "admin:admin123:x"
    ensures IsAuthed(Some(BasicPrefix + token), None, None, decode)
  {
    var h := BasicPrefix + token;
    assert h[..|BasicPrefix|] == BasicPrefix && h[|BasicPrefix|..] == token;
    TrailingFieldCredentials();
  }

  lemma TrailingFieldCredentials()
    ensures Credentials("admin:admin123:x") == ("admin", "admin123")
  {
    assert Join(["admin", "admin123", "x"], ':') == "admin:admin123:x";
    SplitJoin(["admin", "admin123", "x"], ':');
  }

  /** A configured password that still holds `:` after trimming can never be
      matched: the compared piece never holds `:`.  The same goes for the
      login. */
  lemma ColonInConfiguredPasswordLocksOut(header: Option<string>, envLogin: Option<string>,
                                          envPassword: Option<string>, decode: string -> string)
    requires ':' in EnvValue(envPassword, "admin123") || ':' in EnvValue(envLogin, "admin")
    ensures !IsAuthed(header, envLogin, envPassword, decode)
  {
    var h := header.GetOr("");
    if HasBasicPrefix(h) {
      var creds := Credentials(decode(h[|BasicPrefix|..]));
      TrimKeepsCharacters(creds.0, ':');
      TrimKeepsCharacters(creds.1, ':');
    }
  }
}
