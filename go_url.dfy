/**
 * The part of Go's net/url.Parse that decides URL.Path, the field the service
 * reads from the snapshot URL: the fragment and the query are cut off, a scheme
 * and an authority are skipped, and the rest is percent-decoded.
 */
module GoUrl {
  import opened Wrappers

  /** stringContainsCTLByte: a byte below 0x20, or DEL. */
  predicate IsControl(c: char) { c < ' ' || c == '\U{7F}' }

  predicate IsLetter(c: char) { 'a' <= c <= 'z' || 'A' <= c <= 'Z' }

  predicate IsDigit(c: char) { '0' <= c <= '9' }

  predicate IsHex(c: char) { IsDigit(c) || 'a' <= c <= 'f' || 'A' <= c <= 'F' }

  function HexValue(c: char): (v: nat)
    requires IsHex(c)
    ensures v < 16
  {
    if IsDigit(c) then c as int - '0' as int
    else if 'a' <= c <= 'f' then c as int - 'a' as int + 10
    else c as int - 'A' as int + 10
  }

  predicate ContainsControl(s: string) { exists c | c in s :: IsControl(c) }

  /** The index of the first c in s, or |s| when s has none (strings.Index, strings.Cut). */
  function IndexOf(s: string, c: char): (i: nat)
    ensures i <= |s|
    ensures c !in s[..i]
    ensures i < |s| ==> s[i] == c
    decreases |s|
  {
    if s == [] then 0
    else if s[0] == c then 0
    else
      var j := IndexOf(s[1..], c);
      assert s[..1 + j] == [s[0]] + s[1..][..j];
      1 + j
  }

  predicate HasPrefix(s: string, prefix: string)
  {
    |prefix| <= |s| && s[..|prefix|] == prefix
  }

  /**
   * getScheme, scanning from index i: letters, then letters, digits, '+', '-'
   * or '.' up to a ':' give a scheme; a ':' first is an error; anything else
   * means there is no scheme and the whole string is the rest.
   */
  function SchemeFrom(raw: string, i: nat): (r: Result<(string, string), string>)
    requires i <= |raw|
    ensures r.Success? ==>
      (r.value.0 == [] && r.value.1 == raw) ||
      (r.value.0 != [] && raw == r.value.0 + ":" + r.value.1)
    decreases |raw| - i
  {
    if i == |raw| then Success(([], raw))
    else
      var c := raw[i];
      if IsLetter(c) then SchemeFrom(raw, i + 1)
      else if IsDigit(c) || c == '+' || c == '-' || c == '.' then
        if i == 0 then Success(([], raw)) else SchemeFrom(raw, i + 1)
      else if c == ':' then
        if i == 0 then Failure("missing protocol scheme")
        else
          assert raw == raw[..i] + ":" + raw[i + 1..];
          Success((raw[..i], raw[i + 1..]))
      else Success(([], raw))
  }

  /** unescape: every '%' must start a two-digit hex escape, which is decoded. */
  function Unescape(s: string): (r: Option<string>)
    decreases |s|
  {
    if s == [] then Some([])
    else if s[0] == '%' then
      if |s| >= 3 && IsHex(s[1]) && IsHex(s[2]) then
        match Unescape(s[3..])
        case None => None
        case Some(t) => Some([(HexValue(s[1]) * 16 + HexValue(s[2])) as char] + t)
      else None
    else
      match Unescape(s[1..])
      case None => None
      case Some(t) => Some([s[0]] + t)
  }

  /** The path after an authority: from its first '/', or empty. */
  function AfterAuthority(a: string): (path: string)
    ensures path == [] || path[0] == '/'
  {
    a[IndexOf(a, '/')..]
  }

  /** parse(rawURL, viaRequest = false) of a URL without fragment, reduced to its Path. */
  function ParseWithoutFragment(u: string): Result<string, string>
  {
    if ContainsControl(u) then Failure("net/url: invalid control character in URL")
    else if u == "*" then Success("*")
    else
      match SchemeFrom(u, 0)
      case Failure(e) => Failure(e)
      case Success(split) =>
        var scheme := split.0;
        var rest := split.1[..IndexOf(split.1, '?')];
        if !HasPrefix(rest, "/") && scheme != [] then
          // a rootless URL with a scheme (such as mailto:x) leaves Path empty
          Success([])
        else if !HasPrefix(rest, "/") && ':' in rest[..IndexOf(rest, '/')] then
          Failure("first path segment in URL cannot contain colon")
        else
          var raw := if (scheme != [] || !HasPrefix(rest, "///")) && HasPrefix(rest, "//")
                     then AfterAuthority(rest[2..]) else rest;
          match Unescape(raw)
          case None => Failure("invalid URL escape")
          case Some(path) => Success(path)
  }

  /** url.Parse(raw), reduced to the decoded Path of the result or an error. */
  function ParsePath(raw: string): Result<string, string>
  {
    var hash := IndexOf(raw, '#');
    var fragment := if hash < |raw| then raw[hash + 1..] else [];
    match ParseWithoutFragment(raw[..hash])
    case Failure(e) => Failure(e)
    case Success(path) =>
      if fragment != [] && Unescape(fragment).None? then Failure("invalid URL escape")
      else Success(path)
  }

  /** A scheme getScheme accepts: a letter, then letters, digits, '+', '-' or '.'. */
  predicate IsScheme(s: string)
  {
    |s| > 0 && IsLetter(s[0]) &&
    forall i | 0 <= i < |s| :: IsLetter(s[i]) || IsDigit(s[i]) || s[i] in "+-."
  }

  lemma {:induction false} UnescapePlain(s: string)
    requires '%' !in s
    ensures Unescape(s) == Some(s)
    decreases |s|
  {
    if s != [] {
      assert s[0] in s;
      assert '%' !in s[1..] by {
        forall c | c in s[1..] ensures c in s { }
      }
      UnescapePlain(s[1..]);
      assert [s[0]] + s[1..] == s;
    }
  }

  lemma {:induction false} IndexOfFirst(a: string, b: string, c: char)
    requires c !in a && |b| > 0 && b[0] == c
    ensures IndexOf(a + b, c) == |a|
    decreases |a|
  {
    if a == [] {
      assert a + b == b;
    } else {
      assert a[0] in a;
      assert (a + b)[1..] == a[1..] + b;
      assert c !in a[1..] by {
        forall x | x in a[1..] ensures x in a { }
      }
      IndexOfFirst(a[1..], b, c);
    }
  }

  lemma {:induction false} SchemeScan(scheme: string, tail: string, i: nat)
    requires IsScheme(scheme) && i <= |scheme|
    ensures SchemeFrom(scheme + ":" + tail, i) == Success((scheme, tail))
    decreases |scheme| - i
  {
    var raw := scheme + ":" + tail;
    if i == |scheme| {
      assert raw[i] == ':';
      assert raw[..i] == scheme;
      assert raw[i + 1..] == tail;
    } else {
      assert raw[i] == scheme[i];
      SchemeScan(scheme, tail, i + 1);
    }
  }

  /** Without a '#', url.Parse sees the whole string and no fragment. */
  lemma NoFragment(raw: string)
    requires '#' !in raw
    ensures ParsePath(raw) == ParseWithoutFragment(raw)
  {
    assert IndexOf(raw, '#') == |raw|;
    assert raw[..|raw|] == raw;
  }

  /** No control character and no '#': url.Parse rejects nothing and cuts no fragment. */
  predicate Clean(s: string)
  {
    forall c | c in s :: !IsControl(c) && c != '#'
  }

  lemma CleanConcat(a: string, b: string)
    requires Clean(a) && Clean(b)
    ensures Clean(a + b)
  {
  }

  lemma CleanHasNoControl(s: string)
    requires Clean(s)
    ensures '#' !in s && !ContainsControl(s)
  {
  }

  /** The characters of a scheme are neither control characters nor delimiters. */
  lemma SchemeCharacters(scheme: string)
    requires IsScheme(scheme)
    ensures Clean(scheme) && '?' !in scheme
  {
    forall c | c in scheme ensures !IsControl(c) && c != '#' && c != '?' {
      var i :| 0 <= i < |scheme| && scheme[i] == c;
    }
  }

  /**
   * A URL scheme:tail whose tail, before any query, is "//" + host + path has
   * path as its Path, when host has no '/' and path is a plain absolute path.
   */
  lemma AuthorityThenPath(scheme: string, tail: string, host: string, path: string)
    requires IsScheme(scheme) && !ContainsControl(scheme + ":" + tail)
    requires tail[..IndexOf(tail, '?')] == "//" + host + path
    requires '/' !in host
    requires |path| > 0 && path[0] == '/' && '%' !in path
    ensures ParseWithoutFragment(scheme + ":" + tail) == Success(path)
  {
    var raw := scheme + ":" + tail;
    var rest := "//" + host + path;
    assert raw != "*" by { assert |raw| >= 3; }
    SchemeScan(scheme, tail, 0);
    assert HasPrefix(rest, "/") && HasPrefix(rest, "//");
    assert rest[2..] == host + path;
    IndexOfFirst(host, path, '/');
    assert (host + path)[|host|..] == path;
    UnescapePlain(path);
  }

  /**
   * An absolute URL scheme://host/path whose parts carry no delimiter, escape or
   * control character parses to exactly its path.
   */
  lemma ParseAbsoluteURL(scheme: string, host: string, path: string)
    requires IsScheme(scheme)
    requires forall c | c in host :: !IsControl(c) && c !in "/?#"
    requires |path| > 0 && path[0] == '/'
    requires forall c | c in path :: !IsControl(c) && c !in "?#%"
    ensures ParsePath(scheme + "://" + host + path) == Success(path)
  {
    var raw := scheme + "://" + host + path;
    var tail := "//" + host + path;
    assert raw == scheme + ":" + tail;
    SchemeCharacters(scheme);
    CleanConcat(scheme, "://");
    CleanConcat(scheme + "://", host);
    CleanConcat(scheme + "://" + host, path);
    CleanHasNoControl(raw);
    NoFragment(raw);
    assert '?' !in tail;
    assert IndexOf(tail, '?') == |tail|;
    assert tail[..|tail|] == tail;
    AuthorityThenPath(scheme, tail, host, path);
  }

  /** The same URL with a query: the query is cut off before the path is taken. */
  lemma ParseAbsoluteURLWithQuery(scheme: string, host: string, path: string, query: string)
    requires IsScheme(scheme)
    requires forall c | c in host :: !IsControl(c) && c !in "/?#"
    requires |path| > 0 && path[0] == '/'
    requires forall c | c in path :: !IsControl(c) && c !in "?#%"
    requires forall c | c in query :: !IsControl(c) && c != '#'
    ensures ParsePath(scheme + "://" + host + path + "?" + query) == Success(path)
  {
    var raw := scheme + "://" + host + path + "?" + query;
    var tail := "//" + host + path + "?" + query;
    var before := "//" + host + path;
    assert raw == scheme + ":" + tail;
    assert tail == before + ("?" + query);
    SchemeCharacters(scheme);
    CleanConcat(scheme, "://");
    CleanConcat(scheme + "://", host);
    CleanConcat(scheme + "://" + host, path);
    CleanConcat(scheme + "://" + host + path, "?");
    CleanConcat(scheme + "://" + host + path + "?", query);
    CleanHasNoControl(raw);
    NoFragment(raw);
    assert '?' !in before;
    IndexOfFirst(before, "?" + query, '?');
    assert tail[..|before|] == before;
    AuthorityThenPath(scheme, tail, host, path);
  }
  /** Every character of a slice of s is a character of s. */
  lemma SliceChars(s: string, i: nat, j: nat)
    requires i <= j <= |s|
    ensures forall c | c in s[i..j] :: c in s
  {
    forall c | c in s[i..j] ensures c in s {
      var k :| 0 <= k < j - i && s[i..j][k] == c;
      assert s[i + k] == c;
    }
  }

  /** A control character before the first '#' makes url.Parse fail. */
  lemma ParseRejectsControl(raw: string)
    requires ContainsControl(raw[..IndexOf(raw, '#')])
    ensures ParsePath(raw).Failure?
  {
  }

  /** The fragment never reaches the path: a valid one leaves the result unchanged. */
  lemma FragmentIgnored(u: string, f: string)
    requires '#' !in u && Unescape(f).Some?
    ensures ParsePath(u + "#" + f) == ParseWithoutFragment(u)
  {
    var raw := u + "#" + f;
    assert raw == u + ("#" + f);
    IndexOfFirst(u, "#" + f, '#');
    assert raw[..IndexOf(raw, '#')] == u;
    assert raw[IndexOf(raw, '#') + 1..] == f;
  }

  /**
   * Without percent escapes, the Path url.Parse gives holds no '?' and no '#':
   * the query and the fragment are never part of it.
   */
  lemma PlainPathHasNoDelimiter(raw: string)
    requires '%' !in raw && ParsePath(raw).Success?
    ensures '?' !in ParsePath(raw).value && '#' !in ParsePath(raw).value
  {
    var u := raw[..IndexOf(raw, '#')];
    SliceChars(raw, 0, IndexOf(raw, '#'));
    assert '#' !in u && '%' !in u;
    assert ParseWithoutFragment(u).Success? && ParsePath(raw).value == ParseWithoutFragment(u).value;
    if u != "*" {
      var split := SchemeFrom(u, 0).value;
      assert forall c | c in split.1 :: c in u;
      var rest := split.1[..IndexOf(split.1, '?')];
      SliceChars(split.1, 0, IndexOf(split.1, '?'));
      assert '?' !in rest;
      if HasPrefix(rest, "/") || split.0 == [] {
        if (split.0 != [] || !HasPrefix(rest, "///")) && HasPrefix(rest, "//") {
          var a := rest[2..];
          SliceChars(rest, 2, |rest|);
          SliceChars(a, IndexOf(a, '/'), |a|);
          assert AfterAuthority(a) == a[IndexOf(a, '/')..|a|];
          UnescapePlain(AfterAuthority(a));
        } else {
          UnescapePlain(rest);
        }
      }
    }
  }
}
