/**
 * The fmt.Sprintf builders of main.go: the login URL, the dashboard URL (with
 * the %d rendering of the time range) and the snapshot link returned to callers.
 */
module Format {
  import opened Wrappers
  import opened GoPath

  function DigitChar(d: nat): (c: char)
    requires d < 10
    ensures '0' <= c <= '9'
  {
    ('0' as int + d) as char
  }

  function DigitValue(c: char): nat
    requires '0' <= c <= '9'
  {
    c as int - '0' as int
  }

  predicate AllDigits(s: string) { forall i | 0 <= i < |s| :: '0' <= s[i] <= '9' }

  /** The decimal digits of n, most significant first, with no leading zero. */
  function NatString(n: nat): (s: string)
    ensures |s| > 0 && AllDigits(s)
    ensures |s| > 1 ==> s[0] != '0'
    decreases n
  {
    if n < 10 then [DigitChar(n)] else NatString(n / 10) + [DigitChar(n % 10)]
  }

  /** %d of an int: a '-' before the digits of a negative number. */
  function DecimalString(n: int): string
  {
    if n < 0 then "-" + NatString(-n) else NatString(n)
  }

  /** The value of a string of decimal digits. */
  function NatValue(s: string): nat
    requires AllDigits(s)
  {
    if s == [] then 0 else NatValue(s[..|s| - 1]) * 10 + DigitValue(s[|s| - 1])
  }

  /** Reads back an optionally negative decimal integer. */
  function ParseDecimal(s: string): Option<int>
  {
    if |s| > 1 && s[0] == '-' && AllDigits(s[1..]) then Some(0 - NatValue(s[1..]) as int)
    else if |s| > 0 && AllDigits(s) then Some(NatValue(s))
    else None
  }

  lemma {:induction false} NatStringValue(n: nat)
    ensures NatValue(NatString(n)) == n
    decreases n
  {
    if n >= 10 {
      var s := NatString(n);
      assert s[..|s| - 1] == NatString(n / 10);
      NatStringValue(n / 10);
    }
  }

  /** %d is readable back: DecimalString loses nothing. */
  lemma DecimalRoundTrip(n: int)
    ensures ParseDecimal(DecimalString(n)) == Some(n)
  {
    if n < 0 {
      NegativeRoundTrip(-n);
    } else {
      NonNegativeRoundTrip(n);
    }
  }

  lemma NonNegativeRoundTrip(m: nat)
    ensures ParseDecimal(NatString(m)) == Some(m)
  {
    var s := NatString(m);
    assert '0' <= s[0] <= '9';
    NatStringValue(m);
  }

  lemma NegativeRoundTrip(m: nat)
    requires m > 0
    ensures ParseDecimal("-" + NatString(m)) == Some(-(m as int))
  {
    var s := "-" + NatString(m);
    assert s[1..] == NatString(m);
    NatStringValue(m);
  }

  /** %d never renders a character that ends a query parameter or a path element. */
  lemma DecimalHasNoDelimiter(n: int)
    ensures forall c | c in DecimalString(n) :: c != '&' && c != '/' && c != '#'
  {
    var s := NatString(if n < 0 then -n else n);
    assert forall c | c in s :: '0' <= c <= '9' by {
      forall c | c in s ensures '0' <= c <= '9' {
        var i :| 0 <= i < |s| && s[i] == c;
      }
    }
  }

  /** fmt.Sprintf("%s/login", grafanaURL) (main.go:229). */
  function LoginURL(grafanaURL: string): string
  {
    grafanaURL + "/login"
  }

  /** fmt.Sprintf("%s/d/%s/?from=%d&to=%d&%s", ...) (main.go:266). */
  function DashboardURL(grafanaURL: string, dashboardId: string, from: int, to: int, query: string): string
  {
    grafanaURL + "/d/" + dashboardId + "/?from=" + DecimalString(from) + "&to=" + DecimalString(to) + "&" + query
  }

  /** fmt.Sprintf("%s/dashboard/snapshot/%s", grafanaURL, key) (main.go:169, 204). */
  function SnapshotLink(grafanaURL: string, key: string): string
  {
    grafanaURL + "/dashboard/snapshot/" + key
  }

  /** Landing on the URL the login workflow navigates to is recognised as the login page. */
  lemma LoginURLIsLoginPage(grafanaURL: string)
    ensures Base(LoginURL(grafanaURL)) == "login"
  {
    var elem := "login";
    assert '/' !in elem;
    assert LoginURL(grafanaURL) == grafanaURL + "/" + elem;
    BaseOfLastElement(grafanaURL, elem);
  }

  /** The dashboard URL and the login URL of one base URL are never the same page. */
  lemma DashboardURLIsNotLoginURL(grafanaURL: string, dashboardId: string, from: int, to: int, query: string)
    ensures DashboardURL(grafanaURL, dashboardId, from, to, query) != LoginURL(grafanaURL)
  {
    var d := DashboardURL(grafanaURL, dashboardId, from, to, query);
    var l := LoginURL(grafanaURL);
    assert d[|grafanaURL| + 1] == 'd';
    assert l[|grafanaURL| + 1] == 'l';
  }

  /**
   * With a slash-free query, the last element of the dashboard URL is its query
   * string, so a browser left on that URL is never taken for the login page.
   */
  lemma DashboardURLBase(grafanaURL: string, dashboardId: string, from: int, to: int, query: string)
    requires '/' !in query
    ensures Base(DashboardURL(grafanaURL, dashboardId, from, to, query))
         == "?from=" + DecimalString(from) + "&to=" + DecimalString(to) + "&" + query
    ensures Base(DashboardURL(grafanaURL, dashboardId, from, to, query)) != "login"
  {
    var f, t := DecimalString(from), DecimalString(to);
    var elem := "?from=" + f + "&to=" + t + "&" + query;
    var dir := grafanaURL + "/d/" + dashboardId;
    assert DashboardURL(grafanaURL, dashboardId, from, to, query) == dir + "/" + elem;
    DecimalHasNoDelimiter(from);
    DecimalHasNoDelimiter(to);
    assert '/' !in "?from=" && '/' !in "&to=" && '/' !in "&";
    assert '/' !in f && '/' !in t;
    assert '/' !in elem;
    assert elem[0] == '?';
    BaseOfLastElement(dir, elem);
  }

  /**
   * A query that ends in "/login" makes the dashboard URL itself look like the
   * login page to path.Base.
   */
  lemma DashboardURLWithLoginQuery(grafanaURL: string, dashboardId: string, from: int, to: int, prefix: string)
    ensures Base(DashboardURL(grafanaURL, dashboardId, from, to, prefix + "/login")) == "login"
  {
    var dir := grafanaURL + "/d/" + dashboardId + "/?from=" + DecimalString(from) + "&to=" + DecimalString(to) + "&" + prefix;
    assert DashboardURL(grafanaURL, dashboardId, from, to, prefix + "/login") == dir + "/" + "login";
    BaseOfLastElement(dir, "login");
  }
}
