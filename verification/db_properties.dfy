/**
 * The database settings the export process reads from the application
 * properties: four getters that prefer a `bbdd.readonly.*` key over the
 * matching `bbdd.*` key, and the positional reading of host and port from
 * the JDBC URL split on the regular expression "://|:".
 */
module DbProperties {
  import opened Outcomes
  import opened JavaText

  /** The application properties: a flat map from key to value. */
  type Properties = map<string, string>

  const CONTEXT_URL: string := "context.url"
  const BBDD_URL: string := "bbdd.url"
  const BBDD_READONLY_URL: string := "bbdd.readonly.url"
  const BBDD_PASSWORD: string := "bbdd.password"
  const BBDD_READONLY_PASSWORD: string := "bbdd.readonly.password"
  const BBDD_USER: string := "bbdd.user"
  const BBDD_READONLY_USER: string := "bbdd.readonly.user"
  const BBDD_SID: string := "bbdd.sid"
  const BBDD_READONLY_SID: string := "bbdd.readonly.sid"

  /** Properties.getProperty: null (None) for a key that is not present. */
  function GetProperty(props: Properties, key: string): (r: Option<string>)
    ensures r.Some? <==> key in props
    ensures r.Some? ==> r.value == props[key]
  {
    if key in props then Some(props[key]) else None
  }

  function GetBbddUrl(props: Properties): (r: Option<string>)
    ensures BBDD_READONLY_URL in props ==> r == Some(props[BBDD_READONLY_URL])
    ensures BBDD_READONLY_URL !in props ==> r == GetProperty(props, BBDD_URL)
  {
    if BBDD_READONLY_URL in props then Some(props[BBDD_READONLY_URL]) else GetProperty(props, BBDD_URL)
  }

  function GetBbddPassword(props: Properties): (r: Option<string>)
    ensures BBDD_READONLY_PASSWORD in props ==> r == Some(props[BBDD_READONLY_PASSWORD])
    ensures BBDD_READONLY_PASSWORD !in props ==> r == GetProperty(props, BBDD_PASSWORD)
  {
    if BBDD_READONLY_PASSWORD in props then Some(props[BBDD_READONLY_PASSWORD])
    else GetProperty(props, BBDD_PASSWORD)
  }

  function GetBbddUser(props: Properties): (r: Option<string>)
    ensures BBDD_READONLY_USER in props ==> r == Some(props[BBDD_READONLY_USER])
    ensures BBDD_READONLY_USER !in props ==> r == GetProperty(props, BBDD_USER)
  {
    if BBDD_READONLY_USER in props then Some(props[BBDD_READONLY_USER]) else GetProperty(props, BBDD_USER)
  }

  function GetBbddSid(props: Properties): (r: Option<string>)
    ensures BBDD_READONLY_SID in props ==> r == Some(props[BBDD_READONLY_SID])
    ensures BBDD_READONLY_SID !in props ==> r == GetProperty(props, BBDD_SID)
  {
    if BBDD_READONLY_SID in props then Some(props[BBDD_READONLY_SID]) else GetProperty(props, BBDD_SID)
  }

  /**
   * A read-only value always wins, whatever the primary key holds; without
   * one, the primary value (or null) is what is read.
   */
  lemma ReadonlyOverridesPrimary(props: Properties, readonlyValue: string, primaryValue: string)
    ensures GetBbddUrl(props[BBDD_URL := primaryValue][BBDD_READONLY_URL := readonlyValue]) == Some(readonlyValue)
    ensures GetBbddPassword(props[BBDD_PASSWORD := primaryValue][BBDD_READONLY_PASSWORD := readonlyValue])
            == Some(readonlyValue)
    ensures GetBbddUser(props[BBDD_USER := primaryValue][BBDD_READONLY_USER := readonlyValue]) == Some(readonlyValue)
    ensures GetBbddSid(props[BBDD_SID := primaryValue][BBDD_READONLY_SID := readonlyValue]) == Some(readonlyValue)
    ensures GetBbddUrl((props - {BBDD_READONLY_URL})[BBDD_URL := primaryValue]) == Some(primaryValue)
    ensures GetBbddPassword((props - {BBDD_READONLY_PASSWORD})[BBDD_PASSWORD := primaryValue]) == Some(primaryValue)
    ensures GetBbddUser((props - {BBDD_READONLY_USER})[BBDD_USER := primaryValue]) == Some(primaryValue)
    ensures GetBbddSid((props - {BBDD_READONLY_SID})[BBDD_SID := primaryValue]) == Some(primaryValue)
  {
  }

  // ---------------------------------------------------------------------
  // String.split("://|:") and the positional host and port

  /** The position of the first ':' in s. */
  function FirstColon(s: string): (i: nat)
    requires ':' in s
    ensures i < |s| && s[i] == ':' && ':' !in s[..i]
  {
    if s[0] == ':' then 0
    else
      assert ':' in s[1..] by {
        var j :| 0 <= j < |s| && s[j] == ':';
        assert s[1..][j - 1] == ':';
      }
      var i := 1 + FirstColon(s[1..]);
      assert s[..i] == [s[0]] + s[1..][..i - 1];
      i
  }

  /**
   * The length of the separator that the pattern "://|:" matches at a
   * ':': the first alternative "://" when two slashes follow, ":" otherwise.
   */
  function SeparatorLength(s: string, i: nat): (n: nat)
    requires i < |s| && s[i] == ':'
    ensures i + n <= |s|
  {
    if i + 2 < |s| && s[i + 1] == '/' && s[i + 2] == '/' then 3 else 1
  }

  /** The pieces between successive separators, leftmost match first. */
  function Pieces(s: string): (r: seq<string>)
    ensures |r| >= 1
    ensures forall i :: 0 <= i < |r| ==> ':' !in r[i]
    decreases |s|
  {
    if ':' !in s then [s]
    else
      var i := FirstColon(s);
      [s[..i]] + Pieces(s[i + SeparatorLength(s, i)..])
  }

  /** What split(regex) with limit 0 does last: drop every trailing empty string. */
  function DropTrailingEmpty(tokens: seq<string>): (r: seq<string>)
    ensures |r| <= |tokens| && r == tokens[..|r|]
    ensures r == [] || r[|r| - 1] != ""
    ensures forall i :: |r| <= i < |tokens| ==> tokens[i] == ""
  {
    if tokens == [] || tokens[|tokens| - 1] != "" then tokens
    else DropTrailingEmpty(tokens[..|tokens| - 1])
  }

  /**
   * String.split("://|:"): the whole string when nothing matches; otherwise
   * the colon-free pieces, without trailing empty ones.
   */
  function SplitUrl(url: string): (r: seq<string>)
    ensures forall i :: 0 <= i < |r| ==> ':' !in r[i]
    ensures ':' !in url ==> r == [url]
    ensures ':' in url ==> r == [] || r[|r| - 1] != ""
  {
    if ':' !in url then [url] else DropTrailingEmpty(Pieces(url))
  }

  /** Tokens joined with ":" between each two. */
  function ColonJoin(tokens: seq<string>): string
    requires tokens != []
    decreases |tokens|
  {
    if |tokens| == 1 then tokens[0] else tokens[0] + ":" + ColonJoin(tokens[1..])
  }

  /** Text that starts with a token that does not start with "//" does not either. */
  lemma {:induction false} ColonJoinStart(tokens: seq<string>)
    requires tokens != [] && !StartsWith(tokens[0], "//")
    ensures !StartsWith(ColonJoin(tokens), "//")
  {
    if |tokens| > 1 {
      NoDoubleSlashBeforeColon(tokens[0], ColonJoin(tokens[1..]));
    }
  }

  /**
   * Round trip: colon-free tokens joined with ":" split back into the same
   * tokens, provided no later token starts with "//" (which the pattern
   * would take as part of a "://" separator).
   */
  lemma {:induction false} PiecesOfColonJoin(tokens: seq<string>)
    requires tokens != [] && forall i :: 0 <= i < |tokens| ==> ':' !in tokens[i]
    requires forall i :: 1 <= i < |tokens| ==> !StartsWith(tokens[i], "//")
    ensures Pieces(ColonJoin(tokens)) == tokens
    decreases |tokens|
  {
    if |tokens| > 1 {
      var rest := tokens[1..];
      assert rest[0] == tokens[1];
      forall i | 0 <= i < |rest|
        ensures ':' !in rest[i]
      {
        assert rest[i] == tokens[i + 1];
      }
      forall i | 1 <= i < |rest|
        ensures !StartsWith(rest[i], "//")
      {
        assert rest[i] == tokens[i + 1];
      }
      PiecesOfColonJoin(rest);
      ColonJoinStart(rest);
      PiecesAfterColon(tokens[0], ColonJoin(rest));
      assert [tokens[0]] + rest == tokens;
    }
  }

  /** The same round trip for split itself, when the last token is not empty. */
  lemma SplitOfColonJoin(tokens: seq<string>)
    requires tokens != [] && forall i :: 0 <= i < |tokens| ==> ':' !in tokens[i]
    requires forall i :: 1 <= i < |tokens| ==> !StartsWith(tokens[i], "//")
    requires tokens[|tokens| - 1] != ""
    ensures SplitUrl(ColonJoin(tokens)) == tokens
  {
    PiecesOfColonJoin(tokens);
    if |tokens| > 1 {
      var url := ColonJoin(tokens);
      assert url[|tokens[0]|] == ':';
    }
  }

  datatype HostPort = HostPort(host: string, port: string)

  /**
   * The host is token 2 and the port token 3 of the split URL. A null URL
   * and a URL of fewer than four tokens fault, as the Java array access does.
   */
  function DbHostPort(url: Option<string>): (r: Result<HostPort>)
    ensures url.None? ==> r == Err(NullPointer)
    ensures url.Some? ==> (r.Ok? <==> |SplitUrl(url.value)| >= 4)
    ensures r.Err? && url.Some? ==> r.error == IndexOutOfBounds
    ensures r.Ok? ==> r.value == HostPort(SplitUrl(url.value)[2], SplitUrl(url.value)[3])
  {
    match url
    case None => Err(NullPointer)
    case Some(u) =>
      var parts := SplitUrl(u);
      if |parts| < 4 then Err(IndexOutOfBounds) else Ok(HostPort(parts[2], parts[3]))
  }

  lemma PiecesAfterColon(a: string, b: string)
    requires ':' !in a && !StartsWith(b, "//")
    ensures Pieces(a + ":" + b) == [a] + Pieces(b)
  {
    var s := a + ":" + b;
    assert s[|a|] == ':' && s[..|a|] == a;
    assert FirstColon(s) == |a|;
    assert SeparatorLength(s, |a|) == 1 by {
      if |a| + 2 < |s| {
        assert s[|a| + 1..|a| + 3] == b[..2];
      }
    }
    assert s[|a| + 1..] == b;
  }

  lemma PiecesAfterColonSlashes(a: string, b: string)
    requires ':' !in a
    ensures Pieces(a + "://" + b) == [a] + Pieces(b)
  {
    var s := a + "://" + b;
    assert s[|a|] == ':' && s[|a| + 1] == '/' && s[|a| + 2] == '/' && s[..|a|] == a;
    assert FirstColon(s) == |a|;
    assert SeparatorLength(s, |a|) == 3;
    assert s[|a| + 3..] == b;
  }

  /**
   * For a URL shaped scheme:sub://host:rest (no further colons, rest not
   * empty), host is the host and port is everything after the last colon,
   * path included: "jdbc:postgresql://h:5432/db" gives port "5432/db".
   */
  lemma JdbcUrlHostPort(scheme: string, sub: string, host: string, rest: string)
    requires ':' !in scheme && ':' !in sub && ':' !in host && ':' !in rest
    requires !StartsWith(sub, "//") && !StartsWith(rest, "//") && rest != ""
    ensures DbHostPort(Some(scheme + ":" + sub + "://" + host + ":" + rest)) == Ok(HostPort(host, rest))
  {
    var url := scheme + ":" + sub + "://" + host + ":" + rest;
    assert url == scheme + ":" + (sub + "://" + (host + ":" + rest));
    assert url[|scheme|] == ':';
    UrlPieces(scheme, sub, host, rest);
  }

  /** The four pieces of scheme:sub://host:rest when no part holds a colon. */
  lemma UrlPieces(scheme: string, sub: string, host: string, rest: string)
    requires ':' !in scheme && ':' !in sub && ':' !in host && ':' !in rest
    requires !StartsWith(sub, "//") && !StartsWith(rest, "//")
    ensures Pieces(scheme + ":" + (sub + "://" + (host + ":" + rest))) == [scheme, sub, host, rest]
  {
    var afterScheme := sub + "://" + (host + ":" + rest);
    AfterSchemePieces(sub, host, rest);
    PiecesAfterColon(scheme, afterScheme);
  }

  lemma AfterSchemePieces(sub: string, host: string, rest: string)
    requires ':' !in sub && ':' !in host && ':' !in rest
    requires !StartsWith(sub, "//") && !StartsWith(rest, "//")
    ensures !StartsWith(sub + "://" + (host + ":" + rest), "//")
    ensures Pieces(sub + "://" + (host + ":" + rest)) == [sub, host, rest]
  {
    var hostPart := host + ":" + rest;
    assert sub + "://" + hostPart == sub + ":" + ("//" + hostPart);
    NoDoubleSlashBeforeColon(sub, "//" + hostPart);
    PiecesAfterColonSlashes(sub, hostPart);
    PiecesAfterColon(host, rest);
    assert Pieces(hostPart) == [host, rest];
  }

  lemma NoDoubleSlashBeforeColon(a: string, tail: string)
    requires !StartsWith(a, "//")
    ensures !StartsWith(a + ":" + tail, "//")
  {
    var t := a + ":" + tail;
    if |a| == 0 {
      assert t[0] == ':';
    } else if |a| == 1 {
      assert t[1] == ':';
    } else {
      assert t[..2] == a[..2];
    }
  }

  /** A URL without any colon is one token: reading the host faults. */
  lemma UrlWithoutColonFaults(url: string)
    requires ':' !in url
    ensures DbHostPort(Some(url)) == Err(IndexOutOfBounds)
  {
  }

  /** An empty port is a trailing empty token, which split drops: reading the port faults. */
  lemma EmptyPortFaults(scheme: string, sub: string, host: string)
    requires ':' !in scheme && ':' !in sub && ':' !in host && !StartsWith(sub, "//")
    ensures DbHostPort(Some(scheme + ":" + sub + "://" + host + ":")) == Err(IndexOutOfBounds)
  {
    var url := scheme + ":" + sub + "://" + host + ":";
    assert url == scheme + ":" + (sub + "://" + (host + ":" + ""));
    assert url[|scheme|] == ':';
    UrlPieces(scheme, sub, host, "");
    var tokens := [scheme, sub, host, ""];
    assert DropTrailingEmpty(tokens) == DropTrailingEmpty(tokens[..3]);
  }
}
