/** Resolution of a mobile-API token to the base URL of its server. The first three
    characters of a token name its symbol; the routing rules are a text of lines of the
    form `symbol,url`. The rules text, which the repository fetches from the server, is an
    argument here. */
module RoutingRules {
  import opened Wrappers
  import opened Seqs
  import opened Text

  /** `InvalidTokenException` and `UnknownTokenException`, with their messages. */
  datatype RoutingError = InvalidToken(message: string) | UnknownToken(message: string)

  const FakeLogSymbol := "FK1"
  const FakeLogUrl := "https://api.fakelog.cf"

  /** Kotlin's `split("\r?\n".toRegex())`: the pieces between the leftmost matches of an
      optional carriage return followed by a line feed. A carriage return that is not
      followed by a line feed stays in its line. */
  function Lines(s: string): (r: seq<string>)
    ensures |r| > 0
    ensures forall k :: 0 <= k < |r| ==> '\n' !in r[k]
    decreases |s|
  {
    if |s| == 0 then [""]
    else if s[0] == '\n' then [""] + Lines(s[1..])
    else if |s| >= 2 && s[0] == '\r' && s[1] == '\n' then [""] + Lines(s[2..])
    else
      var rest := Lines(s[1..]);
      [[s[0]] + rest[0]] + rest[1..]
  }

  /** `s` with every carriage return that precedes a line feed removed. */
  function NormalizeLineBreaks(s: string): string
    decreases |s|
  {
    if |s| == 0 then ""
    else if |s| >= 2 && s[0] == '\r' && s[1] == '\n' then "\n" + NormalizeLineBreaks(s[2..])
    else [s[0]] + NormalizeLineBreaks(s[1..])
  }

  /** The number of line feeds in `s`. */
  function LineFeeds(s: string): nat
    decreases |s|
  {
    if |s| == 0 then 0 else (if s[0] == '\n' then 1 else 0) + LineFeeds(s[1..])
  }

  /** Joining the lines with "\n" gives the text back, with its CRLF breaks turned into
      LF breaks. */
  lemma {:induction false} LinesJoinBack(s: string)
    ensures Join(Lines(s), "\n") == NormalizeLineBreaks(s)
    decreases |s|
  {
    if |s| == 0 {
    } else if s[0] == '\n' {
      LinesJoinBack(s[1..]);
    } else if |s| >= 2 && s[0] == '\r' && s[1] == '\n' {
      LinesJoinBack(s[2..]);
    } else {
      LinesJoinBack(s[1..]);
      var rest := Lines(s[1..]);
      if |rest| > 1 {
        assert Join(rest, "\n") == rest[0] + "\n" + Join(rest[1..], "\n");
        assert Lines(s)[1..] == rest[1..];
      }
    }
  }

  /** Text without carriage returns is exactly its lines joined with "\n". */
  lemma {:induction false} NoCarriageReturnNormalized(s: string)
    requires '\r' !in s
    ensures NormalizeLineBreaks(s) == s
    decreases |s|
  {
    if |s| > 0 {
      assert '\r' !in s[1..];
      NoCarriageReturnNormalized(s[1..]);
    }
  }

  /** There is one line more than there are line feeds. */
  lemma {:induction false} LineCount(s: string)
    ensures |Lines(s)| == LineFeeds(s) + 1
    decreases |s|
  {
    if |s| == 0 {
    } else if s[0] == '\n' {
      LineCount(s[1..]);
    } else if |s| >= 2 && s[0] == '\r' && s[1] == '\n' {
      LineCount(s[2..]);
      assert LineFeeds(s[1..]) == 1 + LineFeeds(s[2..]) by {
        assert s[1..][1..] == s[2..];
      }
    } else {
      LineCount(s[1..]);
    }
  }

  /** `substringBefore(",")` of a rule line: the symbol the line is for. */
  function RuleSymbol(line: string): string {
    SubstringBefore(line, ",")
  }

  /** `substringAfter(",")` of a rule line: its URL. A line without a comma is its own URL. */
  function RuleUrl(line: string): string {
    SubstringAfter(line, ",")
  }

  /** A one-character `d` right after a text without it is the first occurrence of `d`. */
  lemma FirstAfterPrefix(a: string, d: string, tail: string)
    requires |d| == 1 && !Contains(a, d)
    ensures IndexOf(a + d + tail, d) == Some(|a|)
  {
    var x := a + d + tail;
    assert x[..|a|] == a;
    forall j | 0 <= j < |a| ensures !OccursAt(x, d, j) {
      OccursInPrefix(x, d, |a|, j);
    }
    assert x[|a|..|a| + 1] == d;
    IndexOfFirst(x, d, |a|);
  }

  /** A rule line written as symbol, comma and URL gives both back, for a symbol without
      a comma; the URL may hold commas of its own. */
  lemma RuleLineRoundTrip(symbol: string, url: string)
    requires !Contains(symbol, ",")
    ensures RuleSymbol(symbol + "," + url) == symbol
    ensures RuleUrl(symbol + "," + url) == url
  {
    var x := symbol + "," + url;
    FirstAfterPrefix(symbol, ",", url);
    assert x[..|symbol|] == symbol;
    assert x[|symbol| + 1..] == url;
  }

  /** The predicate `singleOrNull` is given: the line is for `symbol`. */
  function RuleFor(symbol: string): string -> bool {
    (line: string) => RuleSymbol(line) == symbol
  }

  /** `getRouteByToken`, with the fetched rules text as `rules`. */
  function RouteByToken(token: string, rules: string): (r: Result<string, RoutingError>)
    ensures r.Err? && r.error.InvalidToken? <==> |token| < 4
    ensures |token| >= 4 && token[..3] == FakeLogSymbol ==> r == Ok(FakeLogUrl)
  {
    if |token| < 4 then Err(InvalidToken("Token '" + token + "' is too short"))
    else
      var symbol := token[..3];
      if FakeLogSymbol == symbol then Ok(FakeLogUrl)
      else
        match SingleOrNone(Lines(rules), RuleFor(symbol))
        case Some(line) => Ok(RuleUrl(line))
        case None => Err(UnknownToken("This token: '" + token + "' is unsupported"))
  }

  /** For any other symbol the route is the URL of the one line for the symbol. */
  lemma RouteIsUniqueRule(token: string, rules: string, url: string)
    requires |token| >= 4 && token[..3] != FakeLogSymbol
    ensures RouteByToken(token, rules) == Ok(url) <==>
      exists i :: UniqueMatchAt(Lines(rules), RuleFor(token[..3]), i) && RuleUrl(Lines(rules)[i]) == url
  {
    var lines := Lines(rules);
    var p := RuleFor(token[..3]);
    assert RouteByToken(token, rules).Ok? <==> SingleOrNone(lines, p).Some?;
    assert SingleOrNone(lines, p).Some? ==> RouteByToken(token, rules) == Ok(RuleUrl(SingleOrNone(lines, p).value));
    if RouteByToken(token, rules) == Ok(url) {
      var line := SingleOrNone(lines, p).value;
      SingleOrNoneIsUniqueMatch(lines, p, line);
      var i :| UniqueMatchAt(lines, p, i) && lines[i] == line;
      assert RuleUrl(lines[i]) == url;
    }
    if exists i :: UniqueMatchAt(lines, p, i) && RuleUrl(lines[i]) == url {
      var i :| UniqueMatchAt(lines, p, i) && RuleUrl(lines[i]) == url;
      SingleOrNoneIsUniqueMatch(lines, p, lines[i]);
    }
    assert (RouteByToken(token, rules) == Ok(url)) <==>
      exists i :: UniqueMatchAt(lines, p, i) && RuleUrl(lines[i]) == url;
    assert lines == Lines(rules);
    assert p == RuleFor(token[..3]);
  }

  /** For any other symbol the token is unknown exactly when no line, or more than one,
      is for the symbol. */
  lemma UnknownIffNoUniqueRule(token: string, rules: string)
    requires |token| >= 4 && token[..3] != FakeLogSymbol
    ensures RouteByToken(token, rules).Err? <==> forall i :: !UniqueMatchAt(Lines(rules), RuleFor(token[..3]), i)
    ensures RouteByToken(token, rules).Err? ==> RouteByToken(token, rules).error.UnknownToken?
  {
    var lines := Lines(rules);
    var p := RuleFor(token[..3]);
    assert RouteByToken(token, rules).Ok? <==> SingleOrNone(lines, p).Some?;
    SingleOrNoneIsNone(lines, p);
    assert RouteByToken(token, rules).Err? <==> forall i :: !UniqueMatchAt(lines, p, i);
    assert lines == Lines(rules);
    assert p == RuleFor(token[..3]);
  }

  /** Only the first three characters of a valid-length token decide its route. */
  lemma RouteDependsOnSymbolOnly(token1: string, token2: string, rules: string)
    requires |token1| >= 4 && |token2| >= 4 && token1[..3] == token2[..3]
    ensures RouteByToken(token1, rules).Ok? <==> RouteByToken(token2, rules).Ok?
    ensures RouteByToken(token1, rules).Ok? ==> RouteByToken(token1, rules) == RouteByToken(token2, rules)
  {
  }

  /** The fake-log symbol never looks at the rules. */
  lemma FakeLogIgnoresRules(token: string, rules1: string, rules2: string)
    requires |token| >= 4 && token[..3] == FakeLogSymbol
    ensures RouteByToken(token, rules1) == RouteByToken(token, rules2) == Ok(FakeLogUrl)
  {
  }
}
