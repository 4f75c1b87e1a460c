/** The Gateway Client: turns a URL template of the active lookup into one
    HTTP request (URL, method and body). The network round trip itself is an
    oracle of the resolution loop. */
module GatewayClient {
  import opened Signals

  const DATA: string := "{data}"
  const SENDER: string := "{sender}"

  /** `s` begins with `p`. */
  predicate StartsWith(s: string, p: string) {
    |p| <= |s| && s[..|p|] == p
  }

  /** `s.includes(p)`: `p` occurs somewhere in `s`. */
  predicate Contains(s: string, p: string)
    decreases |s|
  {
    StartsWith(s, p) || (|s| > 0 && Contains(s[1..], p))
  }

  /** `s.replaceAll(p, rep)` for a non-empty pattern: scans left to right and
      replaces each non-overlapping occurrence of `p` with `rep`. */
  function ReplaceAll(s: string, p: string, rep: string): string
    requires |p| > 0
    decreases |s|
  {
    if s == [] then []
    else if StartsWith(s, p) then rep + ReplaceAll(s[|p|..], p, rep)
    else [s[0]] + ReplaceAll(s[1..], p, rep)
  }

  /** `s.split(p)` for a non-empty pattern: the pieces of `s` between the
      occurrences `ReplaceAll` finds, always at least one. */
  function Split(s: string, p: string): (pieces: seq<string>)
    requires |p| > 0
    ensures |pieces| >= 1
    decreases |s|
  {
    if s == [] then [[]]
    else if StartsWith(s, p) then [[]] + Split(s[|p|..], p)
    else
      var rest := Split(s[1..], p);
      [[s[0]] + rest[0]] + rest[1..]
  }

  /** `pieces.join(sep)`. */
  function Join(pieces: seq<string>, sep: string): string
    decreases |pieces|
  {
    if |pieces| == 0 then []
    else if |pieces| == 1 then pieces[0]
    else pieces[0] + sep + Join(pieces[1..], sep)
  }

  lemma JoinConsChar(c: char, pieces: seq<string>, sep: string)
    requires |pieces| >= 1
    ensures Join([[c] + pieces[0]] + pieces[1..], sep) == [c] + Join(pieces, sep)
  {
    var ps := [[c] + pieces[0]] + pieces[1..];
    if |pieces| > 1 {
      assert ps[1..] == pieces[1..];
    }
  }

  /** Replacing every occurrence is cutting at the occurrences and gluing the
      pieces back with the replacement. */
  lemma {:induction false} ReplaceAllIsSplitJoin(s: string, p: string, rep: string)
    requires |p| > 0
    ensures ReplaceAll(s, p, rep) == Join(Split(s, p), rep)
    decreases |s|
  {
    if s == [] {
    } else if StartsWith(s, p) {
      ReplaceAllIsSplitJoin(s[|p|..], p, rep);
      var rest := Split(s[|p|..], p);
      assert ([[]] + rest)[1..] == rest;
    } else {
      ReplaceAllIsSplitJoin(s[1..], p, rep);
      JoinConsChar(s[0], Split(s[1..], p), rep);
    }
  }

  /** Replacing the pattern with itself changes nothing. */
  lemma {:induction false} ReplaceAllSelf(s: string, p: string)
    requires |p| > 0
    ensures ReplaceAll(s, p, p) == s
    decreases |s|
  {
    if s == [] {
    } else if StartsWith(s, p) {
      ReplaceAllSelf(s[|p|..], p);
      assert s == s[..|p|] + s[|p|..];
    } else {
      ReplaceAllSelf(s[1..], p);
      assert s == [s[0]] + s[1..];
    }
  }

  /** Gluing the pieces back with the pattern restores the string: `Split`
      loses nothing but the occurrences. */
  lemma SplitJoinRoundTrip(s: string, p: string)
    requires |p| > 0
    ensures Join(Split(s, p), p) == s
  {
    ReplaceAllIsSplitJoin(s, p, p);
    ReplaceAllSelf(s, p);
  }

  /** The first piece is a prefix of the string. */
  lemma {:induction false} SplitHeadIsPrefix(s: string, p: string)
    requires |p| > 0
    ensures |Split(s, p)[0]| <= |s| && Split(s, p)[0] == s[..|Split(s, p)[0]|]
    decreases |s|
  {
    if s != [] && !StartsWith(s, p) {
      SplitHeadIsPrefix(s[1..], p);
    }
  }

  lemma StartsWithPrefix(s: string, t: string, p: string)
    requires |t| <= |s| && t == s[..|t|]
    requires StartsWith(t, p)
    ensures StartsWith(s, p)
  {
    assert s[..|p|] == t[..|p|];
  }

  lemma {:induction false} ContainsAfterChar(c: char, t: string, p: string)
    requires Contains([c] + t, p)
    ensures StartsWith([c] + t, p) || Contains(t, p)
  {
    assert ([c] + t)[1..] == t;
  }

  /** No piece contains the pattern: every occurrence was cut out. */
  lemma {:induction false} SplitPiecesFree(s: string, p: string)
    requires |p| > 0
    ensures forall i :: 0 <= i < |Split(s, p)| ==> !Contains(Split(s, p)[i], p)
    decreases |s|
  {
    var pieces := Split(s, p);
    if s == [] {
      assert pieces == [[]];
      assert !StartsWith([], p);
    } else if StartsWith(s, p) {
      SplitPiecesFree(s[|p|..], p);
      var rest := Split(s[|p|..], p);
      assert pieces == [[]] + rest;
      assert !Contains([], p);
      forall i | 0 <= i < |pieces| ensures !Contains(pieces[i], p) {
        if i > 0 { assert pieces[i] == rest[i - 1]; }
      }
    } else {
      SplitPiecesFree(s[1..], p);
      SplitHeadIsPrefix(s[1..], p);
      var rest := Split(s[1..], p);
      var head := [s[0]] + rest[0];
      assert pieces == [head] + rest[1..];
      assert !Contains(rest[0], p);
      assert head == s[..|head|];
      if Contains(head, p) {
        ContainsAfterChar(s[0], rest[0], p);
        StartsWithPrefix(s, head, p);
        assert false;
      }
      forall i | 0 <= i < |pieces| ensures !Contains(pieces[i], p) {
        if i > 0 { assert pieces[i] == rest[i]; }
      }
    }
  }

  /** A string without the pattern is its own single piece. */
  lemma {:induction false} SplitAbsent(s: string, p: string)
    requires |p| > 0
    requires !Contains(s, p)
    ensures Split(s, p) == [s]
    decreases |s|
  {
    if s != [] {
      SplitAbsent(s[1..], p);
      assert [s[0]] + s[1..] == s;
    }
  }

  /** `replaceAll` leaves a string without the pattern unmodified. */
  lemma ReplaceAllAbsent(s: string, p: string, rep: string)
    requires |p| > 0
    requires !Contains(s, p)
    ensures ReplaceAll(s, p, rep) == s
  {
    ReplaceAllIsSplitJoin(s, p, rep);
    SplitAbsent(s, p);
  }

  /** No occurrence of `p` in `s + t` starts inside `s`. */
  predicate NoOccurrenceWithin(s: string, t: string, p: string) {
    forall k :: 0 <= k < |s| ==> !StartsWith(s[k..] + t, p)
  }

  /** `s` holds no opening brace, the first character of both placeholders. */
  predicate BraceFree(s: string) {
    forall i :: 0 <= i < |s| ==> s[i] != '{'
  }

  lemma BraceFreeSkips(s: string, t: string, p: string)
    requires |p| > 0 && p[0] == '{' && BraceFree(s)
    ensures NoOccurrenceWithin(s, t, p)
  {
    forall k | 0 <= k < |s| ensures !StartsWith(s[k..] + t, p) {
      assert (s[k..] + t)[0] == s[k];
    }
  }

  lemma NoOccurrenceWithinTail(s: string, t: string, p: string)
    requires |s| > 0 && NoOccurrenceWithin(s, t, p)
    ensures NoOccurrenceWithin(s[1..], t, p)
  {
    forall k | 0 <= k < |s[1..]| ensures !StartsWith(s[1..][k..] + t, p) {
      assert s[1..][k..] == s[k + 1..];
    }
  }

  /** Text in which no occurrence starts is copied through unchanged. */
  lemma {:induction false} ReplaceAllSkips(s: string, t: string, p: string, rep: string)
    requires |p| > 0 && NoOccurrenceWithin(s, t, p)
    ensures ReplaceAll(s + t, p, rep) == s + ReplaceAll(t, p, rep)
    decreases |s|
  {
    if s != [] {
      assert s[0..] + t == s + t;
      assert !StartsWith(s + t, p);
      assert (s + t)[1..] == s[1..] + t;
      NoOccurrenceWithinTail(s, t, p);
      ReplaceAllSkips(s[1..], t, p, rep);
      calc {
        ReplaceAll(s + t, p, rep);
        [s[0]] + ReplaceAll(s[1..] + t, p, rep);
        [s[0]] + (s[1..] + ReplaceAll(t, p, rep));
        { assert s == [s[0]] + s[1..]; }
        s + ReplaceAll(t, p, rep);
      }
    } else {
      assert s + t == t;
    }
  }

  /** An occurrence at the front is replaced and the scan resumes after it. */
  lemma ReplaceAllAtPattern(t: string, p: string, rep: string)
    requires |p| > 0
    ensures ReplaceAll(p + t, p, rep) == rep + ReplaceAll(t, p, rep)
  {
    assert (p + t)[..|p|] == p;
    assert (p + t)[|p|..] == t;
  }

  /** Text in which no occurrence starts does not change whether `p` occurs. */
  lemma {:induction false} ContainsSkips(s: string, t: string, p: string)
    requires NoOccurrenceWithin(s, t, p)
    ensures Contains(s + t, p) <==> Contains(t, p)
    decreases |s|
  {
    if s != [] {
      assert s[0..] + t == s + t;
      assert !StartsWith(s + t, p);
      assert (s + t)[1..] == s[1..] + t;
      NoOccurrenceWithinTail(s, t, p);
      ContainsSkips(s[1..], t, p);
    } else {
      assert s + t == t;
    }
  }

  /** No occurrence of `{data}` starts inside a leading `{sender}`. */
  lemma SenderSkipsData(t: string)
    ensures NoOccurrenceWithin(SENDER, t, DATA)
  {
    forall k | 0 <= k < |SENDER| ensures !StartsWith(SENDER[k..] + t, DATA) {
      if k == 0 {
        assert (SENDER + t)[1] == 's';
      } else {
        assert (SENDER[k..] + t)[0] == SENDER[k];
      }
    }
  }

  /** The HTTP method of a gateway request: fetch's default (GET) or POST. */
  datatype Method = Default | Post

  /** The JSON body `{sender, data}` of a POST request. */
  datatype Body = JsonBody(sender: Address, data: Hex)

  datatype GatewayRequest = GatewayRequest(url: string, verb: Method, body: Option<Body>)

  /** Builds the request for one URL template of the active lookup. As the code
      is written, a template that contains `{data}` is sent as POST with the
      JSON body; every other template goes with the default method and no body.
      (Section "Gateway Interface" of EIP-3668 asks for the opposite choice.)
      In both cases every `{data}` is replaced with the request, and then every
      `{sender}` with the origin address. */
  function BuildRequest(template: string, request: Hex, origin: Address): (r: GatewayRequest)
    ensures r.verb == Post <==> Contains(template, DATA)
    ensures r.body.Some? <==> Contains(template, DATA)
    ensures r.body.Some? ==> r.body.value == JsonBody(origin, request)
  {
    var url := ReplaceAll(ReplaceAll(template, DATA, request), SENDER, origin);
    if Contains(template, DATA) then GatewayRequest(url, Post, Some(JsonBody(origin, request)))
    else GatewayRequest(url, Default, None)
  }

  /** The URL sent is the template cut at every `{data}` and glued back with
      the request, then cut at every `{sender}` and glued back with the
      origin; no piece cut out still holds its placeholder. */
  lemma TemplateSubstitution(template: string, request: Hex, origin: Address)
    ensures var withData := Join(Split(template, DATA), request);
      BuildRequest(template, request, origin).url == Join(Split(withData, SENDER), origin) &&
      (forall i :: 0 <= i < |Split(template, DATA)| ==> !Contains(Split(template, DATA)[i], DATA)) &&
      (forall i :: 0 <= i < |Split(withData, SENDER)| ==> !Contains(Split(withData, SENDER)[i], SENDER))
  {
    var withData := ReplaceAll(template, DATA, request);
    ReplaceAllIsSplitJoin(template, DATA, request);
    ReplaceAllIsSplitJoin(withData, SENDER, origin);
    SplitPiecesFree(template, DATA);
    SplitPiecesFree(withData, SENDER);
  }

  /** A template holding neither placeholder is sent unmodified, with the
      default method and no body. */
  lemma TemplateWithoutPlaceholders(template: string, request: Hex, origin: Address)
    requires !Contains(template, DATA) && !Contains(template, SENDER)
    ensures BuildRequest(template, request, origin) == GatewayRequest(template, Default, None)
  {
    ReplaceAllAbsent(template, DATA, request);
    ReplaceAllAbsent(template, SENDER, origin);
  }

  /** A template without placeholders in brace-free text goes out with the
      default method, no body, and its URL unmodified. */
  lemma PlainTemplate(template: string, request: Hex, origin: Address)
    requires BraceFree(template)
    ensures BuildRequest(template, request, origin) == GatewayRequest(template, Default, None)
  {
    BraceFreeSkips(template, [], DATA);
    BraceFreeSkips(template, [], SENDER);
    ContainsSkips(template, [], DATA);
    ContainsSkips(template, [], SENDER);
    assert template + [] == template;
    TemplateWithoutPlaceholders(template, request, origin);
  }

  lemma BraceFreeConcat(a: string, b: string)
    requires BraceFree(a) && BraceFree(b)
    ensures BraceFree(a + b)
  {
    forall i | 0 <= i < |a + b| ensures (a + b)[i] != '{' {
      if i >= |a| {
        assert (a + b)[i] == b[i - |a|];
      }
    }
  }

  /** Brace-free text has no placeholder to replace. */
  lemma BraceFreeUnchanged(s: string, p: string, rep: string)
    requires |p| > 0 && p[0] == '{' && BraceFree(s)
    ensures ReplaceAll(s, p, rep) == s && !Contains(s, p)
  {
    BraceFreeSkips(s, [], p);
    ReplaceAllSkips(s, [], p, rep);
    ContainsSkips(s, [], p);
    assert s + [] == s;
  }

  /** One placeholder in brace-free text is replaced in place. */
  lemma SubstituteOne(prefix: string, suffix: string, p: string, rep: string)
    requires |p| > 0 && p[0] == '{' && BraceFree(prefix) && BraceFree(suffix)
    ensures ReplaceAll(prefix + (p + suffix), p, rep) == prefix + (rep + suffix)
    ensures Contains(prefix + (p + suffix), p)
  {
    BraceFreeSkips(prefix, p + suffix, p);
    ReplaceAllSkips(prefix, p + suffix, p, rep);
    ContainsSkips(prefix, p + suffix, p);
    ReplaceAllAtPattern(suffix, p, rep);
    BraceFreeUnchanged(suffix, p, rep);
    assert StartsWith(p + suffix, p);
  }

  /** A template `prefix{data}suffix` (brace-free text around the
      placeholder and a brace-free request) is POSTed to
      `prefix<request>suffix`. */
  lemma DataTemplate(prefix: string, suffix: string, request: Hex, origin: Address)
    requires BraceFree(prefix) && BraceFree(suffix) && BraceFree(request)
    ensures BuildRequest(prefix + DATA + suffix, request, origin) ==
      GatewayRequest(prefix + request + suffix, Post, Some(JsonBody(origin, request)))
  {
    assert prefix + DATA + suffix == prefix + (DATA + suffix);
    SubstituteOne(prefix, suffix, DATA, request);
    BraceFreeConcat(request, suffix);
    BraceFreeConcat(prefix, request + suffix);
    BraceFreeUnchanged(prefix + (request + suffix), SENDER, origin);
    assert prefix + (request + suffix) == prefix + request + suffix;
  }

  /** The first pass over `prefix{sender}middle{data}suffix`: only `{data}`
      is replaced. */
  lemma DataPassKeepsSender(prefix: string, middle: string, suffix: string, request: Hex)
    requires BraceFree(prefix) && BraceFree(middle) && BraceFree(suffix)
    ensures ReplaceAll(prefix + (SENDER + (middle + (DATA + suffix))), DATA, request) ==
      prefix + (SENDER + (middle + (request + suffix)))
    ensures Contains(prefix + (SENDER + (middle + (DATA + suffix))), DATA)
  {
    SubstituteOne(middle, suffix, DATA, request);
    SenderSkipsData(middle + (DATA + suffix));
    ReplaceAllSkips(SENDER, middle + (DATA + suffix), DATA, request);
    ContainsSkips(SENDER, middle + (DATA + suffix), DATA);
    BraceFreeSkips(prefix, SENDER + (middle + (DATA + suffix)), DATA);
    ReplaceAllSkips(prefix, SENDER + (middle + (DATA + suffix)), DATA, request);
    ContainsSkips(prefix, SENDER + (middle + (DATA + suffix)), DATA);
  }

  /** A template `prefix{sender}middle{data}suffix` (brace-free text around
      the placeholders, brace-free request and origin) is POSTed to
      `prefix<origin>middle<request>suffix`. */
  lemma SenderDataTemplate(prefix: string, middle: string, suffix: string, request: Hex, origin: Address)
    requires BraceFree(prefix) && BraceFree(middle) && BraceFree(suffix)
    requires BraceFree(request) && BraceFree(origin)
    ensures BuildRequest(prefix + SENDER + middle + DATA + suffix, request, origin) ==
      GatewayRequest(prefix + origin + middle + request + suffix, Post, Some(JsonBody(origin, request)))
  {
    assert prefix + SENDER + middle + DATA + suffix == prefix + (SENDER + (middle + (DATA + suffix)));
    DataPassKeepsSender(prefix, middle, suffix, request);
    var tail := middle + (request + suffix);
    BraceFreeConcat(request, suffix);
    BraceFreeConcat(middle, request + suffix);
    SubstituteOne(prefix, tail, SENDER, origin);
    assert prefix + (origin + tail) == prefix + origin + middle + request + suffix;
  }
}
