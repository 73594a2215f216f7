/** Which URLs the rewrite redirects, what it makes of them, and that redirecting a
    second time changes nothing. */
module WebhookLaws {
  import opened Wrappers
  import opened Text
  import opened Urls
  import opened Webhook

  lemma {:induction false} FoldedChars(s: string)
    ensures forall c | c in s :: c == '\U{C5}' || c == '\U{BF}' || LowerChar(c) in Folded(s)
  {
    if s == "" {
    } else if |s| >= 2 && s[0] == '\U{C5}' && s[1] == '\U{BF}' {
      FoldedChars(s[2..]);
      assert s == [s[0], s[1]] + s[2..];
    } else {
      FoldedChars(s[1..]);
      assert s == [s[0]] + s[1..];
    }
  }

  lemma {:induction false} LowerCaseIsFolded(s: string)
    requires forall c | c in s :: 'a' <= c <= 'z'
    ensures Folded(s) == s
  {
    if s != "" {
      assert s == [s[0]] + s[1..] && s[0] in s && forall c | c in s[1..] :: c in s;
      LowerCaseIsFolded(s[1..]);
    }
  }

  // ----- The loopback names, with no folding -----

  /** c is the character, or the capital of it. */
  predicate IsCaseOf(c: char, lower: char) {
    c == lower || ('a' <= lower <= 'z' && c as int == lower as int - 'a' as int + 'A' as int)
  }

  /** s spells the text character by character, in either case. */
  predicate SpellsInAnyCase(s: string, text: string) {
    |s| == |text| && forall i | 0 <= i < |s| :: IsCaseOf(s[i], text[i])
  }

  /** The spellings of localhost: its letters in either case, or with a long s, which
      takes two bytes, for its s. */
  predicate SpellsLocalhost(s: string) {
    SpellsInAnyCase(s, "localhost") ||
    (|s| == 10 && SpellsInAnyCase(s[..7], "localho") && s[7..9] == "\U{C5}\U{BF}" && IsCaseOf(s[9], 't'))
  }

  predicate IsLoopbackName(host: string) { host == "127.0.0.1" || SpellsLocalhost(host) }

  /** What only its capital, if it has one, folds to. */
  predicate FoldsAlone(c: char) { c == '.' || IsDigit(c) || ('a' <= c <= 'z' && c != 's') }

  lemma FoldedFirst(s: string, c: char, t: string)
    requires FoldsAlone(c)
    ensures Folded(s) == [c] + t <==> s != "" && IsCaseOf(s[0], c) && Folded(s[1..]) == t
  {
    assert Folded(s) == [c] + t ==> Folded(s)[0] == c && Folded(s)[1..] == t;
  }

  /** Text without an s is folded to by its spellings in either case. */
  lemma {:induction false} FoldedPrefix(s: string, p: string, t: string)
    requires forall c | c in p :: FoldsAlone(c)
    ensures Folded(s) == p + t <==> |s| >= |p| && SpellsInAnyCase(s[..|p|], p) && Folded(s[|p|..]) == t
  {
    hide Folded, FoldsAlone, IsCaseOf;
    if p == "" {
      assert p + t == t && s[|p|..] == s;
    } else {
      var q := p[1..];
      assert p == [p[0]] + q && p + t == [p[0]] + (q + t) && p[0] in p && forall c | c in q :: c in p;
      FoldedFirst(s, p[0], q + t);
      if |s| >= |p| {
        assert s[1..][|q|..] == s[|p|..];
        SpellsStep(s[..|p|], p);
        assert s[..|p|][1..] == s[1..][..|q|];
      }
      if s != "" { FoldedPrefix(s[1..], q, t); }
    }
  }

  lemma SpellsStep(s: string, p: string)
    requires |s| == |p| > 0
    ensures SpellsInAnyCase(s, p) <==> IsCaseOf(s[0], p[0]) && SpellsInAnyCase(s[1..], p[1..])
  {
    hide IsCaseOf;
    assert forall i | 0 < i < |s| :: s[1..][i - 1] == s[i] && p[1..][i - 1] == p[i];
  }

  lemma SpellsDotted(s: string)
    ensures SpellsInAnyCase(s, "127.0.0.1") <==> s == "127.0.0.1"
  {
    if SpellsInAnyCase(s, "127.0.0.1") {
      forall i | 0 <= i < |s| ensures s[i] == "127.0.0.1"[i] { assert IsCaseOf(s[i], "127.0.0.1"[i]); }
    }
  }

  lemma FoldedToT(s: string)
    ensures Folded(s) == "t" <==> |s| == 1 && IsCaseOf(s[0], 't')
  {
    assert "t" == ['t'] + "";
    hide IsCaseOf;
    FoldedFirst(s, 't', "");
    if s != "" { assert Folded(s[1..]) == "" <==> s[1..] == ""; }
  }

  lemma FoldedToST(s: string)
    ensures Folded(s) == "st" <==>
            (|s| == 2 && IsCaseOf(s[0], 's') && IsCaseOf(s[1], 't')) ||
            (|s| == 3 && s[..2] == "\U{C5}\U{BF}" && IsCaseOf(s[2], 't'))
  {
    if |s| >= 2 && s[..2] == "\U{C5}\U{BF}" {
      assert s[0] == s[..2][0] && s[1] == s[..2][1];
      assert Folded(s) == ['s'] + Folded(s[2..]);
      FoldedToT(s[2..]);
      hide Folded;
      ThenT('s', Folded(s[2..]));
    } else if s != "" {
      LongSIsTwo(s);
      assert Folded(s) == [LowerChar(s[0])] + Folded(s[1..]);
      FoldedToT(s[1..]);
      hide Folded;
      ThenT(LowerChar(s[0]), Folded(s[1..]));
    }
  }

  lemma ThenT(c: char, x: string)
    ensures [c] + x == "st" <==> c == 's' && x == "t"
  {
    if [c] + x == "st" { assert c == ([c] + x)[0] && x == ([c] + x)[1..] == "st"[1..] == "t"; }
  }

  lemma LongSIsTwo(s: string)
    ensures |s| >= 2 && s[0] == '\U{C5}' && s[1] == '\U{BF}' ==> s[..2] == "\U{C5}\U{BF}"
  {}

  lemma SpellsLocalhostByParts(s: string)
    ensures SpellsLocalhost(s) <==>
            |s| >= 7 && SpellsInAnyCase(s[..7], "localho") &&
            ((|s| == 9 && IsCaseOf(s[7], 's') && IsCaseOf(s[8], 't')) ||
             (|s| == 10 && s[7..9] == "\U{C5}\U{BF}" && IsCaseOf(s[9], 't')))
  {
    hide IsCaseOf;
    assert forall i | 0 <= i < 7 :: "localhost"[i] == "localho"[i];
    if |s| >= 7 { assert forall i | 0 <= i < 7 :: s[..7][i] == s[i]; }
  }

  /** The loopback names: the address as it is, and the name letter by letter. */
  lemma IsLoopbackExactly(host: string)
    ensures IsLoopback(host) <==> IsLoopbackName(host)
  {
    assert forall c | c in "127.0.0.1" || c in "localho" :: FoldsAlone(c);
    assert "127.0.0.1" + "" == "127.0.0.1" && "localho" + "st" == "localhost";
    hide Folded, IsCaseOf, SpellsInAnyCase, SpellsLocalhost;
    FoldedPrefix(host, "127.0.0.1", "");
    SpellsDotted(host);
    FoldedPrefix(host, "localho", "st");
    SpellsLocalhostByParts(host);
    FoldsToNothing(host);
    if |host| >= 7 {
      FoldedToST(host[7..]);
      assert |host| >= 9 ==> host[7..][..2] == host[7..9];
    }
  }

  lemma FoldsToNothing(host: string)
    ensures forall n: nat | n <= |host| :: Folded(host[n..]) == "" <==> n == |host|
  {}

  predicate IsLoopbackChar(c: char) { IsUnreserved(c) || c == '\U{C5}' || c == '\U{BF}' }

  lemma LoopbackChars(host: string)
    requires IsLoopback(host)
    ensures forall c | c in host :: IsLoopbackChar(c)
  {
    FoldedChars(host);
    assert forall c | c in "127.0.0.1" || c in "localhost" :: c == '.' || IsDigit(c) || 'a' <= c <= 'z';
    hide Folded;
  }

  /** A loopback name is read back as it was printed. */
  lemma LoopbackIsHostName(host: string)
    requires IsLoopback(host)
    ensures IsHostName(host)
  {
    LoopbackChars(host);
    hide IsLoopback;
  }

  lemma LocalhostIsLoopback()
    ensures IsLoopback("localhost") && IsPlain("localhost")
    ensures '@' !in "localhost" && ':' !in "localhost" && '[' !in "localhost"
    ensures Encode("localhost", HostPart) == "localhost" && Decode("localhost", HostPart) == Some("localhost")
  {
    var s := "localhost";
    LocalhostLetters();
    hide Encode, Decode, Folded, IsLiteral;
    LettersArePlain(s);
    LowerCaseIsFolded(s);
    LiteralText(s);
  }

  lemma LocalhostLetters()
    ensures forall c | c in "localhost" :: 'a' <= c <= 'z'
  {}

  lemma LettersArePlain(s: string)
    requires forall c | c in s :: 'a' <= c <= 'z'
    ensures IsPlain(s) && '@' !in s && ':' !in s && '[' !in s
  {}

  /** A text of letters stands for itself. */
  lemma LiteralText(s: string)
    requires forall c | c in s :: 'a' <= c <= 'z'
    ensures Encode(s, HostPart) == s && Decode(s, HostPart) == Some(s)
  {
    EncodedChars(s, HostPart);
    DecodeEncode(s, HostPart);
    hide Encode, Decode;
    if '%' in Encode(s, HostPart) { OnlyEscapesPercent(s); }
  }

  lemma {:induction false} OnlyEscapesPercent(s: string)
    requires forall c | c in s :: IsLiteral(c, HostPart) && c != '%'
    ensures '%' !in Encode(s, HostPart)
  {
    if s != "" {
      assert s == [s[0]] + s[1..] && s[0] in s;
      OnlyEscapesPercent(s[1..]);
    }
  }

  /** A text holds what it stands for, and escapes. */
  lemma {:induction false} DecodedChars(t: string)
    requires Decode(t, HostPart).Some?
    ensures forall c | c in t :: c in Decode(t, HostPart).value || c == '%' || IsHex(c)
  {
    hide IsReadable, IsEscapable, IsHex, HexValue;
    if t == "" {
    } else if t[0] == '%' {
      DecodedChars(t[3..]);
      assert t == [t[0], t[1], t[2]] + t[3..];
    } else {
      DecodedChars(t[1..]);
      assert t == [t[0]] + t[1..];
    }
  }

  /** A text that stands for a loopback name. */
  predicate IsLoopbackText(t: string) { Decode(t, HostPart).Some? && IsLoopbackName(Decode(t, HostPart).value) }

  lemma LoopbackTextIsPlain(t: string)
    requires IsLoopbackText(t)
    ensures IsPlain(t) && '@' !in t && ':' !in t && '[' !in t
  {
    DecodedChars(t);
    IsLoopbackExactly(Decode(t, HostPart).value);
    LoopbackChars(Decode(t, HostPart).value);
    hide Decode, IsLoopback, IsLoopbackName;
    assert forall c | IsLoopbackChar(c) || IsHex(c) || c == '%' :: c !in DELIMITERS && c !in {'@', ':', '['};
  }

  /** The redirection, part by part. */
  lemma RedirectionByParts(url: string, external: External)
    ensures Redirection(url, external) ==
            var u := ParseURL(url);
            if external.host != "" && u.Some? && Atoi(u.value.port).Some? &&
               Atoi(u.value.port).value in external.ports && IsLoopback(u.value.host)
            then Some(Printed(u.value.(scheme := "https", host := external.host)))
            else None
  {}

  lemma HttpsIsScheme()
    ensures IsScheme("https") && Head("https") == "https://"
  {
    assert "https"[0] == 'h';
  }

  /** A redirected URL goes to the external host with the user, the port and the rest
      it had, as they are printed; with a host that is no host name it reads as no URL of
      a named host, though an address in brackets it may still read as. */
  lemma RedirectionKeepsRoute(url: string, external: External)
    requires Redirection(url, external).Some?
    ensures ParseURL(url).Some? && IsLoopback(ParseURL(url).value.host)
    ensures ParseURL(Redirection(url, external).value) ==
            if IsHostName(external.host)
            then Some(ParseURL(url).value.(scheme := "https", host := external.host))
            else None
  {
    hide Printed, ParseURL, IsHostName, IsScheme, IsSettled;
    var u := ParseURL(url).value;
    ParsedIsSettled(url);
    HttpsIsScheme();
    SettledWithHost(u, "https", external.host);
    PrintedReadsBack(u.(scheme := "https", host := external.host));
  }

  lemma SettledWithHost(u: URL, scheme: string, host: string)
    requires IsSettled(u)
    ensures IsSettled(u.(scheme := scheme, host := host))
  {}

  /** Redirecting settles, whatever the external host: a redirected URL is not redirected
      again, unless that host is a loopback name itself, and then it is to itself. */
  lemma RedirectionSettles(url: string, external: External)
    requires Redirection(url, external).Some?
    ensures var r := Redirection(url, external).value;
            Redirection(r, external) == if IsLoopback(external.host) then Some(r) else None
  {
    hide Printed, ParseURL, IsHostName, IsScheme, IsLoopback, Atoi;
    RedirectionKeepsRoute(url, external);
    RedirectionByParts(url, external);
    RedirectionByParts(Redirection(url, external).value, external);
    if IsLoopback(external.host) { LoopbackIsHostName(external.host); }
  }

  // ----- Which URLs are redirected, with no parser in sight -----

  /** Some scheme or none, perhaps a user, a name that stands for a loopback name in any
      case, the digits of an external port, and a path, query and fragment free of
      malformed escapes. */
  predicate IsExternalLoopback(
    url: string, ports: set<int>, scheme: string, user: string, name: string, port: string, rest: string)
  {
    && url == Head(scheme) + (user + (name + ":" + port) + rest)
    && (scheme == "" || IsScheme(scheme)) && IsUserText(user) && SpeltUserPart(user).Some?
    && IsLoopbackText(name) && Atoi(port).Some? && Atoi(port).value in ports
    && (rest == "" || rest[0] in DELIMITERS) && SpeltRest(rest).Some?
  }

  /** A printed redirection: user, host, port and rest. */
  function Redirected(user: string, host: string, port: string, rest: string): string {
    "https://" + (user + (Encode(host, HostPart) + ":" + port) + rest)
  }

  /** Those and no others are redirected. */
  lemma RedirectedExactly(url: string, external: External)
    ensures Redirection(url, external).Some? <==>
            external.host != "" &&
            exists scheme, user, name, port, rest ::
              IsExternalLoopback(url, external.ports, scheme, user, name, port, rest)
    ensures forall scheme, user, name, port, rest |
              IsExternalLoopback(url, external.ports, scheme, user, name, port, rest) && external.host != "" ::
              Redirection(url, external) ==
                Some(Redirected(SpeltUserPart(user).value, external.host, port, SpeltRest(rest).value))
  {
    hide IsScheme, IsUserText, SpeltUserPart, SpeltRest, IsLoopback, IsLoopbackName, Atoi, Redirected;
    RedirectionNeedsHost(url, external);
    if Redirection(url, external).Some? { RedirectedIsLoopback(url, external); }
    forall scheme, user, name, port, rest |
      IsExternalLoopback(url, external.ports, scheme, user, name, port, rest) && external.host != ""
      ensures Redirection(url, external) ==
              Some(Redirected(SpeltUserPart(user).value, external.host, port, SpeltRest(rest).value))
    {
      LoopbackIsRedirected(url, external, scheme, user, name, port, rest);
    }
  }

  lemma RedirectionNeedsHost(url: string, external: External)
    ensures Redirection(url, external).Some? ==> external.host != ""
  {}

  lemma LoopbackIsRedirected(
    url: string, external: External, scheme: string, user: string, name: string, port: string, rest: string)
    requires IsExternalLoopback(url, external.ports, scheme, user, name, port, rest) && external.host != ""
    ensures Redirection(url, external) ==
            Some(Redirected(SpeltUserPart(user).value, external.host, port, SpeltRest(rest).value))
  {
    LoopbackTextIsPlain(name);
    IsLoopbackExactly(Decode(name, HostPart).value);
    DigitsAreNoDelimiters(port);
    HttpsIsScheme();
    hide IsLoopbackName, IsScheme, SpeltUserPart, SpeltRest, IsLoopback, ReadsBack, Encode, Decode, IsPlain;
    hide ParseHostPort, ParseURL;
    ReadsHostPort(name, port);
    ReadsParts(scheme, user, name, port, rest);
    RedirectionByParts(url, external);
  }

  lemma RedirectedIsLoopback(url: string, external: External)
    requires Redirection(url, external).Some?
    ensures exists scheme, user, name, port, rest ::
              IsExternalLoopback(url, external.ports, scheme, user, name, port, rest)
  {
    RedirectionByParts(url, external);
    var u := ParseURL(url).value;
    var (scheme, after) := AfterScheme(url).value;
    SchemeRebuilds(url);
    IsLoopbackExactly(u.host);
    hide Redirection, AfterScheme, IsScheme, IsLoopback, IsLoopbackName, Atoi;
    var user, name, rest := AfterRebuilds(scheme, after);
    assert IsExternalLoopback(url, external.ports, scheme, user, name, u.port, rest);
  }

  lemma AfterRebuilds(scheme: string, after: string) returns (user: string, name: string, rest: string)
    requires ParseAfter(scheme, after).Some? && ParseAfter(scheme, after).value.port != ""
    ensures after == user + (name + ":" + ParseAfter(scheme, after).value.port) + rest
    ensures Decode(name, HostPart) == Some(ParseAfter(scheme, after).value.host)
    ensures IsUserText(user) && SpeltUserPart(user).Some?
    ensures (rest == "" || rest[0] in DELIMITERS) && SpeltRest(rest).Some?
  {
    var (u, hostPort, r) := Pieces(after);
    PiecesRebuild(after);
    user, name, rest := u, hostPort[..Span(hostPort, {':'})], r;
    HostPortRebuilds(hostPort);
    hide SpeltUserPart, SpeltRest, ParseHostPort, IsUserText, Pieces, Decode, Span;
  }

  lemma SchemeRebuilds(s: string)
    requires AfterScheme(s).Some?
    ensures var (scheme, after) := AfterScheme(s).value; s == Head(scheme) + after && (scheme == "" || IsScheme(scheme))
  {
    var colon := Span(s, {':'});
    if IsScheme(s[..colon]) && |s| >= colon + 3 { assert s == s[..colon] + s[colon..colon + 3] + s[colon + 3..]; }
  }

  lemma HostPortRebuilds(s: string)
    requires ParseHostPort(s).Some? && ParseHostPort(s).value.1 != ""
    ensures var name := s[..Span(s, {':'})];
            s == name + ":" + ParseHostPort(s).value.1 && Decode(name, HostPart) == Some(ParseHostPort(s).value.0)
  {
    var colon := Span(s, {':'});
    assert s == s[..colon] + ":" + s[colon + 1..];
  }

  lemma RedirectedRest(user: string, host: string, port: string, r: string, rest: string)
    ensures Redirected(user, host, port, r) == Redirected(user, host, port, rest) <==> r == rest
  {
    hide Encode;
    var n := 8 + |user + (Encode(host, HostPart) + ":" + port)|;
    assert Redirected(user, host, port, r)[n..] == r && Redirected(user, host, port, rest)[n..] == rest;
  }

  /** Path, query and fragment come through verbatim exactly when they are tidy. */
  lemma RestIsVerbatimExactly(user: string, host: string, port: string, rest: string)
    requires SpeltRest(rest).Some?
    ensures Redirected(user, host, port, SpeltRest(rest).value) == Redirected(user, host, port, rest) <==>
            IsTidyRest(rest)
  {
    SpeltRestIsSettled(rest);
    hide Redirected, SpeltRest, IsTidyRest;
    RedirectedRest(user, host, port, SpeltRest(rest).value, rest);
  }

  // ----- The URLs written for the external component -----

  /** Lower-case letters, digits and hyphens. */
  predicate IsSlug(s: string) { forall c | c in s :: 'a' <= c <= 'z' || IsDigit(c) || c == '-' }

  lemma SlugIsTidy(slug: string)
    requires IsSlug(slug)
    ensures SpeltRest("/" + slug) == Some("/" + slug)
  {
    var path := "/" + slug;
    forall c | c in path ensures IsLiteral(c, PathPart) && c != '%' && !IsControl(c) && c !in {'?', '#'} {
      if c != '/' { assert c in slug; }
    }
    LiteralsStand(path, PathPart);
    assert path + "" + "" == path;
    RestParts(path, "", "");
    EmptySpelt();
    hide IsLiteral, Decode, Encode, IsControl, PathEnd, QueryEnd, PathOf, FragmentOf, IsTidy;
    assert Spelt(path, PathPart) == Some(path);
    hide Spelt;
    assert path[|path|..|path|] == "" && path + "" == path;
  }

  /** Literal characters stand for themselves. */
  lemma {:induction false} LiteralsStand(s: string, part: Part)
    requires forall c | c in s :: IsLiteral(c, part) && c != '%'
    ensures Decode(s, part) == Some(s) && Encode(s, part) == s
  {
    if s != "" {
      assert s == [s[0]] + s[1..] && s[0] in s && forall c | c in s[1..] :: c in s;
      LiteralsStand(s[1..], part);
      DecodeLiteral(s[0], s[1..], part);
    }
  }

  lemma AddressStands()
    ensures IsLoopbackText("127.0.0.1") && IsUserText("") && SpeltUserPart("") == Some("")
  {
    assert forall c | c in "127.0.0.1" :: IsLiteral(c, HostPart) && c != '%';
    LiteralsStand("127.0.0.1", HostPart);
  }

  lemma AddressByParts(number: string, slug: string)
    ensures "https://127.0.0.1:" + number + "/" + slug ==
            "https://" + ("" + ("127.0.0.1" + ":" + number) + ("/" + slug))
  {
    assert "https://127.0.0.1:" == "https://" + "127.0.0.1" + ":";
  }

  lemma UnreservedStands(host: string)
    requires forall c | c in host :: IsUnreserved(c)
    ensures Encode(host, HostPart) == host
  {
    LiteralsStand(host, HostPart);
  }

  /** Whatever the external host, a URL on 127.0.0.1, an external port and a path of one
      slug is redirected to that host, and nothing else in it changes. */
  lemma AddressIsRedirected(port: GoInt, slug: string, external: External)
    requires external.host != "" && port in external.ports && port >= 0 && IsSlug(slug)
    ensures Redirection("https://127.0.0.1:" + Itoa(port) + "/" + slug, external) ==
            Some("https://" + Encode(external.host, HostPart) + ":" + Itoa(port) + "/" + slug)
  {
    SlugIsTidy(slug);
    NumberIsPlain(port);
    AddressStands();
    AddressByParts(Itoa(port), slug);
    hide *;
    var number, rest := Itoa(port), "/" + slug;
    var url := "https://" + ("" + ("127.0.0.1" + ":" + number) + rest);
    AddressIsExternal(number, rest, external.ports);
    LoopbackIsRedirected(url, external, "https", "", "127.0.0.1", number, rest);
    RedirectedByParts(external.host, number, slug);
  }

  lemma RedirectedByParts(host: string, number: string, slug: string)
    ensures Redirected("", host, number, "/" + slug) ==
            "https://" + Encode(host, HostPart) + ":" + number + "/" + slug
  {}

  lemma AddressIsExternal(number: string, rest: string, ports: set<int>)
    requires Atoi(number).Some? && Atoi(number).value in ports
    requires rest != "" && rest[0] == '/' && SpeltRest(rest).Some?
    ensures var url := "https://" + ("" + ("127.0.0.1" + ":" + number) + rest);
            IsExternalLoopback(url, ports, "https", "", "127.0.0.1", number, rest)
  {
    AddressStands();
    HttpsIsScheme();
    hide IsLoopbackText, IsUserText, SpeltUserPart, SpeltRest, IsScheme, Atoi, Head;
  }

  // ----- The URLs given to services -----

  function PathText(path: Option<string>): string { if path.Some? then path.value else "" }

  predicate PathIsRooted(path: Option<string>) { path.Some? && path.value != "" ==> path.value[0] == '/' }

  lemma NumberIsPlain(n: int)
    ensures IsPlain(Itoa(n)) && '@' !in Itoa(n) && ':' !in Itoa(n) && '[' !in Itoa(n)
    ensures AllDigits(Itoa(n)) <==> n >= 0
    ensures 0 <= n <= MAX_INT ==> Atoi(Itoa(n)) == Some(n)
  {
    if n >= 0 {
      DigitsAreNoDelimiters(Itoa(n));
      DecimalRoundTrip(n);
    } else {
      DigitsAreNoDelimiters(Decimal(-n));
      assert Itoa(n)[0] == '-' && '-' in Itoa(n);
    }
  }

  lemma ServiceURLText(port: int, path: Option<string>)
    ensures ServiceURL(port, path) == "https://localhost:" + Itoa(port) + PathText(path)
    ensures ServiceURL(port, path) == "https://" + ("" + ("localhost" + ":" + Itoa(port)) + PathText(path))
  {
    hide Itoa;
    assert "https://localhost:" == "https://" + "localhost" + ":";
  }

  lemma RootedStarts(path: Option<string>)
    requires PathIsRooted(path)
    ensures PathText(path) == "" || PathText(path)[0] in DELIMITERS
  {}

  lemma LocalhostPort(port: int)
    ensures ParseHostPort("localhost" + ":" + Itoa(port)) == if port >= 0 then Some(("localhost", Itoa(port))) else None
  {
    LocalhostIsLoopback();
    NumberIsPlain(port);
    hide Itoa, AllDigits, Decode, IsLoopback;
    ReadsHostPort("localhost", Itoa(port));
  }

  lemma ServiceURLParts(port: int, path: Option<string>)
    requires PathIsRooted(path)
    ensures ParseURL(ServiceURL(port, path)) ==
            if port < 0 || SpeltRest(PathText(path)).None? then None
            else Some(URL("https", "", "localhost", Itoa(port), SpeltRest(PathText(path)).value))
  {
    ServiceURLText(port, path);
    RootedStarts(path);
    LocalhostPort(port);
    NumberIsPlain(port);
    LocalhostIsLoopback();
    HttpsIsScheme();
    assert SpeltUserPart("") == Some("") && IsUserText("");
    hide *;
    ReadsParts("https", "", "localhost", Itoa(port), PathText(path));
  }

  /** The URL a service is given, with a path that starts with a slash, reads as an
      external one exactly when its port is an external port and the path is free of
      malformed escapes. */
  lemma ServiceURLRedirection(port: GoInt, path: Option<string>, external: External)
    requires PathIsRooted(path)
    ensures Redirection(ServiceURL(port, path), external) ==
            if external.host != "" && port >= 0 && port in external.ports && SpeltRest(PathText(path)).Some?
            then Some(Redirected("", external.host, Itoa(port), SpeltRest(PathText(path)).value))
            else None
  {
    ServiceURLParts(port, path);
    NumberIsPlain(port);
    LocalhostIsLoopback();
    HttpsIsScheme();
    hide ParseURL, ServiceURL, SpeltRest, IsLoopback, Encode, Itoa, Atoi, AllDigits, Head, PathText;
    RedirectionByParts(ServiceURL(port, path), external);
  }

  /** A path that does not come through: an escaped slash is printed as a slash for the
      sake of the space beside it, and the redirected URL names another path. */
  lemma EscapedSlashIsLost(external: External)
    requires external.host != "" && 9443 in external.ports
    ensures Redirection(ServiceURL(9443, Some("/%2F ")), external) ==
            Some(Redirected("", external.host, Itoa(9443), "//%20"))
  {
    assert "/%2F "[0] == '/';
    SpaceCostsEscape();
    hide Redirection, Redirected, ServiceURL, SpeltRest, Itoa;
    ServiceURLRedirection(9443, Some("/%2F "), external);
  }

  /** A second pass leaves a URL alone, or redirects it to itself. */
  predicate StaysPut(url: string, external: External) {
    Redirection(url, external).None? || Redirection(url, external) == Some(url)
  }

  /** When the URL a service is given stays put. */
  lemma ServiceURLStaysExactly(port: GoInt, path: Option<string>, external: External)
    requires PathIsRooted(path)
    ensures StaysPut(ServiceURL(port, path), external) <==>
            || external.host == "" || port < 0 || port !in external.ports || SpeltRest(PathText(path)).None?
            || (external.host == "localhost" && IsTidyRest(PathText(path)))
  {
    ServiceURLRedirection(port, path, external);
    ServiceURLText(port, path);
    RootedStarts(path);
    NumberIsPlain(port);
    var rest := PathText(path);
    hide SpeltRest, IsTidyRest, Redirection, ServiceURL, Redirected, Itoa, PathText, PathIsRooted, AllDigits, Atoi;
    if SpeltRest(rest).Some? {
      SpeltRestIsSettled(rest);
      SpeltRestStarts(rest);
      OnlyLocalhostStays(external.host, Itoa(port), SpeltRest(rest).value, rest);
    }
  }

  lemma OnlyLocalhostStays(host: string, number: string, r: string, rest: string)
    requires IsPlain(number) && (r == "" || r[0] in DELIMITERS) && (rest == "" || rest[0] in DELIMITERS)
    ensures Redirected("", host, number, r) == "https://localhost:" + number + rest <==>
            host == "localhost" && r == rest
  {
    var h, l := Encode(host, HostPart), "localhost";
    LocalhostIsPlainText(host);
    hide Encode, Span;
    assert "https://localhost:" == "https://" + l + ":";
    assert Redirected("", host, number, r)[8..] == h + ":" + number + r;
    assert ("https://localhost:" + number + rest)[8..] == l + ":" + number + rest;
    if h + ":" + number + r == l + ":" + number + rest { SamePlainHead(h, l, number, r, rest); }
  }

  lemma LocalhostIsPlainText(host: string)
    ensures IsPlain(Encode(host, HostPart)) && IsPlain("localhost")
    ensures Encode(host, HostPart) == "localhost" <==> host == "localhost"
  {
    LocalhostIsLoopback();
    EncodedChars(host, HostPart);
    hide IsLiteral, IsLoopback, Encode, Decode;
    forall c | c in Encode(host, HostPart) ensures c !in DELIMITERS { HostLiterals(c); }
  }

  lemma SamePlainHead(h: string, l: string, number: string, r: string, rest: string)
    requires IsPlain(h) && IsPlain(l) && IsPlain(number)
    requires (r == "" || r[0] in DELIMITERS) && (rest == "" || rest[0] in DELIMITERS)
    requires h + ":" + number + r == l + ":" + number + rest
    ensures h == l && r == rest
  {
    var a, b := h + ":" + number, l + ":" + number;
    SpanOf(a, r, DELIMITERS);
    SpanOf(b, rest, DELIMITERS);
    assert a == (a + r)[..|a|] == (b + rest)[..|b|] == b && r == (a + r)[|a|..] == (b + rest)[|b|..] == rest;
    assert h == a[..|h|] == b[..|l|] == l;
  }
}
