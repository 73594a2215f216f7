/** URLs as net/url reads and prints them, a character standing for a byte: the parts
    of section 3 of RFC 3986, and percent-encoding by its section 2.1 with the library's
    choice of what each part leaves as it is. */
module Urls {
  import opened Wrappers
  import opened Text

  datatype Part = HostPart | UserPart | PathPart | FragmentPart

  predicate IsLetter(c: char) { 'a' <= c <= 'z' || 'A' <= c <= 'Z' }

  predicate IsUnreserved(c: char) { IsLetter(c) || IsDigit(c) || c in {'-', '_', '.', '~'} }

  /** No byte at all, and so left alone everywhere. */
  predicate NoByte(c: char) { c as int >= 0x100 }

  /** What is printed as it is; any other byte is printed as an escape. */
  predicate IsLiteral(c: char, part: Part) {
    IsUnreserved(c) || NoByte(c) ||
    match part
    case HostPart => c in {'!', '$', '&', '\'', '(', ')', '*', '+', ',', ';', '=', ':', '[', ']', '<', '>', '"'}
    case UserPart => c in {'$', '&', '+', ',', ';', '='}
    case PathPart => c in {'$', '&', '+', ',', '/', ':', ';', '=', '@'}
    case FragmentPart => c in {'$', '&', '+', ',', '/', ':', ';', '=', '?', '@', '!', '(', ')', '*'}
  }

  /** What may be read as it is. */
  predicate IsReadable(c: char, part: Part) {
    NoByte(c) ||
    match part
    case HostPart => c as int >= 0x80 || IsLiteral(c, HostPart)
    case UserPart => IsUnreserved(c) || c in {':', '!', '$', '&', '\'', '(', ')', '*', '+', ',', ';', '=', '@'}
    case PathPart => true
    case FragmentPart => true
  }

  /** What an escape may stand for: in a host no ASCII but the percent sign itself. */
  predicate IsEscapable(c: char, part: Part) { part.HostPart? ==> c as int >= 0x80 || c == '%' }

  predicate IsHex(c: char) { IsDigit(c) || 'a' <= c <= 'f' || 'A' <= c <= 'F' }

  // ----- The characters, by RFC 3986 -----

  const SUB_DELIMS: string := "!$&'()*+,;="

  /** A byte that is printed as it is in a part is unreserved (section 2.3), or one of the
      delimiters of sections 2.2 and 3 that the library leaves alone there. */
  lemma PrintedExactly(c: char)
    requires !NoByte(c)
    ensures IsUnreserved(c) <==> 'A' <= c <= 'Z' || 'a' <= c <= 'z' || '0' <= c <= '9' || c in "-._~"
    ensures IsLiteral(c, HostPart) <==> IsUnreserved(c) || c in SUB_DELIMS || c in ":[]<>\""
    ensures IsLiteral(c, UserPart) <==> IsUnreserved(c) || (c in SUB_DELIMS && c !in "!'()*")
    ensures IsLiteral(c, PathPart) <==> IsUnreserved(c) || (c in SUB_DELIMS && c !in "!'()*") || c in ":@/"
    ensures IsLiteral(c, FragmentPart) <==> IsUnreserved(c) || (c in SUB_DELIMS && c != '\'') || c in ":@/?"
  {}

  /** A byte that is read as it is: in a path or fragment any, in the user part what section
      3.2.1 has and the at sign, in a host what is printed there and any beyond ASCII. An
      escape may stand for any byte, but in a host for no ASCII other than the percent sign. */
  lemma ReadExactly(c: char)
    requires !NoByte(c)
    ensures IsReadable(c, PathPart) && IsReadable(c, FragmentPart)
    ensures IsReadable(c, UserPart) <==> IsUnreserved(c) || c in SUB_DELIMS || c in ":@"
    ensures IsReadable(c, HostPart) <==> IsLiteral(c, HostPart) || c as int >= 0x80
    ensures forall part: Part :: IsEscapable(c, part) <==> part != HostPart || c == '%' || c as int >= 0x80
  {}

  /** Tidy are the paths and fragments of sections 3.3 and 3.5, and square brackets. */
  lemma TidyExactly(c: char)
    requires !NoByte(c)
    ensures IsTidy([c], PathPart) <==> IsUnreserved(c) || c in SUB_DELIMS || c in ":@/%[]"
    ensures IsTidy([c], FragmentPart) <==> IsUnreserved(c) || c in SUB_DELIMS || c in ":@/?%[]"
  {
    assert c in [c];
  }

  /** Schemes are those of section 3.1, and controls those of ASCII. */
  lemma SchemeExactly(s: string, c: char)
    ensures IsScheme(s) <==>
            s != "" && ('A' <= s[0] <= 'Z' || 'a' <= s[0] <= 'z') &&
            forall i | 0 <= i < |s| ::
              'A' <= s[i] <= 'Z' || 'a' <= s[i] <= 'z' || '0' <= s[i] <= '9' || s[i] in "+-."
    ensures IsControl(c) <==> c as int < 0x20 || c as int == 0x7F
  {
    if s != "" && forall i | 0 <= i < |s| :: IsLetter(s[i]) || IsDigit(s[i]) || s[i] in "+-." {
      assert forall x | x in s :: IsLetter(x) || IsDigit(x) || x in "+-.";
    }
  }

  /** Escapes are the two upper-case hexadecimal digits of section 2.1. */
  lemma EscapeExactly(c: char)
    requires !NoByte(c)
    ensures EscapeOf(c) == ['%', "0123456789ABCDEF"[c as int / 16], "0123456789ABCDEF"[c as int % 16]]
  {
    assert forall n: nat | n < 16 :: HexDigit(n) == "0123456789ABCDEF"[n];
  }

  function HexValue(c: char): (n: nat)
    requires IsHex(c)
    ensures n < 16
  {
    if IsDigit(c) then c as int - '0' as int
    else if 'a' <= c <= 'f' then c as int - 'a' as int + 10
    else c as int - 'A' as int + 10
  }

  function HexDigit(n: nat): (c: char)
    requires n < 16
    ensures IsHex(c) && HexValue(c) == n && IsUnreserved(c)
  {
    if n < 10 then ('0' as int + n) as char else ('A' as int + n - 10) as char
  }

  function EscapeOf(c: char): string
    requires !NoByte(c)
  {
    ['%', HexDigit(c as int / 16), HexDigit(c as int % 16)]
  }

  function Encode(s: string, part: Part): string {
    if s == "" then "" else (if IsLiteral(s[0], part) then [s[0]] else EscapeOf(s[0])) + Encode(s[1..], part)
  }

  /** What an escaped text stands for; None when it is malformed. */
  function Decode(s: string, part: Part): Option<string> {
    if s == "" then Some("")
    else if s[0] == '%' then
      if |s| < 3 || !IsHex(s[1]) || !IsHex(s[2]) then None
      else
        var c := (16 * HexValue(s[1]) + HexValue(s[2])) as char;
        if !IsEscapable(c, part) then None else Prepended(c, Decode(s[3..], part))
    else if !IsReadable(s[0], part) then None
    else Prepended(s[0], Decode(s[1..], part))
  }

  function Prepended(c: char, s: Option<string>): Option<string> { if s.None? then None else Some([c] + s.value) }

  /** Texts that are read back as they were printed. */
  predicate ReadsBack(s: string, part: Part) {
    forall c | c in s :: if IsLiteral(c, part) then IsReadable(c, part) else IsEscapable(c, part)
  }

  lemma DecodeLiteral(c: char, tail: string, part: Part)
    requires IsLiteral(c, part)
    ensures Decode([c] + tail, part) == if IsReadable(c, part) then Prepended(c, Decode(tail, part)) else None
  {
    assert ([c] + tail)[1..] == tail && c != '%';
  }

  lemma DecodeEscape(c: char, tail: string, part: Part)
    requires !NoByte(c)
    ensures Decode(EscapeOf(c) + tail, part) == if IsEscapable(c, part) then Prepended(c, Decode(tail, part)) else None
  {
    var s := EscapeOf(c) + tail;
    assert s[3..] == tail && s[0] == '%' && s[1] == HexDigit(c as int / 16) && s[2] == HexDigit(c as int % 16);
    assert 16 * HexValue(s[1]) + HexValue(s[2]) == c as int;
    hide IsReadable, HexValue, IsHex;
  }

  lemma {:induction false} DecodeEncode(s: string, part: Part)
    ensures Decode(Encode(s, part), part) == if ReadsBack(s, part) then Some(s) else None
  {
    if s != "" {
      var c, tail := s[0], Encode(s[1..], part);
      DecodeEncode(s[1..], part);
      assert !IsLiteral(c, part) ==> !NoByte(c);
      hide IsLiteral, IsReadable, IsEscapable, NoByte, EscapeOf, Decode;
      assert s == [c] + s[1..];
      if IsLiteral(c, part) { DecodeLiteral(c, tail, part); } else { DecodeEscape(c, tail, part); }
    }
  }

  lemma AllButHostsReadBack(s: string, part: Part)
    requires !part.HostPart?
    ensures ReadsBack(s, part)
  {}

  /** What a printed text is made of. */
  lemma {:induction false} EncodedChars(s: string, part: Part)
    ensures forall c | c in Encode(s, part) :: IsLiteral(c, part) || c == '%'
    ensures '%' !in Encode(s, part) ==> Encode(s, part) == s
    ensures Encode(s, part) == "" <==> s == ""
    ensures forall c | IsLiteral(c, part) && !IsUnreserved(c) :: c in Encode(s, part) <==> c in s
  {
    if s != "" {
      EncodedChars(s[1..], part);
      assert s == [s[0]] + s[1..];
      if !IsLiteral(s[0], part) { assert '%' in EscapeOf(s[0]); }
    }
  }

  // ----- Paths, queries, fragments and users, as they are printed again -----

  /** A path or fragment of such characters is printed as it was read. */
  predicate IsTidy(s: string, part: Part) {
    forall c | c in s ::
      IsLiteral(c, part) || c in {'%', '!', '$', '&', '\'', '(', ')', '*', '+', ',', ';', '=', ':', '@', '[', ']'}
  }

  /** Any other is printed from what it stands for. */
  function Spelt(s: string, part: Part): Option<string> {
    match Decode(s, part)
    case None => None
    case Some(d) => Some(if IsTidy(s, part) then s else Encode(d, part))
  }

  predicate IsControl(c: char) { c < ' ' || c == '\U{7F}' }

  /** Where the query and the fragment of a text begin that follows an authority. */
  function PathEnd(rest: string): nat { Span(rest, {'?', '#'}) }

  function QueryEnd(rest: string): nat { Span(rest, {'#'}) }

  function PathOf(rest: string): string { rest[..PathEnd(rest)] }

  function FragmentOf(rest: string): string { if QueryEnd(rest) == |rest| then "" else rest[QueryEnd(rest) + 1..] }

  /** What follows the authority, as it is printed again; an empty fragment is not. */
  function SpeltRest(rest: string): Option<string> {
    SpanOrder(rest);
    var path, query, fragment := PathOf(rest), rest[PathEnd(rest)..QueryEnd(rest)], FragmentOf(rest);
    if exists c | c in path + query :: IsControl(c) then None
    else
      match (Spelt(path, PathPart), Spelt(fragment, FragmentPart))
      case (Some(p), Some(f)) => Some(p + query + if f == "" then "" else "#" + f)
      case _ => None
  }

  /** What is printed as it was read. */
  predicate IsTidyRest(rest: string) {
    IsTidy(PathOf(rest), PathPart) && IsTidy(FragmentOf(rest), FragmentPart) &&
    (QueryEnd(rest) < |rest| ==> FragmentOf(rest) != "")
  }

  /** A user, and a password after the first colon. */
  function SpeltUser(user: string): Option<string> {
    var colon := Span(user, {':'});
    match Decode(user[..colon], UserPart)
    case None => None
    case Some(name) =>
      if colon == |user| then Some(Encode(name, UserPart))
      else
        match Decode(user[colon + 1..], UserPart)
        case None => None
        case Some(password) => Some(Encode(name, UserPart) + ":" + Encode(password, UserPart))
  }

  lemma SpanOrder(rest: string)
    ensures PathEnd(rest) <= QueryEnd(rest)
  {
    SpanAvoids(rest, {'?', '#'});
  }

  lemma SpeltIsSettled(s: string, part: Part)
    requires part.PathPart? || part.FragmentPart?
    requires Spelt(s, part).Some?
    ensures Spelt(Spelt(s, part).value, part) == Spelt(s, part)
    ensures Spelt(s, part).value == s <==> IsTidy(s, part)
    ensures Spelt(s, part).value == "" <==> s == ""
    ensures forall c | c in Spelt(s, part).value :: c in s || IsLiteral(c, part) || c == '%'
  {
    var d := Decode(s, part).value;
    if !IsTidy(s, part) {
      DecodeEncode(d, part);
      AllButHostsReadBack(d, part);
      EncodedChars(d, part);
    }
  }

  lemma PathLiterals(c: char)
    requires IsLiteral(c, PathPart) || c == '%'
    ensures c != '?' && c != '#' && !IsControl(c)
  {}

  /** Three parts put together are found again. */
  lemma RestParts(path: string, query: string, fragment: string)
    requires forall c | c in path :: c !in {'?', '#'}
    requires query == "" || query[0] == '?'
    requires '#' !in query
    ensures var rest := path + query + if fragment == "" then "" else "#" + fragment;
            PathEnd(rest) == |path| && QueryEnd(rest) == |path + query| && PathOf(rest) == path &&
            rest[PathEnd(rest)..QueryEnd(rest)] == query && FragmentOf(rest) == fragment
  {
    var tail := if fragment == "" then "" else "#" + fragment;
    var rest := path + query + tail;
    assert rest == path + (query + tail);
    SpanOf(path, query + tail, {'?', '#'});
    SpanOf(path + query, tail, {'#'});
  }

  /** The parts of such a text. */
  lemma PartsOfRest(rest: string)
    ensures PathEnd(rest) <= QueryEnd(rest)
    ensures var query := rest[PathEnd(rest)..QueryEnd(rest)];
            && (forall c | c in PathOf(rest) :: c !in {'?', '#'}) && (query == "" || query[0] == '?') && '#' !in query
            && rest == PathOf(rest) + query + if QueryEnd(rest) == |rest| then "" else "#" + FragmentOf(rest)
  {
    SpanOrder(rest);
    var query := rest[PathEnd(rest)..QueryEnd(rest)];
    assert forall c | c in query :: c in rest[..QueryEnd(rest)];
  }

  lemma SpeltPath(path: string, query: string)
    requires Spelt(path, PathPart).Some?
    requires forall c | c in path :: c !in {'?', '#'}
    requires forall c | c in path + query :: !IsControl(c)
    ensures var p := Spelt(path, PathPart).value;
            (forall c | c in p :: c !in {'?', '#'}) && (forall c | c in p + query :: !IsControl(c))
  {
    var p := Spelt(path, PathPart).value;
    SpeltIsSettled(path, PathPart);
    hide Spelt, IsLiteral, IsControl;
    forall c | c in p ensures c != '?' && c != '#' && !IsControl(c) {
      if c !in path { PathLiterals(c); } else { assert c in path + query; }
    }
    assert forall c | c in query :: c in path + query;
  }

  /** Printing settles: what was printed once is printed the same again; and a text is
      printed as it was read exactly when it is tidy. */
  lemma SpeltRestIsSettled(rest: string)
    requires SpeltRest(rest).Some?
    ensures SpeltRest(SpeltRest(rest).value) == SpeltRest(rest)
    ensures SpeltRest(rest).value == rest <==> IsTidyRest(rest)
  {
    PartsOfRest(rest);
    var path, query, fragment := PathOf(rest), rest[PathEnd(rest)..QueryEnd(rest)], FragmentOf(rest);
    var (p, f) := (Spelt(path, PathPart).value, Spelt(fragment, FragmentPart).value);
    var printed := p + query + if f == "" then "" else "#" + f;
    assert SpeltRest(rest) == Some(printed);
    SpeltPath(path, query);
    SpeltIsSettled(path, PathPart);
    SpeltIsSettled(fragment, FragmentPart);
    hide Spelt, IsTidy, PathEnd, QueryEnd, PathOf, FragmentOf, IsControl;
    RestParts(p, query, f);
    if QueryEnd(rest) < |rest| && fragment == "" { assert |rest| == |path + query| + 1; }
  }

  /** A text that is not tidy: the space in it costs the second slash its escape. */
  lemma SpaceCostsEscape()
    ensures SpeltRest("/%2F ") == Some("//%20")
  {
    var path := "/%2F ";
    PlainPathIsAll(path);
    SpaceDecoded();
    SpaceEncoded();
    SpaceIsUntidy();
    hide IsTidy, Decode, Encode;
    assert Spelt(path, PathPart) == Some("//%20");
    EmptySpelt();
    hide Spelt, PathOf, FragmentOf, PathEnd, QueryEnd, IsControl;
    assert path[|path|..|path|] == "" && path + "" == path && "//%20" + "" + "" == "//%20";
  }

  lemma EmptySpelt()
    ensures Spelt("", FragmentPart) == Some("")
  {}

  lemma PlainPathIsAll(path: string)
    requires '?' !in path && '#' !in path
    ensures PathEnd(path) == QueryEnd(path) == |path| && PathOf(path) == path && FragmentOf(path) == ""
  {
    assert path + "" == path;
    SpanOf(path, "", {'?', '#'});
    SpanOf(path, "", {'#'});
  }

  lemma SpaceIsUntidy()
    ensures !IsTidy("/%2F ", PathPart) && forall c | c in "/%2F " :: !IsControl(c)
  {
    assert "/%2F "[4] == ' ' && ' ' in "/%2F ";
  }

  lemma SpaceDecoded()
    ensures Decode("/%2F ", PathPart) == Some("// ")
  {
    assert " "[1..] == "" && Decode("", PathPart) == Some("");
    assert [' '] + "" == " " && ['/'] + " " == "/ " && ['/'] + "/ " == "// ";
    assert Decode(" ", PathPart) == Prepended(' ', Some("")) == Some(" ");
    assert "%2F "[3..] == " " && HexValue('2') == 2 && HexValue('F') == 15 && 16 * 2 + 15 == '/' as int;
    assert Decode("%2F ", PathPart) == Prepended('/', Some(" "));
    assert "/%2F "[1..] == "%2F ";
  }

  lemma SpaceEncoded()
    ensures Encode("// ", PathPart) == "//%20"
  {
    assert EscapeOf(' ') == "%20" && " "[1..] == "";
    assert Encode(" ", PathPart) == "%20" + "";
    assert "// "[1..] == "/ " && "/ "[1..] == " ";
    assert Encode("/ ", PathPart) == "/%20";
  }

  // ----- Reading a URL -----

  const DELIMITERS: set<char> := {'/', '?', '#'}

  /** Free of the delimiters that end an authority. */
  predicate IsPlain(s: string) { forall c | c in s :: c !in DELIMITERS }

  /** Its parts: the user with the '@' after it, and what follows the authority, both
      as they are printed; the host that is meant; and the port as it is spelt. */
  datatype URL = URL(scheme: string, user: string, host: string, port: string, rest: string)

  /** Whether s is a scheme. */
  predicate IsScheme(s: string) {
    s != "" && IsLetter(s[0]) && forall c | c in s :: IsLetter(c) || IsDigit(c) || c in {'+', '-', '.'}
  }

  /** What a URL with an authority begins with; the scheme may be missing. */
  function Head(scheme: string): string { if scheme == "" then "//" else scheme + "://" }

  /** The scheme and what follows the two slashes, if there are any. */
  function AfterScheme(s: string): Option<(string, string)> {
    var colon := Span(s, {':'});
    if IsScheme(s[..colon]) && |s| >= colon + 3 && s[colon..colon + 3] == "://" then Some((s[..colon], s[colon + 3..]))
    else if |s| >= 2 && s[..2] == "//" then Some(("", s[2..]))
    else None
  }

  /** The user part as it is printed, given with its '@'. */
  function SpeltUserPart(user: string): Option<string> {
    if user == "" then Some("")
    else match SpeltUser(user[..|user| - 1]) case None => None case Some(u) => Some(u + "@")
  }

  /** Host and port. A host in brackets is an IPv6 address, and none that is of
      interest here; a host holds no colon. */
  function ParseHostPort(s: string): Option<(string, string)> {
    var colon := Span(s, {':'});
    var port := if colon == |s| then "" else s[colon + 1..];
    if '[' in s || !AllDigits(port) then None
    else match Decode(s[..colon], HostPart) case None => None case Some(host) => Some((host, port))
  }

  function UserEnd(authority: string): nat
    ensures UserEnd(authority) <= |authority|
  {
    if LastIndex(authority, '@') == |authority| then 0 else LastIndex(authority, '@') + 1
  }

  /** The parts of a URL with a named host. None is what net/url cannot read, and what it
      reads as an address in brackets: neither is a loopback URL. */
  function ParseURL(s: string): Option<URL> {
    match AfterScheme(s)
    case None => None
    case Some((scheme, after)) => ParseAfter(scheme, after)
  }

  /** User, host and port, and what comes after the authority. */
  function Pieces(after: string): (string, string, string) {
    var end := Span(after, DELIMITERS);
    var at := UserEnd(after[..end]);
    (after[..at], after[at..end], after[end..])
  }

  function ParseAfter(scheme: string, after: string): Option<URL> {
    var (user, hostPort, tail) := Pieces(after);
    match (SpeltUserPart(user), ParseHostPort(hostPort), SpeltRest(tail))
    case (Some(user), Some((host, port)), Some(rest)) => Some(URL(scheme, user, host, port, rest))
    case _ => None
  }

  /** A URL as it is printed; a port is always given. */
  function Printed(u: URL): string { Head(u.scheme) + (u.user + (Encode(u.host, HostPart) + ":" + u.port) + u.rest) }

  // ----- What is read is what was put together -----

  /** A user part: none, or one that ends in its '@'. */
  predicate IsUserText(user: string) { user == "" || (user[|user| - 1] == '@' && IsPlain(user)) }

  lemma ReadsScheme(scheme: string, after: string)
    requires scheme == "" || IsScheme(scheme)
    ensures AfterScheme(Head(scheme) + after) == Some((scheme, after))
  {
    var s := Head(scheme) + after;
    if scheme == "" {
      var colon := Span(s, {':'});
      assert colon > 0 ==> s[..colon][0] == '/';
    } else {
      assert s == scheme + ("://" + after);
      SpanOf(scheme, "://" + after, {':'});
      assert s[|scheme|..|scheme| + 3] == "://" && s[|scheme| + 3..] == after;
    }
  }

  /** A host before a port: it may hold no colon and open no bracket. */
  lemma ReadsHostPort(host: string, port: string)
    requires ':' !in port && '[' !in port
    ensures ParseHostPort(host + ":" + port) ==
            if '[' in host || ':' in host || !AllDigits(port) || Decode(host, HostPart).None? then None
            else Some((Decode(host, HostPart).value, port))
  {
    var s := host + ":" + port;
    if ':' in host {
      var k := Span(s, {':'});
      var i :| 0 <= i < |host| && host[i] == ':';
      SpanAvoids(s, {':'});
      assert s[k + 1..][|host| - k - 1] == ':' && ':' in s[k + 1..];
    } else {
      assert s == host + (":" + port);
      SpanOf(host, ":" + port, {':'});
      assert s[..|host|] == host && s[|host| + 1..] == port;
      assert '[' in s <==> '[' in host;
    }
  }

  lemma ReadsUser(user: string, hostPort: string)
    requires IsUserText(user) && '@' !in hostPort
    ensures UserEnd(user + hostPort) == |user|
  {
    var authority := user + hostPort;
    if user != "" {
      assert forall j | |user| <= j < |authority| :: authority[j] == hostPort[j - |user|];
      LastIndexOf(authority, '@', |user| - 1);
    }
  }

  /** The texts of the parts, put together, are read part by part. */
  lemma ReadsParts(scheme: string, user: string, host: string, port: string, rest: string)
    requires scheme == "" || IsScheme(scheme)
    requires IsUserText(user) && IsPlain(host) && '@' !in host && IsPlain(port) && '@' !in port
    requires rest == "" || rest[0] in DELIMITERS
    ensures ParseURL(Head(scheme) + (user + (host + ":" + port) + rest)) ==
            match (SpeltUserPart(user), ParseHostPort(host + ":" + port), SpeltRest(rest))
            case (Some(u), Some((h, p)), Some(r)) => Some(URL(scheme, u, h, p, r))
            case _ => None
  {
    var hostPort := host + ":" + port;
    var authority := user + hostPort;
    var after := authority + rest;
    ReadsScheme(scheme, after);
    assert IsPlain(authority) && '@' !in hostPort;
    hide SpeltUserPart, ParseHostPort, SpeltRest, UserEnd, AfterScheme, IsScheme;
    SpanOf(authority, rest, DELIMITERS);
    ReadsUser(user, hostPort);
    assert after[..|authority|] == authority && after[|authority|..] == rest;
    assert after[..|user|] == user && after[|user|..|authority|] == hostPort;
  }

  /** The parts a URL is read as are as they are printed. */
  predicate IsSettled(u: URL) {
    && IsUserText(u.user) && SpeltUserPart(u.user) == Some(u.user)
    && AllDigits(u.port)
    && (u.rest == "" || u.rest[0] in DELIMITERS) && SpeltRest(u.rest) == Some(u.rest)
  }

  lemma DigitsAreNoDelimiters(s: string)
    requires AllDigits(s)
    ensures IsPlain(s) && '@' !in s && ':' !in s && '[' !in s
  {}

  lemma UserLiterals(c: char)
    requires IsLiteral(c, UserPart) || c == '%'
    ensures c != ':' && c !in DELIMITERS
  {}

  lemma HostLiterals(c: char)
    requires IsLiteral(c, HostPart) || c == '%'
    ensures c != '@' && c !in DELIMITERS
    ensures c == ':' || c == '[' ==> IsLiteral(c, HostPart) && !IsUnreserved(c)
  {}

  lemma EncodedUser(s: string)
    ensures Decode(Encode(s, UserPart), UserPart) == Some(s)
    ensures ':' !in Encode(s, UserPart) && IsPlain(Encode(s, UserPart))
  {
    DecodeEncode(s, UserPart);
    AllButHostsReadBack(s, UserPart);
    EncodedChars(s, UserPart);
    hide Encode, Decode, IsLiteral, ReadsBack;
    forall c | c in Encode(s, UserPart) ensures c != ':' && c !in DELIMITERS { UserLiterals(c); }
  }

  lemma SpeltUserIsSettled(user: string)
    requires SpeltUser(user).Some?
    ensures SpeltUser(SpeltUser(user).value) == SpeltUser(user) && IsPlain(SpeltUser(user).value)
  {
    var colon := Span(user, {':'});
    hide Decode, Encode, Span;
    var name := Decode(user[..colon], UserPart).value;
    var n := Encode(name, UserPart);
    EncodedUser(name);
    if colon == |user| {
      assert n + "" == n;
      SpanOf(n, "", {':'});
      assert n[..|n|] == n;
    } else {
      var password := Decode(user[colon + 1..], UserPart).value;
      var p := Encode(password, UserPart);
      EncodedUser(password);
      assert n + ":" + p == n + (":" + p);
      SpanOf(n, ":" + p, {':'});
      assert (n + ":" + p)[..|n|] == n && (n + ":" + p)[|n| + 1..] == p;
    }
  }

  lemma SpeltUserPartIsSettled(user: string)
    requires SpeltUserPart(user).Some?
    ensures SpeltUserPart(SpeltUserPart(user).value) == SpeltUserPart(user) && IsUserText(SpeltUserPart(user).value)
  {
    if user != "" {
      SpeltUserIsSettled(user[..|user| - 1]);
      var u := SpeltUser(user[..|user| - 1]).value;
      assert (u + "@")[..|u|] == u;
    }
  }

  lemma SpeltStarts(path: string)
    requires path != "" && path[0] == '/' && Spelt(path, PathPart).Some?
    ensures Spelt(path, PathPart).value != "" && Spelt(path, PathPart).value[0] == '/'
  {}

  lemma SpeltRestStarts(rest: string)
    requires SpeltRest(rest).Some? && (rest == "" || rest[0] in DELIMITERS)
    ensures SpeltRest(rest).value == "" || SpeltRest(rest).value[0] in DELIMITERS
  {
    PartsOfRest(rest);
    var path, query := PathOf(rest), rest[PathEnd(rest)..QueryEnd(rest)];
    if path == "" {
      SpeltIsSettled(path, PathPart);
    } else {
      assert path[0] == rest[0] && path[0] in path;
      SpeltStarts(path);
    }
  }

  /** The pieces put together. */
  lemma PiecesRebuild(after: string)
    ensures var (user, hostPort, rest) := Pieces(after);
            after == user + hostPort + rest && IsUserText(user) && (rest == "" || rest[0] in DELIMITERS)
  {
    var end := Span(after, DELIMITERS);
    var at := UserEnd(after[..end]);
    assert after[..end][..at] == after[..at];
    assert after == after[..at] + after[at..end] + after[end..];
  }

  lemma ParsedAfterIsSettled(scheme: string, after: string)
    requires ParseAfter(scheme, after).Some?
    ensures IsSettled(ParseAfter(scheme, after).value) && ParseAfter(scheme, after).value.scheme == scheme
  {
    var (user, hostPort, rest) := Pieces(after);
    PiecesRebuild(after);
    SpeltUserPartIsSettled(user);
    PortIsDigits(hostPort);
    SpeltRestIsSettled(rest);
    SpeltRestStarts(rest);
    hide SpeltUserPart, SpeltRest, ParseHostPort, IsUserText, AllDigits, Pieces;
  }

  lemma PortIsDigits(s: string)
    requires ParseHostPort(s).Some?
    ensures AllDigits(ParseHostPort(s).value.1)
  {}

  lemma ParsedIsSettled(s: string)
    requires ParseURL(s).Some?
    ensures IsSettled(ParseURL(s).value)
    ensures ParseURL(s).value.scheme == "" || IsScheme(ParseURL(s).value.scheme)
  {
    var (scheme, after) := AfterScheme(s).value;
    hide IsSettled, ParseAfter;
    ParsedAfterIsSettled(scheme, after);
  }

  /** Hosts that are read back as they were printed. */
  predicate IsHostName(host: string) { ReadsBack(host, HostPart) && ':' !in host && '[' !in host }

  /** A settled URL, printed with any host, is read back with that host, or, if the host
      is no host name, not as a URL of a named host. */
  lemma PrintedReadsBack(u: URL)
    requires IsSettled(u) && (u.scheme == "" || IsScheme(u.scheme))
    ensures ParseURL(Printed(u)) == if IsHostName(u.host) then Some(u) else None
  {
    var host := Encode(u.host, HostPart);
    EncodedChars(u.host, HostPart);
    forall c | c in host ensures c != '@' && c !in DELIMITERS { HostLiterals(c); }
    HostLiterals(':');
    HostLiterals('[');
    DigitsAreNoDelimiters(u.port);
    assert ':' in host <==> ':' in u.host;
    assert '[' in host <==> '[' in u.host;
    DecodeEncode(u.host, HostPart);
    hide ReadsBack, Encode, Decode, SpeltUserPart, SpeltRest, IsScheme, ParseURL, ParseHostPort;
    ReadsHostPort(host, u.port);
    ReadsParts(u.scheme, u.user, host, u.port, u.rest);
  }
}
