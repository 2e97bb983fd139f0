/**
  Server addresses: sund://host:port#fingerprint pins a CA, sund+webpki://host[:port] trusts the
  public ones.  URLs are read by the grammar of section 3 of RFC 3986.  Where the libraries decide,
  they are parameters: what is an IP address, what may stand between brackets, and whether a host
  may hold a colon without them.
  */
module Address {
  import opened Results
  import opened Texts

  datatype TrustMode = Pinned | WebPki

  datatype Address = Address(mode: TrustMode, host: string, port: int, fingerprint: string)

  /** net.ParseIP, what the URL parser lets stand between brackets, and whether it takes a host
      with a colon outside them, ending it at the last one. */
  datatype Library = Library(isIp: string -> bool, literalOk: string -> bool, colonOk: bool)

  // ---- characters

  predicate Letter(c: char) { 'a' <= c <= 'z' || 'A' <= c <= 'Z' }

  predicate Digit(c: char) { '0' <= c <= '9' }

  predicate SchemeChar(c: char) { Letter(c) || Digit(c) || c == '+' || c == '-' || c == '.' }

  /** Unreserved characters and sub-delimiters, what a registered name is made of, and the few more
      that the URL parser lets through. */
  predicate HostChar(c: char) {
    || Letter(c) || Digit(c)
    || c == '-' || c == '.' || c == '_' || c == '~'
    || c == '!' || c == '$' || c == '&' || c == '\'' || c == '(' || c == ')'
    || c == '*' || c == '+' || c == ',' || c == ';' || c == '='
    || c == '<' || c == '>' || c == '"' || c >= '\U{80}'
  }

  predicate LiteralChar(c: char) { HostChar(c) || c == ':' }

  predicate FingerprintChar(c: char) { '0' <= c <= '9' || 'a' <= c <= 'f' }

  predicate IsScheme(s: string) {
    s != "" && Letter(s[0]) && forall i :: 0 <= i < |s| ==> SchemeChar(s[i])
  }

  predicate Digits(s: string) {
    forall i :: 0 <= i < |s| ==> Digit(s[i])
  }

  predicate IsName(s: string) {
    forall i :: 0 <= i < |s| ==> HostChar(s[i])
  }

  predicate IsLiteral(s: string) {
    forall i :: 0 <= i < |s| ==> LiteralChar(s[i])
  }

  predicate ValidFingerprint(s: string) {
    |s| == 64 && forall i :: 0 <= i < |s| ==> FingerprintChar(s[i])
  }

  function Lower(s: string): string {
    if s == "" then ""
    else [if 'A' <= s[0] <= 'Z' then s[0] - 'A' + 'a' else s[0]] + Lower(s[1..])
  }

  // ---- numbers

  function Atoi(s: string): nat
    requires Digits(s)
  {
    if s == "" then 0 else 10 * Atoi(s[..|s| - 1]) + (s[|s| - 1] - '0') as nat
  }

  function Itoa(n: nat): (s: string)
    ensures s != "" && Digits(s) && Atoi(s) == n
  {
    var last := '0' + (n % 10) as char;
    if n < 10 then [last]
    else
      var front := Itoa(n / 10);
      assert (front + [last])[..|front|] == front;
      front + [last]
  }

  // ---- reading

  /** The parts of an authority, without userinfo: host without its brackets, and port digits. */
  function SplitAuthority(lib: Library, authority: string): Option<(string, string)> {
    if authority != "" && authority[0] == '[' then
      match Cut(authority[1..], ']')
      case None => None
      case Some((literal, after)) =>
        if !IsLiteral(literal) || !lib.literalOk(literal) then None
        else if after == "" then Some((literal, ""))
        else if after[0] == ':' && Digits(after[1..]) then Some((literal, after[1..]))
        else None
    else
      match CutLast(authority, ':')
      case None => if IsName(authority) then Some((authority, "")) else None
      case Some((name, port)) =>
        if (IsName(name) || (lib.colonOk && IsLiteral(name))) && Digits(port) then Some((name, port)) else None
  }

  datatype Url = Url(scheme: string, host: string, port: string, fragment: Option<string>)

  /** After the scheme: two slashes, the authority, and at most a slash and an empty query. */
  function SplitRest(lib: Library, rest: string): Option<(string, string)> {
    var query := Cut(rest, '?');
    if query.Some? && query.value.1 != "" then None
    else
      var path := if query.Some? then query.value.0 else rest;
      if |path| < 2 || path[..2] != "//" then None
      else
        match Cut(path[2..], '/')
        case None => SplitAuthority(lib, path[2..])
        case Some((authority, more)) => if more != "" then None else SplitAuthority(lib, authority)
  }

  function SplitUrl(lib: Library, text: string): Option<Url> {
    var hash := Cut(text, '#');
    var main := if hash.Some? then hash.value.0 else text;
    match Cut(main, ':')
    case None => None
    case Some((scheme, rest)) =>
      if !IsScheme(scheme) then None
      else
        match SplitRest(lib, rest)
        case None => None
        case Some((host, port)) =>
          Some(Url(Lower(scheme), host, port, if hash.Some? then Some(hash.value.1) else None))
  }

  predicate IsPort(n: int) {
    1 <= n <= 65_535
  }

  const SCHEME_PINNED: string := "sund"
  const SCHEME_WEBPKI: string := "sund+webpki"

  /** The address a URL stands for. */
  function AddressOf(lib: Library, u: Url): Option<Address>
    requires Digits(u.port)
  {
    if u.host == "" then None
    else if u.scheme == SCHEME_PINNED then
      if u.port == "" || !IsPort(Atoi(u.port)) then None
      else if u.fragment.None? || !ValidFingerprint(u.fragment.value) then None
      else Some(Address(Pinned, u.host, Atoi(u.port), u.fragment.value))
    else if u.scheme == SCHEME_WEBPKI then
      if u.fragment.Some? then None
      else if lib.isIp(u.host) then None
      else if u.port == "" then Some(Address(WebPki, u.host, 443, ""))
      else if !IsPort(Atoi(u.port)) then None
      else Some(Address(WebPki, u.host, Atoi(u.port), ""))
    else None
  }

  lemma PortIsDigits(lib: Library, text: string)
    ensures SplitUrl(lib, text).Some? ==> Digits(SplitUrl(lib, text).value.port)
  {
  }

  function ParseAddress(lib: Library, text: string): Option<Address> {
    PortIsDigits(lib, text);
    match SplitUrl(lib, text)
    case None => None
    case Some(u) => AddressOf(lib, u)
  }

  // ---- printing

  function JoinHostPort(host: string, port: nat): string {
    if ':' in host then "[" + host + "]:" + Itoa(port) else host + ":" + Itoa(port)
  }

  function Print(a: Address): string
    requires a.port >= 0
  {
    match a.mode
    case Pinned => "sund://" + JoinHostPort(a.host, a.port) + "#" + a.fingerprint
    case WebPki =>
      if a.port == 443 then "sund+webpki://" + a.host
      else "sund+webpki://" + JoinHostPort(a.host, a.port)
  }

  // ---- which addresses there are

  /** A host is a name, or holds a colon and may, in brackets or without them. */
  predicate IsHost(lib: Library, host: string) {
    host != "" && IsLiteral(host) && (':' in host ==> lib.literalOk(host) || lib.colonOk)
  }

  predicate WellFormed(lib: Library, a: Address) {
    && IsHost(lib, a.host) && IsPort(a.port)
    && match a.mode
       case Pinned => ValidFingerprint(a.fingerprint)
       case WebPki => a.fingerprint == "" && !lib.isIp(a.host)
  }

  /** A host with a colon does not read back: printed without brackets, as the web-PKI form with
      the default port is, or printed with brackets it may not have. */
  predicate Ambiguous(lib: Library, a: Address) {
    ':' in a.host && ((a.mode == WebPki && a.port == 443) || !lib.literalOk(a.host))
  }

  lemma LiteralIsName(host: string)
    requires IsLiteral(host)
    ensures IsName(host) <==> ':' !in host
  {
  }

  lemma AuthorityHosts(lib: Library, authority: string)
    requires SplitAuthority(lib, authority).Some? && SplitAuthority(lib, authority).value.0 != ""
    ensures IsHost(lib, SplitAuthority(lib, authority).value.0)
  {
    var host := SplitAuthority(lib, authority).value.0;
    LiteralIsName(host);
  }

  /** Whatever is accepted is well formed. */
  lemma ParsedIsWellFormed(lib: Library, text: string)
    requires ParseAddress(lib, text).Some?
    ensures WellFormed(lib, ParseAddress(lib, text).value)
  {
    hide SplitAuthority, Cut, IsHost;
    var hash := Cut(text, '#');
    var rest := Cut(if hash.Some? then hash.value.0 else text, ':').value.1;
    RestHosts(lib, rest);
  }

  lemma RestHosts(lib: Library, rest: string)
    requires SplitRest(lib, rest).Some? && SplitRest(lib, rest).value.0 != ""
    ensures IsHost(lib, SplitRest(lib, rest).value.0)
  {
    hide SplitAuthority, Cut, IsHost;
    var query := Cut(rest, '?');
    var path := if query.Some? then query.value.0 else rest;
    var slash := Cut(path[2..], '/');
    AuthorityHosts(lib, if slash.Some? then slash.value.0 else path[2..]);
  }

  // ---- round trips

  lemma BracketsSplit(lib: Library, host: string, digits: string)
    requires IsLiteral(host) && Digits(digits)
    ensures SplitAuthority(lib, "[" + host + "]:" + digits) ==
      if lib.literalOk(host) then Some((host, digits)) else None
  {
    NoneOf(host, ']');
    hide LiteralChar, HostChar, Digit;
    var authority := "[" + host + "]:" + digits;
    assert authority[1..] == host + [']'] + (":" + digits);
    CutFinds(host, ']', ":" + digits);
    assert (":" + digits)[1..] == digits;
  }

  lemma NameAndPortSplit(lib: Library, name: string, digits: string)
    requires name != "" && (IsName(name) || (lib.colonOk && IsLiteral(name))) && Digits(digits)
    ensures SplitAuthority(lib, name + ":" + digits) == Some((name, digits))
  {
    NoneOf(name, '[');
    assert ':' !in digits;
    hide HostChar, Digit;
    var authority := name + ":" + digits;
    assert authority[0] == name[0];
    assert authority == name + [':'] + digits;
    CutLastFinds(name, ':', digits);
  }

  lemma JoinedSplits(lib: Library, host: string, port: nat)
    requires IsHost(lib, host)
    ensures SplitAuthority(lib, JoinHostPort(host, port))
         == if ':' in host && !lib.literalOk(host) then None else Some((host, Itoa(port)))
  {
    LiteralIsName(host);
    hide SplitAuthority, IsLiteral, IsName, Itoa;
    if ':' in host {
      BracketsSplit(lib, host, Itoa(port));
    } else {
      NameAndPortSplit(lib, host, Itoa(port));
    }
  }

  /** Delimiters do not occur in hosts. */
  lemma NoneOf(host: string, c: char)
    requires IsLiteral(host) || IsName(host)
    requires !LiteralChar(c)
    ensures c !in host
  {
  }

  lemma BareSplits(lib: Library, name: string)
    requires name != "" && IsName(name)
    ensures SplitAuthority(lib, name) == Some((name, ""))
  {
    NoneOf(name, '[');
    LiteralIsName(name);
    CutLastIs(name, ':');
  }

  /** No delimiter that ends an authority occurs in it. */
  predicate Undelimited(authority: string) {
    '/' !in authority && '?' !in authority && '#' !in authority
  }

  lemma DigitsUndelimited(s: string)
    requires Digits(s)
    ensures Undelimited(s)
  {
    assert !Digit('/') && !Digit('?') && !Digit('#');
  }

  lemma JoinedUndelimited(lib: Library, host: string, port: nat)
    requires IsHost(lib, host)
    ensures Undelimited(host) && Undelimited(JoinHostPort(host, port))
  {
    NoneOf(host, '/');
    NoneOf(host, '?');
    NoneOf(host, '#');
    DigitsUndelimited(Itoa(port));
  }

  lemma AuthorityRest(lib: Library, authority: string)
    requires Undelimited(authority)
    ensures SplitRest(lib, "//" + authority) == SplitAuthority(lib, authority)
  {
    hide SplitAuthority;
    var rest := "//" + authority;
    assert '?' !in rest;
    CutIs(rest, '?');
    assert rest[..2] == "//" && rest[2..] == authority;
    CutIs(authority, '/');
  }

  lemma MainCuts(scheme: string, authority: string, fragment: Option<string>)
    requires scheme == SCHEME_PINNED || scheme == SCHEME_WEBPKI
    requires Undelimited(authority)
    ensures
      var main := scheme + "://" + authority;
      && Cut(main, ':') == Some((scheme, "//" + authority))
      && Cut(main, '#') == None
      && (fragment.Some? ==> Cut(main + "#" + fragment.value, '#') == Some((main, fragment.value)))
  {
    hide Cut;
    SchemeHasNoDelimiter(scheme);
    var main := scheme + "://" + authority;
    assert main == scheme + [':'] + ("//" + authority);
    CutFinds(scheme, ':', "//" + authority);
    assert '#' !in main;
    CutIs(main, '#');
    if fragment.Some? { CutFinds(main, '#', fragment.value); }
  }

  lemma MainSplits(lib: Library, scheme: string, authority: string, text: string, fragment: Option<string>)
    requires scheme == SCHEME_PINNED || scheme == SCHEME_WEBPKI
    requires Undelimited(authority)
    requires text == scheme + "://" + authority + (match fragment case None => "" case Some(f) => "#" + f)
    ensures SplitUrl(lib, text) == match SplitAuthority(lib, authority)
      case None => None
      case Some((host, port)) => Some(Url(scheme, host, port, fragment))
  {
    hide Cut, SplitAuthority, SplitRest, IsScheme, Lower, Undelimited;
    SchemesStand();
    MainCuts(scheme, authority, fragment);
    AuthorityRest(lib, authority);
    var main := scheme + "://" + authority;
    match fragment
    case None => assert text == main;
    case Some(f) => assert text == main + "#" + f;
  }

  lemma SchemeHasNoDelimiter(scheme: string)
    requires scheme == SCHEME_PINNED || scheme == SCHEME_WEBPKI
    ensures ':' !in scheme && '#' !in scheme
  {
  }

  predicate LowerScheme(s: string) {
    s == "" || (('a' <= s[0] <= 'z' || s[0] == '+') && LowerScheme(s[1..]))
  }

  lemma {:induction false} SchemeStands(s: string)
    requires LowerScheme(s)
    ensures Lower(s) == s
    ensures forall i :: 0 <= i < |s| ==> SchemeChar(s[i])
  {
    if s != "" {
      SchemeStands(s[1..]);
      assert s == [s[0]] + s[1..];
    }
  }

  lemma SchemesStand()
    ensures Lower(SCHEME_PINNED) == SCHEME_PINNED && Lower(SCHEME_WEBPKI) == SCHEME_WEBPKI
    ensures IsScheme(SCHEME_PINNED) && IsScheme(SCHEME_WEBPKI)
  {
    assert LowerScheme(SCHEME_PINNED) by { LowerJoin("su", "nd"); }
    assert LowerScheme(SCHEME_WEBPKI) by {
      LowerJoin("we", "b");
      LowerJoin("pk", "i");
      LowerJoin("web", "pki");
      LowerJoin("+", "webpki");
      LowerJoin(SCHEME_PINNED, "+webpki");
    }
    SchemeStands(SCHEME_PINNED);
    SchemeStands(SCHEME_WEBPKI);
  }

  lemma {:induction false} LowerJoin(s: string, t: string)
    requires LowerScheme(s) && LowerScheme(t)
    ensures LowerScheme(s + t)
  {
    if s == "" {
      assert s + t == t;
    } else {
      LowerJoin(s[1..], t);
      assert (s + t)[1..] == s[1..] + t;
    }
  }

  lemma DefaultPortReadsBack(lib: Library, a: Address)
    requires WellFormed(lib, a) && a.mode == WebPki && a.port == 443
    ensures ParseAddress(lib, Print(a)) == Some(a) <==> ':' !in a.host
  {
    JoinedUndelimited(lib, a.host, a.port);
    LiteralIsName(a.host);
    if ':' in a.host { AuthorityLosesColon(lib, a.host); } else { BareSplits(lib, a.host); }
    hide SplitUrl, SplitAuthority, Itoa, Atoi, IsName, IsLiteral, Undelimited, JoinHostPort;
    assert Print(a) == SCHEME_WEBPKI + "://" + a.host + "";
    MainSplits(lib, SCHEME_WEBPKI, a.host, Print(a), None);
  }

  lemma WebPkiReadsBack(lib: Library, a: Address)
    requires WellFormed(lib, a) && a.mode == WebPki && a.port != 443
    ensures ParseAddress(lib, Print(a)) == Some(a) <==> (':' in a.host ==> lib.literalOk(a.host))
  {
    JoinedUndelimited(lib, a.host, a.port);
    JoinedSplits(lib, a.host, a.port);
    hide SplitUrl, SplitAuthority, Itoa, Atoi, IsName, IsLiteral, Undelimited, JoinHostPort;
    var authority := JoinHostPort(a.host, a.port);
    assert Print(a) == SCHEME_WEBPKI + "://" + authority + "";
    MainSplits(lib, SCHEME_WEBPKI, authority, Print(a), None);
  }

  lemma PinnedReadsBack(lib: Library, a: Address)
    requires WellFormed(lib, a) && a.mode == Pinned
    ensures ParseAddress(lib, Print(a)) == Some(a) <==> (':' in a.host ==> lib.literalOk(a.host))
  {
    JoinedUndelimited(lib, a.host, a.port);
    JoinedSplits(lib, a.host, a.port);
    hide SplitUrl, SplitAuthority, Itoa, Atoi, IsName, IsLiteral, Undelimited, JoinHostPort, ValidFingerprint;
    var authority := JoinHostPort(a.host, a.port);
    assert Print(a) == SCHEME_PINNED + "://" + authority + ("#" + a.fingerprint);
    MainSplits(lib, SCHEME_PINNED, authority, Print(a), Some(a.fingerprint));
  }

  /** A well-formed address reads back from its print exactly if the print is not ambiguous. */
  lemma PrintReadsBack(lib: Library, a: Address)
    requires WellFormed(lib, a)
    ensures ParseAddress(lib, Print(a)) == Some(a) <==> !Ambiguous(lib, a)
  {
    hide ParseAddress, Print, WellFormed;
    if a.mode == Pinned {
      PinnedReadsBack(lib, a);
    } else if a.port == 443 {
      DefaultPortReadsBack(lib, a);
    } else {
      WebPkiReadsBack(lib, a);
    }
  }

  /** Without brackets, a host with a colon is taken apart or refused, never read back. */
  lemma AuthorityLosesColon(lib: Library, host: string)
    requires IsLiteral(host) && ':' in host
    ensures SplitAuthority(lib, host).Some? ==> SplitAuthority(lib, host).value.0 != host
  {
    NoneOf(host, '[');
    hide HostChar, Digit;
    CutLastIs(host, ':');
  }

  /** A text that names the address: brackets where they may stand, and the port always. */
  function Spelled(lib: Library, a: Address): string
    requires a.port >= 0
  {
    var authority := if ':' in a.host && lib.literalOk(a.host) then "[" + a.host + "]:" + Itoa(a.port)
                     else a.host + ":" + Itoa(a.port);
    match a.mode
    case Pinned => SCHEME_PINNED + "://" + authority + ("#" + a.fingerprint)
    case WebPki => SCHEME_WEBPKI + "://" + authority + ""
  }

  lemma SpelledIsAccepted(lib: Library, a: Address)
    requires WellFormed(lib, a)
    ensures ParseAddress(lib, Spelled(lib, a)) == Some(a)
  {
    var port := Itoa(a.port);
    var brackets := ':' in a.host && lib.literalOk(a.host);
    var authority := if brackets then "[" + a.host + "]:" + port else a.host + ":" + port;
    LiteralIsName(a.host);
    JoinedUndelimited(lib, a.host, a.port);
    DigitsUndelimited(port);
    if brackets { BracketsSplit(lib, a.host, port); } else { NameAndPortSplit(lib, a.host, port); }
    assert Undelimited(authority);
    hide SplitUrl, SplitAuthority, Itoa, Atoi, IsName, IsLiteral, Undelimited, JoinHostPort, ValidFingerprint;
    match a.mode
    case Pinned => MainSplits(lib, SCHEME_PINNED, authority, Spelled(lib, a), Some(a.fingerprint));
    case WebPki => MainSplits(lib, SCHEME_WEBPKI, authority, Spelled(lib, a), None);
  }

  /** The well-formed addresses are exactly those some text is accepted as. */
  lemma AcceptedIffWellFormed(lib: Library, a: Address)
    ensures WellFormed(lib, a) <==> exists text :: ParseAddress(lib, text) == Some(a)
  {
    hide ParseAddress, WellFormed, Spelled;
    if WellFormed(lib, a) {
      assert IsPort(a.port) by { PortOf(lib, a); }
      SpelledIsAccepted(lib, a);
    }
    if text :| ParseAddress(lib, text) == Some(a) { ParsedIsWellFormed(lib, text); }
  }

  lemma PortOf(lib: Library, a: Address)
    requires WellFormed(lib, a)
    ensures IsPort(a.port)
  {
  }

  /** Parsing normalises: an accepted address printed and parsed again is the same address, unless
      its print is ambiguous. */
  lemma RoundTrip(lib: Library, text: string)
    requires ParseAddress(lib, text).Some?
    ensures
      var a := ParseAddress(lib, text).value;
      ParseAddress(lib, Print(a)) == Some(a) <==> !Ambiguous(lib, a)
  {
    hide ParseAddress;
    ParsedIsWellFormed(lib, text);
    PrintReadsBack(lib, ParseAddress(lib, text).value);
  }

  /** If only IP addresses may stand between brackets, the addresses that round-trip are exactly
      those whose host has no colon, DNS names and IPv4 literals, and the bracketed IP literals of
      pinned mode. */
  lemma RoundTripForIpLiterals(lib: Library, text: string)
    requires forall s :: lib.literalOk(s) ==> lib.isIp(s)
    requires ParseAddress(lib, text).Some?
    ensures
      var a := ParseAddress(lib, text).value;
      ParseAddress(lib, Print(a)) == Some(a) <==> (':' in a.host ==> a.mode == Pinned && lib.literalOk(a.host))
  {
    hide ParseAddress;
    ParsedIsWellFormed(lib, text);
    PrintReadsBack(lib, ParseAddress(lib, text).value);
  }

  /** One print, one address. */
  lemma PrintIsInjective(lib: Library, a: Address, b: Address)
    requires WellFormed(lib, a) && WellFormed(lib, b) && !Ambiguous(lib, a) && !Ambiguous(lib, b)
    requires Print(a) == Print(b)
    ensures a == b
  {
    hide ParseAddress, Print;
    PrintReadsBack(lib, a);
    PrintReadsBack(lib, b);
  }

  // ---- losing characters never loses the pin

  /** `less` is `text` with characters deleted. */
  predicate Deleted(less: string, text: string) {
    less == "" ||
    (text != "" && ((less[0] == text[0] && Deleted(less[1..], text[1..])) || Deleted(less, text[1..])))
  }

  lemma {:induction false} DeletedTwice(least: string, less: string, text: string)
    requires Deleted(least, less) && Deleted(less, text)
    ensures Deleted(least, text)
    decreases |least| + |less| + |text|
  {
    if least != "" {
      if less[0] == text[0] && Deleted(less[1..], text[1..]) {
        if least[0] == less[0] && Deleted(least[1..], less[1..]) {
          DeletedTwice(least[1..], less[1..], text[1..]);
        } else {
          DeletedTwice(least, less[1..], text[1..]);
        }
      } else {
        DeletedTwice(least, less, text[1..]);
      }
    }
  }

  lemma {:induction false} DeletedMore(less: string, prefix: string, text: string)
    requires Deleted(less, text)
    ensures Deleted(less, prefix + text)
  {
    if prefix == "" {
      assert prefix + text == text;
    } else {
      DeletedMore(less, prefix[1..], text);
      assert (prefix + text)[1..] == prefix[1..] + text;
    }
  }

  lemma {:induction false} DeletedPast(less: string, prefix: string, text: string)
    requires less != "" && less[0] !in prefix && Deleted(less, prefix + text)
    ensures Deleted(less, text)
  {
    if prefix == "" {
      assert prefix + text == text;
    } else {
      assert (prefix + text)[1..] == prefix[1..] + text && (prefix + text)[0] == prefix[0];
      DeletedPast(less, prefix[1..], text);
    }
  }

  lemma {:induction false} DeletedCounts(less: string, text: string, c: char)
    requires Deleted(less, text)
    ensures multiset(less)[c] <= multiset(text)[c]
    decreases |text|
  {
    if less != "" {
      assert text == [text[0]] + text[1..];
      assert less == [less[0]] + less[1..];
      if less[0] == text[0] && Deleted(less[1..], text[1..]) {
        DeletedCounts(less[1..], text[1..], c);
      } else {
        DeletedCounts(less, text[1..], c);
      }
    }
  }

  /** A plus sign with two slashes somewhere after it. */
  const PLUS_SLASHES: string := "+//"

  lemma {:induction false} LowerKeeps(s: string, c: char)
    requires !('a' <= c <= 'z')
    ensures c in Lower(s) ==> c in s
  {
    if s != "" {
      LowerKeeps(s[1..], c);
      assert s == [s[0]] + s[1..];
    }
  }

  /** How an accepted text is made up. */
  lemma AcceptedParts(lib: Library, text: string) returns (scheme: string, rest: string, tail: string)
    requires SplitUrl(lib, text).Some?
    ensures text == scheme + ":" + rest + tail
    ensures SplitUrl(lib, text).value.scheme == Lower(scheme)
    ensures SplitRest(lib, rest).Some?
    ensures match SplitUrl(lib, text).value.fragment case None => tail == "" case Some(f) => tail == "#" + f
  {
    hide Cut, SplitRest;
    CutIs(text, '#');
    var hash := Cut(text, '#');
    var main := if hash.Some? then hash.value.0 else text;
    tail := if hash.Some? then "#" + hash.value.1 else "";
    CutIs(main, ':');
    scheme, rest := Cut(main, ':').value.0, Cut(main, ':').value.1;
    assert text == main + tail;
    assert main == scheme + ":" + rest;
  }

  lemma RestParts(lib: Library, rest: string) returns (authority: string, end: string)
    requires SplitRest(lib, rest).Some?
    ensures rest == "//" + authority + end
    ensures '/' !in authority && (end == "" || end == "/" || end == "?" || end == "/?")
  {
    hide Cut, SplitAuthority;
    CutIs(rest, '?');
    var query := Cut(rest, '?');
    var path := if query.Some? then query.value.0 else rest;
    CutIs(path[2..], '/');
    var slash := Cut(path[2..], '/');
    authority := if slash.Some? then slash.value.0 else path[2..];
    end := (if slash.Some? then "/" else "") + (if query.Some? then "?" else "");
    assert path == "//" + path[2..];
    assert path == "//" + authority + if slash.Some? then "/" else "";
    assert rest == path + if query.Some? then "?" else "";
  }

  /** A web-PKI address has a plus sign before its two slashes. */
  lemma WebPkiHasPlus(lib: Library, text: string)
    requires ParseAddress(lib, text).Some? && ParseAddress(lib, text).value.mode == WebPki
    ensures Deleted(PLUS_SLASHES, text)
  {
    hide SplitUrl, SplitRest, IsScheme;
    var scheme, rest, tail := AcceptedParts(lib, text);
    var authority, end := RestParts(lib, rest);
    LowerKeeps(scheme, '+');
    assert Lower(scheme)[4] == '+';
    var i :| 0 <= i < |scheme| && scheme[i] == '+';
    var after := scheme[i + 1..] + ":";
    var slashes := "//" + (authority + end + tail);
    assert text == scheme[..i] + ("+" + (after + slashes));
    SlashesInFront(authority + end + tail);
    DeletedMore("//", after, slashes);
    assert ("+" + (after + slashes))[1..] == after + slashes && PLUS_SLASHES[1..] == "//";
    DeletedMore(PLUS_SLASHES, scheme[..i], "+" + (after + slashes));
  }

  lemma SlashesInFront(s: string)
    ensures Deleted("//", "//" + s)
  {
    var t := "//" + s;
    assert t[1..][1..] == s && t[1..][0] == '/' && "//"[1..] == "/" && "/"[1..] == "";
    assert Deleted("", s);
    assert Deleted("/", t[1..]);
  }

  lemma PinnedUrl(lib: Library, text: string)
    requires ParseAddress(lib, text).Some? && ParseAddress(lib, text).value.mode == Pinned
    ensures SplitUrl(lib, text).Some? && SplitUrl(lib, text).value.scheme == SCHEME_PINNED
    ensures SplitUrl(lib, text).value.fragment.Some? && ValidFingerprint(SplitUrl(lib, text).value.fragment.value)
  {
    hide SplitUrl, ValidFingerprint;
  }

  /** A pinned address has no plus sign before two slashes: its scheme has none, and after its
      authority there is at most one slash. */
  lemma PinnedHasNoPlus(lib: Library, text: string)
    requires ParseAddress(lib, text).Some? && ParseAddress(lib, text).value.mode == Pinned
    ensures !Deleted(PLUS_SLASHES, text)
  {
    PinnedUrl(lib, text);
    hide ParseAddress, SplitUrl, SplitRest, Deleted, Lower, ValidFingerprint;
    var scheme, rest, tail := AcceptedParts(lib, text);
    var authority, end := RestParts(lib, rest);
    LowerOnlyLetters(scheme);
    var f := SplitUrl(lib, text).value.fragment.value;
    FingerprintHasNoSlash(f);
    PartsHaveNoPlus(scheme, authority, end, f);
    assert text == scheme + ":" + ("//" + authority + end) + ("#" + f);
  }

  lemma PartsHaveNoPlus(scheme: string, authority: string, end: string, f: string)
    requires '+' !in scheme && '/' !in authority && '/' !in f
    requires end == "" || end == "/" || end == "?" || end == "/?"
    ensures !Deleted(PLUS_SLASHES, scheme + ":" + ("//" + authority + end) + ("#" + f))
  {
    hide Deleted;
    var front, back := scheme + "://", authority + end + ("#" + f);
    assert scheme + ":" + ("//" + authority + end) + ("#" + f) == front + back;
    OneSlash(authority, end, "#" + f);
    NoPlusSlashes(front, back);
  }

  lemma FingerprintHasNoSlash(f: string)
    requires ValidFingerprint(f)
    ensures '/' !in f
  {
  }

  lemma NoPlusSlashes(front: string, back: string)
    requires '+' !in front && multiset(back)['/'] <= 1
    ensures !Deleted(PLUS_SLASHES, front + back)
  {
    hide Deleted;
    assert multiset(PLUS_SLASHES)['/'] == 2;
    if Deleted(PLUS_SLASHES, front + back) {
      DeletedPast(PLUS_SLASHES, front, back);
      DeletedCounts(PLUS_SLASHES, back, '/');
    }
  }

  lemma {:induction false} LowerHas(s: string, c: char)
    requires !('A' <= c <= 'Z') && c in s
    ensures c in Lower(s)
  {
    if s[0] != c { LowerHas(s[1..], c); }
  }

  lemma LowerOnlyLetters(scheme: string)
    requires Lower(scheme) == SCHEME_PINNED
    ensures '+' !in scheme
  {
    if '+' in scheme { LowerHas(scheme, '+'); }
  }

  lemma OneSlash(authority: string, end: string, tail: string)
    requires '/' !in authority && (end == "" || end == "/" || end == "?" || end == "/?")
    requires '/' !in tail
    ensures multiset(authority + end + tail)['/'] <= 1
  {
    assert multiset(authority)['/'] == 0 && multiset(tail)['/'] == 0;
    assert multiset(end)['/'] <= 1;
  }

  /** No deletion of characters turns a valid pinned address into a valid web-PKI one. */
  lemma DeletionKeepsPin(lib: Library, text: string, less: string)
    requires ParseAddress(lib, text).Some? && ParseAddress(lib, text).value.mode == Pinned
    requires Deleted(less, text)
    ensures !(ParseAddress(lib, less).Some? && ParseAddress(lib, less).value.mode == WebPki)
  {
    hide ParseAddress, Deleted;
    if ParseAddress(lib, less).Some? && ParseAddress(lib, less).value.mode == WebPki {
      WebPkiHasPlus(lib, less);
      DeletedTwice(PLUS_SLASHES, less, text);
      PinnedHasNoPlus(lib, text);
    }
  }
}
