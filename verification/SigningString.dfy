/** The string a client signs, and why it stands for one request only. */
module SigningString {
  import opened Results
  import opened Tables
  import opened Texts

  const NEWLINE: string := ['\n']

  function HexDigit(d: nat): char
    requires d < 16
  {
    if d < 10 then '0' + d as char else 'a' + (d - 10) as char
  }

  /** Two lower-case digits a byte. */
  function Hex(bytes: Bytes): string {
    if bytes == [] then ""
    else
      var b := bytes[0] as int;
      [HexDigit(b / 16), HexDigit(b % 16)] + Hex(bytes[1..])
  }

  function Join(parts: seq<string>, separator: string): string {
    if parts == [] then ""
    else if |parts| == 1 then parts[0]
    else parts[0] + separator + Join(parts[1..], separator)
  }

  /** What a signature covers; the digest is the SHA-256 of the body. */
  datatype Signed = Signed(verb: string, path: string, timestamp: string, nonce: string, digest: Bytes)

  function SigningString(s: Signed): string {
    Join([s.verb, s.path, s.timestamp, s.nonce, Hex(s.digest)], NEWLINE)
  }

  // ---- reading a signing string back

  /** The fields of a signing string, the digest still in hex: the method ends at the first
      newline, and hash, nonce and timestamp start after the last three. */
  datatype Read = Read(verb: string, path: string, timestamp: string, nonce: string, hash: string)

  function ReadBack(text: string): Option<Read> {
    match Cut(text, '\n')
    case None => None
    case Some((verb, rest)) =>
      match CutLast(rest, '\n')
      case None => None
      case Some((front, hash)) =>
        match CutLast(front, '\n')
        case None => None
        case Some((middle, nonce)) =>
          match CutLast(middle, '\n')
          case None => None
          case Some((path, timestamp)) => Some(Read(verb, path, timestamp, nonce, hash))
  }

  lemma {:induction false} HexIsClean(bytes: Bytes)
    ensures '\n' !in Hex(bytes)
  {
    if bytes != [] {
      HexIsClean(bytes[1..]);
      var b := bytes[0] as int;
      assert Hex(bytes) == [HexDigit(b / 16), HexDigit(b % 16)] + Hex(bytes[1..]);
    }
  }

  lemma {:induction false} HexInjective(xs: Bytes, ys: Bytes)
    requires Hex(xs) == Hex(ys)
    ensures xs == ys
  {
    if xs == [] || ys == [] {
      assert xs != [] ==> |Hex(xs)| >= 2;
      assert ys != [] ==> |Hex(ys)| >= 2;
    } else {
      var x, y := xs[0] as int, ys[0] as int;
      assert Hex(xs)[0] == HexDigit(x / 16) && Hex(ys)[0] == HexDigit(y / 16);
      assert Hex(xs)[1] == HexDigit(x % 16) && Hex(ys)[1] == HexDigit(y % 16);
      assert Hex(xs)[2..] == Hex(xs[1..]) && Hex(ys)[2..] == Hex(ys[1..]);
      HexInjective(xs[1..], ys[1..]);
      assert x == y;
      assert xs == [xs[0]] + xs[1..] && ys == [ys[0]] + ys[1..];
    }
  }

  /** The three fields that arrive in the request line and the headers carry no newline. */
  predicate Clean(s: Signed) {
    '\n' !in s.verb && '\n' !in s.timestamp && '\n' !in s.nonce
  }

  function ReadOf(s: Signed): Read {
    Read(s.verb, s.path, s.timestamp, s.nonce, Hex(s.digest))
  }

  lemma Joined(s: Signed)
    ensures SigningString(s) ==
      s.verb + NEWLINE + (s.path + NEWLINE + s.timestamp + NEWLINE + s.nonce + NEWLINE + Hex(s.digest))
  {
    hide Hex;
    var parts := [s.verb, s.path, s.timestamp, s.nonce, Hex(s.digest)];
    assert parts[4..] == [Hex(s.digest)];
    assert parts[3..][1..] == parts[4..] && parts[2..][1..] == parts[3..] && parts[1..][1..] == parts[2..];
    assert Join(parts[3..], NEWLINE) == s.nonce + NEWLINE + Hex(s.digest);
    assert Join(parts[2..], NEWLINE) == s.timestamp + NEWLINE + Join(parts[3..], NEWLINE);
    assert Join(parts[1..], NEWLINE) == s.path + NEWLINE + Join(parts[2..], NEWLINE);
    assert s.path + NEWLINE + (s.timestamp + NEWLINE + (s.nonce + NEWLINE + Hex(s.digest)))
        == s.path + NEWLINE + s.timestamp + NEWLINE + s.nonce + NEWLINE + Hex(s.digest);
  }

  lemma CleanReadsBack(s: Signed)
    requires Clean(s)
    ensures ReadBack(SigningString(s)) == Some(ReadOf(s))
  {
    Joined(s);
    HexIsClean(s.digest);
    hide Cut, CutLast, SigningString, Hex;
    var middle := s.path + NEWLINE + s.timestamp;
    var front := middle + NEWLINE + s.nonce;
    CutFinds(s.verb, '\n', front + NEWLINE + Hex(s.digest));
    CutLastFinds(front, '\n', Hex(s.digest));
    CutLastFinds(middle, '\n', s.nonce);
    CutLastFinds(s.path, '\n', s.timestamp);
  }

  /** A signing string reads back as the request it was built from exactly if method, timestamp
      and nonce carry no newline, whatever the path holds. */
  lemma ReadsBackIffClean(s: Signed)
    ensures ReadBack(SigningString(s)) == Some(ReadOf(s)) <==> Clean(s)
  {
    if Clean(s) {
      CleanReadsBack(s);
    } else if ReadBack(SigningString(s)) == Some(ReadOf(s)) {
      ReadFieldsAreClean(SigningString(s));
    }
  }

  lemma ReadFieldsAreClean(text: string)
    requires ReadBack(text).Some?
    ensures var r := ReadBack(text).value; '\n' !in r.verb && '\n' !in r.timestamp && '\n' !in r.nonce
  {
    CutIs(text, '\n');
    var rest := Cut(text, '\n').value.1;
    var front := CutLast(rest, '\n').value.0;
    CutLastIs(front, '\n');
    CutLastIs(CutLast(front, '\n').value.0, '\n');
  }

  /** So a signature stands for one method, path, timestamp, nonce and body digest. */
  lemma SignsOneRequest(s: Signed, t: Signed)
    requires Clean(s) && Clean(t) && SigningString(s) == SigningString(t)
    ensures s == t
  {
    CleanReadsBack(s);
    CleanReadsBack(t);
    hide ReadBack, SigningString;
    HexInjective(s.digest, t.digest);
  }

  /** Each of the three conditions is needed: a newline in any of them can pass for one of the path. */
  lemma NewlinesConfuse(path: string, x: string, y: string, timestamp: string, nonce: string, digest: Bytes)
    ensures SigningString(Signed("GET", path, x + NEWLINE + y, nonce, digest))
         == SigningString(Signed("GET", path + NEWLINE + x, y, nonce, digest))
    ensures SigningString(Signed("GET", path, timestamp, x + NEWLINE + y, digest))
         == SigningString(Signed("GET", path + NEWLINE + timestamp, x, y, digest))
    ensures SigningString(Signed(x + NEWLINE + y, path, timestamp, nonce, digest))
         == SigningString(Signed(x, y + NEWLINE + path, timestamp, nonce, digest))
  {
    var h := Hex(digest);
    hide SigningString, Hex;
    Joined(Signed("GET", path, x + NEWLINE + y, nonce, digest));
    Joined(Signed("GET", path + NEWLINE + x, y, nonce, digest));
    assert path + NEWLINE + (x + NEWLINE + y) == path + NEWLINE + x + NEWLINE + y;
    Joined(Signed("GET", path, timestamp, x + NEWLINE + y, digest));
    Joined(Signed("GET", path + NEWLINE + timestamp, x, y, digest));
    assert path + NEWLINE + timestamp + NEWLINE + (x + NEWLINE + y) ==
      path + NEWLINE + timestamp + NEWLINE + x + NEWLINE + y;
    Joined(Signed(x + NEWLINE + y, path, timestamp, nonce, digest));
    Joined(Signed(x, y + NEWLINE + path, timestamp, nonce, digest));
    var rest := timestamp + NEWLINE + nonce + NEWLINE + h;
    assert x + NEWLINE + y + NEWLINE + (path + NEWLINE + rest) == x + NEWLINE + (y + NEWLINE + path + NEWLINE + rest);
    assert path + NEWLINE + rest == path + NEWLINE + timestamp + NEWLINE + nonce + NEWLINE + h;
    assert y + NEWLINE + path + NEWLINE + rest ==
      y + NEWLINE + path + NEWLINE + timestamp + NEWLINE + nonce + NEWLINE + h;
  }
}
