/**
 The token codec of backend/core/auth.py: unpadded base64url (RFC 4648 section 5, RFC 7515
 section 2) and the three dot-separated parts of a compact token (RFC 7515 section 7.1).
 */
module Jwt {
  import opened Options

  type Byte = x: int | 0 <= x < 256
  type Sextet = x: int | 0 <= x < 64

  // ---------------------------------------------------------------- the base64 library

  function StdChar(v: Sextet): char {
    if v < 26 then ('A' as int + v) as char
    else if v < 52 then ('a' as int + v - 26) as char
    else if v < 62 then ('0' as int + v - 52) as char
    else if v == 62 then '+' else '/'
  }

  function StdValue(c: char): Option<Sextet> {
    if 'A' <= c <= 'Z' then Some(c as int - 'A' as int)
    else if 'a' <= c <= 'z' then Some(c as int - 'a' as int + 26)
    else if '0' <= c <= '9' then Some(c as int - '0' as int + 52)
    else if c == '+' then Some(62)
    else if c == '/' then Some(63)
    else None
  }

  // The four sextets of a group of three bytes.
  function First(x: Byte): Sextet { x / 4 }
  function Second(x: Byte, y: Byte): Sextet { x % 4 * 16 + y / 16 }
  function Third(y: Byte, z: Byte): Sextet { y % 16 * 4 + z / 64 }
  function Fourth(z: Byte): Sextet { z % 64 }

  /** The characters of whole and partial groups, before padding. */
  function Body(bs: seq<Byte>): string {
    if bs == [] then ""
    else if |bs| == 1 then [StdChar(First(bs[0])), StdChar(Second(bs[0], 0))]
    else if |bs| == 2 then [StdChar(First(bs[0])), StdChar(Second(bs[0], bs[1])), StdChar(Third(bs[1], 0))]
    else Group(bs[0], bs[1], bs[2]) + Body(bs[3..])
  }

  function Group(x: Byte, y: Byte, z: Byte): string {
    [StdChar(First(x)), StdChar(Second(x, y)), StdChar(Third(y, z)), StdChar(Fourth(z))]
  }

  function Pads(n: nat): string {
    seq(n, _ => '=')
  }

  function Encode(bs: seq<Byte>): string {
    Body(bs) + Pads(if |bs| % 3 == 0 then 0 else 3 - |bs| % 3)
  }

  /**
   The lenient decoder of the library: characters outside the alphabet are skipped, enough
   padding ends the text, and a text that ends inside a group is an error. `left` holds the
   bits of the group that are not yet written.
   */
  function DecodeFrom(s: string, quad: nat, left: nat, pads: nat): Option<seq<Byte>>
    requires quad < 4 && (quad == 1 ==> left < 64) && (quad == 2 ==> left < 16) && (quad == 3 ==> left < 4)
  {
    if s == "" then if quad == 0 then Some([]) else None
    else if s[0] == '=' then
      if quad < 2 then DecodeFrom(s[1..], quad, left, pads)
      else if quad + pads + 1 >= 4 then Some([])
      else DecodeFrom(s[1..], quad, left, pads + 1)
    else
      match StdValue(s[0])
      case None => DecodeFrom(s[1..], quad, left, pads)
      case Some(v) =>
        if quad == 0 then DecodeFrom(s[1..], 1, v, 0)
        else if quad == 1 then Write(left * 4 + v / 16, DecodeFrom(s[1..], 2, v % 16, 0))
        else if quad == 2 then Write(left * 16 + v / 4, DecodeFrom(s[1..], 3, v % 4, 0))
        else Write(left * 64 + v, DecodeFrom(s[1..], 0, 0, 0))
  }

  function Write(b: Byte, rest: Option<seq<Byte>>): Option<seq<Byte>> {
    if rest.Some? then Some([b] + rest.value) else None
  }

  /** Text is accepted only if it is ASCII. */
  function Decode(s: string): Option<seq<Byte>> {
    if exists i | 0 <= i < |s| :: s[i] >= 128 as char then None else DecodeFrom(s, 0, 0, 0)
  }

  // ---------------------------------------------------------------- base64url without padding

  function Map(s: string, f: char -> char): (r: string)
    ensures |r| == |s| && forall i | 0 <= i < |s| :: r[i] == f(s[i])
  {
    seq(|s|, i requires 0 <= i < |s| => f(s[i]))
  }

  function ToUrlChar(c: char): char {
    if c == '+' then '-' else if c == '/' then '_' else c
  }

  function FromUrlChar(c: char): char {
    if c == '-' then '+' else if c == '_' then '/' else c
  }

  function StripPads(s: string): string {
    if s != "" && s[|s| - 1] == '=' then StripPads(s[..|s| - 1]) else s
  }

  function UrlEncode(bs: seq<Byte>): string {
    StripPads(Map(Encode(bs), ToUrlChar))
  }

  /** `_b64d`. */
  function UrlDecode(s: string): Option<seq<Byte>> {
    var std := Map(s, FromUrlChar);
    var pad := 4 - |std| % 4;
    Decode(if pad != 4 then std + Pads(pad) else std)
  }

  // ---------------------------------------------------------------- the codec is an identity

  lemma CharRoundTrip(v: Sextet)
    ensures StdValue(StdChar(v)) == Some(v)
    ensures StdChar(v) != '=' && StdChar(v) != '.' && StdChar(v) != '-' && StdChar(v) != '_' && StdChar(v) < 128 as char
  {
  }

  predicate IsAlphabet(s: string) {
    forall i | 0 <= i < |s| :: StdValue(s[i]).Some?
  }

  lemma DecodeTwo(a: Sextet, b: Sextet, rest: string)
    ensures DecodeFrom([StdChar(a), StdChar(b)] + rest, 0, 0, 0)
            == Write(a * 4 + b / 16, DecodeFrom(rest, 2, b % 16, 0))
  {
    var s := [StdChar(a), StdChar(b)] + rest;
    CharRoundTrip(a);
    CharRoundTrip(b);
    assert s[1..] == [StdChar(b)] + rest && s[1..][1..] == rest;
  }

  lemma DecodeThird(left: nat, c: Sextet, rest: string)
    requires left < 16
    ensures DecodeFrom([StdChar(c)] + rest, 2, left, 0) == Write(left * 16 + c / 4, DecodeFrom(rest, 3, c % 4, 0))
  {
    CharRoundTrip(c);
    assert ([StdChar(c)] + rest)[1..] == rest;
  }

  lemma DecodeFourth(left: nat, d: Sextet, rest: string)
    requires left < 4
    ensures DecodeFrom([StdChar(d)] + rest, 3, left, 0) == Write(left * 64 + d, DecodeFrom(rest, 0, 0, 0))
  {
    CharRoundTrip(d);
    assert ([StdChar(d)] + rest)[1..] == rest;
  }

  lemma DecodePads()
    ensures forall left: nat | left < 16 :: DecodeFrom("==", 2, left, 0) == Some([])
    ensures forall left: nat | left < 4 :: DecodeFrom("=", 3, left, 0) == Some([])
  {
    forall left: nat | left < 16
      ensures DecodeFrom("==", 2, left, 0) == Some([])
    {
      assert "=="[1..] == "=";
    }
  }

  /** The four sextets of a group carry its three bytes. */
  lemma GroupBits(x: Byte, y: Byte, z: Byte)
    ensures First(x) * 4 + Second(x, y) / 16 == x && Second(x, y) % 16 == y / 16
    ensures y / 16 * 16 + Third(y, z) / 4 == y && Third(y, z) % 4 == z / 64
    ensures z / 64 * 64 + Fourth(z) == z
  {
  }

  lemma DecodeOne(x: Byte)
    ensures DecodeFrom(Encode([x]), 0, 0, 0) == Some([x])
  {
    hide DecodeFrom, First, Second, StdChar;
    DecodePads();
    GroupBits(x, 0, 0);
    assert Encode([x]) == [StdChar(First(x)), StdChar(Second(x, 0))] + "==";
    DecodeTwo(First(x), Second(x, 0), "==");
    assert [x] + [] == [x];
  }

  lemma DecodePair(x: Byte, y: Byte)
    ensures DecodeFrom(Encode([x, y]), 0, 0, 0) == Some([x, y])
  {
    hide DecodeFrom, First, Second, Third, StdChar;
    DecodePads();
    GroupBits(x, y, 0);
    var tail := [StdChar(Third(y, 0))] + "=";
    assert Encode([x, y]) == [StdChar(First(x)), StdChar(Second(x, y))] + tail;
    DecodeTwo(First(x), Second(x, y), tail);
    DecodeThird(y / 16, Third(y, 0), "=");
    assert [y] + [] == [y] && [x] + [y] == [x, y];
  }

  lemma DecodeGroup(x: Byte, y: Byte, z: Byte, rest: string)
    ensures DecodeFrom(Group(x, y, z) + rest, 0, 0, 0) == Write(x, Write(y, Write(z, DecodeFrom(rest, 0, 0, 0))))
  {
    hide DecodeFrom, First, Second, Third, Fourth, StdChar;
    GroupBits(x, y, z);
    var last := [StdChar(Fourth(z))] + rest;
    var tail := [StdChar(Third(y, z))] + last;
    assert Group(x, y, z) + rest == [StdChar(First(x)), StdChar(Second(x, y))] + tail;
    DecodeTwo(First(x), Second(x, y), tail);
    DecodeThird(y / 16, Third(y, z), last);
    DecodeFourth(z / 64, Fourth(z), rest);
  }

  lemma EncodeGroup(bs: seq<Byte>)
    requires |bs| >= 3
    ensures Encode(bs) == Group(bs[0], bs[1], bs[2]) + Encode(bs[3..])
  {
    hide Group;
    AddThree(|bs[3..]|, 0);
  }

  /** Decoding undoes encoding on every byte string. */
  lemma {:induction false} DecodeEncode(bs: seq<Byte>)
    ensures DecodeFrom(Encode(bs), 0, 0, 0) == Some(bs)
  {
    hide DecodeFrom, Group, Encode;
    if bs == [] {
      DecodeNothing();
    } else if |bs| == 1 {
      assert bs == [bs[0]];
      DecodeOne(bs[0]);
    } else if |bs| == 2 {
      assert bs == [bs[0], bs[1]];
      DecodePair(bs[0], bs[1]);
    } else {
      var x, y, z := bs[0], bs[1], bs[2];
      EncodeGroup(bs);
      DecodeGroup(x, y, z, Encode(bs[3..]));
      DecodeEncode(bs[3..]);
      assert bs == [x] + ([y] + ([z] + bs[3..]));
    }
  }

  lemma DecodeNothing()
    ensures DecodeFrom(Encode([]), 0, 0, 0) == Some([])
  {
    assert Encode([]) == "";
  }

  lemma AddThree(n: nat, m: nat)
    ensures (n + 3) % 3 == n % 3 && (m + 4) % 4 == m % 4
  {
  }

  lemma {:induction false} BodyLength(bs: seq<Byte>)
    ensures |Body(bs)| % 4 == (if |bs| % 3 == 0 then 0 else |bs| % 3 + 1)
  {
    hide First, Second, Third, Fourth, StdChar;
    if |bs| >= 3 {
      BodyLength(bs[3..]);
      AddThree(|bs[3..]|, |Body(bs[3..])|);
    }
  }

  lemma AlphabetConcat(a: string, b: string)
    requires IsAlphabet(a) && IsAlphabet(b)
    ensures IsAlphabet(a + b)
  {
  }

  lemma GroupAlphabet(x: Byte, y: Byte, z: Byte)
    ensures IsAlphabet(Group(x, y, z))
  {
    hide First, Second, Third, Fourth, StdChar, StdValue;
    CharRoundTrip(First(x));
    CharRoundTrip(Second(x, y));
    CharRoundTrip(Third(y, z));
    CharRoundTrip(Fourth(z));
  }

  lemma {:induction false} BodyAlphabet(bs: seq<Byte>)
    ensures IsAlphabet(Body(bs))
  {
    hide Group, IsAlphabet;
    if |bs| >= 3 {
      BodyAlphabet(bs[3..]);
      GroupAlphabet(bs[0], bs[1], bs[2]);
      AlphabetConcat(Group(bs[0], bs[1], bs[2]), Body(bs[3..]));
    } else {
      ShortAlphabet(bs);
    }
  }

  lemma ShortAlphabet(bs: seq<Byte>)
    requires |bs| < 3
    ensures IsAlphabet(Body(bs))
  {
    hide First, Second, Third, StdChar, StdValue;
    if |bs| > 0 {
      CharRoundTrip(First(bs[0]));
      CharRoundTrip(Second(bs[0], 0));
      if |bs| == 2 {
        CharRoundTrip(Second(bs[0], bs[1]));
        CharRoundTrip(Third(bs[1], 0));
      }
    }
  }

  lemma AlphabetFacts(s: string)
    requires IsAlphabet(s)
    ensures forall i | 0 <= i < |s| :: s[i] != '=' && s[i] != '.' && s[i] != '-' && s[i] != '_' && s[i] < 128 as char
  {
  }

  lemma {:induction false} StripAppended(s: string, n: nat)
    requires s == "" || s[|s| - 1] != '='
    ensures StripPads(s + Pads(n)) == s
  {
    if n > 0 {
      assert (s + Pads(n))[..|s| + n - 1] == s + Pads(n - 1);
      StripAppended(s, n - 1);
    } else {
      assert s + Pads(0) == s;
    }
  }

  /** The unpadded text is the translated body; it has no dot and no padding. */
  lemma UrlEncodeIsBody(bs: seq<Byte>)
    ensures UrlEncode(bs) == Map(Body(bs), ToUrlChar)
    ensures '.' !in UrlEncode(bs)
  {
    BodyLength(bs);
    BodyAlphabet(bs);
    AlphabetFacts(Body(bs));
    var n := if |bs| % 3 == 0 then 0 else 3 - |bs| % 3;
    assert Map(Encode(bs), ToUrlChar) == Map(Body(bs), ToUrlChar) + Pads(n);
    StripAppended(Map(Body(bs), ToUrlChar), n);
  }

  /** The base64url codec is the identity on every byte string. */
  lemma UrlRoundTrip(bs: seq<Byte>)
    ensures UrlDecode(UrlEncode(bs)) == Some(bs)
  {
    UrlEncodeIsBody(bs);
    BodyLength(bs);
    BodyAlphabet(bs);
    AlphabetFacts(Body(bs));
    var std := Map(UrlEncode(bs), FromUrlChar);
    assert std == Body(bs);
    var pad := 4 - |std| % 4;
    assert Encode(bs) == if pad != 4 then std + Pads(pad) else std;
    DecodeEncode(bs);
  }

  /** Padding and the standard alphabet are accepted too. */
  lemma PaddedRoundTrip(bs: seq<Byte>)
    ensures UrlDecode(Encode(bs)) == Some(bs) && UrlDecode(Map(Encode(bs), ToUrlChar)) == Some(bs)
  {
    BodyLength(bs);
    BodyAlphabet(bs);
    AlphabetFacts(Body(bs));
    var s := Encode(bs);
    assert |s| % 4 == 0;
    assert Map(s, FromUrlChar) == s && Map(Map(s, ToUrlChar), FromUrlChar) == s;
    DecodeEncode(bs);
    hide DecodeFrom, Encode;
  }

  // ---------------------------------------------------------------- tokens

  /** The parts of a text between its dots. */
  function Split(s: string): (parts: seq<string>)
    ensures |parts| >= 1
  {
    if s == "" then [""]
    else
      var rest := Split(s[1..]);
      if s[0] == '.' then [""] + rest else [[s[0]] + rest[0]] + rest[1..]
  }

  lemma {:induction false} SplitAtDot(a: string, b: string)
    requires '.' !in a
    ensures Split(a + "." + b) == [a] + Split(b)
  {
    var s := a + "." + b;
    if a == "" {
      assert s[1..] == b;
    } else {
      assert s[1..] == a[1..] + "." + b;
      SplitAtDot(a[1..], b);
      assert [a[0]] + a[1..] == a;
    }
  }

  lemma {:induction false} SplitNoDot(a: string)
    requires '.' !in a
    ensures Split(a) == [a]
  {
    if a != "" {
      SplitNoDot(a[1..]);
      assert [a[0]] + a[1..] == a;
    }
  }

  /** The libraries behind the codec: JSON both ways, the `alg` member of a JSON object, and the HMAC. */
  datatype Codec<!P> = Codec(dumps: P -> seq<Byte>, loads: seq<Byte> -> Option<P>,
                             algOf: seq<Byte> -> Option<string>, mac: (string, string) -> seq<Byte>)

  function Ascii(s: string): seq<Byte> {
    seq(|s|, i requires 0 <= i < |s| => if s[i] < 128 as char then s[i] as int else 0)
  }

  const HEADER := Ascii("{\"alg\":\"HS256\",\"typ\":\"JWT\"}")

  function MakeJwt<P>(c: Codec<P>, payload: P, secret: string): string {
    var h := UrlEncode(HEADER);
    var p := UrlEncode(c.dumps(payload));
    h + "." + p + "." + UrlEncode(c.mac(secret, h + "." + p))
  }

  function VerifyJwt<P>(c: Codec<P>, token: string, secret: string): Option<P> {
    var parts := Split(token);
    if |parts| != 3 then None
    else
      var header := UrlDecode(parts[0]);
      if header.None? || c.algOf(header.value) != Some("HS256") then None
      else
        var signature := UrlDecode(parts[2]);
        if signature.None? || signature.value != c.mac(secret, parts[0] + "." + parts[1]) then None
        else
          var payload := UrlDecode(parts[1]);
          if payload.None? then None else c.loads(payload.value)
  }

  lemma ThreeParts(h: string, p: string, s: string)
    requires '.' !in h && '.' !in p && '.' !in s
    ensures Split(h + "." + p + "." + s) == [h, p, s]
  {
    assert h + "." + p + "." + s == h + "." + (p + "." + s);
    SplitAtDot(h, p + "." + s);
    SplitAtDot(p, s);
    SplitNoDot(s);
  }

  /** Every payload comes back from its own token, whatever the secret and the hash. */
  lemma TokenRoundTrip<P>(c: Codec<P>, payload: P, secret: string)
    requires c.loads(c.dumps(payload)) == Some(payload)
    requires c.algOf(HEADER) == Some("HS256")
    ensures VerifyJwt(c, MakeJwt(c, payload, secret), secret) == Some(payload)
  {
    hide UrlEncode, UrlDecode, Split;
    var h, p := UrlEncode(HEADER), UrlEncode(c.dumps(payload));
    var sig := c.mac(secret, h + "." + p);
    UrlEncodeIsBody(HEADER);
    UrlEncodeIsBody(c.dumps(payload));
    UrlEncodeIsBody(sig);
    ThreeParts(h, p, UrlEncode(sig));
    UrlRoundTrip(HEADER);
    UrlRoundTrip(c.dumps(payload));
    UrlRoundTrip(sig);
  }

  /** A signature made for other content, or with another secret, is accepted only if the hashes agree. */
  lemma ForeignSignatureRefused<P>(c: Codec<P>, h: string, p: string, secret: string, other: string,
                                   otherSecret: string)
    requires '.' !in h && '.' !in p
    requires c.mac(secret, h + "." + p) != c.mac(otherSecret, other)
    ensures VerifyJwt(c, h + "." + p + "." + UrlEncode(c.mac(otherSecret, other)), secret) == None
  {
    hide UrlEncode, UrlDecode, Split;
    var sig := c.mac(otherSecret, other);
    UrlEncodeIsBody(sig);
    ThreeParts(h, p, UrlEncode(sig));
    UrlRoundTrip(sig);
  }

  /** Parts joined by dots. */
  function Join(parts: seq<string>): string
    requires parts != []
  {
    if |parts| == 1 then parts[0] else parts[0] + "." + Join(parts[1..])
  }

  lemma Associates(a: string, b: string, c: string)
    ensures a + (b + c) == a + b + c
  {
  }

  lemma JoinPrepend(c: char, parts: seq<string>)
    requires parts != []
    ensures Join([[c] + parts[0]] + parts[1..]) == [c] + Join(parts)
  {
    var first, rest := parts[0], parts[1..];
    var longer := [[c] + first] + rest;
    assert longer[0] == [c] + first && longer[1..] == rest;
    if rest == [] {
      assert longer == [[c] + first];
    } else {
      assert Join(longer) == [c] + first + "." + Join(rest);
      assert Join(parts) == first + "." + Join(rest);
      hide Join;
      var tail := Join(rest);
      Associates([c], first, ".");
      Associates([c], first + ".", tail);
    }
  }

  lemma JoinEmptyFirst(parts: seq<string>)
    requires parts != []
    ensures Join([""] + parts) == "." + Join(parts)
  {
    assert ([""] + parts)[1..] == parts;
    hide Join;
    assert "" + "." + Join(parts) == "." + Join(parts);
  }

  lemma {:induction false} JoinSplit(s: string)
    ensures Join(Split(s)) == s
  {
    if s != "" {
      JoinSplit(s[1..]);
      JoinPrepend(s[0], Split(s[1..]));
      JoinEmptyFirst(Split(s[1..]));
      hide Join;
      assert s == [s[0]] + s[1..];
    } else {
      assert Join([""]) == "";
    }
  }

  /** No part contains a dot. */
  lemma {:induction false} SplitPartsDotless(s: string)
    ensures forall i | 0 <= i < |Split(s)| :: '.' !in Split(s)[i]
  {
    if s != "" {
      SplitPartsDotless(s[1..]);
    }
  }

  /** The token is three dotless parts whose header asks for HS256 and whose signature is the secret's over the rest. */
  predicate Signed<P>(c: Codec<P>, h: string, p: string, s: string, secret: string) {
    && '.' !in h && '.' !in p && '.' !in s
    && UrlDecode(h).Some? && c.algOf(UrlDecode(h).value) == Some("HS256")
    && UrlDecode(s) == Some(c.mac(secret, h + "." + p))
  }

  /** A token is accepted with a payload exactly when it is signed so and its middle part decodes to that payload. */
  lemma AcceptedIff<P>(c: Codec<P>, token: string, secret: string, payload: P)
    ensures VerifyJwt(c, token, secret) == Some(payload)
            <==> exists h, p, s :: token == h + "." + p + "." + s && Signed(c, h, p, s, secret)
                                   && UrlDecode(p).Some? && c.loads(UrlDecode(p).value) == Some(payload)
  {
    hide UrlDecode, Split;
    var parts := Split(token);
    if |parts| == 3 {
      var h, p, s := parts[0], parts[1], parts[2];
      SplitPartsDotless(token);
      JoinSplit(token);
      JoinThree(parts);
      assert token == h + "." + p + "." + s;
    }
    forall h, p, s | token == h + "." + p + "." + s && Signed(c, h, p, s, secret)
      ensures parts == [h, p, s]
    {
      ThreeParts(h, p, s);
    }
  }

  lemma JoinThree(parts: seq<string>)
    requires |parts| == 3
    ensures Join(parts) == parts[0] + "." + parts[1] + "." + parts[2]
  {
    var last := parts[1..][1..];
    assert last == [parts[2]] && Join(last) == parts[2];
    assert Join(parts[1..]) == parts[1] + "." + Join(last);
    assert parts[0] + "." + (parts[1] + "." + parts[2]) == parts[0] + "." + parts[1] + "." + parts[2];
  }

  /** The parts of a made token decode to the fixed header, the payload's text and the signature over the two. */
  lemma TokenParts<P>(c: Codec<P>, payload: P, secret: string)
    ensures var parts := Split(MakeJwt(c, payload, secret));
            && |parts| == 3
            && UrlDecode(parts[0]) == Some(Ascii("{\"alg\":\"HS256\",\"typ\":\"JWT\"}"))
            && UrlDecode(parts[1]) == Some(c.dumps(payload))
            && UrlDecode(parts[2]) == Some(c.mac(secret, parts[0] + "." + parts[1]))
  {
    hide UrlEncode, UrlDecode, Split;
    var h, p := UrlEncode(HEADER), UrlEncode(c.dumps(payload));
    var sig := c.mac(secret, h + "." + p);
    UrlEncodeIsBody(HEADER);
    UrlEncodeIsBody(c.dumps(payload));
    UrlEncodeIsBody(sig);
    ThreeParts(h, p, UrlEncode(sig));
    UrlRoundTrip(HEADER);
    UrlRoundTrip(c.dumps(payload));
    UrlRoundTrip(sig);
  }
}
