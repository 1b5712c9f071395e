/** Self-signed certificates, fingerprints and document hashes
    (src/lib/digitalSignature.ts). RSA key generation, certificate signing,
    DER encoding and SHA-256 are opaque: they enter as parameters. What is
    modelled is the formatting around them and the order in which the
    certificate's fields are filled in. */
module DigitalSignature {
  import opened Common

  /** A SHA-256 digest. */
  type Digest = d: seq<byte> | |d| == 32 witness seq(32, _ => 0 as byte)

  /** The output of forge.random.getBytesSync(8). */
  type RandomBytes = r: seq<byte> | |r| == 8 witness seq(8, _ => 0 as byte)

  // ---------------------------------------------------------------------------
  // Hex encoding

  /** Number.prototype.toString(16) for a non-negative integer. */
  function ToHex(n: nat): (s: string)
    ensures |s| >= 1
    ensures forall i :: 0 <= i < |s| ==> IsLowerHexDigit(s[i])
    ensures n < 16 <==> |s| == 1
  {
    if n < 16 then [HexDigit(n)] else ToHex(n / 16) + [HexDigit(n % 16)]
  }

  /** b.toString(16).padStart(2, '0'): two lower-case digits whose value is b. */
  function ByteToHex(b: byte): (s: string)
    ensures |s| == 2
    ensures IsLowerHexDigit(s[0]) && IsLowerHexDigit(s[1])
    ensures HexValue(s[0]) * 16 + HexValue(s[1]) == b as int
  {
    var n: nat := b as nat;
    var h := ToHex(n);
    assert n >= 16 ==> ToHex(n / 16) == [HexDigit(n / 16)];
    assert n >= 16 ==> h == [HexDigit(n / 16), HexDigit(n % 16)];
    PadStart2(h)
  }

  /** hashArray.map(b => ...).join(''): two digits per byte, in order. */
  function HexOfBytes(bytes: seq<byte>): (s: string)
    ensures |s| == 2 * |bytes|
    ensures forall i :: 0 <= i < |s| ==> IsLowerHexDigit(s[i])
  {
    if bytes == [] then "" else ByteToHex(bytes[0]) + HexOfBytes(bytes[1..])
  }

  /** Reads pairs of hex digits back into bytes. */
  function DecodeHex(s: string): seq<byte>
  {
    if |s| < 2 then []
    else [((HexValue(s[0]) * 16 + HexValue(s[1])) % 256) as byte] + DecodeHex(s[2..])
  }

  /** The byte encoding loses nothing: decoding gives the bytes back. */
  lemma {:induction false} DecodeHexOfBytes(bytes: seq<byte>)
    ensures DecodeHex(HexOfBytes(bytes)) == bytes
  {
    if bytes != [] {
      DecodeHexCons(bytes[0], HexOfBytes(bytes[1..]));
      DecodeHexOfBytes(bytes[1..]);
    }
  }

  lemma DecodeHexCons(b: byte, t: string)
    ensures DecodeHex(ByteToHex(b) + t) == [b] + DecodeHex(t)
  {
    var h := ByteToHex(b);
    var s := h + t;
    assert s[0] == h[0] && s[1] == h[1];
    assert s[2..] == t;
    var v := HexValue(s[0]) * 16 + HexValue(s[1]);
    assert v == b as int;
    assert 0 <= v < 256;
    assert v % 256 == v;
    assert DecodeHex(s) == [(v % 256) as byte] + DecodeHex(s[2..]);
  }

  /** Byte i is spelled by characters 2i and 2i + 1. */
  lemma {:induction false} HexOfBytesAt(bytes: seq<byte>, i: nat)
    requires i < |bytes|
    ensures HexOfBytes(bytes)[2 * i..2 * i + 2] == ByteToHex(bytes[i])
  {
    var s := HexOfBytes(bytes);
    assert s == ByteToHex(bytes[0]) + HexOfBytes(bytes[1..]);
    if i > 0 {
      HexOfBytesAt(bytes[1..], i - 1);
      assert s[2 * i..2 * i + 2] == HexOfBytes(bytes[1..])[2 * (i - 1)..2 * (i - 1) + 2];
    }
  }

  /** computeDocumentHash: the SHA-256 digest of the bytes in lower-case
      hex, 64 characters. */
  function ComputeDocumentHash(bytes: seq<byte>, sha256: seq<byte> -> Digest): (h: string)
    ensures |h| == 64
    ensures forall i :: 0 <= i < |h| ==> IsLowerHexDigit(h[i])
  {
    HexOfBytes(sha256(bytes))
  }

  // ---------------------------------------------------------------------------
  // Fingerprint formatting

  /** hex.match(/.{2}/g): consecutive two-character groups; an odd last
      character is dropped. */
  function Pairs(s: string): (r: seq<string>)
    ensures |r| == |s| / 2
    ensures forall k :: 0 <= k < |r| ==> |r[k]| == 2
  {
    if |s| < 2 then [] else [s[..2]] + Pairs(s[2..])
  }

  function JoinWith(parts: seq<string>, sep: char): string
  {
    if parts == [] then ""
    else if |parts| == 1 then parts[0]
    else parts[0] + [sep] + JoinWith(parts[1..], sep)
  }

  function CountChar(s: string, c: char): nat
  {
    if s == [] then 0 else (if s[0] == c then 1 else 0) + CountChar(s[1..], c)
  }

  /** `fingerprint.match(/.{2}/g)!.join(':').toUpperCase()`. With fewer than
      two characters the match is null and the join throws. */
  function Fingerprint(hex: string): (r: Result<string>)
    ensures r.Ok? <==> |hex| >= 2
  {
    if |hex| < 2 then Err("fingerprint.match(...) is null")
    else Ok(ToUpper(JoinWith(Pairs(hex), ':')))
  }

  predicate EvenLowerHex(s: string)
  {
    |s| % 2 == 0 && forall i :: 0 <= i < |s| ==> IsLowerHexDigit(s[i])
  }

  lemma {:induction false} CountCharAppend(a: string, b: string, c: char)
    ensures CountChar(a + b, c) == CountChar(a, c) + CountChar(b, c)
  {
    if a != [] {
      assert (a + b)[1..] == a[1..] + b;
      CountCharAppend(a[1..], b, c);
    } else {
      assert a + b == b;
    }
  }

  lemma CountCharHexPair(p: string)
    requires |p| == 2 && IsLowerHexDigit(p[0]) && IsLowerHexDigit(p[1])
    ensures CountChar(p, ':') == 0
    ensures Without(p, ':') == p
  {
    assert p[1..] == [p[1]];
    assert p[1..][1..] == [];
    assert CountChar(p[1..], ':') == 0;
    assert Without(p[1..], ':') == [p[1]];
    assert p == [p[0]] + [p[1]];
  }

  /** Joining n hex pairs with ':' gives 3n - 1 characters of which n - 1
      are colons, and removing the colons gives the digits back. */
  lemma {:induction false} JoinedPairs(s: string)
    requires EvenLowerHex(s) && |s| >= 2
    ensures var j := JoinWith(Pairs(s), ':');
      |j| == 3 * (|s| / 2) - 1 && CountChar(j, ':') == |s| / 2 - 1 && Without(j, ':') == s
    decreases |s|
  {
    var ps := Pairs(s);
    var j := JoinWith(ps, ':');
    var head := s[..2];
    assert ps == [head] + Pairs(s[2..]);
    CountCharHexPair(head);
    if |s| == 2 {
      assert head == s;
      assert j == head;
    } else {
      var rest := s[2..];
      assert EvenLowerHex(rest) by {
        forall i | 0 <= i < |rest| ensures IsLowerHexDigit(rest[i]) {
          assert rest[i] == s[i + 2];
        }
      }
      JoinedPairs(rest);
      var jr := JoinWith(Pairs(rest), ':');
      assert ps[1..] == Pairs(rest);
      assert j == head + [':'] + jr;
      CountCharAppend(head + [':'], jr, ':');
      CountCharAppend(head, [':'], ':');
      WithoutAppend(head + [':'], jr, ':');
      WithoutAppend(head, [':'], ':');
      assert Without([':'], ':') == [];
      assert s == head + rest;
    }
  }

  lemma ToUpperCons(c: char, t: string)
    ensures ToUpper([c] + t) == [UpperChar(c)] + ToUpper(t)
  {
  }

  /** Upper-casing neither adds nor removes colons. */
  lemma {:induction false} WithoutUpper(s: string)
    ensures Without(ToUpper(s), ':') == ToUpper(Without(s, ':'))
    ensures CountChar(ToUpper(s), ':') == CountChar(s, ':')
  {
    if s != [] {
      var c, t := s[0], s[1..];
      assert s == [c] + t;
      ToUpperCons(c, t);
      var u := [UpperChar(c)] + ToUpper(t);
      assert u[0] == UpperChar(c) && u[1..] == ToUpper(t);
      WithoutUpper(t);
      if c != ':' {
        assert UpperChar(c) != ':';
        ToUpperCons(c, Without(t, ':'));
      }
    }
  }

  lemma LowerUpperHex(s: string)
    requires forall i :: 0 <= i < |s| ==> IsLowerHexDigit(s[i])
    ensures ToLower(ToUpper(s)) == s
  {
  }

  /** A fingerprint of an even-length lower-case hex digest: n groups give
      3n - 1 characters with n - 1 colons, and dropping the colons and
      lower-casing recovers the digest. */
  lemma FingerprintShape(hex: string)
    requires EvenLowerHex(hex) && |hex| >= 2
    ensures Fingerprint(hex).Ok?
    ensures var fp := Fingerprint(hex).value;
      && |fp| == 3 * (|hex| / 2) - 1
      && CountChar(fp, ':') == |hex| / 2 - 1
      && ToLower(Without(fp, ':')) == hex
  {
    var j := JoinWith(Pairs(hex), ':');
    JoinedPairs(hex);
    WithoutUpper(j);
    LowerUpperHex(hex);
  }

  /** The fingerprint of a SHA-256 digest: 32 groups, 95 characters. */
  lemma DigestFingerprint(d: Digest)
    ensures Fingerprint(HexOfBytes(d)).Ok?
    ensures |Fingerprint(HexOfBytes(d)).value| == 95
    ensures CountChar(Fingerprint(HexOfBytes(d)).value, ':') == 31
  {
    FingerprintShape(HexOfBytes(d));
  }

  // ---------------------------------------------------------------------------
  // Certificate construction

  /** A local calendar date and time as a Date object holds it (month 1-12). */
  datatype DateTime = DateTime(
    year: int, month: int, day: int, hour: int, minute: int, second: int, millisecond: int)

  predicate IsLeapYear(y: int)
  {
    (y % 4 == 0 && y % 100 != 0) || y % 400 == 0
  }

  function DaysInMonth(y: int, m: int): int
    requires 1 <= m <= 12
  {
    if m == 2 then (if IsLeapYear(y) then 29 else 28)
    else if m == 4 || m == 6 || m == 9 || m == 11 then 30
    else 31
  }

  predicate ValidDate(d: DateTime)
  {
    1 <= d.month <= 12 && 1 <= d.day <= DaysInMonth(d.year, d.month)
    && 0 <= d.hour < 24 && 0 <= d.minute < 60 && 0 <= d.second < 60
    && 0 <= d.millisecond < 1000
  }

  /** Date.prototype.setFullYear(y): the same month, day and time in year y;
      29 February in a year without one rolls over to 1 March. */
  function SetFullYear(d: DateTime, y: int): (r: DateTime)
    requires ValidDate(d)
    ensures ValidDate(r) && r.year == y
    ensures (r.hour, r.minute, r.second, r.millisecond) == (d.hour, d.minute, d.second, d.millisecond)
    ensures !(d.month == 2 && d.day == 29) ==> r.month == d.month && r.day == d.day
  {
    if d.month == 2 && d.day == 29 && !IsLeapYear(y) then d.(year := y, month := 3, day := 1)
    else d.(year := y)
  }

  datatype CertificateInfo = CertificateInfo(
    commonName: string, email: string, organization: Option<string>, country: Option<string>)

  datatype Attribute = Attribute(name: string, value: string)

  datatype Extension =
    | BasicConstraints(cA: bool)
    | KeyUsage(digitalSignature: bool, nonRepudiation: bool)
    | SubjectAltName(altNames: seq<(int, string)>)

  /** A string field counts only when present and non-empty (JavaScript
      truthiness). */
  predicate Truthy(s: Option<string>)
  {
    s.Some? && s.value != ""
  }

  /** The fields of a certificate as node-forge holds them once built. */
  datatype CertData = CertData(
    publicKey: string, serialNumber: string, notBefore: DateTime, notAfter: DateTime,
    subject: seq<Attribute>, issuer: seq<Attribute>, extensions: seq<Extension>)

  datatype KeyPair = KeyPair(publicKey: string, privateKey: string)

  /** The randomness, clock and cryptography generateSelfSignedCertificate
      draws on: a fresh key pair, eight random bytes, the two readings of
      `new Date()`, the SHA-256 of the certificate's DER encoding, and the
      PEM encodings. */
  datatype CertificateEnv = CertificateEnv(
    keys: KeyPair, random: RandomBytes, clock1: DateTime, clock2: DateTime,
    certificateDigest: CertData -> Digest, certificateToPem: CertData -> string,
    privateKeyToPem: string -> string)

  datatype GeneratedCertificate = GeneratedCertificate(
    certificate: string, privateKey: string, fingerprint: string)

  /** The certificate under construction: forge.pki.createCertificate() and
      the assignments that follow it. */
  class Certificate {
    var publicKey: string
    var serialNumber: string
    var notBefore: DateTime
    var notAfter: DateTime
    var subject: seq<Attribute>
    var issuer: seq<Attribute>
    var extensions: seq<Extension>

    constructor ()
      ensures publicKey == "" && serialNumber == "" && subject == [] && issuer == [] && extensions == []
    {
      publicKey := "";
      serialNumber := "";
      notBefore := DateTime(1970, 1, 1, 0, 0, 0, 0);
      notAfter := DateTime(1970, 1, 1, 0, 0, 0, 0);
      subject := [];
      issuer := [];
      extensions := [];
    }

    function Data(): CertData
      reads this
    {
      CertData(publicKey, serialNumber, notBefore, notAfter, subject, issuer, extensions)
    }
  }

  /** The extensions, in order, with the email as the subjectAltName. */
  function CertificateExtensions(email: string): (r: seq<Extension>)
    ensures |r| == 3 && r[0] == BasicConstraints(false)
    ensures r[1] == KeyUsage(true, true) && r[2] == SubjectAltName([(1, email)])
  {
    [BasicConstraints(false), KeyUsage(true, true), SubjectAltName([(1, email)])]
  }

  /** The subject (and issuer) attributes: common name and email always,
      organisation and country only when supplied, in that order. */
  function CertificateAttributes(info: CertificateInfo): (attrs: seq<Attribute>)
    ensures |attrs| >= 2
    ensures attrs[..2] == [Attribute("commonName", info.commonName), Attribute("emailAddress", info.email)]
    ensures |attrs| == 2 + (if Truthy(info.organization) then 1 else 0) + (if Truthy(info.country) then 1 else 0)
    ensures Truthy(info.organization) ==> attrs[2] == Attribute("organizationName", info.organization.value)
    ensures Truthy(info.country) ==> attrs[|attrs| - 1] == Attribute("countryName", info.country.value)
  {
    [Attribute("commonName", info.commonName), Attribute("emailAddress", info.email)]
      + (if Truthy(info.organization) then [Attribute("organizationName", info.organization.value)] else [])
      + (if Truthy(info.country) then [Attribute("countryName", info.country.value)] else [])
  }

  /** The certificate's fields as generateSelfSignedCertificate leaves them. */
  function CertificateFields(info: CertificateInfo, env: CertificateEnv): CertData
    requires ValidDate(env.clock2)
  {
    var attrs := CertificateAttributes(info);
    CertData(env.keys.publicKey, "01" + HexOfBytes(env.random), env.clock1,
             SetFullYear(env.clock2, env.clock1.year + 1), attrs, attrs,
             CertificateExtensions(info.email))
  }

  /** What generateSelfSignedCertificate returns: the PEM of the certificate
      and of the private key, and the 95-character fingerprint. */
  function SelfSignedCertificate(info: CertificateInfo, env: CertificateEnv): (g: GeneratedCertificate)
    requires ValidDate(env.clock2)
    ensures |g.fingerprint| == 95
    ensures Fingerprint(HexOfBytes(env.certificateDigest(CertificateFields(info, env)))) == Ok(g.fingerprint)
  {
    var data := CertificateFields(info, env);
    var digest := env.certificateDigest(data);
    DigestFingerprint(digest);
    GeneratedCertificate(
      env.certificateToPem(data),
      env.privateKeyToPem(env.keys.privateKey),
      Fingerprint(HexOfBytes(digest)).value)
  }

  /** The assignments to the new certificate, in the source's order. */
  method FillCertificate(cert: Certificate, info: CertificateInfo, env: CertificateEnv)
    requires ValidDate(env.clock2)
    modifies cert
    ensures cert.Data() == CertificateFields(info, env)
  {
    cert.publicKey := env.keys.publicKey;
    cert.serialNumber := "01" + HexOfBytes(env.random);

    cert.notBefore := env.clock1;
    cert.notAfter := env.clock2;
    cert.notAfter := SetFullYear(cert.notAfter, cert.notBefore.year + 1);

    var attrs := SubjectAttributes(info);
    cert.subject := attrs;
    cert.issuer := attrs;
    cert.extensions := CertificateExtensions(info.email);
  }

  /** The attribute list, grown as the source grows it. */
  method SubjectAttributes(info: CertificateInfo) returns (attrs: seq<Attribute>)
    ensures attrs == CertificateAttributes(info)
  {
    attrs := [Attribute("commonName", info.commonName), Attribute("emailAddress", info.email)];
    if Truthy(info.organization) {
      attrs := attrs + [Attribute("organizationName", info.organization.value)];
    }
    if Truthy(info.country) {
      attrs := attrs + [Attribute("countryName", info.country.value)];
    }
  }

  /** generateSelfSignedCertificate, step by step as the source fills in the
      certificate; CertificateShape states what the result holds. */
  method GenerateSelfSignedCertificate(info: CertificateInfo, env: CertificateEnv)
    returns (generated: GeneratedCertificate, data: CertData)
    requires ValidDate(env.clock1) && ValidDate(env.clock2)
    ensures data == CertificateFields(info, env)
    ensures generated == SelfSignedCertificate(info, env)
  {
    var cert := new Certificate();
    FillCertificate(cert, info, env);
    data := cert.Data();
    var digest := env.certificateDigest(data);
    DigestFingerprint(digest);
    generated := GeneratedCertificate(
      env.certificateToPem(data),
      env.privateKeyToPem(env.keys.privateKey),
      Fingerprint(HexOfBytes(digest)).value);
  }

  /** The serial is "01" and the hex of the random bytes; the validity runs
      from the first clock reading to the second one moved to the next
      year; subject and issuer are the same attribute list; the fingerprint
      is the colon-grouped hex of the certificate's digest. */
  lemma CertificateShape(info: CertificateInfo, env: CertificateEnv)
    requires ValidDate(env.clock2)
    ensures var data := CertificateFields(info, env);
      && data.publicKey == env.keys.publicKey
      && data.serialNumber == "01" + HexOfBytes(env.random) && |data.serialNumber| == 18
      && data.notBefore == env.clock1
      && data.notAfter == SetFullYear(env.clock2, env.clock1.year + 1)
      && data.subject == CertificateAttributes(info)
      && data.issuer == data.subject
      && data.extensions == CertificateExtensions(info.email)
    ensures var g := SelfSignedCertificate(info, env);
      && g.certificate == env.certificateToPem(CertificateFields(info, env))
      && g.privateKey == env.privateKeyToPem(env.keys.privateKey)
  {
  }

  /** When both clock readings agree and the day is not 29 February, the
      certificate is valid for exactly one calendar year. */
  lemma OneYearValidity(t: DateTime)
    requires ValidDate(t) && !(t.month == 2 && t.day == 29)
    ensures SetFullYear(t, t.year + 1) == t.(year := t.year + 1)
  {
  }

  /** A certificate issued on 29 February 2024 expires on 1 March 2025. */
  lemma LeapDayValidity()
    ensures SetFullYear(DateTime(2024, 2, 29, 12, 0, 0, 0), 2025) == DateTime(2025, 3, 1, 12, 0, 0, 0)
  {
  }
}
