/** The PEM codec of utils.go at the level of typed blocks. The text
    layout of RFC 7468 (BEGIN/END lines, base64 body) and DER marshalling
    are not modelled: a stream is a sequence of segments, each either a
    PEM block or stray text that pem.Decode skips, and a block's body says
    which object its DER bytes encode. */
module Pem {
  import opened Types

  /** What the DER bytes inside a block encode. */
  datatype Der =
    | CertificateDer(cert: Certificate)   // x509.ParseCertificate accepts it
    | Pkcs1Der(rsaId: nat)                // x509.ParsePKCS1PrivateKey accepts it
    | EcDer(ecId: nat)                    // x509.ParseECPrivateKey accepts it
    | Garbage(bytes: seq<byte>)           // nothing parses it

  datatype Block = Block(header: string, body: Der)

  datatype Segment = PemBlock(block: Block) | Text(bytes: seq<byte>)

  /** The contents of a PEM file. */
  type PemData = seq<Segment>

  /** The values ToPemBlock accepts (its `data interface{}` argument). */
  datatype Encodable = Key(key: PrivateKey) | Cert(cert: Certificate)

  const CertificateHeader := "CERTIFICATE"
  const RsaKeyHeader := "RSA PRIVATE KEY"
  const EcKeyHeader := "EC PRIVATE KEY"

  /** ToPemBlock: one block labelled by the kind of value. Its error result
      is always nil, so only the encoded data is returned. */
  function ToPemBlock(x: Encodable): (r: PemData)
    ensures |r| == 1 && r[0].PemBlock?
    ensures x.Cert? ==> r[0].block.header == CertificateHeader
    ensures x.Key? && x.key.RsaKey? ==> r[0].block.header == RsaKeyHeader
    ensures x.Key? && x.key.EcKey? ==> r[0].block.header == EcKeyHeader
  {
    match x
    case Key(RsaKey(id)) => [PemBlock(Block(RsaKeyHeader, Pkcs1Der(id)))]
    case Key(EcKey(id)) => [PemBlock(Block(EcKeyHeader, EcDer(id)))]
    case Cert(c) => [PemBlock(Block(CertificateHeader, CertificateDer(c)))]
  }

  /** pem.Decode: the first block and what follows it, or nil and the
      whole input when the input holds no block. */
  function Decode(data: PemData): (r: (Option<Block>, PemData))
    ensures r.0.None? ==> r.1 == data && forall i :: 0 <= i < |data| ==> data[i].Text?
    ensures r.0.Some? ==> |r.1| < |data| && PemBlock(r.0.value) in data
    decreases |data|
  {
    if |data| == 0 then (None, data)
    else if data[0].PemBlock? then (Some(data[0].block), data[1..])
    else
      var (b, rest) := Decode(data[1..]);
      if b.None? then (None, data) else (b, rest)
  }

  function ParseCertificate(body: Der): Result<Certificate>
  {
    if body.CertificateDer? then Ok(body.cert) else Err(UnparseableCertificate)
  }

  /** PemBlockToPrivateKey: dispatch on the header of the first block. A
      stream without a block makes the Go code dereference nil. */
  function PemBlockToPrivateKey(data: PemData): (r: Result<PrivateKey>)
    ensures Decode(data).0.None? <==> r == Err(Crash(NilPemBlock))
    ensures Decode(data).0.Some? && Decode(data).0.value.header !in {RsaKeyHeader, EcKeyHeader}
            <==> r == Err(UnknownPemHeader)
    ensures r.Ok? ==> (r.value.RsaKey? <==> Decode(data).0.value.header == RsaKeyHeader)
  {
    var (block, _) := Decode(data);
    if block.None? then Err(Crash(NilPemBlock))
    else if block.value.header == RsaKeyHeader then
      (if block.value.body.Pkcs1Der? then Ok(RsaKey(block.value.body.rsaId)) else Err(MalformedKey))
    else if block.value.header == EcKeyHeader then
      (if block.value.body.EcDer? then Ok(EcKey(block.value.body.ecId)) else Err(MalformedKey))
    else Err(UnknownPemHeader)
  }

  /** Every key survives ToPemBlock followed by PemBlockToPrivateKey, so in
      particular it keeps its kind. */
  lemma KeyRoundTrip(k: PrivateKey)
    ensures PemBlockToPrivateKey(ToPemBlock(Key(k))) == Ok(k)
  {
  }

  /** The stream holds no bytes at all (Go's len(data) == 0): stray text
      segments, if any, are all empty. */
  predicate NoBytes(data: PemData)
  {
    forall i :: 0 <= i < |data| ==> data[i] == Text([])
  }

  /** The concatenated PEM stream of a list of certificates. */
  function EncodeAll(certs: seq<Certificate>): (r: PemData)
    ensures |r| == |certs|
    decreases |certs|
  {
    if |certs| == 0 then [] else ToPemBlock(Cert(certs[0])) + EncodeAll(certs[1..])
  }

  lemma {:induction false} EncodeAllAppend(certs: seq<Certificate>, c: Certificate)
    ensures EncodeAll(certs + [c]) == EncodeAll(certs) + ToPemBlock(Cert(c))
    decreases |certs|
  {
    if |certs| > 0 {
      assert (certs + [c])[1..] == certs[1..] + [c];
      EncodeAllAppend(certs[1..], c);
    } else {
      assert certs + [c] == [c];
    }
  }

  /** Outcome of decoding a certificate stream: the certificates collected
      and the error, which Go returns side by side. */
  datatype Loaded = Loaded(certs: seq<Certificate>, err: Option<Error>)

  /** The loop of PemBlockToX509Certificate from `remaining` on, with
      `acc` collected so far. */
  function DecodeCertsFrom(remaining: PemData, acc: seq<Certificate>): Loaded
    decreases |remaining|
  {
    var (block, rest) := Decode(remaining);
    if block.None? then Loaded(acc, Some(Crash(NilPemBlock)))
    else if block.value.header == CertificateHeader then
      match ParseCertificate(block.value.body)
      case Err(_) => Loaded(acc, Some(UnparseableCertificate))
      case Ok(c) => if NoBytes(rest) then Loaded(acc + [c], None) else DecodeCertsFrom(rest, acc + [c])
    else if NoBytes(rest) then Loaded(acc, None)
    else DecodeCertsFrom(rest, acc)
  }

  function DecodeCerts(data: PemData): Loaded
  {
    DecodeCertsFrom(data, [])
  }

  /** PemBlockToX509Certificate: decode blocks until the input is used up,
      keeping the CERTIFICATE blocks in the order met. */
  method PemBlockToX509Certificate(pemBlockData: PemData) returns (certs: seq<Certificate>, err: Option<Error>)
    ensures Loaded(certs, err) == DecodeCerts(pemBlockData)
  {
    var remaining := pemBlockData;
    certs := [];
    while true
      invariant DecodeCertsFrom(remaining, certs) == DecodeCerts(pemBlockData)
      decreases |remaining|
    {
      var decoded := Decode(remaining);
      var pemBlock := decoded.0;
      remaining := decoded.1;
      if pemBlock.None? {
        return certs, Some(Crash(NilPemBlock));
      }
      if pemBlock.value.header == CertificateHeader {
        var cert := ParseCertificate(pemBlock.value.body);
        if cert.Err? {
          return certs, Some(UnparseableCertificate);
        }
        certs := certs + [cert.value];
      }
      if NoBytes(remaining) {
        break;
      }
    }
    return certs, None;
  }

  /** A stream made only of blocks, every CERTIFICATE block of which parses. */
  ghost predicate WellFormedBlocks(data: PemData)
  {
    forall i :: 0 <= i < |data| ==>
      data[i].PemBlock? && (data[i].block.header == CertificateHeader ==> data[i].block.body.CertificateDer?)
  }

  /** The certificates of the CERTIFICATE blocks of a stream, in order. */
  function CertsIn(data: PemData): seq<Certificate>
    decreases |data|
  {
    if |data| == 0 then []
    else if data[0].PemBlock? && data[0].block.header == CertificateHeader && data[0].block.body.CertificateDer?
    then [data[0].block.body.cert] + CertsIn(data[1..])
    else CertsIn(data[1..])
  }

  /** On a non-empty stream of blocks, decoding returns exactly the
      certificate blocks in encounter order and skips the other blocks. */
  lemma {:induction false} DecodeKeepsCertificatesInOrder(data: PemData, acc: seq<Certificate>)
    requires |data| > 0 && WellFormedBlocks(data)
    ensures DecodeCertsFrom(data, acc) == Loaded(acc + CertsIn(data), None)
    decreases |data|
  {
    var rest := data[1..];
    var b := data[0].block;
    assert Decode(data) == (Some(b), rest);
    assert WellFormedBlocks(rest) by {
      forall i | 0 <= i < |rest| ensures rest[i] == data[i + 1] { }
    }
    if b.header == CertificateHeader {
      var c := b.body.cert;
      assert CertsIn(data) == [c] + CertsIn(rest);
      assert NoBytes(rest) <==> |rest| == 0 by {
        if |rest| > 0 { assert rest[0].PemBlock?; }
      }
      assert DecodeCertsFrom(data, acc) == if |rest| == 0 then Loaded(acc + [c], None) else DecodeCertsFrom(rest, acc + [c]);
      if |rest| > 0 {
        DecodeKeepsCertificatesInOrder(rest, acc + [c]);
      }
      assert acc + [c] + CertsIn(rest) == acc + CertsIn(data);
    } else {
      assert CertsIn(data) == CertsIn(rest);
      assert NoBytes(rest) <==> |rest| == 0 by {
        if |rest| > 0 { assert rest[0].PemBlock?; }
      }
      if |rest| > 0 {
        DecodeKeepsCertificatesInOrder(rest, acc);
      }
    }
  }

  lemma {:induction false} CertsInEncodeAll(certs: seq<Certificate>)
    ensures WellFormedBlocks(EncodeAll(certs))
    ensures CertsIn(EncodeAll(certs)) == certs
    decreases |certs|
  {
    if |certs| > 0 {
      CertsInEncodeAll(certs[1..]);
      var e := EncodeAll(certs);
      assert e[1..] == EncodeAll(certs[1..]);
    }
  }

  /** Decoding the concatenation ToPemBlock(c1) ++ ... ++ ToPemBlock(cn)
      gives back c1 .. cn, for n >= 1. */
  lemma CertsRoundTrip(certs: seq<Certificate>)
    requires |certs| > 0
    ensures DecodeCerts(EncodeAll(certs)) == Loaded(certs, None)
  {
    CertsInEncodeAll(certs);
    DecodeKeepsCertificatesInOrder(EncodeAll(certs), []);
  }

  /** An empty stream holds no block: the first pem.Decode returns nil and
      the Go code dereferences it. */
  lemma EmptyStreamPanics()
    ensures DecodeCerts([]) == Loaded([], Some(Crash(NilPemBlock)))
  {
  }

  /** Decoding stops at the first certificate that does not parse and
      returns the ones collected before it. */
  lemma {:induction false} StopsAtUnparseable(certs: seq<Certificate>, bad: seq<byte>, tail: PemData, acc: seq<Certificate>)
    ensures DecodeCertsFrom(EncodeAll(certs) + [PemBlock(Block(CertificateHeader, Garbage(bad)))] + tail, acc)
            == Loaded(acc + certs, Some(UnparseableCertificate))
    decreases |certs|
  {
    var badBlock := [PemBlock(Block(CertificateHeader, Garbage(bad)))];
    var s := EncodeAll(certs) + badBlock + tail;
    if |certs| == 0 {
      assert s == badBlock + tail;
    } else {
      assert s[0] == PemBlock(Block(CertificateHeader, CertificateDer(certs[0])));
      assert s[1..] == EncodeAll(certs[1..]) + badBlock + tail;
      StopsAtUnparseable(certs[1..], bad, tail, acc + [certs[0]]);
      assert acc + [certs[0]] + certs[1..] == acc + certs;
    }
  }

  /** Stray bytes after the last block leave `remaining` non-empty, the
      next pem.Decode finds no block, and the Go code dereferences nil. */
  lemma {:induction false} TrailingTextPanics(certs: seq<Certificate>, text: seq<byte>, acc: seq<Certificate>)
    requires |text| > 0
    ensures DecodeCertsFrom(EncodeAll(certs) + [Text(text)], acc) == Loaded(acc + certs, Some(Crash(NilPemBlock)))
    decreases |certs|
  {
    var s := EncodeAll(certs) + [Text(text)];
    if |certs| > 0 {
      assert s[0] == PemBlock(Block(CertificateHeader, CertificateDer(certs[0])));
      assert s[1..] == EncodeAll(certs[1..]) + [Text(text)];
      TrailingTextPanics(certs[1..], text, acc + [certs[0]]);
      assert acc + [certs[0]] + certs[1..] == acc + certs;
    } else {
      assert s == [Text(text)];
    }
  }

  /** An empty text segment adds no bytes, so after at least one block it
      ends the stream exactly as the end of input does. */
  lemma {:induction false} TrailingEmptyTextIgnored(certs: seq<Certificate>, acc: seq<Certificate>)
    requires |certs| > 0
    ensures DecodeCertsFrom(EncodeAll(certs) + [Text([])], acc) == DecodeCertsFrom(EncodeAll(certs), acc)
    decreases |certs|
  {
    var s := EncodeAll(certs) + [Text([])];
    var e := EncodeAll(certs);
    var c := certs[0];
    assert s[0] == e[0] == PemBlock(Block(CertificateHeader, CertificateDer(c)));
    assert s[1..] == EncodeAll(certs[1..]) + [Text([])];
    assert e[1..] == EncodeAll(certs[1..]);
    if |certs| == 1 {
      assert NoBytes(s[1..]) && NoBytes(e[1..]);
    } else {
      assert s[1..][0].PemBlock? && e[1..][0].PemBlock?;
      TrailingEmptyTextIgnored(certs[1..], acc + [c]);
    }
  }
}
