/**
 * XmlSecSignatureMethod: the digest, signature and cipher methods of the OpenSSL backend, and the two
 * tables between them and the backend's transform descriptors.
 */
module OpenSsl {
  import opened Errors
  import opened Klasses

  /** The 35 methods the wrapper exposes. The AES-GCM, HMAC-MD5, MD5 and RSA-MD5 methods are not among them. */
  datatype SignatureMethod =
    | Aes128Cbc
    | Aes192Cbc
    | Aes256Cbc
    | KWAes128
    | KWAes192
    | KWAes256
    | Des3Cbc
    | KWDes3
    | DsaSha1
    | DsaSha256
    | EcdsaSha1
    | EcdsaSha224
    | EcdsaSha256
    | EcdsaSha384
    | EcdsaSha512
    | HmacRipemd160
    | HmacSha1
    | HmacSha224
    | HmacSha256
    | HmacSha384
    | HmacSha512
    | Ripemd160
    | RsaRipemd160
    | RsaSha1
    | RsaSha224
    | RsaSha256
    | RsaSha384
    | RsaSha512
    | RsaPkcs1
    | RsaOaep
    | Sha1
    | Sha224
    | Sha256
    | Sha384
    | Sha512

  /** to_method: the descriptor of each method; every method has a non-null descriptor. */
  function ToMethod(m: SignatureMethod): (d: TransformId)
    ensures d.Id?
  {
    match m
    case Aes128Cbc => Id(OpenSslAes128Cbc)
    case Aes192Cbc => Id(OpenSslAes192Cbc)
    case Aes256Cbc => Id(OpenSslAes256Cbc)
    case KWAes128 => Id(OpenSslKWAes128)
    case KWAes192 => Id(OpenSslKWAes192)
    case KWAes256 => Id(OpenSslKWAes256)
    case Des3Cbc => Id(OpenSslDes3Cbc)
    case KWDes3 => Id(OpenSslKWDes3)
    case DsaSha1 => Id(OpenSslDsaSha1)
    case DsaSha256 => Id(OpenSslDsaSha256)
    case EcdsaSha1 => Id(OpenSslEcdsaSha1)
    case EcdsaSha224 => Id(OpenSslEcdsaSha224)
    case EcdsaSha256 => Id(OpenSslEcdsaSha256)
    case EcdsaSha384 => Id(OpenSslEcdsaSha384)
    case EcdsaSha512 => Id(OpenSslEcdsaSha512)
    case HmacRipemd160 => Id(OpenSslHmacRipemd160)
    case HmacSha1 => Id(OpenSslHmacSha1)
    case HmacSha224 => Id(OpenSslHmacSha224)
    case HmacSha256 => Id(OpenSslHmacSha256)
    case HmacSha384 => Id(OpenSslHmacSha384)
    case HmacSha512 => Id(OpenSslHmacSha512)
    case Ripemd160 => Id(OpenSslRipemd160)
    case RsaRipemd160 => Id(OpenSslRsaRipemd160)
    case RsaSha1 => Id(OpenSslRsaSha1)
    case RsaSha224 => Id(OpenSslRsaSha224)
    case RsaSha256 => Id(OpenSslRsaSha256)
    case RsaSha384 => Id(OpenSslRsaSha384)
    case RsaSha512 => Id(OpenSslRsaSha512)
    case RsaPkcs1 => Id(OpenSslRsaPkcs1)
    case RsaOaep => Id(OpenSslRsaOaep)
    case Sha1 => Id(OpenSslSha1)
    case Sha224 => Id(OpenSslSha224)
    case Sha256 => Id(OpenSslSha256)
    case Sha384 => Id(OpenSslSha384)
    case Sha512 => Id(OpenSslSha512)
  }

  /** from_method: the method whose descriptor is `d`, compared against the table row by row; None for any other descriptor. */
  function FromMethod(d: TransformId): (r: Option<SignatureMethod>)
  {
    match d
    case Id(k) => FromKlass(k)
    case _ => None
  }

  /** The rows of the from_method table, keyed by the descriptor a non-null id names. */
  function FromKlass(k: Klass): (r: Option<SignatureMethod>)
  {
    match k
    case OpenSslAes128Cbc => Some(Aes128Cbc)
    case OpenSslAes192Cbc => Some(Aes192Cbc)
    case OpenSslAes256Cbc => Some(Aes256Cbc)
    case OpenSslKWAes128 => Some(KWAes128)
    case OpenSslKWAes192 => Some(KWAes192)
    case OpenSslKWAes256 => Some(KWAes256)
    case OpenSslDes3Cbc => Some(Des3Cbc)
    case OpenSslKWDes3 => Some(KWDes3)
    case OpenSslDsaSha1 => Some(DsaSha1)
    case OpenSslDsaSha256 => Some(DsaSha256)
    case OpenSslEcdsaSha1 => Some(EcdsaSha1)
    case OpenSslEcdsaSha224 => Some(EcdsaSha224)
    case OpenSslEcdsaSha256 => Some(EcdsaSha256)
    case OpenSslEcdsaSha384 => Some(EcdsaSha384)
    case OpenSslEcdsaSha512 => Some(EcdsaSha512)
    case OpenSslHmacRipemd160 => Some(HmacRipemd160)
    case OpenSslHmacSha1 => Some(HmacSha1)
    case OpenSslHmacSha224 => Some(HmacSha224)
    case OpenSslHmacSha256 => Some(HmacSha256)
    case OpenSslHmacSha384 => Some(HmacSha384)
    case OpenSslHmacSha512 => Some(HmacSha512)
    case OpenSslRipemd160 => Some(Ripemd160)
    case OpenSslRsaRipemd160 => Some(RsaRipemd160)
    case OpenSslRsaSha1 => Some(RsaSha1)
    case OpenSslRsaSha224 => Some(RsaSha224)
    case OpenSslRsaSha256 => Some(RsaSha256)
    case OpenSslRsaSha384 => Some(RsaSha384)
    case OpenSslRsaSha512 => Some(RsaSha512)
    case OpenSslRsaPkcs1 => Some(RsaPkcs1)
    case OpenSslRsaOaep => Some(RsaOaep)
    case OpenSslSha1 => Some(Sha1)
    case OpenSslSha224 => Some(Sha224)
    case OpenSslSha256 => Some(Sha256)
    case OpenSslSha384 => Some(Sha384)
    case OpenSslSha512 => Some(Sha512)
    case _ => None
  }

  /**
   * from_method undoes to_method on every method. The proof is split by family of methods, in the lemmas
   * that follow, only so that each part stays within the solver's resource limit.
   */
  lemma FromToMethod(m: SignatureMethod)
    ensures FromMethod(ToMethod(m)) == Some(m)
  {
    match m {
      case Aes128Cbc | Aes192Cbc | Aes256Cbc | KWAes128 | KWAes192 | KWAes256 => FromToMethodAes(m);
      case Des3Cbc | KWDes3 => FromToMethodDes(m);
      case DsaSha1 | DsaSha256 | EcdsaSha1 | EcdsaSha224 | EcdsaSha256 | EcdsaSha384 | EcdsaSha512 => FromToMethodDsa(m);
      case HmacRipemd160 | HmacSha1 | HmacSha224 | HmacSha256 | HmacSha384 | HmacSha512 => FromToMethodHmac(m);
      case RsaRipemd160 | RsaSha1 | RsaSha224 => FromToMethodRsaShortDigest(m);
      case RsaSha256 | RsaSha384 | RsaSha512 => FromToMethodRsaLongDigest(m);
      case RsaPkcs1 | RsaOaep => FromToMethodRsaTransport(m);
      case Ripemd160 | Sha1 | Sha224 => FromToMethodShortDigests(m);
      case Sha256 | Sha384 | Sha512 => FromToMethodLongDigests(m);
    }
  }

  /** The round trip for the AES block-cipher and key-wrap methods. */
  lemma FromToMethodAes(m: SignatureMethod)
    requires m.Aes128Cbc? || m.Aes192Cbc? || m.Aes256Cbc? || m.KWAes128? || m.KWAes192? || m.KWAes256?
    ensures FromMethod(ToMethod(m)) == Some(m)
  {
    match m {
      case Aes128Cbc => assert FromKlass(OpenSslAes128Cbc) == Some(Aes128Cbc);
      case Aes192Cbc => assert FromKlass(OpenSslAes192Cbc) == Some(Aes192Cbc);
      case Aes256Cbc => assert FromKlass(OpenSslAes256Cbc) == Some(Aes256Cbc);
      case KWAes128 => assert FromKlass(OpenSslKWAes128) == Some(KWAes128);
      case KWAes192 => assert FromKlass(OpenSslKWAes192) == Some(KWAes192);
      case KWAes256 => assert FromKlass(OpenSslKWAes256) == Some(KWAes256);
      case _ =>
    }
  }

  /** The round trip for the triple-DES methods. */
  lemma FromToMethodDes(m: SignatureMethod)
    requires m.Des3Cbc? || m.KWDes3?
    ensures FromMethod(ToMethod(m)) == Some(m)
  {
    match m {
      case Des3Cbc => assert FromKlass(OpenSslDes3Cbc) == Some(Des3Cbc);
      case KWDes3 => assert FromKlass(OpenSslKWDes3) == Some(KWDes3);
      case _ =>
    }
  }

  /** The round trip for the DSA and ECDSA signature methods. */
  lemma FromToMethodDsa(m: SignatureMethod)
    requires m.DsaSha1? || m.DsaSha256? || m.EcdsaSha1? || m.EcdsaSha224? || m.EcdsaSha256? || m.EcdsaSha384? || m.EcdsaSha512?
    ensures FromMethod(ToMethod(m)) == Some(m)
  {
    match m {
      case DsaSha1 => assert FromKlass(OpenSslDsaSha1) == Some(DsaSha1);
      case DsaSha256 => assert FromKlass(OpenSslDsaSha256) == Some(DsaSha256);
      case EcdsaSha1 => assert FromKlass(OpenSslEcdsaSha1) == Some(EcdsaSha1);
      case EcdsaSha224 => assert FromKlass(OpenSslEcdsaSha224) == Some(EcdsaSha224);
      case EcdsaSha256 => assert FromKlass(OpenSslEcdsaSha256) == Some(EcdsaSha256);
      case EcdsaSha384 => assert FromKlass(OpenSslEcdsaSha384) == Some(EcdsaSha384);
      case EcdsaSha512 => assert FromKlass(OpenSslEcdsaSha512) == Some(EcdsaSha512);
      case _ =>
    }
  }

  /** The round trip for the HMAC methods. */
  lemma FromToMethodHmac(m: SignatureMethod)
    requires m.HmacRipemd160? || m.HmacSha1? || m.HmacSha224? || m.HmacSha256? || m.HmacSha384? || m.HmacSha512?
    ensures FromMethod(ToMethod(m)) == Some(m)
  {
    match m {
      case HmacRipemd160 => assert FromKlass(OpenSslHmacRipemd160) == Some(HmacRipemd160);
      case HmacSha1 => assert FromKlass(OpenSslHmacSha1) == Some(HmacSha1);
      case HmacSha224 => assert FromKlass(OpenSslHmacSha224) == Some(HmacSha224);
      case HmacSha256 => assert FromKlass(OpenSslHmacSha256) == Some(HmacSha256);
      case HmacSha384 => assert FromKlass(OpenSslHmacSha384) == Some(HmacSha384);
      case HmacSha512 => assert FromKlass(OpenSslHmacSha512) == Some(HmacSha512);
      case _ =>
    }
  }

  /** The round trip for the RSA signature methods over RIPEMD-160, SHA-1 and SHA-224. */
  lemma FromToMethodRsaShortDigest(m: SignatureMethod)
    requires m.RsaRipemd160? || m.RsaSha1? || m.RsaSha224?
    ensures FromMethod(ToMethod(m)) == Some(m)
  {
    match m {
      case RsaRipemd160 => assert FromKlass(OpenSslRsaRipemd160) == Some(RsaRipemd160);
      case RsaSha1 => assert FromKlass(OpenSslRsaSha1) == Some(RsaSha1);
      case RsaSha224 => assert FromKlass(OpenSslRsaSha224) == Some(RsaSha224);
      case _ =>
    }
  }

  /** The round trip for the RSA signature methods over SHA-256, SHA-384 and SHA-512. */
  lemma FromToMethodRsaLongDigest(m: SignatureMethod)
    requires m.RsaSha256? || m.RsaSha384? || m.RsaSha512?
    ensures FromMethod(ToMethod(m)) == Some(m)
  {
    match m {
      case RsaSha256 => assert FromKlass(OpenSslRsaSha256) == Some(RsaSha256);
      case RsaSha384 => assert FromKlass(OpenSslRsaSha384) == Some(RsaSha384);
      case RsaSha512 => assert FromKlass(OpenSslRsaSha512) == Some(RsaSha512);
      case _ =>
    }
  }

  /** The round trip for the RSA key-transport methods. */
  lemma FromToMethodRsaTransport(m: SignatureMethod)
    requires m.RsaPkcs1? || m.RsaOaep?
    ensures FromMethod(ToMethod(m)) == Some(m)
  {
    match m {
      case RsaPkcs1 => assert FromKlass(OpenSslRsaPkcs1) == Some(RsaPkcs1);
      case RsaOaep => assert FromKlass(OpenSslRsaOaep) == Some(RsaOaep);
      case _ =>
    }
  }

  /** The round trip for the RIPEMD-160, SHA-1 and SHA-224 digests. */
  lemma FromToMethodShortDigests(m: SignatureMethod)
    requires m.Ripemd160? || m.Sha1? || m.Sha224?
    ensures FromMethod(ToMethod(m)) == Some(m)
  {
    match m {
      case Ripemd160 => assert FromKlass(OpenSslRipemd160) == Some(Ripemd160);
      case Sha1 => assert FromKlass(OpenSslSha1) == Some(Sha1);
      case Sha224 => assert FromKlass(OpenSslSha224) == Some(Sha224);
      case _ =>
    }
  }

  /** The round trip for the SHA-256, SHA-384 and SHA-512 digests. */
  lemma FromToMethodLongDigests(m: SignatureMethod)
    requires m.Sha256? || m.Sha384? || m.Sha512?
    ensures FromMethod(ToMethod(m)) == Some(m)
  {
    match m {
      case Sha256 => assert FromKlass(OpenSslSha256) == Some(Sha256);
      case Sha384 => assert FromKlass(OpenSslSha384) == Some(Sha384);
      case Sha512 => assert FromKlass(OpenSslSha512) == Some(Sha512);
      case _ =>
    }
  }

  /** from_method is a left inverse the other way too: a method it reports has exactly that descriptor. */
  lemma ToFromMethod(d: TransformId, m: SignatureMethod)
    requires FromMethod(d) == Some(m)
    ensures ToMethod(m) == d
  {
  }

  /** from_method answers None exactly for the descriptors outside the table. */
  lemma FromMethodNoneIff(d: TransformId)
    ensures FromMethod(d) == None <==> forall m :: ToMethod(m) != d
  {
    if FromMethod(d) == None {
      forall m ensures ToMethod(m) != d {
        FromToMethod(m);
      }
    } else {
      ToFromMethod(d, FromMethod(d).value);
    }
  }

  /** from_method reports exactly the method whose descriptor it is given. */
  lemma FromMethodExact(d: TransformId)
    ensures FromMethod(d).Some? ==> ToMethod(FromMethod(d).value) == d
    ensures forall m :: ToMethod(m) == d ==> FromMethod(d) == Some(m)
  {
    if FromMethod(d).Some? {
      ToFromMethod(d, FromMethod(d).value);
    }
    forall m | ToMethod(m) == d
      ensures FromMethod(d) == Some(m)
    {
      FromToMethod(m);
    }
  }

  /** to_method is injective: distinct methods have distinct descriptors. */
  lemma ToMethodInjective(m1: SignatureMethod, m2: SignatureMethod)
    requires ToMethod(m1) == ToMethod(m2)
    ensures m1 == m2
  {
    FromToMethod(m1);
    FromToMethod(m2);
  }

  /** The commented-out AES-GCM and MD5-based descriptors are in neither direction of the table. */
  lemma CommentedOutAbsent(k: Klass)
    requires k in {OpenSslAes128Gcm, OpenSslAes192Gcm, OpenSslAes256Gcm, OpenSslHmacMd5, OpenSslMd5, OpenSslRsaMd5}
    ensures FromMethod(Id(k)) == None
    ensures forall m :: ToMethod(m) != Id(k)
  {
    FromMethodNoneIff(Id(k));
  }

  /** The null descriptor and descriptors the wrapper does not name map to no method. */
  lemma UnnamedDescriptorsAbsent(n: nat)
    ensures FromMethod(NullId) == None && FromMethod(OtherId(n)) == None
  {
  }
}
