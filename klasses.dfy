/**
 * The transform descriptors (xmlSecTransformId) of libxmlsec1 and its OpenSSL backend that the wrapper
 * names. Each value stands for the pointer one `xmlSec...GetKlass()` call returns; distinct getters
 * return distinct descriptors, which the datatype gives by construction.
 */
module Klasses {

  datatype Klass =
    // core libxmlsec1 transforms
    | InclC14N | InclC14NWithComments | InclC14N11 | InclC14N11WithComments
    | ExclC14N | ExclC14NWithComments | Base64 | Enveloped
    // OpenSSL backend transforms
    | OpenSslAes128Cbc | OpenSslAes192Cbc | OpenSslAes256Cbc
    | OpenSslAes128Gcm | OpenSslAes192Gcm | OpenSslAes256Gcm
    | OpenSslKWAes128 | OpenSslKWAes192 | OpenSslKWAes256
    | OpenSslDes3Cbc | OpenSslKWDes3
    | OpenSslDsaSha1 | OpenSslDsaSha256
    | OpenSslEcdsaSha1 | OpenSslEcdsaSha224 | OpenSslEcdsaSha256 | OpenSslEcdsaSha384 | OpenSslEcdsaSha512
    | OpenSslHmacMd5 | OpenSslHmacRipemd160
    | OpenSslHmacSha1 | OpenSslHmacSha224 | OpenSslHmacSha256 | OpenSslHmacSha384 | OpenSslHmacSha512
    | OpenSslMd5 | OpenSslRipemd160
    | OpenSslRsaMd5 | OpenSslRsaRipemd160
    | OpenSslRsaSha1 | OpenSslRsaSha224 | OpenSslRsaSha256 | OpenSslRsaSha384 | OpenSslRsaSha512
    | OpenSslRsaPkcs1 | OpenSslRsaOaep
    | OpenSslSha1 | OpenSslSha224 | OpenSslSha256 | OpenSslSha384 | OpenSslSha512

  /** An xmlSecTransformId: null, a descriptor named above, or any other descriptor the libraries define. */
  datatype TransformId = NullId | Id(klass: Klass) | OtherId(n: nat)

  /** The six XML canonicalization descriptors. */
  predicate IsC14N(k: Klass)
  {
    k in {InclC14N, InclC14NWithComments, InclC14N11, InclC14N11WithComments, ExclC14N, ExclC14NWithComments}
  }
}
