/**
 * The global runtime: the once-only initialisation of libxmlsec1 and its OpenSSL backend, its teardown,
 * the error callback libxmlsec1 reports through, and the per-thread last-error slot it writes.
 */
module XmlSec {
  import opened Errors
  import opened Ffi

  // ---------------------------------------------------------------------------------------------
  // XmlSecErrorReason

  /** The reasons libxmlsec1 reports, plus `Unknown` for a code the wrapper does not list. */
  datatype Reason =
    | NoError
    | Unknown
    | XmlSecFailed
    | MallocFailed
    | StrdupFailed
    | CryptoFailed
    | XmlFailed
    | XsltFailed
    | IoFailed
    | Disabled
    | NotImplemented
    | InvalidConfig
    | InvalidSize
    | InvalidData
    | InvalidResult
    | InvalidType
    | InvalidOperation
    | InvalidStatus
    | InvalidFormat
    | DataNotMatch
    | InvalidVersion
    | InvalidNode
    | InvalidNodeContent
    | InvalidNodeAttribute
    | MissingNodeAttribute
    | NodeAlreadyPresent
    | UnexpectedNode
    | NodeNotFound
    | InvalidTransform
    | InvalidTransformKey
    | InvalidUriType
    | TransformSameDocumentRequired
    | TransformDisabled
    | InvalidAlgorithm
    | InvalidKeyData
    | KeyDataNotFound
    | KeyDataAlreadyExist
    | InvalidKeyDataSize
    | KeyNotFound
    | KeyDataDisabled
    | MaxRetrievalsLevel
    | MaxRetrievalTypeMismatch
    | MaxEncKeyLevel
    | CertVerifyFailed
    | CertNotFound
    | CertRevoked
    | CertIssuerFailed
    | CertNotYetValid
    | CertHasExpired
    | CrlVerifyFailed
    | CrlNotYetValid
    | CrlHasExpired
    | DsigNoReferences
    | DsigInvalidReference
    | Assertion
    | CastImpossible

  /** From<i32>: the listed codes decode to their reasons, every other code to `Unknown`. */
  function FromCode(code: i32): (r: Reason)
    ensures code == 0 <==> r == NoError
  {
    match code
    case 0 => NoError
    case 1 => XmlSecFailed
    case 2 => MallocFailed
    case 3 => StrdupFailed
    case 4 => CryptoFailed
    case 5 => XmlFailed
    case 6 => XsltFailed
    case 7 => IoFailed
    case 8 => Disabled
    case 9 => NotImplemented
    case 10 => InvalidConfig
    case 11 => InvalidSize
    case 12 => InvalidData
    case 13 => InvalidResult
    case 14 => InvalidType
    case 15 => InvalidOperation
    case 16 => InvalidStatus
    case 17 => InvalidFormat
    case 18 => DataNotMatch
    case 19 => InvalidVersion
    case 21 => InvalidNode
    case 22 => InvalidNodeContent
    case 23 => InvalidNodeAttribute
    case 25 => MissingNodeAttribute
    case 26 => NodeAlreadyPresent
    case 27 => UnexpectedNode
    case 28 => Reason.NodeNotFound
    case 31 => InvalidTransform
    case 32 => InvalidTransformKey
    case 33 => InvalidUriType
    case 34 => TransformSameDocumentRequired
    case 35 => TransformDisabled
    case 36 => InvalidAlgorithm
    case 41 => InvalidKeyData
    case 42 => KeyDataNotFound
    case 43 => KeyDataAlreadyExist
    case 44 => InvalidKeyDataSize
    case 45 => KeyNotFound
    case 46 => KeyDataDisabled
    case 51 => MaxRetrievalsLevel
    case 52 => MaxRetrievalTypeMismatch
    case 61 => MaxEncKeyLevel
    case 71 => CertVerifyFailed
    case 72 => CertNotFound
    case 73 => CertRevoked
    case 74 => CertIssuerFailed
    case 75 => CertNotYetValid
    case 76 => CertHasExpired
    case 77 => CrlVerifyFailed
    case 78 => CrlNotYetValid
    case 79 => CrlHasExpired
    case 81 => DsigNoReferences
    case 82 => DsigInvalidReference
    case 100 => Assertion
    case 101 => CastImpossible
    case _ => Unknown
  }

  /** The code libxmlsec1 uses for a reason; `Unknown` has none. */
  function Code(r: Reason): (c: Option<i32>)
    ensures c == None <==> r == Unknown
  {
    match r
    case NoError => Some(0)
    case Unknown => None
    case XmlSecFailed => Some(1)
    case MallocFailed => Some(2)
    case StrdupFailed => Some(3)
    case CryptoFailed => Some(4)
    case XmlFailed => Some(5)
    case XsltFailed => Some(6)
    case IoFailed => Some(7)
    case Disabled => Some(8)
    case NotImplemented => Some(9)
    case InvalidConfig => Some(10)
    case InvalidSize => Some(11)
    case InvalidData => Some(12)
    case InvalidResult => Some(13)
    case InvalidType => Some(14)
    case InvalidOperation => Some(15)
    case InvalidStatus => Some(16)
    case InvalidFormat => Some(17)
    case DataNotMatch => Some(18)
    case InvalidVersion => Some(19)
    case InvalidNode => Some(21)
    case InvalidNodeContent => Some(22)
    case InvalidNodeAttribute => Some(23)
    case MissingNodeAttribute => Some(25)
    case NodeAlreadyPresent => Some(26)
    case UnexpectedNode => Some(27)
    case NodeNotFound => Some(28)
    case InvalidTransform => Some(31)
    case InvalidTransformKey => Some(32)
    case InvalidUriType => Some(33)
    case TransformSameDocumentRequired => Some(34)
    case TransformDisabled => Some(35)
    case InvalidAlgorithm => Some(36)
    case InvalidKeyData => Some(41)
    case KeyDataNotFound => Some(42)
    case KeyDataAlreadyExist => Some(43)
    case InvalidKeyDataSize => Some(44)
    case KeyNotFound => Some(45)
    case KeyDataDisabled => Some(46)
    case MaxRetrievalsLevel => Some(51)
    case MaxRetrievalTypeMismatch => Some(52)
    case MaxEncKeyLevel => Some(61)
    case CertVerifyFailed => Some(71)
    case CertNotFound => Some(72)
    case CertRevoked => Some(73)
    case CertIssuerFailed => Some(74)
    case CertNotYetValid => Some(75)
    case CertHasExpired => Some(76)
    case CrlVerifyFailed => Some(77)
    case CrlNotYetValid => Some(78)
    case CrlHasExpired => Some(79)
    case DsigNoReferences => Some(81)
    case DsigInvalidReference => Some(82)
    case Assertion => Some(100)
    case CastImpossible => Some(101)
  }

  /** The codes the decoding lists, as the ranges libxmlsec1's error codes come in. */
  predicate Listed(code: i32)
  {
    || 0 <= code <= 19 || 21 <= code <= 23 || 25 <= code <= 28 || 31 <= code <= 36 || 41 <= code <= 46
    || 51 <= code <= 52 || code == 61 || 71 <= code <= 79 || 81 <= code <= 82 || 100 <= code <= 101
  }

  /**
   * Every reason but `Unknown` decodes back from its code. The proof is split by group of reasons, as the
   * lemmas after it, only so that each part stays within the solver's resource limit.
   */
  lemma FromCodeOfCode(r: Reason)
    requires r != Unknown
    ensures FromCode(Code(r).value) == r
  {
    match r {
      case NoError | XmlSecFailed | MallocFailed | StrdupFailed | CryptoFailed | XmlFailed | XsltFailed | IoFailed | Disabled | NotImplemented => FromCodeOfCodeGeneric(r);
      case InvalidConfig | InvalidSize | InvalidData | InvalidResult | InvalidType | InvalidOperation | InvalidStatus | InvalidFormat | DataNotMatch | InvalidVersion => FromCodeOfCodeData(r);
      case InvalidNode | InvalidNodeContent | InvalidNodeAttribute | MissingNodeAttribute | NodeAlreadyPresent | UnexpectedNode | NodeNotFound => FromCodeOfCodeNodes(r);
      case InvalidTransform | InvalidTransformKey | InvalidUriType | TransformSameDocumentRequired | TransformDisabled | InvalidAlgorithm => FromCodeOfCodeTransforms(r);
      case InvalidKeyData | KeyDataNotFound | KeyDataAlreadyExist | InvalidKeyDataSize | KeyNotFound | KeyDataDisabled => FromCodeOfCodeKeyData(r);
      case MaxRetrievalsLevel | MaxRetrievalTypeMismatch => FromCodeOfCodeRetrievals(r);
      case MaxEncKeyLevel => FromCodeOfCodeEncKeys(r);
      case CertVerifyFailed | CertNotFound | CertRevoked | CertIssuerFailed | CertNotYetValid | CertHasExpired | CrlVerifyFailed | CrlNotYetValid | CrlHasExpired => FromCodeOfCodeCertificates(r);
      case DsigNoReferences | DsigInvalidReference => FromCodeOfCodeDsig(r);
      case Assertion | CastImpossible => FromCodeOfCodeInternal(r);
      case Unknown =>
    }
  }

  lemma FromCodeOfCodeGeneric(r: Reason)
    requires r.NoError? || r.XmlSecFailed? || r.MallocFailed? || r.StrdupFailed? || r.CryptoFailed? || r.XmlFailed? || r.XsltFailed? || r.IoFailed? || r.Disabled? || r.NotImplemented?
    ensures FromCode(Code(r).value) == r
  {
    match r {
      case NoError => assert FromCode(0) == NoError;
      case XmlSecFailed => assert FromCode(1) == XmlSecFailed;
      case MallocFailed => assert FromCode(2) == MallocFailed;
      case StrdupFailed => assert FromCode(3) == StrdupFailed;
      case CryptoFailed => assert FromCode(4) == CryptoFailed;
      case XmlFailed => assert FromCode(5) == XmlFailed;
      case XsltFailed => assert FromCode(6) == XsltFailed;
      case IoFailed => assert FromCode(7) == IoFailed;
      case Disabled => assert FromCode(8) == Disabled;
      case NotImplemented => assert FromCode(9) == NotImplemented;
      case _ =>
    }
  }

  lemma FromCodeOfCodeData(r: Reason)
    requires r.InvalidConfig? || r.InvalidSize? || r.InvalidData? || r.InvalidResult? || r.InvalidType? || r.InvalidOperation? || r.InvalidStatus? || r.InvalidFormat? || r.DataNotMatch? || r.InvalidVersion?
    ensures FromCode(Code(r).value) == r
  {
    match r {
      case InvalidConfig => assert FromCode(10) == InvalidConfig;
      case InvalidSize => assert FromCode(11) == InvalidSize;
      case InvalidData => assert FromCode(12) == InvalidData;
      case InvalidResult => assert FromCode(13) == InvalidResult;
      case InvalidType => assert FromCode(14) == InvalidType;
      case InvalidOperation => assert FromCode(15) == InvalidOperation;
      case InvalidStatus => assert FromCode(16) == InvalidStatus;
      case InvalidFormat => assert FromCode(17) == InvalidFormat;
      case DataNotMatch => assert FromCode(18) == DataNotMatch;
      case InvalidVersion => assert FromCode(19) == InvalidVersion;
      case _ =>
    }
  }

  lemma FromCodeOfCodeNodes(r: Reason)
    requires r.InvalidNode? || r.InvalidNodeContent? || r.InvalidNodeAttribute? || r.MissingNodeAttribute? || r.NodeAlreadyPresent? || r.UnexpectedNode? || r.NodeNotFound?
    ensures FromCode(Code(r).value) == r
  {
    match r {
      case InvalidNode => assert FromCode(21) == InvalidNode;
      case InvalidNodeContent => assert FromCode(22) == InvalidNodeContent;
      case InvalidNodeAttribute => assert FromCode(23) == InvalidNodeAttribute;
      case MissingNodeAttribute => assert FromCode(25) == MissingNodeAttribute;
      case NodeAlreadyPresent => assert FromCode(26) == NodeAlreadyPresent;
      case UnexpectedNode => assert FromCode(27) == UnexpectedNode;
      case NodeNotFound => assert FromCode(28) == Reason.NodeNotFound;
      case _ =>
    }
  }

  lemma FromCodeOfCodeTransforms(r: Reason)
    requires r.InvalidTransform? || r.InvalidTransformKey? || r.InvalidUriType? || r.TransformSameDocumentRequired? || r.TransformDisabled? || r.InvalidAlgorithm?
    ensures FromCode(Code(r).value) == r
  {
    match r {
      case InvalidTransform => assert FromCode(31) == InvalidTransform;
      case InvalidTransformKey => assert FromCode(32) == InvalidTransformKey;
      case InvalidUriType => assert FromCode(33) == InvalidUriType;
      case TransformSameDocumentRequired => assert FromCode(34) == TransformSameDocumentRequired;
      case TransformDisabled => assert FromCode(35) == TransformDisabled;
      case InvalidAlgorithm => assert FromCode(36) == InvalidAlgorithm;
      case _ =>
    }
  }

  lemma FromCodeOfCodeKeyData(r: Reason)
    requires r.InvalidKeyData? || r.KeyDataNotFound? || r.KeyDataAlreadyExist? || r.InvalidKeyDataSize? || r.KeyNotFound? || r.KeyDataDisabled?
    ensures FromCode(Code(r).value) == r
  {
    match r {
      case InvalidKeyData => assert FromCode(41) == InvalidKeyData;
      case KeyDataNotFound => assert FromCode(42) == KeyDataNotFound;
      case KeyDataAlreadyExist => assert FromCode(43) == KeyDataAlreadyExist;
      case InvalidKeyDataSize => assert FromCode(44) == InvalidKeyDataSize;
      case KeyNotFound => assert FromCode(45) == KeyNotFound;
      case KeyDataDisabled => assert FromCode(46) == KeyDataDisabled;
      case _ =>
    }
  }

  lemma FromCodeOfCodeRetrievals(r: Reason)
    requires r.MaxRetrievalsLevel? || r.MaxRetrievalTypeMismatch?
    ensures FromCode(Code(r).value) == r
  {
    match r {
      case MaxRetrievalsLevel => assert FromCode(51) == MaxRetrievalsLevel;
      case MaxRetrievalTypeMismatch => assert FromCode(52) == MaxRetrievalTypeMismatch;
      case _ =>
    }
  }

  lemma FromCodeOfCodeEncKeys(r: Reason)
    requires r.MaxEncKeyLevel?
    ensures FromCode(Code(r).value) == r
  {
    match r {
      case MaxEncKeyLevel => assert FromCode(61) == MaxEncKeyLevel;
      case _ =>
    }
  }

  lemma FromCodeOfCodeCertificates(r: Reason)
    requires r.CertVerifyFailed? || r.CertNotFound? || r.CertRevoked? || r.CertIssuerFailed? || r.CertNotYetValid? || r.CertHasExpired? || r.CrlVerifyFailed? || r.CrlNotYetValid? || r.CrlHasExpired?
    ensures FromCode(Code(r).value) == r
  {
    match r {
      case CertVerifyFailed => assert FromCode(71) == CertVerifyFailed;
      case CertNotFound => assert FromCode(72) == CertNotFound;
      case CertRevoked => assert FromCode(73) == CertRevoked;
      case CertIssuerFailed => assert FromCode(74) == CertIssuerFailed;
      case CertNotYetValid => assert FromCode(75) == CertNotYetValid;
      case CertHasExpired => assert FromCode(76) == CertHasExpired;
      case CrlVerifyFailed => assert FromCode(77) == CrlVerifyFailed;
      case CrlNotYetValid => assert FromCode(78) == CrlNotYetValid;
      case CrlHasExpired => assert FromCode(79) == CrlHasExpired;
      case _ =>
    }
  }

  lemma FromCodeOfCodeDsig(r: Reason)
    requires r.DsigNoReferences? || r.DsigInvalidReference?
    ensures FromCode(Code(r).value) == r
  {
    match r {
      case DsigNoReferences => assert FromCode(81) == DsigNoReferences;
      case DsigInvalidReference => assert FromCode(82) == DsigInvalidReference;
      case _ =>
    }
  }

  lemma FromCodeOfCodeInternal(r: Reason)
    requires r.Assertion? || r.CastImpossible?
    ensures FromCode(Code(r).value) == r
  {
    match r {
      case Assertion => assert FromCode(100) == Assertion;
      case CastImpossible => assert FromCode(101) == CastImpossible;
      case _ =>
    }
  }

  /**
   * A code that decodes to a named reason is that reason's code. Split by group, like the lemma above,
   * only to keep each part within the solver's resource limit.
   */
  lemma CodeOfFromCode(code: i32)
    ensures FromCode(code) != Unknown ==> Code(FromCode(code)) == Some(code)
  {
    match FromCode(code) {
      case NoError | XmlSecFailed | MallocFailed | StrdupFailed | CryptoFailed | XmlFailed | XsltFailed | IoFailed | Disabled | NotImplemented => CodeOfFromCodeGeneric(code);
      case InvalidConfig | InvalidSize | InvalidData | InvalidResult | InvalidType | InvalidOperation | InvalidStatus | InvalidFormat | DataNotMatch | InvalidVersion => CodeOfFromCodeData(code);
      case InvalidNode | InvalidNodeContent | InvalidNodeAttribute | MissingNodeAttribute | NodeAlreadyPresent | UnexpectedNode | NodeNotFound => CodeOfFromCodeNodes(code);
      case InvalidTransform | InvalidTransformKey | InvalidUriType | TransformSameDocumentRequired | TransformDisabled | InvalidAlgorithm => CodeOfFromCodeTransforms(code);
      case InvalidKeyData | KeyDataNotFound | KeyDataAlreadyExist | InvalidKeyDataSize | KeyNotFound | KeyDataDisabled => CodeOfFromCodeKeyData(code);
      case MaxRetrievalsLevel | MaxRetrievalTypeMismatch => CodeOfFromCodeRetrievals(code);
      case MaxEncKeyLevel => CodeOfFromCodeEncKeys(code);
      case CertVerifyFailed | CertNotFound | CertRevoked | CertIssuerFailed | CertNotYetValid | CertHasExpired | CrlVerifyFailed | CrlNotYetValid | CrlHasExpired => CodeOfFromCodeCertificates(code);
      case DsigNoReferences | DsigInvalidReference => CodeOfFromCodeDsig(code);
      case Assertion | CastImpossible => CodeOfFromCodeInternal(code);
      case Unknown =>
    }
  }

  lemma CodeOfFromCodeGeneric(code: i32)
    requires FromCode(code).NoError? || FromCode(code).XmlSecFailed? || FromCode(code).MallocFailed? || FromCode(code).StrdupFailed? || FromCode(code).CryptoFailed? || FromCode(code).XmlFailed? || FromCode(code).XsltFailed? || FromCode(code).IoFailed? || FromCode(code).Disabled? || FromCode(code).NotImplemented?
    ensures Code(FromCode(code)) == Some(code)
  {
  }

  lemma CodeOfFromCodeData(code: i32)
    requires FromCode(code).InvalidConfig? || FromCode(code).InvalidSize? || FromCode(code).InvalidData? || FromCode(code).InvalidResult? || FromCode(code).InvalidType? || FromCode(code).InvalidOperation? || FromCode(code).InvalidStatus? || FromCode(code).InvalidFormat? || FromCode(code).DataNotMatch? || FromCode(code).InvalidVersion?
    ensures Code(FromCode(code)) == Some(code)
  {
  }

  lemma CodeOfFromCodeNodes(code: i32)
    requires FromCode(code).InvalidNode? || FromCode(code).InvalidNodeContent? || FromCode(code).InvalidNodeAttribute? || FromCode(code).MissingNodeAttribute? || FromCode(code).NodeAlreadyPresent? || FromCode(code).UnexpectedNode? || FromCode(code).NodeNotFound?
    ensures Code(FromCode(code)) == Some(code)
  {
  }

  lemma CodeOfFromCodeTransforms(code: i32)
    requires FromCode(code).InvalidTransform? || FromCode(code).InvalidTransformKey? || FromCode(code).InvalidUriType? || FromCode(code).TransformSameDocumentRequired? || FromCode(code).TransformDisabled? || FromCode(code).InvalidAlgorithm?
    ensures Code(FromCode(code)) == Some(code)
  {
  }

  lemma CodeOfFromCodeKeyData(code: i32)
    requires FromCode(code).InvalidKeyData? || FromCode(code).KeyDataNotFound? || FromCode(code).KeyDataAlreadyExist? || FromCode(code).InvalidKeyDataSize? || FromCode(code).KeyNotFound? || FromCode(code).KeyDataDisabled?
    ensures Code(FromCode(code)) == Some(code)
  {
  }

  lemma CodeOfFromCodeRetrievals(code: i32)
    requires FromCode(code).MaxRetrievalsLevel? || FromCode(code).MaxRetrievalTypeMismatch?
    ensures Code(FromCode(code)) == Some(code)
  {
  }

  lemma CodeOfFromCodeEncKeys(code: i32)
    requires FromCode(code).MaxEncKeyLevel?
    ensures Code(FromCode(code)) == Some(code)
  {
  }

  lemma CodeOfFromCodeCertificates(code: i32)
    requires FromCode(code).CertVerifyFailed? || FromCode(code).CertNotFound? || FromCode(code).CertRevoked? || FromCode(code).CertIssuerFailed? || FromCode(code).CertNotYetValid? || FromCode(code).CertHasExpired? || FromCode(code).CrlVerifyFailed? || FromCode(code).CrlNotYetValid? || FromCode(code).CrlHasExpired?
    ensures Code(FromCode(code)) == Some(code)
  {
  }

  lemma CodeOfFromCodeDsig(code: i32)
    requires FromCode(code).DsigNoReferences? || FromCode(code).DsigInvalidReference?
    ensures Code(FromCode(code)) == Some(code)
  {
  }

  lemma CodeOfFromCodeInternal(code: i32)
    requires FromCode(code).Assertion? || FromCode(code).CastImpossible?
    ensures Code(FromCode(code)) == Some(code)
  {
  }

  /** A code decodes to `Unknown` exactly when it is not listed. */
  lemma UnknownIffUnlisted(code: i32)
    ensures FromCode(code) == Unknown <==> !Listed(code)
  {
  }

  /** Two listed codes that decode to the same reason are the same code. */
  lemma FromCodeInjective(a: i32, b: i32)
    requires FromCode(a) != Unknown && FromCode(a) == FromCode(b)
    ensures a == b
  {
    CodeOfFromCode(a);
    CodeOfFromCode(b);
  }

  // ---------------------------------------------------------------------------------------------
  // The error callback

  /** One row of libxmlsec1's error table: a code and its message (null at the table's end marker). */
  datatype ErrorEntry = ErrorEntry(code: i32, msg: Option<string>)

  /** xmlSecErrorsGetMsg(i): the row's message, null past the end of the table. */
  function GetMsg(table: seq<ErrorEntry>, i: nat): (m: Option<string>)
    ensures i >= |table| ==> m == None
  {
    if i < |table| then table[i].msg else None
  }

  /** xmlSecErrorsGetCode(i): the row's code, 0 past the end of the table. */
  function GetCode(table: seq<ErrorEntry>, i: nat): (c: i32)
    ensures i < |table| ==> c == table[i].code
  {
    if i < |table| then table[i].code else 0
  }

  /** Where the callback's search stops: the first row (from `i`) whose message is null or whose code is `reason`. */
  function FirstStop(table: seq<ErrorEntry>, reason: i32, i: nat): (k: nat)
    requires i <= |table|
    ensures i <= k <= |table|
    ensures k == |table| || GetMsg(table, k) == None || GetCode(table, k) == reason
    ensures forall j :: i <= j < k ==> GetMsg(table, j).Some? && GetCode(table, j) != reason
    decreases |table| - i
  {
    if i == |table| || GetMsg(table, i) == None || GetCode(table, i) == reason then i
    else FirstStop(table, reason, i + 1)
  }

  /**
   * The message the callback logs for `reason`: the one at the first row whose code is `reason`, or null
   * when a null message (or the table's end) comes first.
   */
  method LookupMessage(table: seq<ErrorEntry>, reason: i32) returns (msg: Option<string>)
    ensures msg == GetMsg(table, FirstStop(table, reason, 0))
  {
    var i: nat := 0;
    while true
      invariant i <= FirstStop(table, reason, 0)
      invariant forall j :: 0 <= j < i ==> GetMsg(table, j).Some? && GetCode(table, j) != reason
      decreases |table| - i
    {
      msg := GetMsg(table, i);
      if msg.None? {
        return;
      }
      if GetCode(table, i) == reason {
        return;
      }
      i := i + 1;
    }
  }

  /** A found message comes from a row with the reason's code, and no earlier row has that code. */
  lemma LookupFindsFirstRow(table: seq<ErrorEntry>, reason: i32)
    ensures var k := FirstStop(table, reason, 0);
      GetMsg(table, k).Some? ==> k < |table| && table[k].code == reason && forall j :: 0 <= j < k ==> table[j].code != reason
  {
    var k := FirstStop(table, reason, 0);
    forall j | 0 <= j < k
      ensures table[j].code != reason
    {
      assert GetCode(table, j) != reason;
    }
  }

  /** A reason no row of the table carries finds no message when every message is present. */
  lemma LookupMissesAbsentReason(table: seq<ErrorEntry>, reason: i32)
    requires forall j :: 0 <= j < |table| ==> table[j].code != reason
    ensures GetMsg(table, FirstStop(table, reason, 0)) == None
  {
  }

  /**
   * str_or_default: the default for a null pointer, otherwise the C text, which must be UTF-8 (`isUtf8`
   * says whether the bytes behind the pointer are); other text is a panic.
   */
  function StrOrDefault(p: CString, isUtf8: bool, default: string): (o: Outcome<string>)
    ensures p == NullStr ==> o == Returned(default)
    ensures p.CStr? ==> (o.Returned? <==> isUtf8) && (o.Returned? ==> o.value == p.chars)
  {
    match p
    case NullStr => Returned(default)
    case CStr(s) => if isUtf8 then Returned(s) else Panicked
  }

  // ---------------------------------------------------------------------------------------------
  // The global context

  /** The libxmlsec1 and OpenSSL entry points the runtime calls. */
  datatype LibCall =
    | XmlSecInit
    | OpenSslAppInit
    | OpenSslInit
    | OpenSslShutdown
    | OpenSslAppShutdown
    | XmlSecShutdown
    | SetErrorCallback

  /** XmlSecContext::new: xmlsec, then the crypto application layer, then the crypto library. */
  const InitSequence: seq<LibCall> := [XmlSecInit, OpenSslAppInit, OpenSslInit]

  /** XmlSecContext's drop: crypto, then the crypto application layer, then xmlsec. */
  const TeardownSequence: seq<LibCall> := [OpenSslShutdown, OpenSslAppShutdown, XmlSecShutdown]

  /** The shutdown call that undoes an init call. */
  function ShutdownOf(c: LibCall): LibCall
  {
    match c
    case XmlSecInit => XmlSecShutdown
    case OpenSslAppInit => OpenSslAppShutdown
    case OpenSslInit => OpenSslShutdown
    case _ => c
  }

  /** Teardown undoes the initialisation in exactly the reverse order. */
  lemma TeardownReversesInit()
    ensures |TeardownSequence| == |InitSequence|
    ensures forall i :: 0 <= i < |TeardownSequence| ==> TeardownSequence[i] == ShutdownOf(InitSequence[|InitSequence| - 1 - i])
  {
    assert ShutdownOf(InitSequence[2]) == OpenSslShutdown;
    assert ShutdownOf(InitSequence[1]) == OpenSslAppShutdown;
    assert ShutdownOf(InitSequence[0]) == XmlSecShutdown;
  }

  /** The init calls made when each call's return code is checked and a negative one is a panic. */
  function InitIssued(cs: seq<LibCall>, rc: LibCall -> int): (issued: seq<LibCall>)
    decreases |cs|
  {
    if |cs| == 0 then []
    else if rc(cs[0]) < 0 then [cs[0]]
    else [cs[0]] + InitIssued(cs[1..], rc)
  }

  /** Every init call returns a non-negative code. */
  predicate InitSucceeds(cs: seq<LibCall>, rc: LibCall -> int)
  {
    forall i :: 0 <= i < |cs| ==> rc(cs[i]) >= 0
  }

  /** The init calls made are a prefix of the wanted ones, and all of them when every call succeeds. */
  lemma {:induction false} InitIssuedPrefix(cs: seq<LibCall>, rc: LibCall -> int)
    ensures InitIssued(cs, rc) <= cs
    ensures InitSucceeds(cs, rc) ==> InitIssued(cs, rc) == cs
    decreases |cs|
  {
    if |cs| > 0 {
      InitIssuedPrefix(cs[1..], rc);
      if InitSucceeds(cs, rc) {
        assert rc(cs[0]) >= 0;
        assert InitSucceeds(cs[1..], rc) by {
          forall i | 0 <= i < |cs[1..]|
            ensures rc(cs[1..][i]) >= 0
          {
            assert cs[1..][i] == cs[i + 1];
          }
        }
      }
    }
  }

  /** When some init call fails, the calls stop right after the first failing one. */
  lemma {:induction false} InitIssuedStopsAtFailure(cs: seq<LibCall>, rc: LibCall -> int)
    requires !InitSucceeds(cs, rc)
    ensures var k := |InitIssued(cs, rc)|;
      0 < k <= |cs| && rc(cs[k - 1]) < 0 && InitSucceeds(cs[..k - 1], rc)
    decreases |cs|
  {
    if rc(cs[0]) >= 0 {
      assert !InitSucceeds(cs[1..], rc) by {
        var i :| 0 <= i < |cs| && rc(cs[i]) < 0;
        assert i > 0 && cs[1..][i - 1] == cs[i];
      }
      InitIssuedStopsAtFailure(cs[1..], rc);
      var k := |InitIssued(cs[1..], rc)|;
      assert |InitIssued(cs, rc)| == k + 1;
      forall i | 0 <= i < k
        ensures rc(cs[..k][i]) >= 0
      {
        if i > 0 {
          assert cs[..k][i] == cs[1..][..k - 1][i - 1];
        }
      }
    }
  }

  /** The corrected version guard: OpenSSL_version_num() below 0x1000_0000 is a release older than 1.0.0. */
  predicate VersionTooOld(versionNumber: int)
  {
    versionNumber < 0x1000_0000
  }

  /**
   * With OpenSSL's layout of the version number (the major version in the top four of 32 bits), the
   * corrected guard rejects exactly the releases whose major version is 0.
   */
  lemma VersionTooOldIffMajorZero(major: nat, rest: nat)
    requires major < 16 && rest < 0x1000_0000
    ensures VersionTooOld(major * 0x1000_0000 + rest) <==> major == 0
  {
  }

  /**
   * The guard as written: the first `c_char` of OpenSSL_version(0)'s text (its NUL when empty) below 1, with
   * `c_char` signed as on x86-64. Where `c_char` is unsigned (aarch64 Linux) the guard means a NUL first
   * character; a text starting with `O` passes it under either reading.
   */
  predicate VersionGuardAsWritten(versionText: seq<byte>)
  {
    var first := if |versionText| == 0 then 0 else versionText[0] as int;
    (if first < 128 then first else first - 256) < 1
  }

  /** The version text of every OpenSSL release starts with `O` (79), so the guard as written never fires on it. */
  lemma VersionGuardNeverFiresOnOpenSslText(versionText: seq<byte>)
    requires |versionText| > 0 && versionText[0] == 79
    ensures !VersionGuardAsWritten(versionText)
  {
  }

  /** OpenSSL 0.9.8 (number 0x0090_80FF, text "OpenSSL 0.9.8"): too old, yet the guard as written lets it through. */
  lemma VersionGuardMissesOpenSsl098()
    ensures var text: seq<byte> := [79, 112, 101, 110, 83, 83, 76, 32, 48, 46, 57, 46, 56];
      VersionTooOld(0x0090_80FF) && !VersionGuardAsWritten(text)
  {
  }

  /**
   * The process-wide runtime: whether the global XmlSecContext exists, whether its mutex is poisoned (a
   * panic happened while it was held), the calling thread's last-error slot, and the library calls made.
   */
  class Runtime {
    var context: bool
    var poisoned: bool
    var lastErrorReason: i32
    var calls: seq<LibCall>

    /** Process start: no context, an unpoisoned lock, a zero slot and no calls. */
    constructor ()
      ensures !context && !poisoned && lastErrorReason == 0 && calls == []
    {
      context := false;
      poisoned := false;
      lastErrorReason := 0;
      calls := [];
    }

    /** last_error: the slot, decoded. */
    function LastError(): (r: Reason)
      reads this
      ensures lastErrorReason == 0 <==> r == NoError
    {
      FromCode(lastErrorReason)
    }

    /** clear_last_error: the slot goes back to 0, so the last error is NoError. */
    method ClearLastError()
      modifies this`lastErrorReason
      ensures lastErrorReason == 0 && LastError() == NoError
    {
      lastErrorReason := 0;
    }

    /**
     * error_callback: looks up the reason's message and stores the reason in the slot; the log record it
     * builds from the message and the other arguments is not modelled.
     */
    method ErrorCallback(table: seq<ErrorEntry>, reason: i32) returns (msg: Option<string>)
      modifies this`lastErrorReason
      ensures lastErrorReason == reason && LastError() == FromCode(reason)
      ensures msg == GetMsg(table, FirstStop(table, reason, 0))
    {
      msg := LookupMessage(table, reason);
      lastErrorReason := reason;
    }

    /**
     * guarantee_xmlsec_init: takes the lock (a poisoned lock is a panic), rejects a too-old OpenSSL, creates
     * the context only when it is absent, then registers the error callback. A panic while the lock is
     * held poisons it. `rc` gives each init call's return code; `versionNumber` is OpenSSL_version_num().
     */
    method GuaranteeInit(versionNumber: int, rc: LibCall -> int) returns (o: Outcome<()>)
      modifies this`context, this`poisoned, this`calls
      ensures old(poisoned) ==> o.Panicked? && poisoned && context == old(context) && calls == old(calls)
      ensures !old(poisoned) && VersionTooOld(versionNumber) ==> o.Panicked? && poisoned && context == old(context) && calls == old(calls)
      ensures !old(poisoned) && !VersionTooOld(versionNumber) && old(context) ==>
        o.Returned? && !poisoned && context && calls == old(calls) + [SetErrorCallback]
      ensures !old(poisoned) && !VersionTooOld(versionNumber) && !old(context) ==>
        && (o.Returned? <==> InitSucceeds(InitSequence, rc))
        && (poisoned <==> o.Panicked?) && (context <==> o.Returned?)
        && calls == old(calls) + InitIssued(InitSequence, rc) + (if o.Returned? then [SetErrorCallback] else [])
    {
      if poisoned {
        return Panicked;
      }
      if VersionTooOld(versionNumber) {
        poisoned := true;
        return Panicked;
      }
      if !context {
        ghost var c0 := calls;
        calls := calls + [XmlSecInit];
        if rc(XmlSecInit) < 0 {
          poisoned := true;
          assert InitSequence[0] == XmlSecInit;
          return Panicked;
        }
        calls := calls + [OpenSslAppInit];
        if rc(OpenSslAppInit) < 0 {
          poisoned := true;
          assert InitSequence[1] == OpenSslAppInit;
          assert InitIssued(InitSequence, rc) == [XmlSecInit, OpenSslAppInit];
          return Panicked;
        }
        calls := calls + [OpenSslInit];
        if rc(OpenSslInit) < 0 {
          poisoned := true;
          assert InitSequence[2] == OpenSslInit;
          assert InitIssued(InitSequence, rc) == InitSequence;
          return Panicked;
        }
        assert InitIssued(InitSequence, rc) == InitSequence;
        assert calls == c0 + InitSequence;
        context := true;
      }
      calls := calls + [SetErrorCallback];
      return Returned(());
    }

    /** XmlSecContext's drop: the three shutdown calls, in reverse order of initialisation. */
    method DropContext()
      requires context
      modifies this`context, this`calls
      ensures !context && calls == old(calls) + TeardownSequence
    {
      calls := calls + [OpenSslShutdown, OpenSslAppShutdown, XmlSecShutdown];
      context := false;
    }
  }

  /** A second guarantee_xmlsec_init after a successful one initialises nothing again. */
  method InitTwice(rt: Runtime, versionNumber: int, rc: LibCall -> int) returns (first: Outcome<()>, second: Outcome<()>)
    requires !rt.poisoned && !rt.context
    modifies rt
    ensures first.Returned? ==> second.Returned? && rt.calls == old(rt.calls) + InitSequence + [SetErrorCallback, SetErrorCallback]
  {
    first := rt.GuaranteeInit(versionNumber, rc);
    if first.Returned? {
      InitIssuedPrefix(InitSequence, rc);
    }
    second := rt.GuaranteeInit(versionNumber, rc);
  }
}
