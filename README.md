# rust-xmlsec wrapper logic, modelled in Dafny

rust-xmlsec is a Rust binding over libxmlsec1, its OpenSSL backend and libxml2. These libraries do all of
the canonicalisation, digesting, signing, ciphering and DOM mutation. This project models the logic the
Rust wrapper adds on top, and proves what that logic promises.

The C side is an abstract collaborator:

- Pointers are opaque `Handle`s (`nat`), and `0` is null.
- Backend return codes, created pointers and result buffers are inputs. Where the argument the wrapper
  passes matters, an input is a function from that argument to the answer.
- A Rust panic is the `Panicked` outcome.
- The libxml2 tree is a datatype of element and other nodes with ordered children.

One Dafny module per source file:

- `Keys` (src/keys.rs):
  - the key format and data-type constants;
  - how a loader's answer maps to a result;
  - a `KeyHeap` class holding the backend's key objects and their names, plus a ghost ledger of which
    keys some Rust value owns and which have been leaked to C.
- `KeysMngr` (src/xmlkeysmngr.rs): a keys manager class whose trust store fills as certificates load.
- `Transforms` (src/transforms.rs): the canonicalization descriptors, the operation codes, the
  transform validity test, and classes for a transform and for a transform context with its chain.
- `OpenSsl` (src/crypto/openssl.rs): the two signature-method tables and their round trips. The backend
  descriptors are the distinct constants of `Klasses.Klass`, plus any number of other ones.
- `DSig` (src/xmldsig.rs): the signature context class with its single key slot and optional keys
  manager, the sign and verify checks, and the search for the `Signature` element.
- `Enc` (src/xmlenc.rs): the encryption context class with its destroying key slot, the mode switch
  and decryption results.
- `Templates` (src/templates.rs):
  - the four template builders;
  - every DOM-changing template call, recorded in order on a `Document`;
  - the prefix of the wanted calls made when a null node aborts;
  - the issuer-name and serial-number text.
- `XmlSec` (src/xmlsec.rs):
  - the error-reason decoding table and its inverse;
  - the error-message lookup loop;
  - a `Runtime` class holding the global context, its lock's poisoned flag, the last-error slot and the
    library calls made.

Shared modules:

- `Errors`: `XmlSecError`, `XmlSecResult`, `Option` and `Outcome`.
- `Ffi`: pointers, C strings and buffers.
- `Klasses`: the transform descriptors.
- `Dom`: the libxml2 tree, `get_root_element` and libxmlsec1's `xmlSecFindNode`. Their C sources are not
  part of this model. `Dom` states the search that libxmlsec1 documents: node first, then its
  descendants, then its following siblings.

## Model

| member | source | states |
|---|---|---|
| Ffi.NewCString | src/keys.rs:80 | `CString::new(s).unwrap()` panics exactly when `s` holds NUL, and otherwise passes `s` unchanged |
| Ffi.OptionalCString | src/keys.rs:81-83 | an absent string is passed as the null pointer, and a present one as its copy; only a NUL inside it panics |
| Ffi.BufferBytes | src/transforms.rs:83-90 | a null data pointer or size 0 gives no slice; otherwise the slice is exactly the buffer's bytes |
| Keys.IntoRaw | src/keys.rs:22-39 | every format maps to one backend constant in 0..10 |
| Keys.FormatOfRaw | src/keys.rs:22-34 | the constant table read backwards is defined exactly on 0..10 |
| Keys.IntoRawRoundTrip | src/keys.rs:22-39 | reading a format's constant back gives that format |
| Keys.IntoRawInjective | src/keys.rs:22-39 | distinct formats reach the backend as distinct constants |
| Keys.Eq | src/keys.rs:219-223 | two keys are equal exactly when they wrap the same pointer |
| Keys.FromFileCall | src/keys.rs:69-95 | panics exactly on a NUL in the path or password; passes the path, the data-type bits and the format constant; passes a null password exactly when none is given; passes null callbacks |
| Keys.FromMemoryCall | src/keys.rs:105-127 | passes the whole buffer and its full length; a null password exactly when none is given; panics only on a NUL in the password |
| Keys.KeyLoadResult | src/keys.rs:97-101 | KeyLoadError exactly for a null key; otherwise a key wrapping exactly the returned pointer |
| Keys.CertLoadResult | src/keys.rs:144-148 | Ok exactly for return code 0; any other code is CertLoadError |
| Keys.LoadCertFromFile | src/keys.rs:137-149 | panics exactly on a NUL in the path; otherwise Ok exactly when the load into this key's pointer returns 0, else CertLoadError |
| Keys.LoadCertFromMemory | src/keys.rs:152-167 | Ok exactly when loading the whole buffer into this key's pointer returns 0, else CertLoadError |
| Keys.KeyHeap.Empty | src/keys.rs:64 | no key objects, names or owners at first |
| Keys.KeyHeap.Adopt | src/keys.rs:97-101 | a loaded key joins the live and owned sets, and the result is KeyLoadResult of the answer; a null answer changes nothing |
| Keys.KeyHeap.FromFile | src/keys.rs:69-102 | panics exactly when FromFileCall does; otherwise the result is KeyLoadResult of the loader's answer to that call; a new key is live and owned; a failure changes nothing |
| Keys.KeyHeap.FromMemory | src/keys.rs:105-134 | the same for a key loaded from a buffer |
| Keys.KeyHeap.SetName | src/keys.rs:170-178 | panics exactly on a NUL in the name, on the null key (which xmlSecKeySetName refuses with -1) or on a negative backend code; on success only this key's name changes, to the given name |
| Keys.KeyHeap.GetName | src/keys.rs:181-186 | the name the key carries |
| Keys.KeyHeap.FromPtr | src/keys.rs:192-194 | a leaked pointer becomes owned by the returned key, which wraps exactly that pointer |
| Keys.KeyHeap.Leak | src/keys.rs:210-216 | returns the wrapped pointer; the key stays allocated but is no longer owned, so no Drop destroys it |
| Keys.KeyHeap.Clone | src/keys.rs:227-233 | wraps the duplicate's pointer unchecked; the clone of the null key is the null key again; a non-null duplicate is a new object (not Eq to the original) that carries the original's name |
| Keys.KeyHeap.Drop | src/keys.rs:235-239 | the owned key object and its name are destroyed; nothing else changes |
| Keys.KeyHeap.Supply | src/xmldsig.rs:217-225 | a key object the backend creates itself (a keys manager's answer) is allocated and owned by no Rust value; a null answer creates nothing |
| Keys.KeyHeap.DestroyLeaked | src/xmldsig.rs:244-250 | a context's destroy frees the leaked key in its slot and leaves the ownership ledger alone |
| Keys.AdoptThenLeak | src/keys.rs:192-216 | `leak(from_ptr(p)) == p`, and ownership is back where it was |
| Keys.SetThenGetName | tests/test_keys.rs:33-42 | after a successful set_name, get_name returns that name; another key's name is untouched |
| KeysMngr.KeysMngr.FromHandle | src/xmlkeysmngr.rs:19 | a manager over a non-null pointer starts with an empty trust store |
| KeysMngr.KeysMngr.New | src/xmlkeysmngr.rs:23-33 | panics exactly when the backend returns a null manager; otherwise a fresh manager with an empty trust store |
| KeysMngr.KeysMngr.CertLoadCall | src/xmlkeysmngr.rs:39-42 | passes the manager, the whole buffer, its full length and the format's constant, and always the Trusted flag |
| KeysMngr.KeysMngr.CertLoadFromMemory | src/xmlkeysmngr.rs:39-45 | Ok exactly when the backend returns 0, and then the certificate is appended to the trust store; otherwise CertLoadError and no change |
| KeysMngr.KeysMngr.Drop | src/xmlkeysmngr.rs:48-52 | the manager is destroyed |
| Transforms.ToMethod | src/transforms.rs:19-38 | every variant has a non-null descriptor; the descriptor is a canonicalization exactly for the six C14N variants, not for Sha1 or Base64 |
| Transforms.ToMethodInjective | src/transforms.rs:21-38 | distinct variants name distinct descriptors |
| Transforms.Sha1SharedDescriptor | src/transforms.rs:35 | the canonicalization `Sha1` and the signature method `Sha1` name the same descriptor, and from_method reads it back as `Sha1` |
| Transforms.OperationCode | src/transforms.rs:42-50 | every operation's code is in 0..6 |
| Transforms.OperationOfCode | src/transforms.rs:42-50 | reading the codes backwards is defined exactly on 0..6 |
| Transforms.OperationCodeRoundTrip | src/transforms.rs:42-50 | the codes are fixed: reading an operation's code back gives that operation |
| Transforms.OperationCodeInjective | src/transforms.rs:42-50 | no two operations share a code |
| Transforms.IsTransformValid | src/transforms.rs:135-157 | valid exactly when the transform and its id are non-null, klassSize and objSize are at least the struct sizes, and the name is non-null, as in the xmlSecTransformIsValid macro (TransformIsValidMacro) |
| Transforms.Transform.FromRaw | src/transforms.rs:114 | a transform keeps the created pointer, id and operation field, and the wrapper owns it |
| Transforms.Transform.New | src/transforms.rs:106-115 | creates the transform for the variant's descriptor, and panics exactly when the created transform fails the validity test |
| Transforms.Transform.WithOperation | src/transforms.rs:118-125 | as New, and the operation field then holds the operation's code |
| Transforms.Transform.SetOperation | src/transforms.rs:128-133 | writes the operation's code into the operation field and changes nothing else |
| Transforms.Transform.Drop | src/transforms.rs:160-166 | destroys a transform the wrapper still owns |
| Transforms.ClassifyExecute | src/transforms.rs:81-95 | a nonzero code is TransformError; code 0 with a null or empty buffer is EmptyResultError; otherwise exactly the buffer's bytes |
| Transforms.TransformCtx.FromHandle | src/transforms.rs:66 | a context starts with an empty chain and an empty result |
| Transforms.TransformCtx.New | src/transforms.rs:59-67 | panics exactly when the backend returns a null context |
| Transforms.TransformCtx.Append | src/transforms.rs:70-75 | the backend's return code is ignored: on 0 the transform goes at the tail of the chain, which owns it instead of the wrapper; otherwise the chain is unchanged and the forgotten transform is owned by nobody |
| Transforms.TransformCtx.XmlExecute | src/transforms.rs:78-96 | stores the backend's result buffer and returns ClassifyExecute of its code and that buffer |
| Transforms.AppendDigestChain | tests/test_nodeset.rs:56-68 | the existing chain is kept and at most three transforms follow it; when every creation passes its validity check and the backend accepts every append, C14N, then Sha1 with Sign, then Base64 with Encode are appended in that order; every creation that fails its validity check is a panic |
| OpenSsl.ToMethod | src/crypto/openssl.rs:54-100 | to_method is total: every one of the 35 methods has a non-null descriptor |
| OpenSsl.FromToMethod | src/crypto/openssl.rs:54-226 | from_method(to_method(m)) == Some(m) for every method |
| OpenSsl.ToFromMethod | src/crypto/openssl.rs:102-226 | a method that from_method reports has exactly the descriptor it was given |
| OpenSsl.FromMethodNoneIff | src/crypto/openssl.rs:227 | from_method is None exactly for descriptors that no method's to_method names |
| OpenSsl.FromMethodExact | src/crypto/openssl.rs:102-227 | from_method reports exactly the method whose descriptor it is given, and no other |
| OpenSsl.ToMethodInjective | src/crypto/openssl.rs:54-100 | distinct methods have distinct descriptors |
| OpenSsl.CommentedOutAbsent | src/crypto/openssl.rs:59-61 | the AES-GCM, HMAC-MD5, MD5 and RSA-MD5 descriptors appear in neither direction of the table |
| OpenSsl.UnnamedDescriptorsAbsent | src/crypto/openssl.rs:227 | the null descriptor and descriptors outside the table map to None |
| Dom.RootElement | src/xmldsig.rs:253 | there is no root element exactly when no top-level node is an element |
| Dom.RootElementIsFirst | src/xmldsig.rs:253 | the root found is the first top-level element, with exactly the nodes after it |
| Dom.FirstMatch | src/xmldsig.rs:263-270 | None exactly when no pointer matches; otherwise the first matching one |
| Dom.FirstMatchAppend | src/xmldsig.rs:263-270 | the first match in a concatenation is the first match in its first part, or else in its second part |
| Dom.FindNodeIsFirstMatch | src/xmldsig.rs:263-270 | xmlSecFindNode returns the first match in document order from where it starts |
| Dom.FindNodeNoneIff | src/xmldsig.rs:272-274 | the search fails exactly when no reachable node matches; a node it finds matches and is reachable |
| Dom.FindNodeFindsStart | src/xmldsig.rs:263-270 | a search that starts on a matching node returns that node |
| DSig.FindSignode | src/xmldsig.rs:263-277 | NodeNotFound exactly when xmlSecFindNode finds no dsig Signature element; a node it finds is one |
| DSig.FindRoot | src/xmldsig.rs:252-261 | RootNotFound without a root element; otherwise the Signature search from the root element |
| DSig.SignatureTargetIsFirstSignature | src/xmldsig.rs:108-115 | the node handed to the backend is RootNotFound exactly without a root element; it is NodeNotFound exactly when no Signature element follows the root in document order; otherwise it is the first such element |
| DSig.SignResult | src/xmldsig.rs:217-225 | SigningError exactly for a negative return code |
| DSig.VerifyResult | src/xmldsig.rs:227-241 | a negative code gives VerifyError; Succeeded gives true, and Unknown or Invalid give false; any other status panics (each case iff) |
| DSig.SignDocumentOrder | src/xmldsig.rs:108-115 | the first failure is KeyNotLoaded exactly when no key is usable, then RootNotFound exactly when there is no root element, then NodeNotFound exactly when there is no Signature element; otherwise the backend's code decides |
| DSig.VerifyDocumentOrder | src/xmldsig.rs:136-143 | the same order for verify_document; the result is true exactly when the backend accepts the first Signature element with status Succeeded |
| DSig.SignatureContext.FromHandle | src/xmldsig.rs:37-40 | a new context has an empty key slot, time 0 and status Unknown |
| DSig.SignatureContext.New | src/xmldsig.rs:28-41 | created without a manager; panics exactly on a null context; otherwise no manager and an empty slot |
| DSig.SignatureContext.WithKeysManager | src/xmldsig.rs:44-57 | created over the manager's pointer; panics exactly on a null context; otherwise holds that manager and an empty slot |
| DSig.SignatureContext.InsertKey | src/xmldsig.rs:59-73 | an empty slot hands back None and an occupied one its key, now owned by the caller; afterwards the slot holds exactly the inserted key, which C then owns |
| DSig.SignatureContext.ReleaseKey | src/xmldsig.rs:75-88 | an occupied slot hands back its key, now owned by the caller, and is left empty; an empty slot gives None and stays empty |
| DSig.SignatureContext.KeyIsSet | src/xmldsig.rs:206-215 | Ok exactly when the slot holds a key or the context has a keys manager; otherwise KeyNotLoaded |
| DSig.SignatureContext.SignNodeRaw | src/xmldsig.rs:217-225 | the result is SignResult of the backend's code for that node, and the context keeps the status and method the backend left; a key already in the slot stays, and an empty slot of a context with a keys manager takes the manager's key, a new object owned by no Rust value |
| DSig.SignatureContext.VerifyNodeRaw | src/xmldsig.rs:227-241 | the result is VerifyResult of the backend's code and the status it left, and the context keeps that status and method; a key already in the slot stays, and an empty slot of a context with a keys manager takes the manager's key, a new object owned by no Rust value |
| DSig.SignatureContext.FillSlot | src/xmldsig.rs:206-225 | the backend's key lookup: a held key stays; an empty slot of a context with a keys manager takes the manager's answer, which joins the allocated keys unowned |
| DSig.SignatureContext.SignNode | src/xmldsig.rs:90-97 | KeyNotLoaded without a usable key, and then the backend is not called and the context is unchanged; otherwise the given node is signed and the context keeps the status and signature method the backend leaves; a key already in the slot stays, and an empty slot of a context with a keys manager takes the manager's key, a new object owned by no Rust value |
| DSig.SignatureContext.VerifyNode | src/xmldsig.rs:117-124 | KeyNotLoaded without a usable key, with the context unchanged; otherwise VerifyResult of the backend's code and status for the given node, and the context keeps the status and signature method the backend leaves; a key already in the slot stays, and an empty slot of a context with a keys manager takes the manager's key, a new object owned by no Rust value |
| DSig.SignatureContext.SignDocument | src/xmldsig.rs:108-115 | equals the sign_document specification (see SignDocumentOrder); the context is unchanged when a check fails, and otherwise keeps the status and signature method the backend leaves for the target Signature node; a key already in the slot stays, and an empty slot of a context with a keys manager takes the manager's key, a new object owned by no Rust value |
| DSig.SignatureContext.VerifyDocument | src/xmldsig.rs:136-143 | equals the verify_document specification (see VerifyDocumentOrder); the context is unchanged when a check fails, and otherwise keeps the status and signature method the backend leaves for the target Signature node; a key already in the slot stays, and an empty slot of a context with a keys manager takes the manager's key, a new object owned by no Rust value |
| DSig.SignatureContext.SetVerificationTime | src/xmldsig.rs:145-150 | stores the time in the certificate-verification field and changes nothing else |
| DSig.SignatureContext.SignatureMethod | src/xmldsig.rs:172-183 | a crash exactly when the context holds no signature-method transform; otherwise None for a null method id; a method it reports has exactly the held descriptor, and every method whose descriptor is held is reported |
| DSig.SignatureContext.Drop | src/xmldsig.rs:244-250 | the context and the key in its slot, with that key's name, are destroyed; every other key object is untouched; and its keys manager is dropped |
| DSig.SignThenRelease | src/xmldsig.rs:75-97 | on a context with a keys manager and an empty slot, release_key after sign_node hands the caller exactly the manager's key (None when it answered null), now owned by the caller, and empties the slot |
| DSig.InsertThenRelease | tests/test_dsig.rs:27-57 | insert_key on a fresh context returns None, and release_key then returns a key Eq to the inserted one; the slot and ownership end as they began |
| Enc.ModeCode | src/xmlenc.rs:69-79 | Key selects EncryptedKey, and every other mode selects EncryptedData |
| Enc.DecryptResult | src/xmlenc.rs:85-101 | SigningError exactly for a negative code, a null result or an empty result; otherwise exactly the result's bytes |
| Enc.EncryptionContext.FromHandle | src/xmlenc.rs:33-36 | a new context has an empty key slot and EncryptedData mode |
| Enc.EncryptionContext.New | src/xmlenc.rs:24-37 | created without a manager; panics exactly on a null context; otherwise no manager |
| Enc.EncryptionContext.WithKeysManager | src/xmlenc.rs:40-53 | created over the manager's pointer; panics exactly on a null context; otherwise holds that manager |
| Enc.EncryptionContext.SetKey | src/xmlenc.rs:55-66 | a key already in the slot is destroyed, not returned; the slot then holds exactly the new key, which C now owns |
| Enc.EncryptionContext.SetMode | src/xmlenc.rs:68-79 | writes ModeCode of the mode and nothing else |
| Enc.EncryptionContext.Decrypt | src/xmlenc.rs:81-103 | needs no key; stores the backend's result buffer and returns DecryptResult of its code and that buffer; a key already in the slot stays, and an empty slot of a context with a keys manager takes the manager's key, a new object owned by no Rust value |
| Enc.EncryptionContext.Drop | src/xmlenc.rs:112-118 | the context and the key in its slot, with that key's name, are destroyed; every other key object is untouched; and its keys manager is dropped |
| Enc.DecryptThenSetKey | src/xmlenc.rs:56-103 | on a context with a keys manager and an empty slot, set_key after decrypt destroys the manager's key that decrypt stored, and the slot holds the new key |
| Enc.ReplaceKey | src/xmlenc.rs:56-66 | after two set_key calls the first key no longer exists and the second sits in the slot |
| Templates.Document.constructor | src/templates.rs:70-78 | a document holds its pointer and its node tree and starts with no template calls |
| Templates.Document.Call | src/templates.rs:114-183 | one backend call is appended to the document's record, and its answer is returned |
| Templates.NewDocumentTemplateBuilder | src/templates.rs:323-336 | defaults: ExclusiveC14N, RsaSha1, a Sha1 reference digest, no prefix, no parent |
| Templates.Canonicalization | src/templates.rs:382-385 | sets only the canonicalization |
| Templates.Signature | src/templates.rs:390-393 | sets only the signature method |
| Templates.NsPrefix | src/templates.rs:396-399 | sets only the namespace prefix |
| Templates.ParentNode | src/templates.rs:402-405 | sets only the parent node |
| Templates.SettersCommute | src/templates.rs:382-405 | setters of different fields commute |
| Templates.SettersOverride | src/templates.rs:382-405 | a later setter of the same field overrides an earlier one |
| Templates.AttachTarget | src/templates.rs:358-364 | the explicit parent if set, else the document's first top-level element (the same root element the signature context searches from); none exactly when neither exists |
| Templates.CreateCall | src/templates.rs:348-356 | the Signature element is created on this document with the chosen canonicalization and signature descriptors, a null id and the prefix |
| Templates.Build | src/templates.rs:338-377 | panics exactly on a NUL in the prefix, with no call made; otherwise creates the element first; RootNotFound exactly when there is no target, and then nothing is attached; on success appends the element to the target and returns it bound to the document |
| Templates.IssueUntilNullPrefix | src/templates.rs:213-245 | the calls made are a prefix of the wanted ones: all of them when every node is non-null, else up to and including the first null one |
| Templates.IssueUntilNullCons | src/templates.rs:213-245 | issuing one call, then the rest only if its node is non-null |
| Templates.NewReferenceSignatureBuilder | src/templates.rs:249-256 | defaults: a Sha1 digest, no URI, and with_enveloped set |
| Templates.ReferenceDigest | src/templates.rs:259-262 | sets only the digest |
| Templates.Uri | src/templates.rs:265-268 | panics exactly on a NUL in the URI; otherwise sets only the URI |
| Templates.WithEnveloped | src/templates.rs:271-274 | sets only the enveloped flag |
| Templates.ReferenceCall | src/templates.rs:278-293 | one Reference on the Signature node with the chosen digest, a null id and type, and the URI or null exactly when none is set |
| Templates.ReferenceAddNode | src/templates.rs:277-310 | issues the Reference and, exactly when with_enveloped is set, the enveloped transform on it, stopping at a null node; returns exactly when every node is non-null |
| Templates.NewKeyInfoBuilder | src/templates.rs:189-196 | every flag is off |
| Templates.KeyName | src/templates.rs:198-201 | sets only the KeyName flag |
| Templates.KeyValue | src/templates.rs:203-206 | sets only the KeyValue flag |
| Templates.X509Data | src/templates.rs:208-211 | sets only the X509Data flag |
| Templates.RequestedChildrenExactly | src/templates.rs:221-243 | KeyName, KeyValue and X509Data are each requested exactly when their flag is set, once each, in that order |
| Templates.IssueOptional | src/templates.rs:221-243 | one optional child call: the record grows by the call when its flag is set, and the rest follows only if its node is non-null |
| Templates.IssueOne | src/templates.rs:213-245 | one issued call extends an existing record the way IssueUntilNull does |
| Templates.CallIf | src/templates.rs:221-243 | the call is made exactly when its flag is set; it fails exactly when made and answered null |
| Templates.KeyInfoAddNode | src/templates.rs:213-245 | ensures KeyInfo, then adds the requested children in order, stopping at the first null node; returns exactly when every node is non-null |
| Templates.NewX509Builder | src/templates.rs:109-111 | a builder over the Signature node |
| Templates.EntryString | src/templates.rs:137-143 | an issuer entry formats as `short_name=value`; a missing short name or non-UTF-8 value panics |
| Templates.JoinAppend | src/templates.rs:144-145 | joining with `,` splits at any boundary between two non-empty parts |
| Templates.EntryStrings | src/templates.rs:134-144 | the entries formatted in certificate order, one for each; panics exactly when some entry cannot be formatted |
| Templates.IssuerString | src/templates.rs:134-145 | the issuer text is built exactly when every entry has a short name and a UTF-8 value |
| Templates.IssuerStringSnoc | src/templates.rs:134-145 | one more entry appends `,` and that entry's text |
| Templates.Digits | src/templates.rs:153-159 | a non-empty digit string with no leading zero |
| Templates.DecimalString | src/templates.rs:153-159 | the serial's decimal text is non-empty and starts with `-` exactly for a negative number |
| Templates.DigitsValueOfDigits | src/templates.rs:153-159 | the digits read back as the number |
| Templates.DecimalRoundTrip | src/templates.rs:153-159 | the decimal text of any serial reads back as that serial |
| Templates.NegativeRoundTrip | src/templates.rs:153-159 | a minus sign and digits read back as the negated number |
| Templates.SerialCStringNeverPanics | src/templates.rs:160-164 | the serial's C string never panics, since decimal text holds no NUL |
| Templates.IssuerText | src/templates.rs:134-145 | the issuer text when it can be built |
| Templates.IssuerCString | src/templates.rs:146-150 | the issuer C string panics exactly when the text cannot be built or holds a NUL; otherwise it is that text |
| Templates.X509Tail | src/templates.rs:146-183 | the issuer name, then the serial number, then the certificate node, then its 64-column base64 text |
| Templates.X509TailIssued | src/templates.rs:146-183 | how many tail calls are made, at most four |
| Templates.X509Wanted | src/templates.rs:114-183 | KeyInfo first, then X509Data on it, then X509IssuerSerial on that; the certificate node goes on the X509Data node |
| Templates.X509Issued | src/templates.rs:114-183 | add_node makes between one and seven calls |
| Templates.X509AddNode | src/templates.rs:114-183 | the calls are exactly the wanted prefix, stopping after a null node or before the issuer name when its text panics; returns exactly when the four checked nodes are non-null and the issuer text builds |
| Templates.X509AddIssuerSerialAndCertificate | src/templates.rs:146-183 | the tail calls made are exactly the first X509TailIssued of them; returns exactly when the issuer text builds and the certificate node is non-null |
| Templates.PrefixStep | src/templates.rs:114-132 | making the next wanted call extends the prefix by one |
| Templates.PrefixJoin | src/templates.rs:114-183 | a prefix of the tail after the head is a prefix of the whole sequence |
| XmlSec.FromCode | src/xmlsec.rs:87-148 | decodes to NoError exactly for code 0 |
| XmlSec.Code | src/xmlsec.rs:90-144 | the decoding table read backwards: every reason except Unknown has one code |
| XmlSec.FromCodeOfCode | src/xmlsec.rs:90-144 | every listed reason's code decodes to that reason |
| XmlSec.CodeOfFromCode | src/xmlsec.rs:90-145 | a code that decodes to a reason other than Unknown is that reason's code |
| XmlSec.UnknownIffUnlisted | src/xmlsec.rs:145 | a code decodes to Unknown exactly when it is not among the listed codes; 20, 24, 29, 30, 80, negatives and codes above 101 are unlisted |
| XmlSec.FromCodeInjective | src/xmlsec.rs:90-144 | distinct listed codes decode to distinct reasons |
| XmlSec.GetMsg | src/xmlsec.rs:173 | a row past the table's end has no message |
| XmlSec.GetCode | src/xmlsec.rs:177 | the code of a row in the table |
| XmlSec.FirstStop | src/xmlsec.rs:171-183 | the search stops at the first row whose message is null or whose code is the reason; every earlier row has a message and another code |
| XmlSec.LookupMessage | src/xmlsec.rs:171-183 | the loop returns the message at the row FirstStop picks |
| XmlSec.LookupFindsFirstRow | src/xmlsec.rs:171-183 | a found message comes from the first row with the reason's code |
| XmlSec.LookupMissesAbsentReason | src/xmlsec.rs:171-183 | a reason no row carries finds no message |
| XmlSec.StrOrDefault | src/xmlsec.rs:207-214 | the default for a null pointer; otherwise the C text, which panics exactly when it is not UTF-8 |
| XmlSec.TeardownReversesInit | src/xmlsec.rs:246-260 | teardown undoes initialisation, call by call, in exactly the reverse order |
| XmlSec.InitIssuedPrefix | src/xmlsec.rs:246-252 | the init calls made are a prefix of xmlsec, crypto-app, crypto; all three are made when every one succeeds |
| XmlSec.InitIssuedStopsAtFailure | src/xmlsec.rs:264-303 | when some init call fails, the calls stop right after the first failing one |
| XmlSec.VersionTooOldIffMajorZero | src/xmlsec.rs:221-224 | the corrected guard rejects exactly the OpenSSL releases whose major version is 0 |
| XmlSec.VersionGuardNeverFiresOnOpenSslText | src/xmlsec.rs:221-224 | the guard as written never fires on a version text that starts with `O` |
| XmlSec.VersionGuardMissesOpenSsl098 | src/xmlsec.rs:221-224 | OpenSSL 0.9.8 is too old, yet the guard as written lets it through |
| XmlSec.Runtime.constructor | src/xmlsec.rs:15-22 | at process start there is no context, the lock is not poisoned, the slot is 0 and no calls have been made |
| XmlSec.Runtime.LastError | src/xmlsec.rs:151-155 | the decoded slot; NoError exactly when the slot is 0 |
| XmlSec.Runtime.ClearLastError | src/xmlsec.rs:158-160 | the slot is 0 afterwards, so last_error is NoError |
| XmlSec.Runtime.ErrorCallback | src/xmlsec.rs:162-185 | the slot holds the reason, so last_error decodes it; the message is the one the lookup finds |
| XmlSec.Runtime.GuaranteeInit | src/xmlsec.rs:216-233 | a poisoned lock panics with no calls; an OpenSSL whose version number is below 1.0.0 panics and poisons the lock (the corrected guard `XmlSec.VersionTooOld`, see Findings); an existing context is not re-created, and only the callback is registered; otherwise the init calls run up to the first failure (a panic that poisons the lock), and on success the context exists and the callback is registered |
| XmlSec.Runtime.DropContext | src/xmlsec.rs:255-260 | the three shutdown calls, in reverse order of initialisation, and the context is gone |
| XmlSec.InitTwice | src/xmlsec.rs:226-228 | after a successful initialisation a second call initialises nothing again and only registers the callback |

## Left out

- build.rs, bindings.rs, src/nodeset.rs and src/lib.rs are not part of this model. They are build plumbing, a C node-set selection with a null check in its constructor, and module wiring.
- Canonicalisation, digesting, signing, ciphering, base64 encoding, X.509 parsing and DOM mutation happen in C. Their effects are inputs: return codes, created pointers, result buffers, the DSig status and the key a keys manager stores in an empty context slot. The name such a key carries is not tracked. The DOM changes made by template calls are recorded as the sequence of calls, not applied to a tree.
- The `log` record that `error_callback` builds (src/xmlsec.rs:187-204) is left out. Only the message lookup and the slot write are modelled.
- The `Mutex` and `thread_local` mechanics are left out. The global context, its poisoned flag and the last-error slot are single-threaded fields of `XmlSec.Runtime`.
- Raw-pointer memory safety is left out. This covers the dangling password pointer (src/keys.rs:83, 115), the `into_raw` string leaks in templates, and the missing `Drop` on `XmlSecTransformCtx`.
- The `TemplateBuilder` trait (src/templates.rs:24-57) has no implementation. `SignatureNode::keyname` (src/templates.rs:409-439) does nothing. Neither is modelled.
- `as_ptr`, `into_ptr` and `signature_method_name` hand out raw pointers or C names. They are not modelled.
- The constructors' own `guarantee_xmlsec_init` calls are not threaded into the contexts, keys and templates. `XmlSec.Runtime.GuaranteeInit` models that call by itself.
- The lazily created global context is never dropped in the program. `XmlSec.Runtime.DropContext` states what its Drop would do.
- Templates.EntryString: an entry's short name and UTF-8 value are given as options, not computed from an ASN.1 object. The issuer text follows the source's `short_name=value` joined by `,`, not the escaping of RFC 4514.
- Templates.X509AddNode: the `to_bn`, `to_dec_str` and `to_der` unwraps are taken never to fail. The serial is an integer and the DER bytes are given.
- XmlSec.StrOrDefault: whether the bytes behind the pointer are UTF-8 is an input flag, since the model has no byte decoding.
- Keys.KeyHeap.GetName: requires that the key has a name. It does not model a null name from xmlSecKeyGetName, or a name that is not UTF-8, which would panic.
- Keys.KeyHeap.Clone: a null duplicate is wrapped unchecked, as in the source; its later Drop then destroys nothing.
- Transforms.TransformCtx.Append: `chain` is the list of transforms the wrapper appended. Adapter transforms that the C connect step may insert between steps of mismatched data types are not modelled.
- DSig.SignatureContext.SignatureMethod: the source reads the id through the `signMethod` transform pointer without a null check (src/xmldsig.rs:175), so a context that has not signed or verified yet dereferences null. The model reports that case as a crash, not as undefined behaviour.
- XmlSec.Runtime.GuaranteeInit: the version check follows the corrected guard `XmlSec.VersionTooOld`. As written (src/xmlsec.rs:221-224) it compares the first character of the version text with 1 and never fires; `XmlSec.VersionGuardAsWritten` models that form (see Findings).
- Certificate time checks are left out. `DSig.SignatureContext.SetVerificationTime` only stores the value.

## Findings

| source | as written | input that shows it | evidently intended | confidence | as-written member | corrected member |
|---|---|---|---|---|---|---|
| src/xmlsec.rs:221-224 | the guard dereferences `OpenSSL_version(0)`, the version text, and compares its first `c_char` with 1 | OpenSSL 0.9.8: version number 0x0090_80FF, text "OpenSSL 0.9.8", whose first character `O` is 79, so the guard lets it through | reject an OpenSSL older than 1.0.0, i.e. `OpenSSL_version_num()` below 0x1000_0000 | not executed | XmlSec.VersionGuardAsWritten (shown by XmlSec.VersionGuardMissesOpenSsl098 and XmlSec.VersionGuardNeverFiresOnOpenSslText) | XmlSec.VersionTooOld (proved by XmlSec.VersionTooOldIffMajorZero, used by XmlSec.Runtime.GuaranteeInit) |
