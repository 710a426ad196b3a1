/** XmlSecKeysMngr: a keys manager whose trust store the wrapper fills with certificates. */
module KeysMngr {
  import opened Errors
  import opened Ffi
  import Keys

  /** The arguments of xmlSecOpenSSLAppKeysMngrCertLoadMemory. */
  datatype MngrCertLoad = MngrCertLoad(mngr: Handle, data: seq<byte>, size: nat, format: int, dataType: Keys.KeyDataType)

  class KeysMngr {
    const ptr: Handle
    /** The certificates the backend accepted into the trust store, in load order. */
    var trusted: seq<seq<byte>>
    ghost var alive: bool

    ghost predicate Valid()
      reads this
    {
      ptr != Null && alive
    }

    constructor FromHandle(p: Handle)
      requires p != Null
      ensures ptr == p && trusted == [] && alive
      ensures Valid()
    {
      ptr := p;
      trusted := [];
      alive := true;
    }

    /** new: xmlSecKeysMngrCreate, whose answer is `created`; a null manager is a panic. */
    static method New(created: Handle) returns (o: Outcome<KeysMngr>)
      ensures o.Panicked? <==> created == Null
      ensures o.Returned? ==> fresh(o.value) && o.value.Valid() && o.value.ptr == created && o.value.trusted == []
    {
      if created == Null {
        return Panicked;
      }
      var m := new KeysMngr.FromHandle(created);
      return Returned(m);
    }

    /** The call cert_load_from_memory makes: the full buffer and its length, the format's constant, always the Trusted flag. */
    function CertLoadCall(data: seq<byte>, format: Keys.KeyFormat): (c: MngrCertLoad)
      ensures c.mngr == ptr && c.data == data && c.size == |data|
      ensures Keys.FormatOfRaw(c.format) == Some(format)
      ensures c.dataType == Keys.DataTypeTrusted
    {
      Keys.IntoRawRoundTrip(format);
      MngrCertLoad(ptr, data, |data|, Keys.IntoRaw(format), Keys.DataTypeTrusted)
    }

    /**
     * cert_load_from_memory: Ok exactly when the backend returns 0 (`load` gives its answer for the call),
     * and then the certificate joins the trust store; any other code is a certificate error.
     */
    method CertLoadFromMemory(data: seq<byte>, format: Keys.KeyFormat, load: MngrCertLoad -> int) returns (r: Result<()>)
      requires Valid()
      modifies this`trusted
      ensures Valid()
      ensures r == Keys.CertLoadResult(load(CertLoadCall(data, format)))
      ensures trusted == if r.Ok? then old(trusted) + [data] else old(trusted)
    {
      var rc := load(CertLoadCall(data, format));
      if rc == 0 {
        trusted := trusted + [data];
        return Ok(());
      }
      return Err(CertLoadError);
    }

    /** Drop: xmlSecKeysMngrDestroy. */
    method Drop()
      requires Valid()
      modifies this`alive
      ensures !alive
    {
      alive := false;
    }
  }
}
