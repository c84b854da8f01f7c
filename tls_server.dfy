/**
 * A TLS server configuration (src/tls_server.c): the net.tls.server object,
 * its construction from a certificate and key, its session settings, and
 * the Server Name Indication hook that lets a Lua callback pick the
 * configuration a connection continues with.
 */
module TlsServer {
  import opened Tls

  const SSL_TLSEXT_ERR_OK: int := 0
  const SSL_TLSEXT_ERR_ALERT_FATAL: int := 2
  const SSL_TLSEXT_ERR_NOACK: int := 3
  const SSL_AD_INTERNAL_ERROR: int := 80

  /** The defaults of new_lua's `sess_timeout` and `sess_cache` arguments. */
  const SESSION_TIMEOUT_DEFAULT: int := 300
  const SESSION_CACHE_DEFAULT: int := 1024 * 20

  // ---------------------------------------------------------------------------
  // Session settings
  // ---------------------------------------------------------------------------

  /** set_session_conf applied to the settings `p`: a server-side cache with
      the given timeout and size, and no session tickets. */
  function ServerSessionPolicy(p: SessionPolicy, timeout: int, cacheSize: int): (r: SessionPolicy)
    // unlike a client, a server keeps resumable sessions whatever its timeout
    ensures Resumable(r)
    ensures r.mode == CacheServer && r.noTicket
    ensures r.timeout == Some(timeout) && r.cacheSize == Some(cacheSize)
    ensures r.numTickets == p.numTickets
  {
    p.(mode := CacheServer, timeout := Some(timeout), cacheSize := Some(cacheSize), noTicket := true)
  }

  // ---------------------------------------------------------------------------
  // Server Name Indication
  // ---------------------------------------------------------------------------

  /** What the Lua callback installed with set_sni_callback does when the
      closure calls it. */
  datatype CallbackResult =
    | CallbackRaised                         // it raised an error
    | CallbackNil                            // it returned nil or nothing
    | CallbackServer(target: ServerConfig)   // it returned a net.tls.server
    | CallbackOther                          // it returned any other value

  /** What sni_callback_closure, run under lua_pcall, gives back: the
      callback's nil or server, or a failure, which is also what a value of
      any other type becomes when it is checked as a server. */
  datatype ClosureOutcome = ClosureFailed | ClosureNil | ClosureServer(target: ServerConfig)

  function ClosureOf(r: CallbackResult): (c: ClosureOutcome)
    ensures c.ClosureServer? <==> r.CallbackServer?
    ensures c.ClosureServer? ==> c.target == r.target
    ensures c == ClosureNil <==> r == CallbackNil
  {
    match r
    case CallbackRaised => ClosureFailed
    case CallbackNil => ClosureNil
    case CallbackServer(t) => ClosureServer(t)
    case CallbackOther => ClosureFailed
  }

  /** The callback and the extra arguments set_sni_callback bound to it. */
  datatype SniClosure = SniClosure(fn: nat, bound: seq<Value>)

  /** The arguments sni_callback_closure calls the callback with. */
  function ClosureArgs(c: SniClosure, name: string): (args: seq<Value>)
    // the bound arguments first, in order, the requested host name last
    ensures |args| == |c.bound| + 1
    ensures args[..|c.bound|] == c.bound && args[|c.bound|] == Str(name)
  {
    c.bound + [Str(name)]
  }

  /** The decision of sni_callback: its return code, the alert it sets, and
      the configuration the connection is switched to. */
  datatype SniVerdict = SniVerdict(rc: int, alert: Option<int>, switchTo: Option<ServerConfig>)

  /** The client sent a host name rather than no name or an address. */
  predicate AsksForName(name: Option<string>, ipv4: string -> bool, ipv6: string -> bool) {
    name.Some? && !ipv4(name.value) && !ipv6(name.value)
  }

  /** sni_callback's decision, given what the closure gives back when it is
      called. */
  function SniDecision(name: Option<string>, ipv4: string -> bool, ipv6: string -> bool,
                       outcome: ClosureOutcome): (v: SniVerdict)
    ensures v.rc in {SSL_TLSEXT_ERR_OK, SSL_TLSEXT_ERR_ALERT_FATAL, SSL_TLSEXT_ERR_NOACK}
    // no name or an address: not acknowledged, whatever the callback would do
    ensures !AsksForName(name, ipv4, ipv6) ==> v == SniVerdict(SSL_TLSEXT_ERR_NOACK, None, None)
    // a failing callback aborts the handshake with an internal-error alert
    ensures v.rc == SSL_TLSEXT_ERR_ALERT_FATAL <==> AsksForName(name, ipv4, ipv6) && outcome == ClosureFailed
    ensures v.rc == SSL_TLSEXT_ERR_ALERT_FATAL ==> v.alert == Some(SSL_AD_INTERNAL_ERROR)
    // the connection changes configuration exactly when the answer is OK
    ensures v.switchTo.Some? <==> v.rc == SSL_TLSEXT_ERR_OK
    ensures v.rc == SSL_TLSEXT_ERR_OK <==> AsksForName(name, ipv4, ipv6) && outcome.ClosureServer?
    ensures v.switchTo.Some? ==> v.switchTo.value == outcome.target
    ensures v.alert.Some? ==> v.rc == SSL_TLSEXT_ERR_ALERT_FATAL
  {
    if !AsksForName(name, ipv4, ipv6) then SniVerdict(SSL_TLSEXT_ERR_NOACK, None, None)
    else
      match outcome
      case ClosureFailed => SniVerdict(SSL_TLSEXT_ERR_ALERT_FATAL, Some(SSL_AD_INTERNAL_ERROR), None)
      case ClosureNil => SniVerdict(SSL_TLSEXT_ERR_NOACK, None, None)
      case ClosureServer(t) => SniVerdict(SSL_TLSEXT_ERR_OK, None, Some(t))
  }

  /** What set_sni_callback is given as its argument. */
  datatype SniArg = SniFunction(fn: nat, bound: seq<Value>) | SniNil | SniOther(typeName: string)

  // ---------------------------------------------------------------------------
  // The configuration object
  // ---------------------------------------------------------------------------

  /** What the provider reports to the fallible steps of new_lua. */
  datatype ServerProvider = ServerProvider(
    ctxNewOk: bool,        // SSL_CTX_new
    certificateOk: bool,   // SSL_CTX_use_certificate_file
    privateKeyOk: bool,    // SSL_CTX_use_PrivateKey_file
    minVersionOk: bool,    // SSL_CTX_set_min_proto_version
    maxVersionOk: bool,    // SSL_CTX_set_max_proto_version
    cipherListOk: bool,    // SSL_CTX_set_cipher_list
    dhAutoOk: bool)        // SSL_CTX_set_dh_auto

  /** The failing steps of new_lua, in order. */
  const SERVER_NEW_STEPS: seq<Step> := [
    Step("SSL_CTX_new", "failed to create SSL_CTX"),
    Step("SSL_CTX_use_certificate_file", "failed to load certificate file"),
    Step("SSL_CTX_use_PrivateKey_file", "failed to load private key file"),
    Step("tls_set_protocol_vers", "failed to set protocol version"),
    Step("tls_set_cipher_suite", "failed to set cipher suite"),
    Step("SSL_CTX_set_dh_auto", "failed to set DH parameters based on the cipher suites in use")]

  function ServerNewOks(protocol: int, p: ServerProvider): (oks: seq<bool>)
    ensures |oks| == |SERVER_NEW_STEPS|
  {
    [p.ctxNewOk, p.certificateOk, p.privateKeyOk, SetProtocolVersions(protocol, p.minVersionOk, p.maxVersionOk).ok,
     p.cipherListOk, p.dhAutoOk]
  }

  /** The provider context new_lua configures once every step passed. */
  function NewServerCtx(cert: string, key: string, protocol: int, cipher: int, timeout: int, cacheSize: int)
    : (ctx: SslCtx)
    ensures ctx.certificateFile == Some(cert) && ctx.privateKeyFile == Some(key)
    ensures ctx.versions == ProtocolRange(protocol) && ctx.ciphers == Some(CipherList(cipher))
    ensures ctx.dhAuto && ctx.serverPreference
    ensures ctx.session == ServerSessionPolicy(PROVIDER_DEFAULT_SESSION, timeout, cacheSize)
    // no SNI hook until set_sni_callback installs one; the provider's default modes
    ensures !ctx.sniCallback && ctx.autoRetry && !ctx.partialWrite && !ctx.movingWriteBuffer
    ensures !ctx.ocspStapling && !ctx.defaultVerifyPaths && ctx.crls == []
  {
    FRESH_CTX.(certificateFile := Some(cert), privateKeyFile := Some(key),
               versions := ProtocolRange(protocol), ciphers := Some(CipherList(cipher)), dhAuto := true,
               session := ServerSessionPolicy(PROVIDER_DEFAULT_SESSION, timeout, cacheSize),
               serverPreference := true)
  }

  /** A net.tls.server object (tls_server_t): its provider context and the
      reference to the SNI closure. */
  class ServerConfig {
    var ctx: SslCtx
    var ctxFreed: bool
    var sniClosure: Option<SniClosure>
    var sniRef: Ref?

    /** The hook is installed exactly while a closure is referenced. */
    ghost predicate Valid()
      reads this, sniRef
    {
      !ctxFreed &&
      (sniClosure.Some? <==> sniRef != null) &&
      (ctx.sniCallback <==> sniRef != null) &&
      (sniRef != null ==> sniRef.live)
    }

    /** A fresh SSL_CTX from TLS_server_method() and no SNI closure. */
    constructor ()
      ensures ctx == FRESH_CTX && !ctxFreed && sniClosure == None && sniRef == null
    {
      ctx, ctxFreed := FRESH_CTX, false;
      sniClosure, sniRef := None, null;
    }

    /** set_session_conf */
    method SetSessionConf(timeout: int, cacheSize: int)
      requires !ctxFreed
      modifies this
      ensures ctx == old(ctx).(session := ServerSessionPolicy(old(ctx).session, timeout, cacheSize))
      ensures ctxFreed == old(ctxFreed) && sniClosure == old(sniClosure) && sniRef == old(sniRef)
    {
      var p := ctx.session;
      p := p.(timeout := Some(timeout));
      p := p.(mode := CacheServer);
      p := p.(cacheSize := Some(cacheSize));
      p := p.(noTicket := true);
      ctx := ctx.(session := p);
    }

    /** set_sni_callback_lua: installs a callback with its bound arguments,
        or with nil removes it; the previous reference is released before
        the new one is taken. Any other argument raises an argument error,
        returned here as its message, and changes nothing. */
    method SetSniCallback(arg: SniArg) returns (raised: Option<string>)
      requires Valid()
      modifies this, sniRef
      ensures Valid()
      ensures arg.SniOther? <==> raised.Some?
      ensures arg.SniOther? ==>
                raised == Some("function or nil expected, got " + arg.typeName) &&
                ctx == old(ctx) && sniClosure == old(sniClosure) && sniRef == old(sniRef) &&
                (sniRef != null ==> sniRef.live)
      ensures !arg.SniOther? ==> old(sniRef) != null ==> !old(sniRef).live
      ensures arg.SniFunction? ==>
                sniClosure == Some(SniClosure(arg.fn, arg.bound)) && fresh(sniRef) &&
                ctx == old(ctx).(sniCallback := true)
      ensures arg == SniNil ==> sniClosure == None && sniRef == null && ctx == old(ctx).(sniCallback := false)
      ensures ctxFreed == old(ctxFreed)
    {
      match arg
      case SniFunction(fn, bound) =>
        if sniRef != null {
          sniRef.Release();
        }
        sniClosure := Some(SniClosure(fn, bound));
        sniRef := new Ref();
        ctx := ctx.(sniCallback := true);
        return None;
      case SniNil =>
        ctx := ctx.(sniCallback := false);
        if sniRef != null {
          sniRef.Release();
        }
        sniClosure, sniRef := None, null;
        return None;
      case SniOther(t) =>
        return Some("function or nil expected, got " + t);
    }

    /** sni_callback for a connection `ssl` that sent `name`: calls the
        closure only for a host name, and on a server answer switches the
        connection to that server's context. The ghost `args` is what the
        callback was called with, if it was. */
    method ServerName(ssl: Session, name: Option<string>, ipv4: string -> bool, ipv6: string -> bool,
                      result: CallbackResult)
      returns (rc: int, alert: Option<int>, ghost args: Option<seq<Value>>)
      requires Valid() && sniClosure.Some?
      modifies ssl
      ensures var v := SniDecision(name, ipv4, ipv6, ClosureOf(result));
              rc == v.rc && alert == v.alert &&
              ssl.owner == (if v.switchTo.Some? then v.switchTo.value else old(ssl.owner))
      ensures args.Some? <==> AsksForName(name, ipv4, ipv6)
      ensures args.Some? ==> args.value == ClosureArgs(sniClosure.value, name.value)
      // only the session's context changes
      ensures ssl.freed == old(ssl.freed) && ssl.fd == old(ssl.fd) && ssl.verify == old(ssl.verify) &&
              ssl.sniName == old(ssl.sniName) && ssl.verifyHost == old(ssl.verifyHost)
    {
      if name.None? || ipv4(name.value) || ipv6(name.value) {
        return SSL_TLSEXT_ERR_NOACK, None, None;
      }
      args := Some(ClosureArgs(sniClosure.value, name.value));
      var outcome := ClosureOf(result);
      if outcome == ClosureFailed {
        return SSL_TLSEXT_ERR_ALERT_FATAL, Some(SSL_AD_INTERNAL_ERROR), args;
      }
      if outcome == ClosureNil {
        return SSL_TLSEXT_ERR_NOACK, None, args;
      }
      ssl.owner := outcome.target;
      return SSL_TLSEXT_ERR_OK, None, args;
    }

    /** gc_lua: removes the SNI hook and releases the closure before freeing
        the context. */
    method Collect()
      requires Valid()
      modifies this, sniRef
      ensures ctxFreed && ctx == old(ctx).(sniCallback := false)
      ensures sniClosure == None && sniRef == null
      ensures old(sniRef) != null ==> !old(sniRef).live
    {
      ctx := ctx.(sniCallback := false);
      if sniRef != null {
        sniRef.Release();
      }
      sniClosure, sniRef := None, null;
      ctxFreed := true;
    }
  }

  /** new_lua: builds a server configuration; the first failing step frees
      the context and reports its error, folding in `recorded`, the errors
      that step's provider call records. */
  method NewServer(cert: string, key: string, protocol: int, cipher: int, timeout: Option<int>,
                   cacheSize: Option<int>, p: ServerProvider, recorded: seq<ErrorEntry>, q: ErrorQueue)
    returns (s: ServerConfig?, err: Option<Error>)
    modifies q
    ensures s == null <==> err.Some?
    ensures var k := FirstFailing(ServerNewOks(protocol, p));
            k < |SERVER_NEW_STEPS| ==>
              s == null && q.pending == [] &&
              err == Some(Aggregated(old(q.pending) + recorded, SERVER_NEW_STEPS[k].op, SERVER_NEW_STEPS[k].msg))
    ensures FirstFailing(ServerNewOks(protocol, p)) == |SERVER_NEW_STEPS| ==>
              s != null && fresh(s) && s.Valid() && q.pending == old(q.pending) &&
              s.ctx == NewServerCtx(cert, key, protocol, cipher, OrDefault(timeout, SESSION_TIMEOUT_DEFAULT),
                                    OrDefault(cacheSize, SESSION_CACHE_DEFAULT))
  {
    var cfg := new ServerConfig();
    var k := 0;  // the step that failed, |SERVER_NEW_STEPS| when none did
    if p.ctxNewOk {
      k := 1;
      if p.certificateOk {
        k := 2;
        if p.privateKeyOk {
          k := 3;
          if SetProtocolVersions(protocol, p.minVersionOk, p.maxVersionOk).ok {
            k := 4;
            if p.cipherListOk {
              k := 5;
              if p.dhAutoOk {
                k := 6;
              }
            }
          }
        }
      }
    }
    FirstFailingAt(ServerNewOks(protocol, p), k);
    if k < |SERVER_NEW_STEPS| {
      cfg.ctxFreed := true;
      q.Record(recorded);
      var e, _ := q.PushError(SERVER_NEW_STEPS[k].op, SERVER_NEW_STEPS[k].msg);
      return null, Some(e);
    }
    cfg.ctx := cfg.ctx.(certificateFile := Some(cert), privateKeyFile := Some(key),
                        versions := ProtocolRange(protocol), ciphers := Some(CipherList(cipher)), dhAuto := true);
    cfg.SetSessionConf(OrDefault(timeout, SESSION_TIMEOUT_DEFAULT), OrDefault(cacheSize, SESSION_CACHE_DEFAULT));
    cfg.ctx := cfg.ctx.(serverPreference := true);
    return cfg, None;
  }
}
