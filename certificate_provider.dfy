/** Providers of an application key pair and certificate, each of which may
    hand over to a fallback provider when its own loading fails. */
module CertificateProviders {
  import opened Lang

  /** Key pairs and X.509 certificates are opaque: only their identity matters. */
  datatype KeyPair = KeyPair(id: nat)
  datatype Certificate = Certificate(id: nat)

  /** What a subclass's `loadInternal` does: nothing (the direct provider),
      store a pair through `setKeyPairAndCertificate`, or throw a
      GeneralSecurityException. */
  datatype LoadBehaviour =
    | NoOp
    | Stores(offeredKeyPair: Option<KeyPair>, offeredCertificate: Option<Certificate>)
    | Fails(code: nat)

  /** `setKeyPairAndCertificate` on the old fields `(kp0, cert0)`: a null
      key pair assigns nothing; a null certificate is found only after the key
      pair was assigned. Yields the new fields and the outcome. */
  function Assign(kp0: Option<KeyPair>, cert0: Option<Certificate>, kp: Option<KeyPair>, cert: Option<Certificate>)
    : (r: (Option<KeyPair>, Option<Certificate>, Outcome))
    ensures r.2.Pass? <==> kp.Some? && cert.Some?
    ensures r.2.Fail? ==> r.2.error == NullPointerException
    ensures kp.None? ==> r.0 == kp0 && r.1 == cert0
    ensures kp.Some? ==> r.0 == kp
    ensures r.1 == (if r.2.Pass? then cert else cert0)
  {
    if kp.None? then (kp0, cert0, Fail(NullPointerException))
    else if cert.None? then (kp, cert0, Fail(NullPointerException))
    else (kp, cert, Pass)
  }

  /** The state of one provider of a chain, as a value; `handled` counts the
      calls of `handleFallbackSuccessful`. */
  datatype Node = Node(behaviour: LoadBehaviour, keyPair: Option<KeyPair>, certificate: Option<Certificate>,
                       loaded: bool, handled: nat)

  /** `load()` on the first provider of `chain`, each provider's fallback being
      the next one: the new states of the whole chain and the outcome. */
  function ChainLoad(chain: seq<Node>): (r: (seq<Node>, Outcome))
    requires |chain| >= 1
    ensures |r.0| == |chain|
    ensures forall i :: 0 <= i < |chain| ==> r.0[i].behaviour == chain[i].behaviour
    ensures forall i :: 0 <= i < |chain| ==> chain[i].loaded ==> r.0[i].loaded
    ensures r.1.Pass? ==> r.0[0].loaded
    ensures r.1.Fail? ==> r.0[0].loaded == chain[0].loaded
    decreases |chain|
  {
    var n := chain[0];
    match n.behaviour
    case NoOp => ([n.(loaded := true)] + chain[1..], Pass)
    case Stores(kp, cert) =>
      var (k, c, a) := Assign(n.keyPair, n.certificate, kp, cert);
      ([n.(keyPair := k, certificate := c, loaded := n.loaded || a.Pass?)] + chain[1..], a)
    case Fails(code) =>
      if |chain| == 1 then (chain, Fail(GeneralSecurityException(code)))
      else
        var (rest, fo) := ChainLoad(chain[1..]);
        if fo.Fail? then ([n] + rest, fo)
        else
          var (k, c, a) := Assign(n.keyPair, n.certificate, rest[0].keyPair, rest[0].certificate);
          ([n.(keyPair := k, certificate := c, loaded := n.loaded || a.Pass?,
               handled := n.handled + if a.Pass? then 1 else 0)] + rest, a)
  }

  /** When `loadInternal` does not throw a GeneralSecurityException the
      fallbacks are not touched. A direct provider always loads, with the
      pair it holds; a storing one has the outcome of `setKeyPairAndCertificate`
      and becomes loaded exactly when that passes. */
  lemma OwnLoadLeavesFallbacks(chain: seq<Node>)
    requires |chain| >= 1 && !chain[0].behaviour.Fails?
    ensures ChainLoad(chain).0[1..] == chain[1..]
    ensures ChainLoad(chain).0[0].handled == chain[0].handled
    ensures chain[0].behaviour.NoOp? ==>
      ChainLoad(chain).1 == Pass && ChainLoad(chain).0[0] == chain[0].(loaded := true)
    ensures chain[0].behaviour.Stores? ==>
      var n := chain[0];
      var (k, c, a) := Assign(n.keyPair, n.certificate, n.behaviour.offeredKeyPair, n.behaviour.offeredCertificate);
      && ChainLoad(chain).1 == a
      && ChainLoad(chain).0[0] == n.(keyPair := k, certificate := c, loaded := n.loaded || a.Pass?)
      && (a.Pass? ==> ChainLoad(chain).0[0].loaded)
      && (a.Fail? ==> ChainLoad(chain).0[0].loaded == n.loaded)
  {
  }

  /** When `loadInternal` throws and the fallback loads, this provider takes
      over the fallback's pair, calls the hook once and is loaded; when the
      fallback fails, its error propagates and this provider is unchanged. */
  lemma {:induction false} FallbackTakesOver(chain: seq<Node>)
    requires |chain| >= 2 && chain[0].behaviour.Fails?
    ensures var (after, o) := ChainLoad(chain);
      var (rest, fo) := ChainLoad(chain[1..]);
      after[1..] == rest
      && (fo.Fail? ==> o == fo && after[0] == chain[0])
      && (fo.Pass? && after[1].keyPair.Some? && after[1].certificate.Some? ==>
            o == Pass && after[0].keyPair == after[1].keyPair && after[0].certificate == after[1].certificate
            && after[0].loaded && after[0].handled == chain[0].handled + 1)
  {
    var (rest, fo) := ChainLoad(chain[1..]);
    assert ChainLoad(chain).0 == if fo.Fail? then [chain[0]] + rest
      else [ChainLoad(chain).0[0]] + rest;
  }

  /** A chain in which every `loadInternal` throws fails with the last
      provider's exception and changes nothing. */
  lemma {:induction false} AllFailing(chain: seq<Node>)
    requires |chain| >= 1
    requires forall i :: 0 <= i < |chain| ==> chain[i].behaviour.Fails?
    ensures ChainLoad(chain) == (chain, Fail(GeneralSecurityException(chain[|chain| - 1].behaviour.code)))
    decreases |chain|
  {
    if |chain| > 1 {
      assert forall i :: 0 <= i < |chain[1..]| ==> chain[1..][i] == chain[i + 1];
      AllFailing(chain[1..]);
      assert [chain[0]] + chain[1..] == chain;
    }
  }

  /** A chain of throwing providers that ends in a direct provider holding a
      complete pair always loads, and every provider in it ends up loaded with
      that pair. */
  lemma {:induction false} DirectEndLoads(chain: seq<Node>)
    requires |chain| >= 1
    requires forall i :: 0 <= i < |chain| - 1 ==> chain[i].behaviour.Fails?
    requires chain[|chain| - 1].behaviour == NoOp
    requires chain[|chain| - 1].keyPair.Some? && chain[|chain| - 1].certificate.Some?
    ensures ChainLoad(chain).1 == Pass
    ensures forall i :: 0 <= i < |chain| ==> ChainLoad(chain).0[i].loaded
    ensures forall i :: 0 <= i < |chain| ==>
      ChainLoad(chain).0[i].keyPair == chain[|chain| - 1].keyPair
      && ChainLoad(chain).0[i].certificate == chain[|chain| - 1].certificate
    decreases |chain|
  {
    if |chain| > 1 {
      var tail := chain[1..];
      assert forall i :: 0 <= i < |tail| ==> tail[i] == chain[i + 1];
      DirectEndLoads(tail);
      var (rest, fo) := ChainLoad(tail);
      assert ChainLoad(chain).0 == [ChainLoad(chain).0[0]] + rest;
      assert forall i :: 1 <= i < |chain| ==> ChainLoad(chain).0[i] == rest[i - 1];
    }
  }

  /** `CertificateProvider`; `behaviour` stands for the subclass's
      `loadInternal`. The fallback chain is acyclic: `Repr` holds this provider
      and every provider after it. */
  class CertificateProvider {
    const behaviour: LoadBehaviour
    var keyPair: Option<KeyPair>
    var certificate: Option<Certificate>
    var fallback: CertificateProvider?
    var loaded: bool
    ghost var handled: nat
    ghost var Repr: set<object>

    ghost predicate Valid()
      reads this, Repr
      decreases Repr
    {
      this in Repr
      && (fallback != null ==>
            fallback in Repr && fallback.Repr <= Repr && this !in fallback.Repr && fallback.Valid())
    }

    /** The states of this provider and of its fallbacks, in chain order. */
    ghost function Snapshot(): (s: seq<Node>)
      requires Valid()
      reads this, Repr
      ensures |s| >= 1 && s[0] == Node(behaviour, keyPair, certificate, loaded, handled)
      ensures fallback == null ==> |s| == 1
      decreases Repr
    {
      [Node(behaviour, keyPair, certificate, loaded, handled)]
        + (if fallback == null then [] else fallback.Snapshot())
    }

    /** A provider with no pair, no fallback, not loaded. */
    constructor (behaviour: LoadBehaviour)
      ensures Valid() && fresh(Repr)
      ensures this.behaviour == behaviour && fallback == null
      ensures keyPair == None && certificate == None && !loaded && handled == 0
    {
      this.behaviour := behaviour;
      keyPair, certificate, fallback, loaded := None, None, null, false;
      handled := 0;
      Repr := {this};
    }

    /** The `DirectCertificateProvider` constructor on non-null arguments. */
    constructor Direct(kp: KeyPair, cert: Certificate)
      ensures Valid() && fresh(Repr)
      ensures behaviour == NoOp && fallback == null
      ensures keyPair == Some(kp) && certificate == Some(cert) && !loaded && handled == 0
    {
      behaviour := NoOp;
      keyPair, certificate, fallback, loaded := Some(kp), Some(cert), null, false;
      handled := 0;
      Repr := {this};
    }

    /** `getCertificate()`. */
    function GetCertificate(): (r: Result<Option<Certificate>>)
      reads this
      ensures r.Err? <==> !loaded
      ensures r.Err? ==> r.error == IllegalStateException
      ensures r.Ok? ==> r.value == certificate
    {
      if !loaded then Err(IllegalStateException) else Ok(certificate)
    }

    /** `getKeyPair()`. */
    function GetKeyPair(): (r: Result<Option<KeyPair>>)
      reads this
      ensures r.Err? <==> !loaded
      ensures r.Err? ==> r.error == IllegalStateException
      ensures r.Ok? ==> r.value == keyPair
    {
      if !loaded then Err(IllegalStateException) else Ok(keyPair)
    }

    /** `setFallback(f)`; the chain must stay acyclic. */
    method SetFallback(f: CertificateProvider?)
      requires Valid()
      requires f != null ==> f.Valid() && this !in f.Repr
      modifies this
      ensures Valid()
      ensures fallback == f && Repr == {this} + (if f == null then {} else f.Repr)
      ensures keyPair == old(keyPair) && certificate == old(certificate)
      ensures loaded == old(loaded) && handled == old(handled)
    {
      fallback := f;
      Repr := {this} + (if f == null then {} else f.Repr);
    }

    /** `setKeyPairAndCertificate(kp, cert)`. */
    method SetKeyPairAndCertificate(kp: Option<KeyPair>, cert: Option<Certificate>) returns (o: Outcome)
      modifies this
      ensures (keyPair, certificate, o) == Assign(old(keyPair), old(certificate), kp, cert)
      ensures loaded == old(loaded) && handled == old(handled)
      ensures fallback == old(fallback) && Repr == old(Repr)
    {
      if kp.None? {
        return Fail(NullPointerException);
      }
      keyPair := kp;
      if cert.None? {
        return Fail(NullPointerException);
      }
      certificate := cert;
      return Pass;
    }

    /** `load()`: the fallback is loaded only when `loadInternal` throws a
        GeneralSecurityException. */
    method Load() returns (o: Outcome)
      requires Valid()
      modifies Repr
      ensures Valid() && Repr == old(Repr) && fallback == old(fallback)
      ensures (Snapshot(), o) == ChainLoad(old(Snapshot()))
      decreases Repr, 1
    {
      match behaviour
      case NoOp =>
        loaded := true;
        o := Pass;
      case Stores(kp, cert) =>
        o := SetKeyPairAndCertificate(kp, cert);
        if o.Pass? {
          loaded := true;
        }
      case Fails(code) =>
        o := LoadFallback(code);
    }

    /** The `catch` branch of `load()`: `loadInternal` threw `code`. */
    method LoadFallback(code: nat) returns (o: Outcome)
      requires Valid() && behaviour == Fails(code)
      modifies Repr
      ensures Valid() && Repr == old(Repr) && fallback == old(fallback)
      ensures (Snapshot(), o) == ChainLoad(old(Snapshot()))
      decreases Repr, 0
    {
      if fallback == null {
        return Fail(GeneralSecurityException(code));
      }
      ghost var before := Snapshot();
      ghost var restBefore := fallback.Snapshot();
      assert before == [before[0]] + restBefore;
      var fo := fallback.Load();
      if fo.Fail? {
        return fo;
      }
      var kp := fallback.GetKeyPair();
      var cert := fallback.GetCertificate();
      o := SetKeyPairAndCertificate(kp.value, cert.value);
      if o.Pass? {
        handled := handled + 1;
        loaded := true;
      }
    }
  }

  /** `ofKeyPairAndCertificate(kp, cert)`: a direct provider, or the
      NullPointerException of `setKeyPairAndCertificate`. */
  method OfKeyPairAndCertificate(kp: Option<KeyPair>, cert: Option<Certificate>) returns (r: Result<CertificateProvider>)
    ensures r.Err? <==> kp.None? || cert.None?
    ensures r.Err? ==> r.error == NullPointerException
    ensures r.Ok? ==> fresh(r.value) && fresh(r.value.Repr) && r.value.Valid()
    ensures r.Ok? ==> r.value.behaviour == NoOp && r.value.fallback == null && !r.value.loaded
    ensures r.Ok? ==> r.value.keyPair == kp && r.value.certificate == cert
  {
    if kp.None? || cert.None? {
      return Err(NullPointerException);
    }
    var p := new CertificateProvider.Direct(kp.value, cert.value);
    return Ok(p);
  }

  /** A failing provider falls back to a direct one: afterwards both are
      loaded and hand out the direct provider's pair. */
  method FallbackToDirect() returns (o: Outcome, kp: Result<Option<KeyPair>>, cert: Result<Option<Certificate>>,
                                     before: Result<Option<KeyPair>>)
    ensures before == Err(IllegalStateException)
    ensures o == Pass && kp == Ok(Some(KeyPair(7))) && cert == Ok(Some(Certificate(8)))
  {
    var direct := new CertificateProvider.Direct(KeyPair(7), Certificate(8));
    var primary := new CertificateProvider(Fails(1));
    primary.SetFallback(direct);
    before := primary.GetKeyPair();
    o := primary.Load();
    kp := primary.GetKeyPair();
    cert := primary.GetCertificate();
  }
}
