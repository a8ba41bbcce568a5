/**
 * The delegation web-service handler: validating and generating delegation
 * ids, and the transitions its requests make on the two credential tables of
 * the database, the request cache (key pair and certificate request waiting
 * for a signed proxy) and the credential store (delegated proxies), both keyed
 * by (delegation id, client DN).
 *
 * The cryptography (the SHA-1 digest, proxy-request generation, reading the
 * expiry of a certificate and attaching a private key to it) is foreign: its
 * results are parameters.
 */
module Delegation {
  import opened Wrappers
  import opened Text

  newtype byte = x: int | 0 <= x < 256

  // ---------------------------------------------------------------------------
  // Delegation ids

  /** The characters of the character class [a-zA-Z0-9\.,_]. */
  predicate IsIdChar(c: char) {
    'a' <= c <= 'z' || 'A' <= c <= 'Z' || '0' <= c <= '9' || c == '.' || c == ',' || c == '_'
  }

  /** What regex_match of ^[a-zA-Z0-9\.,_]*$ leaves in what[0]: the whole id on a match, "" otherwise. */
  function WholeMatch(id: string): (m: string)
    ensures m == "" || m == id
    ensures m == id <==> forall i :: 0 <= i < |id| ==> IsIdChar(id[i])
  {
    if forall i :: 0 <= i < |id| ==> IsIdChar(id[i]) then id else ""
  }

  /** checkDelegationId: the match is non-empty. */
  function CheckDelegationId(id: string): (ok: bool)
    ensures ok <==> id != "" && forall i :: 0 <= i < |id| ==> IsIdChar(id[i])
  {
    WholeMatch(id) != ""
  }

  /** The lowercase hexadecimal digit for 0..15, as "%x" prints it. */
  function HexDigit(n: nat): (c: char)
    requires n < 16
    ensures IsIdChar(c)
    ensures ('0' <= c <= '9' && c as int - '0' as int == n) || ('a' <= c <= 'f' && c as int - 'a' as int + 10 == n)
  {
    if n < 10 then ('0' as int + n) as char else ('a' as int + n - 10) as char
  }

  /** The value of a lowercase hexadecimal digit. */
  function HexValue(c: char): (n: nat)
    ensures ('0' <= c <= '9' || 'a' <= c <= 'f') ==> n < 16
  {
    if '0' <= c <= '9' then c as int - '0' as int
    else if 'a' <= c <= 'f' then c as int - 'a' as int + 10
    else 0
  }

  /** One byte as "%02x" prints it. */
  function HexPair(b: byte): (s: string)
    ensures |s| == 2 && IsIdChar(s[0]) && IsIdChar(s[1])
  {
    [HexDigit(b as int / 16), HexDigit(b as int % 16)]
  }

  /** The bytes printed one after the other with "%02x". */
  function HexBytes(bs: seq<byte>): (s: string)
    ensures |s| == 2 * |bs|
    ensures forall i :: 0 <= i < |s| ==> IsIdChar(s[i])
  {
    if bs == [] then "" else HexBytes(bs[..|bs| - 1]) + HexPair(bs[|bs| - 1])
  }

  /** Reading two lowercase hexadecimal digits per byte. */
  function UnhexBytes(s: string): seq<byte>
    requires |s| % 2 == 0
  {
    if s == [] then []
    else
      var v := HexValue(s[|s| - 2]) * 16 + HexValue(s[|s| - 1]);
      UnhexBytes(s[..|s| - 2]) + [if v < 256 then v as byte else 0]
  }

  lemma UnhexPair(b: byte)
    ensures HexValue(HexPair(b)[0]) * 16 + HexValue(HexPair(b)[1]) == b as int
  {
  }

  /** The hex rendering loses nothing: reading it back gives the bytes. */
  lemma {:induction false} UnhexOfHexBytes(bs: seq<byte>)
    ensures UnhexBytes(HexBytes(bs)) == bs
    decreases |bs|
  {
    if bs != [] {
      var init := bs[..|bs| - 1];
      var s := HexBytes(bs);
      assert s == HexBytes(init) + HexPair(bs[|bs| - 1]);
      assert s[..|s| - 2] == HexBytes(init);
      UnhexPair(bs[|bs| - 1]);
      UnhexOfHexBytes(init);
    }
  }

  /** The generated delegation id: the first 8 digest bytes in hexadecimal (16 characters). */
  function HexId(digest: seq<byte>): (id: string)
    requires |digest| >= 8
    ensures |id| == 16
  {
    HexBytes(digest[..8])
  }

  /** A generated id always passes checkDelegationId, and encodes exactly the first 8 digest bytes. */
  lemma GeneratedIdIsValid(digest: seq<byte>)
    requires |digest| >= 8
    ensures CheckDelegationId(HexId(digest))
    ensures UnhexBytes(HexId(digest)) == digest[..8]
  {
    UnhexOfHexBytes(digest[..8]);
  }

  /**
   * makeDelegationId after the digest: the sprintf loop over the first 8
   * bytes of the SHA-1 digest of the DN and the attributes.
   */
  method MakeDelegationId(digest: seq<byte>) returns (id: string)
    requires |digest| >= 8
    ensures id == HexId(digest)
    ensures |id| == 16 && CheckDelegationId(id)
  {
    id := "";
    for i := 0 to 8
      invariant id == HexBytes(digest[..i])
    {
      assert digest[..i + 1][..i] == digest[..i];
      id := id + HexPair(digest[i]);
    }
    assert digest[..8] == digest[..8][..8];
  }

  /** handleDelegationId: "" becomes the generated id, a valid id stays, an invalid one becomes "". */
  function HandleDelegationId(id: string, digest: seq<byte>): (r: string)
    requires |digest| >= 8
    ensures id == "" ==> r == HexId(digest)
    ensures id != "" ==> (r == id <==> CheckDelegationId(id))
    ensures id != "" ==> (r == "" <==> !CheckDelegationId(id))
    ensures r == "" || CheckDelegationId(r)
  {
    if id == "" then HexId(digest)
    else if !CheckDelegationId(id) then ""
    else id
  }

  /** fqansToString: every attribute followed by one space. */
  function FqansToString(attrs: seq<string>): (s: string)
    ensures |s| >= |attrs|
    ensures attrs == [] <==> s == ""
  {
    if attrs == [] then "" else attrs[0] + " " + FqansToString(attrs[1..])
  }

  /** Tokenising the stored attribute string on spaces gives the attributes back. */
  lemma {:induction false} FqansRoundTrip(attrs: seq<string>)
    requires forall i :: 0 <= i < |attrs| ==> attrs[i] != "" && ' ' !in attrs[i]
    ensures Tokens(FqansToString(attrs), ' ') == attrs
    decreases |attrs|
  {
    if attrs == [] {
      TokensOfEmpty(' ');
    } else {
      var a, rest := attrs[0], FqansToString(attrs[1..]);
      assert FqansToString(attrs) == a + [' '] + rest;
      TokensCons(a, ' ', rest);
      FqansRoundTrip(attrs[1..]);
    }
  }

  // ---------------------------------------------------------------------------
  // The credential tables and their transitions

  type Key = (string, string)

  /** A row of the request cache: the certificate request and its private key. */
  datatype CredCache = CredCache(certificateRequest: string, privateKey: string, fqans: string)

  /** A row of the credential store: a delegated proxy and its expiry. */
  datatype Cred = Cred(proxy: string, fqans: string, terminationTime: int)

  datatype Store = Store(cache: map<Key, CredCache>, creds: map<Key, Cred>)

  /** The client as seen by the handler: its DN, VOMS attributes and the SHA-1 digest of both. */
  datatype Client = Client(dn: string, attrs: seq<string>, digest: seq<byte>)

  /** A certificate request and its private key, as GRSTx509CreateProxyRequest produces them. */
  datatype ProxyRequest = ProxyRequest(request: string, key: string)

  /** A request's result: the new tables and the reply or the text of the exception. */
  datatype Outcome<T> = Outcome(store: Store, reply: Result<T, string>)

  const HandleFailed := "'handleDelegationId' failed!"
  const CreateRequestFailed := "'GRSTx509CreateProxyRequest' failed!"
  const TerminationUnknown := "Failed to determine proxy's termination time!"
  const RetrieveFailed := "Failed to retrieve termination time for DN "

  /** Every row of both tables is keyed by a valid delegation id. */
  predicate KeysValid(s: Store) {
    (forall k :: k in s.cache ==> CheckDelegationId(k.0)) &&
    (forall k :: k in s.creds ==> CheckDelegationId(k.0))
  }

  /**
   * getProxyReq and renewProxyReq: the cached request when (id, dn) has one,
   * otherwise a new request (`generated`, None when its generation failed)
   * cached with its key and the client's attributes.
   */
  function RequestOutcome(s: Store, c: Client, delegationId: string, generated: Option<ProxyRequest>): (o: Outcome<string>)
    requires |c.digest| >= 8
    ensures HandleDelegationId(delegationId, c.digest) == "" ==> o == Outcome(s, Err(HandleFailed))
    ensures o.store.creds == s.creds
    ensures o.store.cache.Keys == s.cache.Keys + (if o.reply.Ok? then {(HandleDelegationId(delegationId, c.digest), c.dn)} else {})
    ensures o.reply.Ok? ==> o.store.cache[(HandleDelegationId(delegationId, c.digest), c.dn)].certificateRequest == o.reply.value
    ensures forall k :: k in s.cache ==> o.store.cache[k] == s.cache[k]
    ensures o.reply.Err? ==> o.store == s
    ensures var key := (HandleDelegationId(delegationId, c.digest), c.dn);
      key.0 != "" && key in s.cache ==> o == Outcome(s, Ok(s.cache[key].certificateRequest))
    ensures var key := (HandleDelegationId(delegationId, c.digest), c.dn);
      key.0 != "" && key !in s.cache ==> (o.reply.Ok? <==> generated.Some?)
    ensures var key := (HandleDelegationId(delegationId, c.digest), c.dn);
      key.0 != "" && key !in s.cache && generated.None? ==> o.reply == Err(CreateRequestFailed)
    ensures var key := (HandleDelegationId(delegationId, c.digest), c.dn);
      o.reply.Ok? && key !in s.cache ==>
        o.reply.value == generated.value.request &&
        o.store.cache[key] == CredCache(generated.value.request, generated.value.key, FqansToString(c.attrs))
  {
    var id := HandleDelegationId(delegationId, c.digest);
    if id == "" then Outcome(s, Err(HandleFailed))
    else if (id, c.dn) in s.cache then Outcome(s, Ok(s.cache[(id, c.dn)].certificateRequest))
    else match generated
      case None => Outcome(s, Err(CreateRequestFailed))
      case Some(p) =>
        Outcome(s.(cache := s.cache[(id, c.dn) := CredCache(p.request, p.key, FqansToString(c.attrs))]), Ok(p.request))
  }

  /** getNewProxyReq: as RequestOutcome for the generated id, replying the request and the id. */
  function NewRequestOutcome(s: Store, c: Client, generated: Option<ProxyRequest>): (o: Outcome<(string, string)>)
    requires |c.digest| >= 8
    ensures o.reply.Ok? ==> o.reply.value.1 == HexId(c.digest)
    ensures o.store == RequestOutcome(s, c, "", generated).store
    ensures o.reply.Ok? <==> RequestOutcome(s, c, "", generated).reply.Ok?
    ensures o.reply.Ok? ==> o.reply.value.0 == RequestOutcome(s, c, "", generated).reply.value
    ensures o.reply.Err? ==> o.reply.error == CreateRequestFailed == RequestOutcome(s, c, "", generated).reply.error
  {
    var id := HexId(c.digest);
    if (id, c.dn) in s.cache then Outcome(s, Ok((s.cache[(id, c.dn)].certificateRequest, id)))
    else match generated
      case None => Outcome(s, Err(CreateRequestFailed))
      case Some(p) =>
        Outcome(s.(cache := s.cache[(id, c.dn) := CredCache(p.request, p.key, FqansToString(c.attrs))]), Ok((p.request, id)))
  }

  /**
   * putProxy. `termination` is readTerminationTime (None when the proxy is
   * not a readable certificate) and `addKey` is addKeyToProxyCertificate
   * (Err with its exception text on a key mismatch or a bad chain).
   */
  function PutOutcome(s: Store, c: Client, delegationId: string, proxy: string,
                      termination: string -> Option<int>,
                      addKey: (string, string) -> Result<string, string>): (o: Outcome<()>)
    requires |c.digest| >= 8
    ensures HandleDelegationId(delegationId, c.digest) == "" ==> o == Outcome(s, Err(HandleFailed))
    ensures HandleDelegationId(delegationId, c.digest) != "" && termination(proxy).None? ==>
      o == Outcome(s, Err(TerminationUnknown))
    ensures var key := (HandleDelegationId(delegationId, c.digest), c.dn);
      key.0 != "" && termination(proxy).Some? && key !in s.cache ==> o == Outcome(s, Ok(()))
    ensures var key := (HandleDelegationId(delegationId, c.digest), c.dn);
      key.0 != "" && termination(proxy).Some? && key in s.cache && addKey(proxy, s.cache[key].privateKey).Err? ==>
        o == Outcome(s, Err(addKey(proxy, s.cache[key].privateKey).error))
    ensures o.reply.Err? ==> o.store == s
    ensures var key := (HandleDelegationId(delegationId, c.digest), c.dn);
      o.reply.Err? <==>
        (key.0 == "" || termination(proxy).None? ||
         (key in s.cache && addKey(proxy, s.cache[key].privateKey).Err?))
    ensures var key := (HandleDelegationId(delegationId, c.digest), c.dn);
      o.store != s <==>
        (key.0 != "" && termination(proxy).Some? && key in s.cache && addKey(proxy, s.cache[key].privateKey).Ok? &&
         !(key in s.creds && termination(proxy).value < s.creds[key].terminationTime))
    ensures var key := (HandleDelegationId(delegationId, c.digest), c.dn);
      o.store != s ==>
        o.reply == Ok(()) && o.store.cache == s.cache - {key} &&
        o.store.creds == s.creds[key := Cred(addKey(proxy, s.cache[key].privateKey).value, FqansToString(c.attrs), termination(proxy).value)]
  {
    var id := HandleDelegationId(delegationId, c.digest);
    var key := (id, c.dn);
    if id == "" then Outcome(s, Err(HandleFailed))
    else match termination(proxy)
      case None => Outcome(s, Err(TerminationUnknown))
      case Some(incoming) =>
        if key !in s.cache then Outcome(s, Ok(()))
        else match addKey(proxy, s.cache[key].privateKey)
          case Err(e) => Outcome(s, Err(e))
          case Ok(full) =>
            if key in s.creds && incoming < s.creds[key].terminationTime then Outcome(s, Ok(()))
            else
              Outcome(Store(s.cache - {key}, s.creds[key := Cred(full, FqansToString(c.attrs), incoming)]), Ok(()))
  }

  /** destroy: both rows of (id, dn) are deleted. */
  function DestroyOutcome(s: Store, c: Client, delegationId: string): (o: Outcome<()>)
    requires |c.digest| >= 8
    ensures HandleDelegationId(delegationId, c.digest) == "" ==> o == Outcome(s, Err(HandleFailed))
    ensures HandleDelegationId(delegationId, c.digest) != "" ==> o.reply.Ok?
    ensures o.reply.Ok? ==> (HandleDelegationId(delegationId, c.digest), c.dn) !in o.store.cache
    ensures o.reply.Ok? ==> (HandleDelegationId(delegationId, c.digest), c.dn) !in o.store.creds
    ensures forall k :: k in s.cache && k != (HandleDelegationId(delegationId, c.digest), c.dn) ==> k in o.store.cache && o.store.cache[k] == s.cache[k]
    ensures forall k :: k in s.creds && k != (HandleDelegationId(delegationId, c.digest), c.dn) ==> k in o.store.creds && o.store.creds[k] == s.creds[k]
    ensures o.store.cache.Keys <= s.cache.Keys && o.store.creds.Keys <= s.creds.Keys
  {
    var id := HandleDelegationId(delegationId, c.digest);
    if id == "" then Outcome(s, Err(HandleFailed))
    else Outcome(Store(s.cache - {(id, c.dn)}, s.creds - {(id, c.dn)}), Ok(()))
  }

  /** getTerminationTime: the expiry stored under the generated id, whatever id was asked for. */
  function TerminationTime(s: Store, c: Client, delegationId: string): (r: Result<int, string>)
    requires |c.digest| >= 8
    ensures r.Ok? <==> (HexId(c.digest), c.dn) in s.creds
    ensures r.Ok? ==> r.value == s.creds[(HexId(c.digest), c.dn)].terminationTime
    ensures r.Err? ==> r.error == RetrieveFailed + c.dn
  {
    var key := (HexId(c.digest), c.dn);
    if key in s.creds then Ok(s.creds[key].terminationTime) else Err(RetrieveFailed + c.dn)
  }

  // ---------------------------------------------------------------------------
  // Properties of the transitions

  /** Without a cache row for (id, dn), putProxy changes nothing. */
  lemma PutWithoutRequestChangesNothing(s: Store, c: Client, delegationId: string, proxy: string,
                                        termination: string -> Option<int>,
                                        addKey: (string, string) -> Result<string, string>)
    requires |c.digest| >= 8
    requires (HandleDelegationId(delegationId, c.digest), c.dn) !in s.cache
    ensures PutOutcome(s, c, delegationId, proxy, termination, addKey).store == s
  {
  }

  /**
   * putProxy never shortens a delegated proxy's life: afterwards the row of
   * (id, dn) expires no earlier than before, and when it was replaced the
   * new expiry is the incoming one and the cache row is gone. Rows of other
   * keys are untouched. A readable proxy whose key matches the cached one and
   * whose expiry is not earlier than the stored one always replaces it.
   */
  lemma PutNeverShortensExpiry(s: Store, c: Client, delegationId: string, proxy: string,
                               termination: string -> Option<int>,
                               addKey: (string, string) -> Result<string, string>)
    requires |c.digest| >= 8
    ensures var o := PutOutcome(s, c, delegationId, proxy, termination, addKey);
      forall k :: k in s.creds ==> k in o.store.creds && o.store.creds[k].terminationTime >= s.creds[k].terminationTime
    ensures var o := PutOutcome(s, c, delegationId, proxy, termination, addKey);
      forall k :: k in s.creds && k != (HandleDelegationId(delegationId, c.digest), c.dn) ==> o.store.creds[k] == s.creds[k]
    ensures var o := PutOutcome(s, c, delegationId, proxy, termination, addKey);
      var key := (HandleDelegationId(delegationId, c.digest), c.dn);
      o.store != s ==>
        (termination(proxy).Some? && key in o.store.creds &&
         o.store.creds[key].terminationTime == termination(proxy).value && key !in o.store.cache)
    ensures var o := PutOutcome(s, c, delegationId, proxy, termination, addKey);
      var key := (HandleDelegationId(delegationId, c.digest), c.dn);
      key.0 != "" && termination(proxy).Some? && key in s.cache && addKey(proxy, s.cache[key].privateKey).Ok? &&
      (key !in s.creds || s.creds[key].terminationTime <= termination(proxy).value) ==>
        o.reply == Ok(()) && key !in o.store.cache && key in o.store.creds &&
        o.store.creds[key] == Cred(addKey(proxy, s.cache[key].privateKey).value, FqansToString(c.attrs), termination(proxy).value)
  {
  }

  /**
   * The request-then-put round: after a request created or found the cache
   * row for the generated id, putting a readable proxy whose key matches
   * stores it, and getTerminationTime then reports its expiry.
   */
  lemma RequestThenPutDelegates(s: Store, c: Client, generated: Option<ProxyRequest>, proxy: string,
                                termination: string -> Option<int>,
                                addKey: (string, string) -> Result<string, string>)
    requires |c.digest| >= 8
    requires RequestOutcome(s, c, "", generated).reply.Ok?
    requires termination(proxy).Some?
    requires (HexId(c.digest), c.dn) !in s.creds
    requires forall key :: addKey(proxy, key).Ok?
    ensures var s1 := RequestOutcome(s, c, "", generated).store;
      var s2 := PutOutcome(s1, c, "", proxy, termination, addKey).store;
      TerminationTime(s2, c, "") == Ok(termination(proxy).value) && (HexId(c.digest), c.dn) !in s2.cache
  {
  }

  /** A repeated request is answered from the cache: same request, no change. */
  lemma RequestIsIdempotent(s: Store, c: Client, delegationId: string, g1: Option<ProxyRequest>, g2: Option<ProxyRequest>)
    requires |c.digest| >= 8
    requires RequestOutcome(s, c, delegationId, g1).reply.Ok?
    ensures var o1 := RequestOutcome(s, c, delegationId, g1);
      RequestOutcome(o1.store, c, delegationId, g2) == o1
  {
  }

  /** The request transitions keep all rows keyed by valid delegation ids. */
  lemma RequestsKeepKeysValid(s: Store, c: Client, delegationId: string, generated: Option<ProxyRequest>)
    requires |c.digest| >= 8
    requires KeysValid(s)
    ensures KeysValid(RequestOutcome(s, c, delegationId, generated).store)
    ensures KeysValid(NewRequestOutcome(s, c, generated).store)
  {
    GeneratedIdIsValid(c.digest);
  }

  /** putProxy and destroy keep all rows keyed by valid delegation ids. */
  lemma PutAndDestroyKeepKeysValid(s: Store, c: Client, delegationId: string, proxy: string,
                                   termination: string -> Option<int>,
                                   addKey: (string, string) -> Result<string, string>)
    requires |c.digest| >= 8
    requires KeysValid(s)
    ensures KeysValid(PutOutcome(s, c, delegationId, proxy, termination, addKey).store)
    ensures KeysValid(DestroyOutcome(s, c, delegationId).store)
  {
    var o := PutOutcome(s, c, delegationId, proxy, termination, addKey);
    var key := (HandleDelegationId(delegationId, c.digest), c.dn);
    assert o.store == s || (CheckDelegationId(key.0) && o.store.cache.Keys <= s.cache.Keys && o.store.creds.Keys <= s.creds.Keys + {key});
  }

  // ---------------------------------------------------------------------------
  // The handler and the tables it updates

  /** The two credential tables of the database. */
  class CredentialDb {
    var cache: map<Key, CredCache>
    var creds: map<Key, Cred>

    function State(): Store
      reads this
    {
      Store(cache, creds)
    }

    constructor()
      ensures cache == map[] && creds == map[]
    {
      cache := map[];
      creds := map[];
    }
  }

  /** GSoapDelegationHandler: one request's client DN and attributes, over the shared tables. */
  class DelegationHandler {
    const dn: string
    const attrs: seq<string>
    const digest: seq<byte>
    const db: CredentialDb

    function Who(): Client {
      Client(dn, attrs, digest)
    }

    /** The digest is the 20-byte SHA-1 of the DN and the attributes, computed by OpenSSL. */
    constructor(dn: string, attrs: seq<string>, digest: seq<byte>, db: CredentialDb)
      requires |digest| == 20
      ensures this.dn == dn && this.attrs == attrs && this.digest == digest && this.db == db
    {
      this.dn := dn;
      this.attrs := attrs;
      this.digest := digest;
      this.db := db;
    }

    method Apply(o: Store)
      modifies db
      ensures db.State() == o
    {
      db.cache := o.cache;
      db.creds := o.creds;
    }

    method GetProxyReq(delegationId: string, generated: Option<ProxyRequest>) returns (r: Result<string, string>)
      requires |digest| >= 8
      modifies db
      ensures var o := RequestOutcome(old(db.State()), Who(), delegationId, generated);
        db.State() == o.store && r == o.reply
    {
      var o := RequestOutcome(db.State(), Who(), delegationId, generated);
      Apply(o.store);
      r := o.reply;
    }

    method RenewProxyReq(delegationId: string, generated: Option<ProxyRequest>) returns (r: Result<string, string>)
      requires |digest| >= 8
      modifies db
      ensures var o := RequestOutcome(old(db.State()), Who(), delegationId, generated);
        db.State() == o.store && r == o.reply
    {
      r := GetProxyReq(delegationId, generated);
    }

    method GetNewProxyReq(generated: Option<ProxyRequest>) returns (r: Result<(string, string), string>)
      requires |digest| >= 8
      modifies db
      ensures var o := NewRequestOutcome(old(db.State()), Who(), generated);
        db.State() == o.store && r == o.reply
    {
      var o := NewRequestOutcome(db.State(), Who(), generated);
      Apply(o.store);
      r := o.reply;
    }

    method PutProxy(delegationId: string, proxy: string,
                    termination: string -> Option<int>,
                    addKey: (string, string) -> Result<string, string>) returns (r: Result<(), string>)
      requires |digest| >= 8
      modifies db
      ensures var o := PutOutcome(old(db.State()), Who(), delegationId, proxy, termination, addKey);
        db.State() == o.store && r == o.reply
    {
      var o := PutOutcome(db.State(), Who(), delegationId, proxy, termination, addKey);
      Apply(o.store);
      r := o.reply;
    }

    method Destroy(delegationId: string) returns (r: Result<(), string>)
      requires |digest| >= 8
      modifies db
      ensures var o := DestroyOutcome(old(db.State()), Who(), delegationId);
        db.State() == o.store && r == o.reply
    {
      var o := DestroyOutcome(db.State(), Who(), delegationId);
      Apply(o.store);
      r := o.reply;
    }

    method GetTerminationTime(delegationId: string) returns (r: Result<int, string>)
      requires |digest| >= 8
      ensures r == TerminationTime(db.State(), Who(), delegationId)
    {
      r := TerminationTime(db.State(), Who(), delegationId);
    }
  }
}
