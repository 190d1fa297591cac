/**
  The auth callout's decision on one connection: Authorize, and Handle around
  it. Signatures, the credential store and token encoding are parameters; what is
  fixed is that nothing but a full pass through the checks answers "allow", and what an
  allowed connection is granted.
 */
module Authorize {
  import opened Common
  import opened Subjects

  // The parts of an authorization request the decision reads.
  datatype ConnectRequest = ConnectRequest(nkey: string, userNkey: string, nonce: string, signedNonce: string)

  // The user JWT's claims: whom it is addressed to, the account, the worker, and its grants.
  datatype UserClaims = UserClaims(subject: string, audience: string, name: string, publish: seq<string>,
                                   subscribe: seq<string>)

  /** What the decision asks of the outside: a valid public key, a readable signature, a
      signature over the nonce by the key, the worker id of an active credential, and the issuer's
      signature on the user JWT. */
  datatype Checks = Checks(account: string,
                           validKey: string -> bool,
                           decodes: string -> bool,
                           verifies: (string, string, string) -> bool,
                           lookup: string -> Option<string>,
                           encodes: UserClaims -> bool)

  predicate NonceVerified(c: Checks, q: ConnectRequest) {
    q.signedNonce != "" && q.nonce != "" && c.decodes(q.signedNonce) && c.verifies(q.nkey, q.nonce, q.signedNonce)
  }

  function ClaimsFor(c: Checks, q: ConnectRequest, id: string): UserClaims {
    UserClaims(q.userNkey, c.account, id, PublishAllow(id), SubscribeAllow(id))
  }

  function Decide(c: Checks, q: ConnectRequest): Option<UserClaims> {
    if !c.validKey(q.nkey) then None
    else if !NonceVerified(c, q) then None
    else
      var id := c.lookup(q.nkey);
      if id.None? then None
      else if !ValidWorkerIDToken(id.value) then None
      else if q.userNkey == "" then None
      else if !c.encodes(ClaimsFor(c, q, id.value)) then None
      else Some(ClaimsFor(c, q, id.value))
  }

  // Handle's answer: nothing at all, a refusal, or an allow carrying the user claims.
  datatype Response = Empty | Deny | Allow(claims: UserClaims)

  // `signs` and `panics` say whether the response could be signed, and whether answering panicked.
  function Handle(c: Checks, decoded: Option<ConnectRequest>, signs: bool, panics: bool): Response {
    if panics || decoded.None? || !signs then Empty
    else
      match Decide(c, decoded.value)
      case None => Deny
      case Some(u) => Allow(u)
  }

  // Fail closed: what an allow takes.
  lemma AllowIff(c: Checks, decoded: Option<ConnectRequest>, signs: bool, panics: bool, u: UserClaims)
    ensures Handle(c, decoded, signs, panics) == Allow(u) <==>
            && !panics && signs && decoded.Some? && var q := decoded.value;
               && c.validKey(q.nkey) && NonceVerified(c, q) && c.lookup(q.nkey) == Some(u.name)
               && ValidWorkerIDToken(u.name) && q.userNkey != "" && u == ClaimsFor(c, q, u.name) && c.encodes(u)
  {
  }

  // A subject is within what a connection's claims allow.
  ghost predicate Granted(u: UserClaims, s: string) {
    exists p :: (p in u.publish || p in u.subscribe) && Matches(p, s)
  }

  /** Whatever the store answers, and however it changes between them, two connections let in under
      different worker ids share no subject: neither can act as the other, read its replies, or
      signal it. */
  lemma AllowedWorkersShareNothing(c: Checks, c': Checks, q: Option<ConnectRequest>, q': Option<ConnectRequest>,
                                   u: UserClaims, u': UserClaims, s: string)
    requires Handle(c, q, true, false) == Allow(u) && Handle(c', q', true, false) == Allow(u') && u.name != u'.name
    ensures !(Granted(u, s) && Granted(u', s))
  {
    AllowIff(c, q, true, false, u);
    AllowIff(c', q', true, false, u');
    WorkersIsolated(u.name, u'.name);
    assert Granted(u, s) ==> MayPublish(u.name, s) || MaySubscribe(u.name, s);
    assert Granted(u', s) ==> MayPublish(u'.name, s) || MaySubscribe(u'.name, s);
  }

  /** What an allowed connection can do is exactly what its worker's subjects are for: publish on its status,
      log, lease and worker subjects, and listen on its cancel subject and its inbox. */
  lemma AllowedWorkerMay(c: Checks, q: Option<ConnectRequest>, u: UserClaims, s: string)
    requires Handle(c, q, true, false) == Allow(u)
    ensures (exists p :: p in u.publish && Matches(p, s)) <==> PublishFamily(u.name, Tokens(s))
    ensures (exists p :: p in u.subscribe && Matches(p, s)) <==> SubscribeFamily(u.name, Tokens(s))
  {
    AllowIff(c, q, true, false, u);
    MayPublishIff(u.name, s);
    MaySubscribeIff(u.name, s);
  }
}
