/** Claim tokens: each one registers at most one node, owned by the token's creator. */
module Tokens {
  import opened Types
  import opened Handlers
  import opened Invariants
  import opened Ledger
  import opened Accounting

  /** How many nodes the audit shows registered with a token. */
  function Registrations(a: seq<Event>, p: Prefix): nat
    decreases |a|
  {
    if a == [] then 0
    else Registrations(a[..|a| - 1], p) + One(a[|a| - 1].NodeRegistered? && a[|a| - 1].prefix == p)
  }

  lemma {:induction false} RegistrationsFollowBooks(a: seq<Event>, p: Prefix)
    requires Lawful(a)
    ensures Registrations(a, p) == One(p in Replay(a).tokens && Replay(a).tokens[p].used)
    decreases |a|
  {
    if a != [] {
      RegistrationsFollowBooks(a[..|a| - 1], p);
    }
  }

  /** Whoever the audit names as owner of a registered node created the token that registered it. */
  lemma {:induction false} RegisteredByCreator(a: seq<Event>, i: nat)
    requires Lawful(a) && i < |a| && a[i].NodeRegistered?
    ensures a[i].prefix in Replay(a).tokens && Replay(a).tokens[a[i].prefix] == TokenEntry(a[i].user, true)
    decreases |a|
  {
    if i < |a| - 1 {
      RegisteredByCreator(a[..|a| - 1], i);
    }
  }

  lemma {:induction false} TwiceCounts(a: seq<Event>, i: nat, k: nat, p: Prefix)
    requires k < |a| && i <= k
    requires a[i].NodeRegistered? && a[i].prefix == p && a[k].NodeRegistered? && a[k].prefix == p
    ensures Registrations(a, p) >= 1 && (i < k ==> Registrations(a, p) >= 2)
    decreases |a|
  {
    if k < |a| - 1 {
      TwiceCounts(a[..|a| - 1], i, k, p);
    } else if i < k {
      TwiceCounts(a[..|a| - 1], i, i, p);
    }
  }

  /** Over any run: a token is consumed exactly when it registered one node; no two registrations share a token;
      and the registered owner is the token's owner. */
  lemma {:induction false} TokenYieldsOneNode(rs: seq<Request>, i: nat, k: nat)
    requires var a := Run(EMPTY_SERVER, rs).audit; i <= k < |a| && a[i].NodeRegistered? && a[k].NodeRegistered?
    ensures var s := Run(EMPTY_SERVER, rs);
      && (s.audit[i].prefix == s.audit[k].prefix ==> i == k)
      && s.audit[i].prefix in s.tokens
      && s.tokens[s.audit[i].prefix].owner == s.audit[i].user
      && s.tokens[s.audit[i].prefix].consumedAt.Some?
  {
    var s := Run(EMPTY_SERVER, rs);
    var p := s.audit[i].prefix;
    AuditIsFaithful(rs);
    RegisteredByCreator(s.audit, i);
    assert View(s).tokens[p] == TokenView(s.tokens[p]);
    RegistrationsFollowBooks(s.audit, p);
    if s.audit[k].prefix == p {
      TwiceCounts(s.audit, i, k, p);
    }
  }

  /** Registration succeeds exactly with a known, unused and unexpired token (and a fresh node identifier); otherwise
      neither the nodes nor the tokens change. */
  lemma RegisterIff(s: Server, p: Prefix, secret: nat, n: NodeId, gpus: NodeGpus, t1: Time, t2: Time, t3: Time)
    ensures Register(s, p, secret, n, gpus, t1, t2, t3).Ok? <==>
      && p in s.tokens && s.tokens[p].secret == secret && s.tokens[p].consumedAt == None
      && t1 < s.tokens[p].expiresAt && n !in s.nodes
    ensures var s' := Handle(s, ReqRegister(p, secret, n, gpus, t1, t2, t3));
      if Register(s, p, secret, n, gpus, t1, t2, t3).Ok? then
        s'.nodes == s.nodes[n := Node(s.tokens[p].owner, gpus, Online, t2)] && s'.tokens[p].consumedAt == Some(t3)
      else s' == s
  {}

  /** A new token registers a node until 24 hours after its creation and not later, whatever happens in between as
      long as nobody registers with it. */
  lemma FreshTokenRegistersIff(s: Server, u: UserId, p: Prefix, secret: nat, now: Time, rs: seq<Request>,
                               n: NodeId, gpus: NodeGpus, t1: Time, t2: Time, t3: Time)
    requires u in s.users && s.users[u].canHost && p !in s.tokens
    requires forall i :: 0 <= i < |rs| ==> !(rs[i].ReqRegister? && rs[i].prefix == p)
    ensures var s' := Run(Handle(s, ReqCreateToken(u, p, secret, now)), rs);
      && (Register(s', p, secret, n, gpus, t1, t2, t3).Ok? <==> t1 < now + 86_400_000_000 && n !in s'.nodes)
      && (Register(s', p, secret, n, gpus, t1, t2, t3).Ok? ==>
            Register(s', p, secret, n, gpus, t1, t2, t3).server.nodes[n].owner == u)
  {
    var s1 := Handle(s, ReqCreateToken(u, p, secret, now));
    UntouchedToken(s1, rs, p);
    RegisterIff(Run(s1, rs), p, secret, n, gpus, t1, t2, t3);
  }

  lemma {:induction false} UntouchedToken(s: Server, rs: seq<Request>, p: Prefix)
    requires p in s.tokens
    requires forall i :: 0 <= i < |rs| ==> !(rs[i].ReqRegister? && rs[i].prefix == p)
    ensures p in Run(s, rs).tokens && Run(s, rs).tokens[p] == s.tokens[p]
    decreases |rs|
  {
    if rs != [] {
      UntouchedStep(s, rs[0], p);
      UntouchedToken(Handle(s, rs[0]), rs[1..], p);
    }
  }

  lemma UntouchedStep(s: Server, r: Request, p: Prefix)
    requires p in s.tokens && !(r.ReqRegister? && r.prefix == p)
    ensures p in Handle(s, r).tokens && Handle(s, r).tokens[p] == s.tokens[p]
  {
    if !TouchesTokens(r) { OtherRequestsLeaveTokens(s, r); }
  }

  /** A token that was used once never registers again, whatever happens in between. */
  lemma {:induction false} UsedTokenIsDead(s: Server, rs: seq<Request>, p: Prefix, secret: nat, n: NodeId, gpus: NodeGpus, t1: Time, t2: Time, t3: Time)
    requires p in s.tokens && s.tokens[p].consumedAt.Some?
    ensures Handle(Run(s, rs), ReqRegister(p, secret, n, gpus, t1, t2, t3)) == Run(s, rs)
    decreases |rs|
  {
    if rs != [] {
      UsedStep(s, rs[0], p);
      UsedTokenIsDead(Handle(s, rs[0]), rs[1..], p, secret, n, gpus, t1, t2, t3);
    }
  }

  lemma UsedStep(s: Server, r: Request, p: Prefix)
    requires p in s.tokens && s.tokens[p].consumedAt.Some?
    ensures p in Handle(s, r).tokens && Handle(s, r).tokens[p] == s.tokens[p]
  {
    if !TouchesTokens(r) { OtherRequestsLeaveTokens(s, r); }
  }
}
