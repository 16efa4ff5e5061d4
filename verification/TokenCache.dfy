/** The installation token: a cache guarded by a mutex, and the requests that use it.

    `AppAuthenticator` is the object itself; `System` is any number of requests sharing one, with
    taking the lock, asking for a token over the network and giving the lock back as separate steps. */
module TokenCache {
  import opened Wrappers

  const MINUTE: int := 60

  /** What the token endpoint answers; `expiresAt` counts seconds and 0 is the zero time. */
  datatype MintReply = Refused | Granted(token: string, expiresAt: int)

  predicate Usable(reply: MintReply) {
    reply.Granted? && reply.token != "" && reply.expiresAt != 0
  }

  predicate Fresh(token: string, expiresAt: int, now: int) {
    token != "" && now + MINUTE < expiresAt
  }

  class AppAuthenticator {
    var token: string
    var expiresAt: int

    constructor ()
      ensures token == "" && expiresAt == 0
    {
      token, expiresAt := "", 0;
    }

    /** A token from the cache has more than a minute left; otherwise the reply decides, and a
        refusal leaves the cache as it was. */
    method InstallationToken(now: int, reply: MintReply) returns (r: Option<string>)
      modifies this
      ensures old(Fresh(token, expiresAt, now)) ==>
                r == Some(old(token)) && token == old(token) && expiresAt == old(expiresAt)
      ensures !old(Fresh(token, expiresAt, now)) && Usable(reply) ==>
                r == Some(reply.token) && token == reply.token && expiresAt == reply.expiresAt
      ensures !old(Fresh(token, expiresAt, now)) && !Usable(reply) ==>
                r == None && token == old(token) && expiresAt == old(expiresAt)
      ensures r.Some? ==> r.value != "" && r.value == token
    {
      if token != "" && now + MINUTE < expiresAt {
        return Some(token);
      }
      match reply {
        case Refused =>
          return None;
        case Granted(t, e) =>
          if t == "" || e == 0 {
            return None;
          }
          token := t;
          expiresAt := e;
          return Some(t);
      }
    }

    /** After this no token is served from the cache, at any time. */
    method Invalidate()
      modifies this
      ensures token == "" && expiresAt == 0
      ensures forall now :: !Fresh(token, expiresAt, now)
    {
      token, expiresAt := "", 0;
    }

    /** `request`: the token endpoint and the server answer the two attempts one after another.
        At most two sends; a second only after a 401 to the first, and then with the token that was
        minted after the cache had been emptied. */
    method Request(now: nat -> int, mint: nat -> MintReply, status: (nat, string) -> int)
      returns (ok: bool, sent: seq<string>)
      modifies this
      ensures |sent| <= 2
      ensures |sent| == 2 ==>
                && status(0, sent[0]) == 401
                && Usable(mint(1)) && sent[1] == mint(1).token == token && expiresAt == mint(1).expiresAt
      ensures |sent| >= 1 ==>
                sent[0] == if old(Fresh(token, expiresAt, now(0))) then old(token)
                           else if mint(0).Granted? then mint(0).token else ""
      ensures ok <==> |sent| > 0 && 200 <= status(|sent| - 1, sent[|sent| - 1]) < 300
    {
      ok, sent := false, [];
      for attempt := 0 to 2
        invariant |sent| == attempt && !ok
        invariant attempt == 0 ==> token == old(token) && expiresAt == old(expiresAt)
        invariant attempt == 1 ==> status(0, sent[0]) == 401 && token == "" && expiresAt == 0
        invariant attempt >= 1 ==>
                    sent[0] == if old(Fresh(token, expiresAt, now(0))) then old(token)
                               else if mint(0).Granted? then mint(0).token else ""
        invariant attempt <= 1
      {
        var t := InstallationToken(now(attempt), mint(attempt));
        if t.None? {
          return;
        }
        sent := sent + [t.value];
        var code := status(attempt, t.value);
        if code == 401 && attempt == 0 {
          Invalidate();
          continue;
        }
        ok := 200 <= code < 300;
        return;
      }
    }
  }

  // ---------------------------------------------------------------------------
  // Many requests, one authenticator
  // ---------------------------------------------------------------------------

  /** A token together with the moment its request was sent to the token endpoint. */
  datatype Token = Token(text: string, expiresAt: int, mintedAt: nat)

  datatype Phase =
    | WantsToken(attempt: nat)
    | Looking(attempt: nat)
    | Minting(attempt: nat, since: nat)
    | Sending(attempt: nat, token: Token)
    | WantsInvalidate
    | Invalidating
    | Finished

  /** `sent` lists the tokens this request was sent with; `served` holds the clock readings at which
      the cache served one; `invalidatedAt` is when this request emptied the cache. */
  datatype Caller = Caller(
    phase: Phase, sent: seq<Token>, served: seq<(int, Token)>, invalidatedAt: Option<nat>)

  datatype System = System(
    cache: Option<Token>, lock: Option<nat>, callers: map<nat, Caller>, time: nat, emptiedAt: nat)

  datatype Event =
    | Arrive
    | TakeLock
    | Look(now: int)
    | MintAnswered(reply: MintReply)
    | Answered(status: int)
    | Empty

  ghost predicate Initial(s: System) {
    s.cache == None && s.lock == None && s.callers == map[] && s.time == 1 && s.emptiedAt == 0
  }

  predicate HoldsLock(p: Phase) {
    p.Looking? || p.Minting? || p.Invalidating?
  }

  /** The system after caller `id` has become `c`; time moves on with every step. */
  function With(s: System, id: nat, c: Caller): System {
    s.(callers := s.callers[id := c], time := s.time + 1)
  }

  ghost predicate Step(s: System, id: nat, e: Event, s': System) {
    if e.Arrive? then
      id !in s.callers && s' == With(s, id, Caller(WantsToken(0), [], [], None))
    else
      id in s.callers && CallerStep(s, id, s.callers[id], e, s')
  }

  ghost predicate CallerStep(s: System, id: nat, c: Caller, e: Event, s': System) {
    match (c.phase, e)
    case (WantsToken(n), TakeLock) =>
      s.lock == None && s' == With(s, id, c.(phase := Looking(n))).(lock := Some(id))
    case (WantsInvalidate, TakeLock) =>
      s.lock == None && s' == With(s, id, c.(phase := Invalidating)).(lock := Some(id))
    case (Looking(n), Look(now)) =>
      if s.cache.Some? && Fresh(s.cache.value.text, s.cache.value.expiresAt, now) then
        s' == With(s, id, c.(phase := Sending(n, s.cache.value), sent := c.sent + [s.cache.value],
                             served := c.served + [(now, s.cache.value)])).(lock := None)
      else
        s' == With(s, id, c.(phase := Minting(n, s.time)))
    case (Minting(n, since), MintAnswered(reply)) =>
      if Usable(reply) then
        var t := Token(reply.token, reply.expiresAt, since);
        s' == With(s, id, c.(phase := Sending(n, t), sent := c.sent + [t])).(cache := Some(t), lock := None)
      else
        s' == With(s, id, c.(phase := Finished)).(lock := None)
    case (Sending(n, _), Answered(status)) =>
      if status == 401 && n == 0 then s' == With(s, id, c.(phase := WantsInvalidate))
      else s' == With(s, id, c.(phase := Finished))
    case (Invalidating, Empty) =>
      s' == With(s, id, c.(phase := WantsToken(1), invalidatedAt := Some(s.time)))
            .(cache := None, lock := None, emptiedAt := s.time)
    case _ => false
  }

  ghost predicate Run(states: seq<System>) {
    && |states| > 0 && Initial(states[0])
    && (forall i | 0 <= i < |states| - 1 :: Steps(states[i], states[i + 1]))
  }

  ghost predicate Steps(s: System, s': System) {
    exists id, e :: Step(s, id, e, s')
  }

  predicate AttemptOf(p: Phase, attempt: nat) {
    match p
    case WantsToken(n) => n == attempt
    case Looking(n) => n == attempt
    case Minting(n, _) => n == attempt
    case Sending(n, _) => n == attempt
    case WantsInvalidate => attempt == 0
    case Invalidating => attempt == 0
    case Finished => false
  }

  ghost predicate CallerInv(s: System, c: Caller) {
    && (c.phase.Finished? || AttemptOf(c.phase, 0) || AttemptOf(c.phase, 1))
    && (AttemptOf(c.phase, 0) <==> c.invalidatedAt == None && !c.phase.Finished?)
    && (c.phase.WantsToken? || c.phase.Looking? || c.phase.Minting? ==>
          |c.sent| == (if AttemptOf(c.phase, 0) then 0 else 1))
    && (c.phase.Sending? ==> |c.sent| == c.phase.attempt + 1 && c.sent[c.phase.attempt] == c.phase.token)
    && (c.phase.WantsInvalidate? || c.phase.Invalidating? ==> |c.sent| == 1)
    && |c.sent| <= 2
    && (|c.sent| == 2 ==> c.invalidatedAt.Some? && c.sent[1].mintedAt > c.invalidatedAt.value)
    && (c.invalidatedAt.Some? ==> c.invalidatedAt.value <= s.emptiedAt)
    && (forall k | 0 <= k < |c.served| :: Fresh(c.served[k].1.text, c.served[k].1.expiresAt, c.served[k].0))
    && (c.phase.Minting? ==> s.emptiedAt < c.phase.since < s.time)
  }

  ghost predicate Inv(s: System) {
    && s.emptiedAt < s.time
    && (s.cache.Some? ==> s.emptiedAt < s.cache.value.mintedAt)
    && CallersInv(s)
    && LockInv(s)
  }

  ghost predicate CallersInv(s: System) {
    forall id | id in s.callers :: CallerInv(s, s.callers[id])
  }

  /** The lock keeps everyone but its holder out of the critical sections. */
  lemma OthersKeep(s: System, id: nat, e: Event, s': System, other: nat)
    requires Inv(s) && Step(s, id, e, s') && other in s.callers && other != id
    ensures s'.callers[other] == s.callers[other] && CallerInv(s', s'.callers[other])
  {
    assert CallerInv(s, s.callers[other]);
  }

  lemma OwnKeeps(s: System, id: nat, e: Event, s': System)
    requires Inv(s) && Step(s, id, e, s')
    ensures id in s'.callers && CallerInv(s', s'.callers[id])
  {
    if !e.Arrive? {
      assert CallerInv(s, s.callers[id]);
    }
  }

  lemma CacheKeeps(s: System, id: nat, e: Event, s': System)
    requires Inv(s) && Step(s, id, e, s')
    ensures s'.emptiedAt < s'.time
    ensures s'.cache.Some? ==> s'.emptiedAt < s'.cache.value.mintedAt
  {
    if !e.Arrive? {
      assert CallerInv(s, s.callers[id]);
    }
  }

  ghost predicate LockInv(s: System) {
    && (forall id | id in s.callers :: HoldsLock(s.callers[id].phase) <==> s.lock == Some(id))
    && (s.lock.Some? ==> s.lock.value in s.callers)
  }

  lemma LockKeeps(s: System, id: nat, e: Event, s': System)
    requires LockInv(s) && Step(s, id, e, s')
    ensures LockInv(s')
  {
  }

  lemma StepKeeps(s: System, id: nat, e: Event, s': System)
    requires Inv(s) && Step(s, id, e, s')
    ensures Inv(s')
  {
    OwnKeeps(s, id, e, s');
    CacheKeeps(s, id, e, s');
    LockKeeps(s, id, e, s');
    CallersKeep(s, id, e, s');
  }

  lemma CallersKeep(s: System, id: nat, e: Event, s': System)
    requires Inv(s) && Step(s, id, e, s') && id in s'.callers && CallerInv(s', s'.callers[id])
    ensures CallersInv(s')
  {
    forall i | i in s'.callers ensures CallerInv(s', s'.callers[i]) {
      if i != id {
        OthersKeep(s, id, e, s', i);
      }
    }
  }

  lemma {:induction false} Reachable(states: seq<System>, k: nat)
    requires Run(states) && k < |states|
    ensures Inv(states[k])
  {
    if k > 0 {
      Reachable(states, k - 1);
      assert Steps(states[k - 1], states[k - 1 + 1]);
      var id, e :| Step(states[k - 1], id, e, states[k]);
      StepKeeps(states[k - 1], id, e, states[k]);
    }
  }

  /** In every interleaving: at most two sends per request; a second send carries a token that was
      asked for after that request had emptied the cache; whatever the cache served had more than a
      minute left at that reading of the clock; and at most one request is inside the lock. */
  lemma RequestsAreBounded(states: seq<System>, now: nat, id: nat)
    requires Run(states) && now < |states| && id in states[now].callers
    ensures var c := states[now].callers[id];
            && |c.sent| <= 2
            && (|c.sent| == 2 ==> c.invalidatedAt.Some? && c.sent[1].mintedAt > c.invalidatedAt.value)
            && (forall k | 0 <= k < |c.served| :: c.served[k].0 + MINUTE < c.served[k].1.expiresAt)
            && (forall other | other in states[now].callers && other != id && HoldsLock(c.phase) ::
                  !HoldsLock(states[now].callers[other].phase))
  {
    Reachable(states, now);
    assert CallerInv(states[now], states[now].callers[id]);
  }
}
