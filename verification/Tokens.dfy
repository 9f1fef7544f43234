/** Refresh-token rotation families. Tokens are named by their stored hash. */
module Tokens {
  import opened Common

  datatype Token = Token(tenant: Id, employee: Id, hash: Id, family: Id, revokedAt: Option<int>, expiresAt: int)

  /** In order of issue. */
  type Tokens = seq<Token>

  function Find(ts: Tokens, hash: Id): (i: nat)
    ensures i <= |ts|
    ensures i < |ts| ==> ts[i].hash == hash
    ensures forall j :: 0 <= j < i ==> ts[j].hash != hash
  {
    FirstIndex(ts, (t: Token) => t.hash == hash)
  }

  function RevokeOne(t: Token, now: int): Token {
    if t.revokedAt.None? then t.(revokedAt := Some(now)) else t
  }

  function RevokeFamily(ts: Tokens, family: Id, now: int): (r: Tokens)
    ensures |r| == |ts|
    ensures forall i :: 0 <= i < |ts| ==> r[i] == if ts[i].family == family then RevokeOne(ts[i], now) else ts[i]
  {
    seq(|ts|, i requires 0 <= i < |ts| => if ts[i].family == family then RevokeOne(ts[i], now) else ts[i])
  }

  /** A login starts a family of its own; `hash` and `family` are new. */
  function Issue(ts: Tokens, tenant: Id, employee: Id, hash: Id, family: Id, ttl: int, now: int): Tokens {
    ts + [Token(tenant, employee, hash, family, None, now + 1000 * ttl)]
  }

  /** Whether the token was exchanged, and the tokens afterwards; a reuse revokes the family. */
  function Refresh(ts: Tokens, hash: Id, nextHash: Id, ttl: int, now: int): (bool, Tokens) {
    var i := Find(ts, hash);
    if i == |ts| || ts[i].expiresAt < now then (false, ts)
    else if ts[i].revokedAt.Some? then (false, RevokeFamily(ts, ts[i].family, now))
    else (true, ts[i := ts[i].(revokedAt := Some(now))]
                + [Token(ts[i].tenant, ts[i].employee, nextHash, ts[i].family, None, now + 1000 * ttl)])
  }

  function Logout(ts: Tokens, hash: Id, now: int): (r: Tokens)
    ensures |r| == |ts|
    ensures forall i :: 0 <= i < |ts| ==> r[i] == if ts[i].hash == hash then RevokeOne(ts[i], now) else ts[i]
  {
    seq(|ts|, i requires 0 <= i < |ts| => if ts[i].hash == hash then RevokeOne(ts[i], now) else ts[i])
  }

  class AuthService {
    const ttl: int
    var tokens: Tokens

    constructor (ttl: int)
      ensures this.ttl == ttl && tokens == []
    {
      this.ttl, this.tokens := ttl, [];
    }

    method IssueTokens(tenant: Id, employee: Id, hash: Id, family: Id, now: int)
      modifies this
      ensures tokens == Issue(old(tokens), tenant, employee, hash, family, ttl, now)
    {
      tokens := tokens + [Token(tenant, employee, hash, family, None, now + ttl * 1000)];
    }

    method RefreshToken(hash: Id, nextHash: Id, now: int) returns (r: Result<Id>)
      modifies this
      ensures (r.Ok?, tokens) == Refresh(old(tokens), hash, nextHash, ttl, now)
      ensures r == if r.Ok? then Ok(nextHash) else Err(AUTH_INVALID_CREDENTIALS)
    {
      var i := Find(tokens, hash);
      if i == |tokens| || tokens[i].expiresAt < now {
        return Err(AUTH_INVALID_CREDENTIALS);
      }
      var stored := tokens[i];
      if stored.revokedAt.Some? {
        tokens := RevokeFamily(tokens, stored.family, now);
        return Err(AUTH_INVALID_CREDENTIALS);
      }
      tokens := tokens[i := stored.(revokedAt := Some(now))];
      tokens := tokens + [Token(stored.tenant, stored.employee, nextHash, stored.family, None, now + ttl * 1000)];
      r := Ok(nextHash);
    }

    method LogOut(hash: Id, now: int)
      modifies this
      ensures tokens == Logout(old(tokens), hash, now)
    {
      var was := tokens;
      tokens := seq(|was|, i requires 0 <= i < |was| => if was[i].hash == hash then RevokeOne(was[i], now) else was[i]);
    }
  }

  // ---- runs --------------------------------------------------------------------------------------------

  datatype Call =
    | IssueCall(tenant: Id, employee: Id, hash: Id, family: Id, ttl: int, now: int)
    | RefreshCall(hash: Id, nextHash: Id, ttl: int, now: int)
    | LogoutCall(hash: Id, now: int)

  function Exec(ts: Tokens, c: Call): Tokens {
    match c
    case IssueCall(tenant, employee, hash, family, ttl, now) => Issue(ts, tenant, employee, hash, family, ttl, now)
    case RefreshCall(hash, nextHash, ttl, now) => Refresh(ts, hash, nextHash, ttl, now).1
    case LogoutCall(hash, now) => Logout(ts, hash, now)
  }

  function Run(ts: Tokens, calls: seq<Call>): Tokens {
    if calls == [] then ts else Exec(Run(ts, calls[..|calls| - 1]), calls[|calls| - 1])
  }

  /** Random values do not repeat. */
  ghost predicate NewValues(ts: Tokens, c: Call) {
    && (c.IssueCall? ==> forall i :: 0 <= i < |ts| ==> ts[i].hash != c.hash && ts[i].family != c.family)
    && (c.RefreshCall? ==> forall i :: 0 <= i < |ts| ==> ts[i].hash != c.nextHash)
  }

  ghost predicate ProperRun(ts: Tokens, calls: seq<Call>) {
    forall n :: 0 <= n < |calls| ==> NewValues(Run(ts, calls[..n]), calls[n])
  }

  /** Linear families: hashes are unique, and within a family only the newest token can be unrevoked. */
  ghost predicate Linear(ts: Tokens) {
    && (forall i, j :: 0 <= i < j < |ts| ==> ts[i].hash != ts[j].hash)
    && (forall i, j :: 0 <= i < j < |ts| && ts[i].family == ts[j].family ==> ts[i].revokedAt.Some?)
  }

  ghost predicate Dead(ts: Tokens, family: Id) {
    && (forall i :: 0 <= i < |ts| && ts[i].family == family ==> ts[i].revokedAt.Some?)
    && (exists i :: 0 <= i < |ts| && ts[i].family == family)
  }

  lemma ExecKeeps(ts: Tokens, c: Call)
    requires Linear(ts) && NewValues(ts, c)
    ensures Linear(Exec(ts, c))
  {
  }

  lemma ExecKeepsDead(ts: Tokens, c: Call, family: Id)
    requires Linear(ts) && NewValues(ts, c) && Dead(ts, family)
    ensures Dead(Exec(ts, c), family)
  {
    var i :| 0 <= i < |ts| && ts[i].family == family;
    assert Exec(ts, c)[i].family == family;
  }

  lemma ProperPrefix(ts: Tokens, calls: seq<Call>)
    requires ProperRun(ts, calls) && calls != []
    ensures ProperRun(ts, calls[..|calls| - 1])
    ensures NewValues(Run(ts, calls[..|calls| - 1]), calls[|calls| - 1])
  {
    var init := calls[..|calls| - 1];
    forall n | 0 <= n < |init|
      ensures NewValues(Run(ts, init[..n]), init[n])
    {
      assert init[..n] == calls[..n];
    }
  }

  lemma {:induction false} RunKeeps(ts: Tokens, calls: seq<Call>)
    requires Linear(ts) && ProperRun(ts, calls)
    ensures Linear(Run(ts, calls))
    ensures forall family :: Dead(ts, family) ==> Dead(Run(ts, calls), family)
  {
    if calls == [] {
    } else {
      var n := |calls| - 1;
      ProperPrefix(ts, calls);
      RunKeeps(ts, calls[..n]);
      ExecKeeps(Run(ts, calls[..n]), calls[n]);
      forall family | Dead(ts, family)
        ensures Dead(Run(ts, calls), family)
      {
        ExecKeepsDead(Run(ts, calls[..n]), calls[n], family);
      }
    }
  }

  /** In every reachable state a refresh succeeds exactly on a live, unexpired token: its family's newest. */
  lemma OnlyNewestRefreshes(calls: seq<Call>, hash: Id, nextHash: Id, ttl: int, now: int)
    requires ProperRun([], calls)
    ensures var ts := Run([], calls);
            var i := Find(ts, hash);
            && (Refresh(ts, hash, nextHash, ttl, now).0 <==>
                i < |ts| && now <= ts[i].expiresAt && ts[i].revokedAt.None?)
            && (Refresh(ts, hash, nextHash, ttl, now).0 ==>
                  forall j :: 0 <= j < |ts| && ts[j].family == ts[i].family ==>
                    j <= i && (j < i ==> ts[j].revokedAt.Some?))
  {
    RunKeeps([], calls);
  }

  /** A login: its token is the whole of its family and can be exchanged until it expires; no other token's fate
      changes. */
  lemma LoginStartsFamily(ts: Tokens, tenant: Id, employee: Id, hash: Id, family: Id, ttl: int, now: int, other: Id,
                          nextHash: Id, ttl2: int, later: int)
    requires Linear(ts) && NewValues(ts, IssueCall(tenant, employee, hash, family, ttl, now))
    ensures var ts' := Issue(ts, tenant, employee, hash, family, ttl, now);
            && Linear(ts')
            && (Refresh(ts', hash, nextHash, ttl2, later).0 <==> later <= now + 1000 * ttl)
            && ts'[Find(ts', hash)].employee == employee && ts'[Find(ts', hash)].tenant == tenant
            && (forall i :: 0 <= i < |ts'| && ts'[i].family == family ==> i == Find(ts', hash))
            && (other != hash ==> (Refresh(ts', other, nextHash, ttl2, later).0
                                   <==> Refresh(ts, other, nextHash, ttl2, later).0))
  {
    var ts' := Issue(ts, tenant, employee, hash, family, ttl, now);
    assert Find(ts', hash) == |ts|;
    SameFind(ts, ts', other);
  }

  /** A token keeps its place when tokens are appended or revoked. */
  lemma SameFind(ts: Tokens, ts': Tokens, hash: Id)
    requires |ts| <= |ts'| && forall i :: 0 <= i < |ts| ==> ts'[i].hash == ts[i].hash
    ensures Find(ts, hash) < |ts| ==> Find(ts', hash) == Find(ts, hash)
    ensures (forall i :: |ts| <= i < |ts'| ==> ts'[i].hash != hash) && Find(ts, hash) == |ts| ==>
              Find(ts', hash) == |ts'|
  {
  }

  /** A logout ends its token for ever, and with its family's newest token the whole family; no other token's fate
      changes. */
  lemma LogoutEndsToken(ts: Tokens, hash: Id, now: int, other: Id, nextHash: Id, ttl: int, later: int)
    requires Linear(ts)
    ensures var ts' := Logout(ts, hash, now);
            var i := Find(ts, hash);
            && Linear(ts')
            && !Refresh(ts', hash, nextHash, ttl, later).0
            && (i < |ts| && (forall j :: i < j < |ts| ==> ts[j].family != ts[i].family) ==> Dead(ts', ts[i].family))
            && (other != hash ==> (Refresh(ts', other, nextHash, ttl, later).0
                                   <==> Refresh(ts, other, nextHash, ttl, later).0))
  {
    var ts' := Logout(ts, hash, now);
    var i := Find(ts, hash);
    SameFind(ts, ts', hash);
    SameFind(ts, ts', other);
    if i < |ts| {
      assert ts'[i].family == ts[i].family && ts'[i].revokedAt.Some?;
    }
  }

  /** A rotation hands the family on: the new token has the old one's owner, tenant and family and can be exchanged
      until its lifetime has passed, the old one cannot, and no other token's fate changes. */
  lemma RefreshHandsOver(ts: Tokens, hash: Id, nextHash: Id, ttl: int, now: int, third: Id, ttl2: int, later: int,
                         other: Id)
    requires Linear(ts) && NewValues(ts, RefreshCall(hash, nextHash, ttl, now))
    requires Refresh(ts, hash, nextHash, ttl, now).0
    ensures var ts' := Refresh(ts, hash, nextHash, ttl, now).1;
            var was, got := ts[Find(ts, hash)], ts'[|ts|];
            && |ts'| == |ts| + 1 && got.hash == nextHash
            && got.employee == was.employee && got.tenant == was.tenant && got.family == was.family
            && (Refresh(ts', nextHash, third, ttl2, later).0 <==> later <= now + 1000 * ttl)
            && !Refresh(ts', hash, third, ttl2, later).0
            && (other != hash && other != nextHash ==> (Refresh(ts', other, third, ttl2, later).0
                                                        <==> Refresh(ts, other, third, ttl2, later).0))
  {
    var ts' := Refresh(ts, hash, nextHash, ttl, now).1;
    SameFind(ts, ts', hash);
    SameFind(ts, ts', other);
    assert ts'[|ts|].hash == nextHash;
    assert forall i :: 0 <= i < |ts| ==> ts'[i].hash == ts[i].hash != nextHash;
    assert Find(ts', nextHash) == |ts|;
  }

  /** A successful refresh spends its token: presenting it again, unexpired, fails and ends the family. */
  lemma RotatedTokenIsSpent(ts: Tokens, hash: Id, nextHash: Id, thirdHash: Id, ttl: int, now: int, later: int)
    requires Linear(ts) && Refresh(ts, hash, nextHash, ttl, now).0
    requires later <= ts[Find(ts, hash)].expiresAt
    ensures var ts' := Refresh(ts, hash, nextHash, ttl, now).1;
            var again := Refresh(ts', hash, thirdHash, ttl, later);
            !again.0 && Dead(again.1, ts[Find(ts, hash)].family)
  {
    var i := Find(ts, hash);
    var ts' := Refresh(ts, hash, nextHash, ttl, now).1;
    assert ts'[i].hash == hash;
    assert Find(ts', hash) == i;
    var again := Refresh(ts', hash, thirdHash, ttl, later).1;
    assert again[i].family == ts[i].family;
  }

  /** Once a revoked, unexpired token is replayed, no token of its family is accepted in any continuation. */
  lemma ReplayEndsFamily(calls: seq<Call>, replayed: Id, nextHash: Id, ttl: int, now: int, more: seq<Call>, hash: Id,
                         hash2: Id, ttl2: int, now2: int)
    requires ProperRun([], calls)
    requires var ts := Run([], calls);
             var i := Find(ts, replayed);
             && i < |ts| && now <= ts[i].expiresAt && ts[i].revokedAt.Some?
             && ProperRun(Refresh(ts, replayed, nextHash, ttl, now).1, more)
    ensures var ts := Run([], calls);
            var later := Run(Refresh(ts, replayed, nextHash, ttl, now).1, more);
            var i := Find(later, hash);
            i < |later| && later[i].family == ts[Find(ts, replayed)].family ==>
              !Refresh(later, hash, hash2, ttl2, now2).0
  {
    var ts := Run([], calls);
    var i := Find(ts, replayed);
    var ts' := Refresh(ts, replayed, nextHash, ttl, now).1;
    RunKeeps([], calls);
    assert ts'[i].family == ts[i].family;
    assert Dead(ts', ts[i].family);
    RunKeeps(ts', more);
  }
}
