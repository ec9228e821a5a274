/** The in-process set of revoked session families, its TTL and its fallback to
    the sessions table. */
module RevocationCache {
  import opened Common
  import FiniteSets

  type Family = int

  function Pruned(revoked: map<Family, int>, now: int): map<Family, int> {
    map f | f in revoked && now <= revoked[f] :: revoked[f]
  }

  lemma PrunedIs(before: map<Family, int>, after: map<Family, int>, now: int)
    requires after.Keys <= before.Keys
    requires forall f :: f in after ==> after[f] == before[f]
    requires forall f :: f in before ==> (f in after <==> now <= before[f])
    ensures after == Pruned(before, now)
  {
    assert forall f :: f in after <==> f in Pruned(before, now);
    assert after.Keys == Pruned(before, now).Keys;
    assert forall f :: f in after ==> after[f] == Pruned(before, now)[f];
  }

  /** The cache's fields; no outage is None. */
  datatype Cache = Cache(revoked: map<Family, int>, startedAt: int, downSince: Option<int>, ttl: int)

  function DownFor(c: Cache, now: int): int {
    if c.downSince.None? then 0 else now - c.downSince.value
  }

  /** The map cannot be trusted to hold every revocation yet, or any more. */
  predicate Degraded(c: Cache, now: int) {
    now - c.startedAt < c.ttl || DownFor(c, now) > c.ttl
  }

  function Marked(c: Cache, f: Family, now: int): Cache {
    c.(revoked := c.revoked[f := now + c.ttl])
  }

  /** A check that consults the map prunes it first. */
  function Checked(c: Cache, now: int): Cache {
    if Degraded(c, now) then c else c.(revoked := Pruned(c.revoked, now))
  }

  /** IsRevoked; `live` is what the sessions table answers, None its failure. */
  function Verdict(c: Cache, f: Family, now: int, live: Option<bool>): Option<bool> {
    if Degraded(c, now) then
      if live.None? then None else Some(!live.value)
    else Some(f in Pruned(c.revoked, now))
  }

  class Revocations {
    var revoked: map<Family, int>
    var listenDownSince: Option<int>
    const ttl: int
    const startedAt: int

    function Model(): Cache
      reads this
    {
      Cache(revoked, startedAt, listenDownSince, ttl)
    }

    constructor (ttl: int, now: int)
      ensures Model() == Cache(map[], now, None, ttl)
    {
      this.ttl := ttl;
      this.startedAt := now;
      this.revoked := map[];
      this.listenDownSince := None;
    }

    method MarkRevoked(f: Family, now: int)
      modifies this
      ensures Model() == Marked(old(Model()), f, now)
    {
      revoked := revoked[f := now + ttl];
    }

    method Prune(now: int)
      modifies this`revoked
      ensures revoked == Pruned(old(revoked), now)
    {
      var keys: set<Family> := revoked.Keys;
      while keys != {}
        invariant keys <= revoked.Keys <= old(revoked).Keys
        invariant forall f :: f in revoked ==> revoked[f] == old(revoked)[f]
        invariant forall f :: f in old(revoked) && f !in keys ==> (f in revoked <==> now <= old(revoked)[f])
        decreases keys
      {
        ghost var some := FiniteSets.Pick(keys);
        var f: Family :| f in keys;
        keys := keys - {f};
        if now > revoked[f] {
          revoked := revoked - {f};
        }
      }
      PrunedIs(old(revoked), revoked, now);
    }

    method MarkListenDown(now: int)
      modifies this`listenDownSince
      ensures listenDownSince == if old(listenDownSince).None? then Some(now) else old(listenDownSince)
    {
      if listenDownSince.None? {
        listenDownSince := Some(now);
      }
    }

    method MarkListenHealthy()
      modifies this`listenDownSince
      ensures listenDownSince == None
    {
      listenDownSince := None;
    }

    method ListenDownFor(now: int) returns (d: int)
      ensures d == DownFor(Model(), now)
    {
      if listenDownSince.None? {
        return 0;
      }
      return now - listenDownSince.value;
    }

    method IsRevoked(f: Family, now: int, live: Option<bool>) returns (r: Option<bool>)
      modifies this`revoked
      ensures r == Verdict(old(Model()), f, now, live) && Model() == Checked(old(Model()), now)
      ensures var outage := if listenDownSince.Some? then now - listenDownSince.value else 0;
              var untrusted := now - startedAt < ttl || outage > ttl;
              && (untrusted ==> revoked == old(revoked) && r == if live.Some? then Some(!live.value) else None)
              && (!untrusted ==> r == Some(f in old(revoked) && now <= old(revoked)[f]))
    {
      var freshRestart := now - startedAt < ttl;
      var down := ListenDownFor(now);
      var listenStale := down > ttl;
      if freshRestart || listenStale {
        if live.None? {
          return None;
        }
        return Some(!live.value);
      }
      Prune(now);
      return Some(f in revoked);
    }
  }
}
