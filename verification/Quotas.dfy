/** Rate limits and connection slots (src/quotas.rs). Times are parameters; the token bucket computes
    over reals where the relay uses floating point. */
module Quotas {
  import opened Protocol
  import opened ClientIp

  // ---------------------------------------------------------------- token bucket

  /** A bucket's limits: its capacity and the tokens it regains per second. */
  datatype Limits = Limits(burst: real, rate: real)

  datatype Bucket = Bucket(tokens: real, last: Instant)

  predicate LimitsOk(l: Limits) {
    0.0 <= l.burst && 0.0 <= l.rate
  }

  predicate BucketOk(l: Limits, b: Bucket) {
    0.0 <= b.tokens <= l.burst
  }

  function Seconds(from: Instant, to: Instant): real {
    (to - from) as real / NANOS_PER_SECOND as real
  }

  /** What a bucket regains while its clock advances. */
  function Gain(l: Limits, from: Instant, to: Instant): real {
    Seconds(from, to) * l.rate
  }

  /** A clock that ran backwards changes nothing. */
  function Refill(l: Limits, b: Bucket, now: Instant): Bucket {
    if now < b.last then b
    else
      var level := b.tokens + Gain(l, b.last, now);
      Bucket(if level < l.burst then level else l.burst, now)
  }

  predicate Grants(l: Limits, b: Bucket, now: Instant) {
    Refill(l, b, now).tokens >= 1.0
  }

  function AfterAsk(l: Limits, b: Bucket, now: Instant): Bucket {
    var full := Refill(l, b, now);
    if Grants(l, b, now) then full.(tokens := full.tokens - 1.0) else full
  }

  function AfterAll(l: Limits, b: Bucket, times: seq<Instant>): Bucket
    decreases |times|
  {
    if times == [] then b else AfterAll(l, AfterAsk(l, b, times[0]), times[1..])
  }

  function Granted(l: Limits, b: Bucket, times: seq<Instant>): nat
    decreases |times|
  {
    if times == [] then 0 else (if Grants(l, b, times[0]) then 1 else 0) + Granted(l, AfterAsk(l, b, times[0]),
        times[1..])
  }

  class TokenBucket {
    var tokens: real
    const limits: Limits
    var last: Instant

    ghost predicate Valid()
      reads this
    {
      LimitsOk(limits) && BucketOk(limits, State())
    }

    ghost function State(): Bucket
      reads this
    {
      Bucket(tokens, last)
    }

    constructor (limits: Limits, now: Instant)
      requires LimitsOk(limits)
      ensures Valid() && this.limits == limits && State() == Bucket(limits.burst, now)
    {
      this.limits, tokens, last := limits, limits.burst, now;
    }

    method AllowAt(now: Instant) returns (allowed: bool)
      requires Valid()
      modifies this
      ensures Valid()
      ensures allowed == Grants(limits, old(State()), now)
      ensures State() == AfterAsk(limits, old(State()), now)
    {
      AskKeepsLevel(limits, State(), now);
      RefillAt(now);
      if tokens >= 1.0 {
        tokens := tokens - 1.0;
        return true;
      }
      return false;
    }

    method RefillAt(now: Instant)
      modifies this
      ensures State() == Refill(limits, old(State()), now)
    {
      if now < last {
        return;
      }
      var elapsed := Seconds(last, now);
      last := now;
      tokens := if tokens + elapsed * limits.rate < limits.burst then tokens + elapsed * limits.rate else limits.burst;
    }
  }

  lemma GainIsNonNegative(l: Limits, from: Instant, to: Instant)
    requires LimitsOk(l) && from <= to
    ensures 0.0 <= Gain(l, from, to)
  {
    assert 0.0 <= Seconds(from, to);
  }

  lemma GainsAdd(l: Limits, a: Instant, b: Instant, c: Instant)
    ensures Gain(l, a, b) + Gain(l, b, c) == Gain(l, a, c)
  {
    assert Seconds(a, b) + Seconds(b, c) == Seconds(a, c);
  }

  /** Going from `b` to `b'`, `n` grants were paid for by the level or by the refill. */
  predicate Pays(l: Limits, b: Bucket, b': Bucket, n: nat) {
    b.last <= b'.last && n as real + b'.tokens <= b.tokens + Gain(l, b.last, b'.last)
  }

  lemma PaysOnward(l: Limits, b: Bucket, b1: Bucket, b2: Bucket, n1: nat, n2: nat)
    requires Pays(l, b, b1, n1) && Pays(l, b1, b2, n2)
    ensures Pays(l, b, b2, n1 + n2)
  {
    GainsAdd(l, b.last, b1.last, b2.last);
  }

  /** The level stays between empty and full, and one ask pays for what it grants. */
  lemma AskKeepsLevel(l: Limits, b: Bucket, now: Instant)
    requires LimitsOk(l) && BucketOk(l, b)
    ensures BucketOk(l, AfterAsk(l, b, now))
    ensures Pays(l, b, AfterAsk(l, b, now), if Grants(l, b, now) then 1 else 0)
  {
    if b.last <= now {
      GainIsNonNegative(l, b.last, now);
    }
  }

  /** Over any run from any level, at any times, what is granted plus what is left is bounded by what
      was there plus the refill for the time the bucket's clock advanced. */
  lemma {:induction false} TokensAreConserved(l: Limits, b: Bucket, times: seq<Instant>)
    requires LimitsOk(l) && BucketOk(l, b)
    ensures BucketOk(l, AfterAll(l, b, times)) && Pays(l, b, AfterAll(l, b, times), Granted(l, b, times))
    decreases |times|
  {
    if times != [] {
      var next := AfterAsk(l, b, times[0]);
      AskKeepsLevel(l, b, times[0]);
      TokensAreConserved(l, next, times[1..]);
      PaysOnward(l, b, next, AfterAll(l, next, times[1..]), if Grants(l, b, times[0]) then 1
          else 0, Granted(l, next, times[1..]));
    }
  }

  /** The bound: in any stretch of any run, at most the burst plus the rate times the advance. */
  lemma BucketBound(l: Limits, b: Bucket, times: seq<Instant>)
    requires LimitsOk(l) && BucketOk(l, b)
    ensures Granted(l, b, times) as real <= l.burst + Gain(l, b.last, AfterAll(l, b, times).last)
  {
    TokensAreConserved(l, b, times);
  }

  /** Throttled, not cut off: a bucket that can hold a token grants again once its clock has advanced
      by the time one token takes. */
  lemma BucketRecovers(l: Limits, b: Bucket, now: Instant)
    requires LimitsOk(l) && BucketOk(l, b) && 1.0 <= l.burst && b.last <= now
    requires 1.0 <= Gain(l, b.last, now)
    ensures Grants(l, b, now)
  {
  }

  // ---------------------------------------------------------------- one action per interval

  type Stamps = map<IpAddr, Instant>

  predicate Permits(interval: nat, stamps: Stamps, ip: IpAddr, now: Instant) {
    ip in stamps ==> Since(now, stamps[ip]) >= interval
  }

  function Stamped(interval: nat, stamps: Stamps, ip: IpAddr, now: Instant): Stamps {
    if Permits(interval, stamps, ip, now) then stamps[ip := now] else stamps
  }

  function Swept(interval: nat, stamps: Stamps, now: Instant): Stamps {
    map ip | ip in stamps && Since(now, stamps[ip]) < interval :: stamps[ip]
  }

  class LastTimestampLimiter {
    const interval: nat
    var last: Stamps

    constructor (interval: nat)
      ensures this.interval == interval && last == map[]
    {
      this.interval, last := interval, map[];
    }

    method Allow(ip: IpAddr, now: Instant) returns (allowed: bool)
      modifies this
      ensures allowed == Permits(interval, old(last), ip, now)
      ensures last == Stamped(interval, old(last), ip, now)
    {
      if ip in last {
        if Since(now, last[ip]) < interval {
          return false;
        }
      }
      last := last[ip := now];
      return true;
    }

    /** Keeps the stamps that can still refuse somebody, one entry at a time, so that no answer from
        `now` on changes. */
    method Cleanup(now: Instant)
      modifies this
      ensures last == Swept(interval, old(last), now)
      ensures forall ip :: ip in last ==> ip in old(last) && last[ip] == old(last)[ip]
      ensures forall ip, t: Instant :: now <= t ==>
                (Permits(interval, last, ip, t) <==> Permits(interval, old(last), ip, t))
    {
      var all := last;
      var kept: Stamps := map[];
      var todo := all.Keys;
      while todo != {}
        invariant todo <= all.Keys && unchanged(this)
        invariant kept.Keys <= all.Keys - todo
        invariant forall ip :: ip in all.Keys - todo ==> (ip in kept <==> Since(now, all[ip]) < interval)
        invariant forall ip :: ip in kept ==> kept[ip] == all[ip]
        decreases |todo|
      {
        var ip :| ip in todo;
        if Since(now, all[ip]) < interval {
          kept := kept[ip := all[ip]];
        }
        todo := todo - {ip};
      }
      last := kept;
    }
  }

  datatype Use = Ask(ip: IpAddr, now: Instant) | Forget(now: Instant)

  /** Times never run backwards, from `start` on. */
  ghost predicate Ordered(start: Instant, uses: seq<Use>)
    decreases |uses|
  {
    uses != [] ==> start <= uses[0].now && Ordered(uses[0].now, uses[1..])
  }

  /** The uses that got through, with `forgetful` saying whether cleanup does anything. */
  function Through(interval: nat, stamps: Stamps, uses: seq<Use>, forgetful: bool): seq<Use>
    decreases |uses|
  {
    if uses == [] then []
    else
      match uses[0]
      case Ask(ip, now) =>
        (if Permits(interval, stamps, ip, now) then [uses[0]] else [])
        + Through(interval, Stamped(interval, stamps, ip, now), uses[1..], forgetful)
      case Forget(now) =>
        Through(interval, if forgetful then Swept(interval, stamps, now) else stamps, uses[1..], forgetful)
  }

  /** `few` is what may be left of `many` at `now`: every stamp missing from it is out of date. */
  ghost predicate Suffices(interval: nat, few: Stamps, many: Stamps, now: Instant) {
    && (forall ip :: ip in few ==> ip in many && few[ip] == many[ip])
    && (forall ip :: ip in many && ip !in few ==> interval == 0 || many[ip] + interval <= now)
  }

  /** Forgetting is invisible: with time moving forward, cleanup at any moments changes no answer. */
  lemma {:induction false} ForgettingIsInvisible(interval: nat, few: Stamps, many: Stamps, start: Instant,
                                                 uses: seq<Use>)
    requires Suffices(interval, few, many, start) && Ordered(start, uses)
    ensures Through(interval, few, uses, true) == Through(interval, many, uses, false)
    decreases |uses|
  {
    if uses != [] {
      var now := uses[0].now;
      match uses[0] {
        case Ask(ip, _) =>
          ForgettingIsInvisible(interval, Stamped(interval, few, ip, now), Stamped(interval, many, ip, now), now,
              uses[1..]);
        case Forget(_) =>
          ForgettingIsInvisible(interval, Swept(interval, few, now), many, now, uses[1..]);
      }
    }
  }

  /** Two uses of one address in the list are at least `interval` apart. */
  ghost predicate Spaced(interval: nat, through: seq<Use>) {
    forall i, j :: 0 <= i < j < |through| && through[i].Ask? && through[j].Ask? && through[i].ip == through[j].ip ==>
      through[i].now + interval <= through[j].now
  }

  /** And each comes at least `interval` after the stamp of its address. */
  ghost predicate AfterStamps(interval: nat, stamps: Stamps, through: seq<Use>) {
    forall i :: 0 <= i < |through| && through[i].Ask? && through[i].ip in stamps ==>
        stamps[through[i].ip] + interval <= through[i].now
  }

  ghost predicate NoFuture(stamps: Stamps, start: Instant) {
    forall ip :: ip in stamps ==> stamps[ip] <= start
  }

  lemma {:induction false} NeverForgetfulSpaces(interval: nat, stamps: Stamps, start: Instant, uses: seq<Use>)
    requires NoFuture(stamps, start) && Ordered(start, uses)
    ensures Spaced(interval, Through(interval, stamps, uses, false))
              && AfterStamps(interval, stamps, Through(interval, stamps, uses, false))
    decreases |uses|
  {
    if uses != [] {
      var now := uses[0].now;
      match uses[0] {
        case Ask(ip, _) =>
          var stamped := Stamped(interval, stamps, ip, now);
          var rest := Through(interval, stamped, uses[1..], false);
          NeverForgetfulSpaces(interval, stamped, now, uses[1..]);
          if Permits(interval, stamps, ip, now) {
            FirstThenRest(interval, stamps, uses[0], rest);
          }
        case Forget(_) => NeverForgetfulSpaces(interval, stamps, now, uses[1..]);
      }
    }
  }

  lemma FirstThenRest(interval: nat, stamps: Stamps, first: Use, rest: seq<Use>)
    requires first.Ask? && Permits(interval, stamps, first.ip, first.now)
               && (first.ip in stamps ==> stamps[first.ip] <= first.now)
    requires Spaced(interval, rest) && AfterStamps(interval, stamps[first.ip := first.now], rest)
    ensures Spaced(interval, [first] + rest) && AfterStamps(interval, stamps, [first] + rest)
  {
    forall i | 0 <= i < |rest| && rest[i].Ask? && rest[i].ip in stamps
        ensures stamps[rest[i].ip] + interval <= rest[i].now {
      assert stamps[first.ip := first.now][rest[i].ip] + interval <= rest[i].now;
    }
    forall i | 0 <= i < |rest| && rest[i].Ask? && rest[i].ip == first.ip ensures first.now + interval <= rest[i].now {
      assert stamps[first.ip := first.now][rest[i].ip] + interval <= rest[i].now;
    }
  }

  /** The limiter's promise: whatever is cleaned up when, uploads let through from one address are at
      least `interval` apart. */
  lemma UploadsAreSpaced(interval: nat, start: Instant, uses: seq<Use>)
    requires Ordered(start, uses)
    ensures Spaced(interval, Through(interval, map[], uses, true))
  {
    ForgettingIsInvisible(interval, map[], map[], start, uses);
    NeverForgetfulSpaces(interval, map[], start, uses);
  }

  /** The stamps after the uses. */
  function StampsAfter(interval: nat, stamps: Stamps, uses: seq<Use>): Stamps
    decreases |uses|
  {
    if uses == [] then stamps
    else
      StampsAfter(interval, if uses[0].Ask? then Stamped(interval, stamps, uses[0].ip, uses[0].now)
          else stamps, uses[1..])
  }

  lemma {:induction false} OneMore(interval: nat, stamps: Stamps, uses: seq<Use>, use: Use)
    requires use.Ask?
    ensures Through(interval, stamps, uses + [use], false)
            == Through(interval, stamps, uses, false)
               + if Permits(interval, StampsAfter(interval, stamps, uses), use.ip, use.now) then [use] else []
    decreases |uses|
  {
    if uses == [] {
      assert [use][1..] == [];
    } else {
      var all := uses + [use];
      assert all[0] == uses[0] && all[1..] == uses[1..] + [use];
      var next := if uses[0].Ask? then Stamped(interval, stamps, uses[0].ip, uses[0].now) else stamps;
      OneMore(interval, next, uses[1..], use);
    }
  }

  /** Every use of `ip` in the list is at least `interval` before `now`. */
  ghost predicate LongAgo(interval: nat, through: seq<Use>, ip: IpAddr, now: Instant) {
    forall i :: 0 <= i < |through| && through[i].Ask? && through[i].ip == ip ==> Since(now, through[i].now) >= interval
  }

  lemma LongAgoFirst(interval: nat, first: Use, rest: seq<Use>, ip: IpAddr, now: Instant)
    requires first.Ask?
    ensures LongAgo(interval, [first] + rest, ip, now) <==>
              (first.ip == ip ==> Since(now, first.now) >= interval) && LongAgo(interval, rest, ip, now)
  {
    var all := [first] + rest;
    assert all[0] == first && forall i :: 0 <= i < |rest| ==> all[i + 1] == rest[i];
    if LongAgo(interval, all, ip, now) {
      forall i | 0 <= i < |rest| && rest[i].Ask? && rest[i].ip == ip ensures Since(now, rest[i].now) >= interval {
        assert all[i + 1] == rest[i];
      }
    }
  }

  lemma {:induction false} StampsRemember(interval: nat, stamps: Stamps, start: Instant, uses: seq<Use>, ip: IpAddr,
                                          now: Instant)
    requires NoFuture(stamps, start) && Ordered(start, uses + [Ask(ip, now)])
    ensures Permits(interval, StampsAfter(interval, stamps, uses), ip, now) <==>
              Permits(interval, stamps, ip, now) && LongAgo(interval, Through(interval, stamps, uses, false), ip, now)
    ensures start <= now
    decreases |uses|
  {
    if uses == [] {
      assert uses + [Ask(ip, now)] == [Ask(ip, now)];
    } else {
      var use := uses[0];
      var next := if use.Ask? then Stamped(interval, stamps, use.ip, use.now) else stamps;
      var rest := Through(interval, next, uses[1..], false);
      assert (uses + [Ask(ip, now)])[0] == use && (uses + [Ask(ip, now)])[1..] == uses[1..] + [Ask(ip, now)];
      StampsRemember(interval, next, use.now, uses[1..], ip, now);
      if use.Ask? && Permits(interval, stamps, use.ip, use.now) {
        LongAgoFirst(interval, use, rest, ip, now);
        assert Through(interval, stamps, uses, false) == [use] + rest;
      } else {
        assert Through(interval, stamps, uses, false) == rest;
      }
    }
  }

  lemma {:induction false} OrderedPrefix(start: Instant, uses: seq<Use>, use: Use)
    requires Ordered(start, uses + [use])
    ensures Ordered(start, uses)
    decreases |uses|
  {
    if uses != [] {
      assert (uses + [use])[1..] == uses[1..] + [use];
      OrderedPrefix(uses[0].now, uses[1..], use);
    }
  }

  /** The limiter is exact: after any uses and cleanups, a use is let through if and only if every earlier one
      of its address that was let through is at least `interval` ago. */
  lemma AllowedIffSpaced(interval: nat, start: Instant, uses: seq<Use>, ip: IpAddr, now: Instant)
    requires Ordered(start, uses + [Ask(ip, now)])
    ensures Through(interval, map[], uses + [Ask(ip, now)], true)
            == Through(interval, map[], uses, true)
               + if LongAgo(interval, Through(interval, map[], uses, true), ip, now) then [Ask(ip, now)] else []
  {
    OrderedPrefix(start, uses, Ask(ip, now));
    ForgettingIsInvisible(interval, map[], map[], start, uses);
    ForgettingIsInvisible(interval, map[], map[], start, uses + [Ask(ip, now)]);
    OneMore(interval, map[], uses, Ask(ip, now));
    StampsRemember(interval, map[], start, uses, ip, now);
  }

  // ---------------------------------------------------------------- connection slots

  const MAX_GLOBAL_CONNS: nat := 100
  const MAX_CONNS_PER_IP: nat := 5

  function SaturatingSub(x: nat, y: nat): nat {
    if x < y then 0 else x - y
  }

  /** Counters for the multiset of open connections, each named by its address. */
  class ConnectionQuota {
    var global: nat
    var perIp: map<IpAddr, nat>
    ghost var open: multiset<IpAddr>

    ghost predicate Valid()
      reads this
    {
      && global == |open| <= MAX_GLOBAL_CONNS
      && perIp.Keys == (set ip | ip in open)
      && (forall ip :: ip in perIp ==> perIp[ip] == open[ip] <= MAX_CONNS_PER_IP)
    }

    constructor ()
      ensures Valid() && open == multiset{}
    {
      global, perIp, open := 0, map[], multiset{};
    }

    method TryConnect(ip: IpAddr) returns (ok: bool)
      requires Valid()
      modifies this
      ensures Valid()
      ensures ok <==> |old(open)| < MAX_GLOBAL_CONNS && old(open)[ip] < MAX_CONNS_PER_IP
      ensures open == if ok then old(open) + multiset{ip} else old(open)
    {
      if global >= MAX_GLOBAL_CONNS {
        return false;
      }
      var count := if ip in perIp then perIp[ip] else 0;
      if count >= MAX_CONNS_PER_IP {
        return false;
      }
      perIp := perIp[ip := count + 1];
      global := global + 1;
      open := open + multiset{ip};
      return true;
    }

    method Disconnect(ip: IpAddr)
      requires Valid()
      modifies this
      ensures Valid()
      ensures open == old(open) - multiset{ip}
    {
      var decremented, nowZero := false, false;
      if ip in perIp {
        if perIp[ip] > 0 {
          perIp := perIp[ip := perIp[ip] - 1];
          decremented := true;
        }
        nowZero := perIp[ip] == 0;
      }
      if nowZero {
        perIp := perIp - {ip};
      }
      if decremented {
        global := SaturatingSub(global, 1);
      }
      open := open - multiset{ip};
    }
  }
}
