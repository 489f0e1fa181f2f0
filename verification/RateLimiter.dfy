/** The per-IP token bucket with its janitor. Time is in seconds on a monotone clock. */
module RateLimiter {
  import opened Sorting

  datatype Bucket = Bucket(tokens: real, last: real)

  datatype Limits = Limits(rate: real, burst: nat, idleTimeout: real, maxIPs: nat)

  predicate Sensible(l: Limits) { l.rate > 0.0 && l.burst >= 1 && l.idleTimeout >= 0.0 && l.maxIPs >= 1 }

  // ---------------------------------------------------------------- requests

  /** Tokens earned in a span of time. */
  function Earned(l: Limits, span: real): real { span * l.rate }

  function Refilled(l: Limits, b: Bucket, now: real): real {
    var t := b.tokens + Earned(l, now - b.last);
    if t < l.burst as real then t else l.burst as real
  }

  /** The tokens an IP finds on arrival. */
  function Available(l: Limits, ips: map<string, Bucket>, ip: string, now: real): real {
    if ip in ips then Refilled(l, ips[ip], now) else l.burst as real
  }

  function Served(l: Limits, ips: map<string, Bucket>, ip: string, now: real): map<string, Bucket> {
    var t := Available(l, ips, ip, now);
    ips[ip := Bucket(if t >= 1.0 then t - 1.0 else t, now)]
  }

  // ---------------------------------------------------------------- the janitor

  predicate Idle(l: Limits, b: Bucket, now: real) { now - b.last > l.idleTimeout }

  function Live(l: Limits, ips: map<string, Bucket>, now: real): map<string, Bucket> {
    map ip | ip in ips && !Idle(l, ips[ip], now) :: ips[ip]
  }

  /** left is part of all, and nothing dropped was used later than anything left. */
  ghost predicate OldestDropped(all: map<string, Bucket>, left: map<string, Bucket>) {
    && left.Keys <= all.Keys && (forall ip <- left :: left[ip] == all[ip])
    && (forall kept <- left, evicted <- all.Keys - left.Keys :: all[evicted].last <= all[kept].last)
  }

  /** What a sweep may leave: all live buckets, or as many of the most recently used as fit. */
  ghost predicate SweptTo(l: Limits, before: map<string, Bucket>, now: real, after: map<string, Bucket>) {
    var live := Live(l, before, now);
    OldestDropped(live, after) && |after| == if |live| <= l.maxIPs then |live| else l.maxIPs
  }

  datatype Entry = Entry(ip: string, last: real)

  predicate UsedBefore(a: Entry, b: Entry) { a.last < b.last }

  class Limiter {
    const limits: Limits
    var ips: map<string, Bucket>

    /** newLimiter: perMinute tokens a minute, that many at once; idle after ten minutes. */
    constructor (perMinute: nat)
      ensures ips == map[] && limits == Defaults(perMinute)
    {
      limits := Limits(perMinute as real / 60.0, perMinute, 600.0, 10000);
      ips := map[];
    }

    method Allow(ip: string, now: real) returns (ok: bool)
      modifies this
      ensures ok <==> Available(limits, old(ips), ip, now) >= 1.0
      ensures ips == Served(limits, old(ips), ip, now)
    {
      if ip !in ips {
        ips := ips[ip := Bucket(limits.burst as real, now)];
      }
      var b := ips[ip];
      var elapsed := now - b.last;
      var tokens := b.tokens + elapsed * limits.rate;
      if tokens >= limits.burst as real { tokens := limits.burst as real; }
      b := Bucket(tokens, now);
      ok := b.tokens >= 1.0;
      if ok { b := b.(tokens := b.tokens - 1.0); }
      ips := ips[ip := b];
    }

    /** Drops the idle buckets, then enforces the size limit. */
    method Sweep(now: real)
      modifies this
      ensures SweptTo(limits, old(ips), now, ips)
    {
      var rest := ips.Keys;
      ghost var all := ips;
      while rest != {}
        invariant rest <= all.Keys
        invariant ips == map ip | ip in all && (ip in rest || !Idle(limits, all[ip], now)) :: all[ip]
      {
        var ip :| ip in rest;
        if now - ips[ip].last > limits.idleTimeout { ips := ips - {ip}; }
        rest := rest - {ip};
      }
      assert ips == Live(limits, all, now);
      var overflow := |ips| - limits.maxIPs;
      if overflow > 0 { EvictOldest(overflow); }
    }

    method ListEntries() returns (entries: seq<Entry>)
      ensures Lists(entries, ips, ips.Keys)
    {
      entries := [];
      var rest := ips.Keys;
      while rest != {}
        invariant rest <= ips.Keys
        invariant Lists(entries, ips, ips.Keys - rest)
      {
        var ip :| ip in rest;
        ListsOneMore(entries, ips, ips.Keys - rest, ip);
        entries := entries + [Entry(ip, ips[ip].last)];
        assert ips.Keys - (rest - {ip}) == (ips.Keys - rest) + {ip};
        rest := rest - {ip};
      }
      assert ips.Keys - {} == ips.Keys;
    }

    /** Drops the n least recently used buckets. */
    method EvictOldest(n: nat)
      modifies this
      ensures OldestDropped(old(ips), ips)
      ensures |ips| == if n <= |old(ips)| then |old(ips)| - n else 0
    {
      var entries := ListEntries();
      SortedLists(entries, ips);
      entries := Sort(entries, UsedBefore);
      var dropped := DropFirst(entries, n);
      Evicted(entries, old(ips), dropped);
    }

    method DropFirst(entries: seq<Entry>, n: nat) returns (dropped: nat)
      modifies this
      ensures dropped == if n <= |entries| then n else |entries|
      ensures ips == old(ips) - Names(entries[..dropped])
    {
      dropped := 0;
      while dropped < n && dropped < |entries|
        invariant dropped <= |entries| && dropped <= n
        invariant ips == old(ips) - Names(entries[..dropped])
      {
        NamesOneMore(entries, dropped);
        ips := ips - {entries[dropped].ip};
        dropped := dropped + 1;
      }
    }
  }

  function Defaults(perMinute: nat): Limits { Limits(perMinute as real / 60.0, perMinute, 600.0, 10000) }

  // ---------------------------------------------------------------- listing the buckets

  function Names(entries: seq<Entry>): set<string> { set e <- entries :: e.ip }

  ghost predicate Distinct(entries: seq<Entry>) {
    forall i, j :: 0 <= i < j < |entries| ==> entries[i].ip != entries[j].ip
  }

  ghost predicate Matches(entries: seq<Entry>, ips: map<string, Bucket>) {
    forall e <- entries :: e.ip in ips && e.last == ips[e.ip].last
  }

  /** One entry per IP of the set. */
  ghost predicate Lists(entries: seq<Entry>, ips: map<string, Bucket>, names: set<string>) {
    Names(entries) == names && Distinct(entries) && Matches(entries, ips)
  }

  lemma ListsOneMore(entries: seq<Entry>, ips: map<string, Bucket>, names: set<string>, ip: string)
    requires Lists(entries, ips, names) && ip in ips && ip !in names
    ensures Lists(entries + [Entry(ip, ips[ip].last)], ips, names + {ip})
  {
    forall i | 0 <= i < |entries| ensures entries[i].ip != ip {
      assert entries[i] in entries;
    }
    var more := entries + [Entry(ip, ips[ip].last)];
    assert more[..|entries|] == entries && more[..|entries| + 1] == more;
    NamesOneMore(more, |entries|);
  }

  lemma NamesOneMore(entries: seq<Entry>, i: nat)
    requires i < |entries|
    ensures Names(entries[..i + 1]) == Names(entries[..i]) + {entries[i].ip}
  {
    assert entries[..i + 1] == entries[..i] + [entries[i]];
  }

  lemma SortedLists(entries: seq<Entry>, ips: map<string, Bucket>)
    requires Lists(entries, ips, ips.Keys)
    ensures Lists(Sort(entries, UsedBefore), ips, ips.Keys) && InOrder(Sort(entries, UsedBefore), UsedBefore)
  {
    var sorted := Sort(entries, UsedBefore);
    SortSorts(entries, UsedBefore);
    forall e ensures e in sorted <==> e in entries {
      assert e in sorted <==> e in multiset(sorted);
      assert e in entries <==> e in multiset(entries);
    }
    forall i, j | 0 <= i < j < |sorted| ensures sorted[i].ip != sorted[j].ip {
      PairIsContained(sorted, i, j);
      var k, l := PairIsFound(entries, sorted[i], sorted[j]);
    }
  }

  lemma {:induction false} CountNames(entries: seq<Entry>)
    requires Distinct(entries)
    ensures |Names(entries)| == |entries|
  {
    if |entries| > 0 {
      var n := |entries| - 1;
      CountNames(entries[..n]);
      NamesOneMore(entries, n);
      assert entries[..n + 1] == entries;
      forall e | e in entries[..n] ensures e.ip != entries[n].ip {
        var k :| 0 <= k < n && entries[k] == e;
      }
    }
  }

  lemma CutSize(all: map<string, Bucket>, gone: set<string>)
    requires gone <= all.Keys
    ensures |all - gone| == |all| - |gone|
  {
    assert (all - gone).Keys == all.Keys - gone;
    assert |(all - gone).Keys| == |all.Keys| - |gone|;
  }

  lemma NamesOfPrefix(entries: seq<Entry>, i: nat)
    requires i <= |entries|
    ensures Names(entries) == Names(entries[..i]) + Names(entries[i..])
  {
    assert entries == entries[..i] + entries[i..];
  }

  lemma SizeOfTheRest(entries: seq<Entry>, all: map<string, Bucket>, i: nat)
    requires Lists(entries, all, all.Keys) && i <= |entries|
    ensures |entries| == |all| && |all - Names(entries[..i])| == |all| - i
  {
    CountNames(entries);
    CountNames(entries[..i]);
    NamesOfPrefix(entries, i);
    CutSize(all, Names(entries[..i]));
  }

  lemma AnyOrder(entries: seq<Entry>, i: nat, early: Entry, late: Entry)
    requires InOrder(entries, UsedBefore) && i <= |entries| && early in entries[..i] && late in entries[i..]
    ensures early.last <= late.last
  {
    var j :| 0 <= j < i && entries[j] == early;
    var k :| i <= k < |entries| && entries[k] == late;
    assert !UsedBefore(entries[k], entries[j]);
  }

  /** Dropping the first i entries leaves the rest, all used no earlier. */
  lemma Evicted(entries: seq<Entry>, all: map<string, Bucket>, dropped: nat)
    requires Lists(entries, all, all.Keys) && InOrder(entries, UsedBefore) && dropped <= |entries|
    ensures var left := all - Names(entries[..dropped]);
      |entries| == |all| && |left| == |all| - dropped && OldestDropped(all, left)
  {
    SizeOfTheRest(entries, all, dropped);
    WhatIsLeft(entries, all, dropped);
  }

  lemma WhatIsLeft(entries: seq<Entry>, all: map<string, Bucket>, i: nat)
    requires Lists(entries, all, all.Keys) && InOrder(entries, UsedBefore) && i <= |entries|
    ensures OldestDropped(all, all - Names(entries[..i]))
  {
    var left := all - Names(entries[..i]);
    NamesOfPrefix(entries, i);
    forall kept, evicted | kept in left && evicted in all.Keys - left.Keys
      ensures all[evicted].last <= all[kept].last
    {
      var late :| late in entries[i..] && late.ip == kept;
      var early :| early in entries[..i] && early.ip == evicted;
      assert late in entries && early in entries;
      AnyOrder(entries, i, early, late);
    }
  }
}
