/** The per-IP sliding window on message count (gateway/ws/ratelimit.go). Times are nanoseconds. */
module RateLimit {

  const MINUTE := 60_000_000_000

  /** The times later than cutoff, in order. */
  function After(ts: seq<int>, cutoff: int): seq<int> {
    if ts == [] then []
    else After(ts[..|ts| - 1], cutoff) + if ts[|ts| - 1] > cutoff then [ts[|ts| - 1]] else []
  }

  /** The positions of the times later than cutoff, in order: nothing else is kept, nothing moved. */
  lemma {:induction false} AfterMeans(ts: seq<int>, cutoff: int) returns (at: seq<nat>)
    ensures |at| == |After(ts, cutoff)|
    ensures forall k | 0 <= k < |at| :: at[k] < |ts| && ts[at[k]] > cutoff && After(ts, cutoff)[k] == ts[at[k]]
    ensures forall j, k | 0 <= j < k < |at| :: at[j] < at[k]
    ensures forall i: nat | i < |ts| && ts[i] > cutoff :: i in at
  {
    at := [];
    if ts != [] {
      var n := |ts| - 1;
      var before := AfterMeans(ts[..n], cutoff);
      at := before + if ts[n] > cutoff then [n] else [];
      forall i: nat | i < |ts| && ts[i] > cutoff ensures i in at {
        if i < n {
          assert ts[..n][i] == ts[i] && i in before;
        } else {
          assert at[|before|] == n;
        }
      }
    }
  }

  /** A Go slice: the first len cells of a buffer that may have room for more. */
  datatype Slice = Slice(buf: array<int>, len: nat)
  {
    ghost predicate Fits() {
      len <= buf.Length
    }

    ghost function Times(): seq<int>
      requires Fits()
      reads buf
    {
      buf[..len]
    }
  }

  /** Filters in place: the kept times move to the front of the same buffer. */
  method KeepAfter(ts: Slice, cutoff: int) returns (kept: Slice)
    requires ts.Fits()
    modifies ts.buf
    ensures kept.buf == ts.buf && kept.Fits() && kept.Times() == After(old(ts.Times()), cutoff)
  {
    var buf := ts.buf;
    ghost var times := ts.Times();
    var k := 0;
    for i := 0 to ts.len
      invariant k <= i
      invariant buf[..k] == After(times[..i], cutoff)
      invariant forall j | i <= j < ts.len :: buf[j] == times[j]
    {
      var t := buf[i];
      assert times[..i + 1][..i] == times[..i];
      if t > cutoff {
        buf[k] := t;
        k := k + 1;
      }
    }
    assert times[..ts.len] == times;
    kept := Slice(buf, k);
  }

  /** Go's append: in place while there is room, else into a larger copy. */
  method Push(ts: Slice, t: int) returns (longer: Slice)
    requires ts.Fits()
    modifies ts.buf
    ensures longer.buf == ts.buf || fresh(longer.buf)
    ensures longer.Fits() && longer.Times() == old(ts.Times()) + [t]
  {
    var buf := ts.buf;
    if ts.len == buf.Length {
      buf := new int[2 * ts.len + 1];
      for i := 0 to ts.len
        invariant fresh(buf) && buf.Length == 2 * ts.len + 1
        invariant ts.buf[..] == old(ts.buf[..])
        invariant buf[..i] == old(ts.Times())[..i]
      {
        buf[i] := ts.buf[i];
      }
    }
    buf[ts.len] := t;
    longer := Slice(buf, ts.len + 1);
  }

  /** The part of allow that works on one address. */
  method AllowOne(ts: Slice, now: int, maxPerMin: int) returns (ok: bool, kept: Slice)
    requires ts.Fits()
    modifies ts.buf
    ensures kept.buf == ts.buf || fresh(kept.buf)
    ensures kept.Fits()
    ensures var times := After(old(ts.Times()), now - MINUTE);
            ok == (|times| < maxPerMin) && kept.Times() == if ok then times + [now] else times
  {
    hide After;
    kept := KeepAfter(ts, now - MINUTE);
    if kept.len >= maxPerMin {
      return false, kept;
    }
    kept := Push(kept, now);
    return true, kept;
  }

  type Log = map<string, seq<int>>

  function TimesOf(m: Log, ip: string): seq<int> {
    if ip in m then m[ip] else []
  }

  /** One call of allow. */
  function AllowNext(max: int, m: Log, ip: string, now: int): (Log, bool) {
    var kept := After(TimesOf(m, ip), now - MINUTE);
    if |kept| >= max then (m[ip := kept], false) else (m[ip := kept + [now]], true)
  }

  class MessageRateLimiter {
    var perIP: map<string, Slice>
    const maxPerMin: int
    ghost var log: Log  // the times in each slice

    ghost function Buffers(): set<object>
      reads this
    {
      set ip | ip in perIP :: perIP[ip].buf
    }

    /** log mirrors the slices, and different addresses do not share a buffer. */
    ghost predicate Valid()
      reads this, Buffers()
    {
      maxPerMin > 0 && log.Keys == perIP.Keys &&
      (forall ip | ip in perIP :: perIP[ip].Fits() && perIP[ip].Times() == log[ip]) &&
      (forall a, b | a in perIP && b in perIP && a != b :: perIP[a].buf != perIP[b].buf)
    }

    constructor (maxPerMin: int)
      requires maxPerMin > 0
      ensures Valid() && log == map[] && this.maxPerMin == maxPerMin
    {
      this.maxPerMin := maxPerMin;
      perIP := map[];
      log := map[];
    }

    /** Valid for every other address, none of which uses buf. */
    ghost predicate OthersValid(ip: string, buf: array<int>)
      reads this, Buffers()
    {
      maxPerMin > 0 && log.Keys == perIP.Keys &&
      (forall a | a in perIP && a != ip :: perIP[a].buf != buf && perIP[a].Fits() && perIP[a].Times() == log[a]) &&
      (forall a, b | a in perIP && b in perIP && a != b && a != ip && b != ip :: perIP[a].buf != perIP[b].buf)
    }

    method Store(ip: string, kept: Slice)
      requires OthersValid(ip, kept.buf) && kept.Fits()
      modifies this
      ensures Valid()
      ensures log == old(log)[ip := kept.Times()]
    {
      perIP := perIP[ip := kept];
      log := log[ip := kept.Times()];
    }

    method Load(ip: string) returns (ts: Slice)
      requires Valid()
      ensures ts.Fits() && ts.Times() == TimesOf(log, ip) && OthersValid(ip, ts.buf)
      ensures ts.buf in Buffers() || fresh(ts.buf)
    {
      if ip in perIP {
        return perIP[ip];
      }
      var none := new int[0];
      ts := Slice(none, 0);
    }

    method Allow(ip: string, now: int) returns (ok: bool)
      requires Valid()
      modifies this, Buffers()
      ensures Valid()
      ensures (log, ok) == AllowNext(maxPerMin, old(log), ip, now)
    {
      hide After;
      var ts := Load(ip);
      var kept;
      ok, kept := AllowOne(ts, now, maxPerMin);
      assert OthersValid(ip, kept.buf);
      Store(ip, kept);
    }
  }

  // ---- whole runs ----

  datatype Call = Call(ip: string, now: int)

  /** The limiter's state after some calls, in lock order. */
  function Kept(max: int, calls: seq<Call>): Log {
    if calls == [] then map[]
    else AllowNext(max, Kept(max, calls[..|calls| - 1]), calls[|calls| - 1].ip, calls[|calls| - 1].now).0
  }

  predicate Allowed(max: int, before: seq<Call>, c: Call) {
    AllowNext(max, Kept(max, before), c.ip, c.now).1
  }

  /** The accepted times of one address. */
  function Accepted(max: int, calls: seq<Call>, ip: string): seq<int> {
    if calls == [] then []
    else
      var before, c := calls[..|calls| - 1], calls[|calls| - 1];
      Accepted(max, before, ip) + if c.ip == ip && Allowed(max, before, c) then [c.now] else []
  }

  /** How many times lie in the half-open window from lo to hi. */
  function Count(ts: seq<int>, lo: int, hi: int): nat {
    if ts == [] then 0
    else Count(ts[..|ts| - 1], lo, hi) + if lo <= ts[|ts| - 1] < hi then 1 else 0
  }

  /** No time is more than d earlier than one recorded before it. */
  predicate SkewAtMost(ts: seq<int>, d: int) {
    forall i, j | 0 <= i < j < |ts| :: ts[j] >= ts[i] - d
  }

  lemma CountSnoc(ts: seq<int>, t: int, lo: int, hi: int)
    ensures Count(ts + [t], lo, hi) == Count(ts, lo, hi) + if lo <= t < hi then 1 else 0
  {
    assert (ts + [t])[..|ts + [t]| - 1] == ts;
  }

  lemma {:induction false} CountBound(ts: seq<int>, lo: int, hi: int)
    ensures Count(ts, lo, hi) <= |ts|
  {
    if ts != [] {
      CountBound(ts[..|ts| - 1], lo, hi);
    }
  }

  /** Filtering at a cutoff below the window loses nothing in the window. */
  lemma {:induction false} CountAfter(ts: seq<int>, cutoff: int, lo: int, hi: int)
    requires cutoff < lo
    ensures Count(After(ts, cutoff), lo, hi) == Count(ts, lo, hi)
  {
    if ts != [] {
      var init, t := ts[..|ts| - 1], ts[|ts| - 1];
      CountAfter(init, cutoff, lo, hi);
      if t > cutoff {
        CountSnoc(After(init, cutoff), t, lo, hi);
      } else {
        assert After(ts, cutoff) == After(init, cutoff);
      }
    }
  }

  /** When nothing is later than hi, the filtered times are those of the window that ends at hi. */
  lemma {:induction false} CountAll(ts: seq<int>, cutoff: int, hi: int)
    requires forall i | 0 <= i < |ts| :: ts[i] < hi
    ensures |After(ts, cutoff)| == Count(ts, cutoff + 1, hi)
  {
    if ts != [] {
      CountAll(ts[..|ts| - 1], cutoff, hi);
    }
  }

  lemma {:induction false} AfterShrinks(ts: seq<int>, cutoff: int)
    ensures |After(ts, cutoff)| <= |ts|
    ensures |After(ts, cutoff)| == |ts| ==> After(ts, cutoff) == ts
    ensures forall i | 0 <= i < |After(ts, cutoff)| :: After(ts, cutoff)[i] in ts
  {
    if ts != [] {
      AfterShrinks(ts[..|ts| - 1], cutoff);
      assert ts == ts[..|ts| - 1] + [ts[|ts| - 1]];
    }
  }

  /** A window never holds more than the budget, so a rejected call drops nothing. */
  lemma {:induction false} KeptBound(max: int, calls: seq<Call>, ip: string)
    requires max > 0
    ensures |TimesOf(Kept(max, calls), ip)| <= max
    ensures forall i | 0 <= i < |TimesOf(Kept(max, calls), ip)| :: TimesOf(Kept(max, calls), ip)[i] in Accepted(max, calls, ip)
  {
    hide After;
    if calls != [] {
      var before, c := calls[..|calls| - 1], calls[|calls| - 1];
      KeptBound(max, before, ip);
      AfterShrinks(TimesOf(Kept(max, before), ip), c.now - MINUTE);
    }
  }

  /** As long as the accepted times stay below hi + d, what was dropped from the window lies before
      lo: the kept times count like all accepted ones on every window of length a minute minus d. */
  lemma {:induction false} KeptCounts(max: int, calls: seq<Call>, ip: string, d: int, lo: int, hi: int)
    requires max > 0 && hi - lo <= MINUTE - d
    requires forall i | 0 <= i < |Accepted(max, calls, ip)| :: Accepted(max, calls, ip)[i] < hi + d
    ensures Count(TimesOf(Kept(max, calls), ip), lo, hi) == Count(Accepted(max, calls, ip), lo, hi)
  {
    hide After, Count;
    if calls != [] {
      var before, c := calls[..|calls| - 1], calls[|calls| - 1];
      var acc, ts := Accepted(max, before, ip), TimesOf(Kept(max, before), ip);
      forall i | 0 <= i < |acc| ensures acc[i] < hi + d {
        assert acc[i] == Accepted(max, calls, ip)[i];
      }
      KeptCounts(max, before, ip, d, lo, hi);
      if c.ip == ip {
        if Allowed(max, before, c) {
          var accepted := Accepted(max, calls, ip);
          assert accepted == acc + [c.now] && accepted[|acc|] == c.now;
          CountAfter(ts, c.now - MINUTE, lo, hi);
          CountSnoc(After(ts, c.now - MINUTE), c.now, lo, hi);
          CountSnoc(acc, c.now, lo, hi);
        } else {
          KeptBound(max, before, ip);
          AfterShrinks(ts, c.now - MINUTE);
          assert Accepted(max, calls, ip) == acc;
        }
      } else {
        assert Accepted(max, calls, ip) == acc;
      }
    }
  }

  /** The rate bound under clock skew: if no accepted time of an address is more than d earlier
      than one accepted before it, every half-open window of a minute minus d holds at most the
      budget of accepted messages. */
  lemma {:induction false} RateBound(max: int, calls: seq<Call>, ip: string, d: int, lo: int)
    requires max > 0 && d >= 0
    requires SkewAtMost(Accepted(max, calls, ip), d)
    ensures Count(Accepted(max, calls, ip), lo, lo + MINUTE - d) <= max
  {
    hide After, Count, Kept;
    if calls == [] {
      CountBound([], lo, lo + MINUTE - d);
    } else {
      var before, c := calls[..|calls| - 1], calls[|calls| - 1];
      var acc, all := Accepted(max, before, ip), Accepted(max, calls, ip);
      var hi := lo + MINUTE - d;
      assert acc <= all;
      forall i, j | 0 <= i < j < |acc| ensures acc[j] >= acc[i] - d {
        assert acc[i] == all[i] && acc[j] == all[j];
      }
      RateBound(max, before, ip, d, lo);
      if c.ip == ip && Allowed(max, before, c) {
        CountSnoc(acc, c.now, lo, hi);
        if lo <= c.now < hi {
          var ts := TimesOf(Kept(max, before), ip);
          forall i | 0 <= i < |acc| ensures acc[i] < hi + d {
            assert all[|acc|] == c.now && all[i] == acc[i];
          }
          KeptCounts(max, before, ip, d, lo, hi);
          CountAfter(ts, c.now - MINUTE, lo, hi);
          CountBound(After(ts, c.now - MINUTE), lo, hi);
        }
      } else {
        assert all == acc;
      }
    }
  }

  // ---- no longer window holds ----

  lemma {:induction false} CountWider(ts: seq<int>, lo: int, hi: int, wider: int)
    requires hi <= wider
    ensures Count(ts, lo, hi) <= Count(ts, lo, wider)
  {
    if ts != [] {
      CountWider(ts[..|ts| - 1], lo, hi, wider);
    }
  }

  lemma {:induction false} CountEmptyWindow(ts: seq<int>, lo: int, hi: int)
    requires hi <= lo
    ensures Count(ts, lo, hi) == 0
  {
    if ts != [] {
      CountEmptyWindow(ts[..|ts| - 1], lo, hi);
    }
  }

  /** One more call: what it does to its own address, and that it leaves the others alone. */
  lemma CallSnoc(max: int, calls: seq<Call>, c: Call, ip: string)
    ensures var kept := After(TimesOf(Kept(max, calls), ip), c.now - MINUTE);
            var more := calls + [c];
            if c.ip != ip then
              Accepted(max, more, ip) == Accepted(max, calls, ip) && TimesOf(Kept(max, more), ip) == TimesOf(Kept(max, calls), ip)
            else if |kept| < max then
              Accepted(max, more, ip) == Accepted(max, calls, ip) + [c.now] && TimesOf(Kept(max, more), ip) == kept + [c.now]
            else
              Accepted(max, more, ip) == Accepted(max, calls, ip) && TimesOf(Kept(max, more), ip) == kept
  {
    hide After;
    var more := calls + [c];
    assert more[..|more| - 1] == calls && more[|more| - 1] == c;
    assert Accepted(max, calls, ip) + [] == Accepted(max, calls, ip);
  }

  lemma NoCalls(max: int, ip: string)
    ensures Accepted(max, [], ip) == [] && TimesOf(Kept(max, []), ip) == []
  {
  }

  lemma AfterSnoc(ts: seq<int>, t: int, cutoff: int)
    ensures After(ts + [t], cutoff) == if t > cutoff then After(ts, cutoff) + [t] else After(ts, cutoff)
  {
    assert (ts + [t])[..|ts + [t]| - 1] == ts;
    assert After(ts, cutoff) + [] == After(ts, cutoff);
  }

  lemma AfterNone(cutoff: int)
    ensures After([], cutoff) == []
  {
  }

  lemma AfterOne(t: int, cutoff: int)
    ensures After([t], cutoff) == if t > cutoff then [t] else []
  {
    AfterNone(cutoff);
    AfterSnoc([], t, cutoff);
    assert [] + [t] == [t];
  }

  /** Times a minute apart, the last of which is all that is kept. */
  predicate Apart(acc: seq<int>, kept: seq<int>) {
    (forall i, j | 0 <= i < j < |acc| :: acc[j] >= acc[i] + MINUTE) &&
    kept == if acc == [] then [] else [acc[|acc| - 1]]
  }

  lemma ApartSnoc(acc: seq<int>, kept: seq<int>, now: int)
    requires Apart(acc, kept) && (acc == [] || acc[|acc| - 1] <= now - MINUTE)
    ensures Apart(acc + [now], [now])
  {
  }

  /** With a budget of one, accepted times are a minute apart, whatever the skew: a call is accepted
      only when the last accepted time has left the window, and a rejected one does not remove it. */
  lemma {:induction false} OneApart(calls: seq<Call>, ip: string)
    ensures Apart(Accepted(1, calls, ip), TimesOf(Kept(1, calls), ip))
  {
    hide After, Accepted, Kept, Apart;
    if calls == [] {
      NoCalls(1, ip);
      assert Apart([], []) by {
        NoneApart();
      }
    } else {
      var before, c := calls[..|calls| - 1], calls[|calls| - 1];
      OneApart(before, ip);
      assert before + [c] == calls;
      CallSnoc(1, before, c, ip);
      if c.ip == ip {
        NextApart(Accepted(1, before, ip), TimesOf(Kept(1, before), ip), c.now);
      }
    }
  }

  lemma NoneApart()
    ensures Apart([], [])
  {
  }

  lemma NextApart(acc: seq<int>, kept: seq<int>, now: int)
    requires Apart(acc, kept)
    ensures var next := After(kept, now - MINUTE);
            if |next| < 1 then Apart(acc + [now], next + [now]) else Apart(acc, next)
  {
    if acc == [] {
      AfterNone(now - MINUTE);
    } else {
      AfterOne(acc[|acc| - 1], now - MINUTE);
    }
    assert [] + [now] == [now];
    if |After(kept, now - MINUTE)| < 1 {
      ApartSnoc(acc, kept, now);
    }
  }

  lemma {:induction false} CountApart(ts: seq<int>, lo: int, hi: int)
    requires forall i, j | 0 <= i < j < |ts| :: ts[j] >= ts[i] + MINUTE
    requires hi - lo <= MINUTE
    ensures Count(ts, lo, hi) <= 1
  {
    if ts != [] {
      var init, last := ts[..|ts| - 1], ts[|ts| - 1];
      CountApart(init, lo, hi);
      if lo <= last < hi {
        CountBefore(init, lo, hi);
      }
    }
  }

  lemma {:induction false} CountBefore(ts: seq<int>, lo: int, hi: int)
    requires forall i | 0 <= i < |ts| :: ts[i] < lo
    ensures Count(ts, lo, hi) == 0
  {
    if ts != [] {
      CountBefore(ts[..|ts| - 1], lo, hi);
    }
  }

  /** n calls of one address at time 0, all accepted by a budget of at least n. */
  function Burst(n: nat): seq<Call> {
    if n == 0 then [] else Burst(n - 1) + [Call("", 0)]
  }

  function Zeros(n: nat): seq<int> {
    if n == 0 then [] else Zeros(n - 1) + [0]
  }

  lemma {:induction false} ZerosAreZero(n: nat)
    ensures |Zeros(n)| == n && forall i | 0 <= i < n :: Zeros(n)[i] == 0
  {
    if n > 0 {
      ZerosAreZero(n - 1);
    }
  }

  lemma {:induction false} AfterZeros(n: nat, cutoff: int)
    ensures After(Zeros(n), cutoff) == if cutoff < 0 then Zeros(n) else []
  {
    hide After;
    if n == 0 {
      AfterNone(cutoff);
    } else {
      AfterZeros(n - 1, cutoff);
      AfterSnoc(Zeros(n - 1), 0, cutoff);
    }
  }

  lemma {:induction false} CountZeros(n: nat, hi: int)
    requires hi > 0
    ensures Count(Zeros(n), 0, hi) == n
  {
    hide Count;
    if n == 0 {
      CountBound([], 0, hi);
    } else {
      CountZeros(n - 1, hi);
      CountSnoc(Zeros(n - 1), 0, 0, hi);
    }
  }

  lemma {:induction false} BurstAccepted(max: int, n: nat)
    requires n <= max
    ensures Accepted(max, Burst(n), "") == Zeros(n) && TimesOf(Kept(max, Burst(n)), "") == Zeros(n)
  {
    hide After, Accepted, Kept, TimesOf;
    if n == 0 {
      NoCalls(max, "");
    } else {
      BurstAccepted(max, n - 1);
      CallSnoc(max, Burst(n - 1), Call("", 0), "");
      AfterZeros(n - 1, -MINUTE);
      ZerosAreZero(n - 1);
    }
  }

  /** A full burst, one call a minute later, and a last one whose clock lags by e. */
  function Lagging(max: nat, e: int): seq<Call> {
    Burst(max) + [Call("", MINUTE)] + [Call("", MINUTE - e)]
  }

  lemma LaggingAccepted(max: nat, e: int)
    requires max > 1 && 0 <= e <= MINUTE
    ensures Accepted(max, Lagging(max, e), "") == Zeros(max) + [MINUTE] + [MINUTE - e]
  {
    hide After, Accepted, Kept, TimesOf, Burst, Zeros;
    BurstAccepted(max, max);
    AfterZeros(max, 0);
    CallSnoc(max, Burst(max), Call("", MINUTE), "");
    assert [] + [MINUTE] == [MINUTE];
    AfterOne(MINUTE, -e);
    CallSnoc(max, Burst(max) + [Call("", MINUTE)], Call("", MINUTE - e), "");
  }

  lemma LaggingCount(max: nat, e: int)
    requires 0 <= e <= MINUTE
    ensures var acc := Zeros(max) + [MINUTE] + [MINUTE - e];
            SkewAtMost(acc, e) && Count(acc, 0, MINUTE - e + 1) > max
  {
    hide Zeros, Count;
    ZerosAreZero(max);
    CountZeros(max, MINUTE - e + 1);
    CountSnoc(Zeros(max), MINUTE, 0, MINUTE - e + 1);
    CountSnoc(Zeros(max) + [MINUTE], MINUTE - e, 0, MINUTE - e + 1);
  }

  /** Two calls a minute apart, both accepted by a budget of one. */
  function Pair(): seq<Call> {
    [Call("", 0)] + [Call("", MINUTE)]
  }

  lemma PairAccepted()
    ensures Accepted(1, Pair(), "") == [0] + [MINUTE]
    ensures Count([0] + [MINUTE], 0, MINUTE + 1) == 2
  {
    hide After, Accepted, Kept, TimesOf, Count;
    NoCalls(1, "");
    AfterNone(-MINUTE);
    CallSnoc(1, [], Call("", 0), "");
    assert [] + [Call("", 0)] == [Call("", 0)] && [] + [0] == [0];
    AfterOne(0, 0);
    CallSnoc(1, [Call("", 0)], Call("", MINUTE), "");
    CountBound([], 0, MINUTE + 1);
    CountSnoc([], 0, 0, MINUTE + 1);
    CountSnoc([0], MINUTE, 0, MINUTE + 1);
  }

  /** If an address's accepted times have at most the given skew, the window of the given length at
      lo holds at most the budget of them. */
  predicate WindowBound(max: int, d: int, length: int, calls: seq<Call>, ip: string, lo: int) {
    SkewAtMost(Accepted(max, calls, ip), d) ==> Count(Accepted(max, calls, ip), lo, lo + length) <= max
  }

  /** A minute less the skew is the longest window that always holds the budget at most; a budget of
      one keeps the full minute under any skew. */
  lemma WindowExactly(max: int, d: int, length: int)
    requires max > 0 && d >= 0
    ensures (forall calls, ip, lo :: WindowBound(max, d, length, calls, ip, lo)) <==>
            length <= 0 || length <= if max == 1 then MINUTE else MINUTE - d
  {
    hide Accepted, Count, SkewAtMost;
    if length <= 0 || length <= if max == 1 then MINUTE else MINUTE - d {
      forall calls, ip, lo ensures WindowBound(max, d, length, calls, ip, lo) {
        if SkewAtMost(Accepted(max, calls, ip), d) {
          WindowHolds(max, calls, ip, d, lo, length);
        }
      }
    } else if max == 1 {
      PairFails(d, length);
    } else {
      LaggingFails(max, d, length);
    }
  }

  lemma WindowHolds(max: int, calls: seq<Call>, ip: string, d: int, lo: int, length: int)
    requires max > 0 && d >= 0 && SkewAtMost(Accepted(max, calls, ip), d)
    requires length <= 0 || length <= if max == 1 then MINUTE else MINUTE - d
    ensures Count(Accepted(max, calls, ip), lo, lo + length) <= max
  {
    hide Accepted, Count, SkewAtMost, Kept;
    var acc := Accepted(max, calls, ip);
    if length <= 0 {
      CountEmptyWindow(acc, lo, lo + length);
    } else if max == 1 {
      OneApart(calls, ip);
      CountApart(acc, lo, lo + length);
    } else {
      RateBound(max, calls, ip, d, lo);
      CountWider(acc, lo, lo + length, lo + MINUTE - d);
    }
  }

  lemma PairFails(d: int, length: int)
    requires d >= 0 && length > MINUTE
    ensures !WindowBound(1, d, length, Pair(), "", 0)
  {
    hide Accepted, Count, Pair;
    PairAccepted();
    CountWider([0] + [MINUTE], 0, MINUTE + 1, length);
  }

  lemma LaggingFails(max: int, d: int, length: int)
    requires max > 1 && d >= 0 && length > 0 && length > MINUTE - d
    ensures !WindowBound(max, d, length, Lagging(max, if d < MINUTE then d else MINUTE), "", 0)
  {
    hide Accepted, Count, Lagging;
    var e := if d < MINUTE then d else MINUTE;
    LaggingAccepted(max, e);
    LaggingCount(max, e);
    CountWider(Zeros(max) + [MINUTE] + [MINUTE - e], 0, MINUTE - e + 1, length);
  }

  /** Without skew the limiter is exact: a call is accepted if and only if fewer than the budget of
      accepted times lie in the last minute. */
  lemma ExactWithoutSkew(max: int, before: seq<Call>, c: Call)
    requires max > 0
    requires forall i | 0 <= i < |Accepted(max, before, c.ip)| :: Accepted(max, before, c.ip)[i] <= c.now
    ensures Allowed(max, before, c) <==>
            Count(Accepted(max, before, c.ip), c.now - 60_000_000_000 + 1, c.now + 1) < max
  {
    hide After, Count, Kept;
    var acc, ts := Accepted(max, before, c.ip), TimesOf(Kept(max, before), c.ip);
    KeptBound(max, before, c.ip);
    KeptCounts(max, before, c.ip, 0, c.now - MINUTE + 1, c.now + 1);
    CountAll(ts, c.now - MINUTE, c.now + 1);
  }
}
