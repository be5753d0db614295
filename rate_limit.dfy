/** The fixed-window rate limiter of src/lib/rateLimit.ts: a process-wide map from identifier to
    a count and the end of its window. The clock is a parameter (milliseconds); the interval
    timer that prunes the map is the `Prune` method, run whenever the timer would fire. */
module RateLimit {
  import opened Base
  import opened Text

  datatype Entry = Entry(count: int, resetAt: int)

  datatype LimitResult = LimitResult(success: bool, remaining: int, reset: int)

  /** One call for an identifier whose entry is `existing`: the new entry and the result. */
  function HitEntry(existing: Option<Entry>, limit: int, windowSeconds: int, now: int): (r: (Entry, LimitResult))
    ensures existing.None? || now > existing.value.resetAt ==>
      r == (Entry(1, now + windowSeconds * 1000), LimitResult(true, limit - 1, now + windowSeconds * 1000))
    ensures existing.Some? && now <= existing.value.resetAt && existing.value.count >= limit ==>
      r == (existing.value, LimitResult(false, 0, existing.value.resetAt))
    ensures existing.Some? && now <= existing.value.resetAt && existing.value.count < limit ==>
      r.0 == existing.value.(count := existing.value.count + 1) &&
      r.1 == LimitResult(true, limit - r.0.count, existing.value.resetAt)
  {
    var windowMs := windowSeconds * 1000;
    if existing.None? || now > existing.value.resetAt then
      (Entry(1, now + windowMs), LimitResult(true, limit - 1, now + windowMs))
    else if existing.value.count >= limit then
      (existing.value, LimitResult(false, 0, existing.value.resetAt))
    else
      var e := existing.value.(count := existing.value.count + 1);
      (e, LimitResult(true, limit - e.count, e.resetAt))
  }

  function Lookup(store: map<string, Entry>, id: string): Option<Entry> {
    if id in store then Some(store[id]) else None
  }

  /** rateLimit(identifier, { limit, windowSeconds }) on the whole map: only that identifier's
      entry is written. */
  function Hit(store: map<string, Entry>, id: string, limit: int, windowSeconds: int, now: int)
    : (r: (map<string, Entry>, LimitResult))
    ensures r.0 == store[id := HitEntry(Lookup(store, id), limit, windowSeconds, now).0]
    ensures r.1 == HitEntry(Lookup(store, id), limit, windowSeconds, now).1
  {
    var (e, result) := HitEntry(Lookup(store, id), limit, windowSeconds, now);
    (store[id := e], result)
  }

  /** Calls at the given times for one identifier, from the given entry: how many succeed. */
  function Successes(e: Entry, limit: int, windowSeconds: int, nows: seq<int>): nat
    decreases |nows|
  {
    if nows == [] then 0
    else
      var (next, result) := HitEntry(Some(e), limit, windowSeconds, nows[0]);
      (if result.success then 1 else 0) + Successes(next, limit, windowSeconds, nows[1..])
  }

  /** Within one window (no call after `resetAt`) at most `limit - count` further calls succeed. */
  lemma {:induction false} WindowBound(e: Entry, limit: int, windowSeconds: int, nows: seq<int>)
    requires forall k :: 0 <= k < |nows| ==> nows[k] <= e.resetAt
    ensures Successes(e, limit, windowSeconds, nows) <= Max(0, limit - e.count)
    decreases |nows|
  {
    if nows != [] {
      var (next, result) := HitEntry(Some(e), limit, windowSeconds, nows[0]);
      assert next.resetAt == e.resetAt;
      assert forall k :: 0 <= k < |nows[1..]| ==> nows[1..][k] == nows[k + 1];
      WindowBound(next, limit, windowSeconds, nows[1..]);
    }
  }

  /** For limit >= 1, a window opened by a call at `start` lets through at most `limit` calls,
      that one included, up to and including its end `start + windowSeconds * 1000`. */
  lemma {:induction false} AtMostLimitPerWindow(existing: Option<Entry>, limit: int, windowSeconds: int,
                                                start: int, nows: seq<int>)
    requires limit >= 1
    requires existing.None? || start > existing.value.resetAt
    requires forall k :: 0 <= k < |nows| ==> nows[k] <= start + windowSeconds * 1000
    ensures var (e, first) := HitEntry(existing, limit, windowSeconds, start);
            first.success && 1 + Successes(e, limit, windowSeconds, nows) <= limit
  {
    var (e, first) := HitEntry(existing, limit, windowSeconds, start);
    WindowBound(e, limit, windowSeconds, nows);
  }

  /** A call exactly at `resetAt` still belongs to the old window. */
  lemma BoundaryIsStrict(e: Entry, limit: int, windowSeconds: int)
    requires e.count >= limit
    ensures !HitEntry(Some(e), limit, windowSeconds, e.resetAt).1.success
    ensures HitEntry(Some(e), limit, windowSeconds, e.resetAt + 1).1.success
  {
  }

  /** Another identifier's entry is never touched. */
  lemma {:induction false} IdentifiersIndependent(store: map<string, Entry>, id: string, other: string,
                                                  limit: int, windowSeconds: int, now: int)
    requires other != id
    ensures Lookup(Hit(store, id, limit, windowSeconds, now).0, other) == Lookup(store, other)
  {
  }

  /** The pruning pass keeps exactly the entries whose window has not ended. */
  function Pruned(store: map<string, Entry>, now: int): (r: map<string, Entry>)
    ensures forall k :: k in r <==> k in store && !(now > store[k].resetAt)
    ensures forall k :: k in r ==> r[k] == store[k]
  {
    map k | k in store && !(now > store[k].resetAt) :: store[k]
  }

  // ---------------------------------------------------------------------------------------------
  // Presets and keys

  datatype Preset = Login | Register | Chat | Pincode | Review

  function Prefix(p: Preset): string {
    match p
    case Login => "login:"
    case Register => "register:"
    case Chat => "chat:"
    case Pincode => "pincode:"
    case Review => "review:"
  }

  /** (limit, windowSeconds) of each preset. */
  function Settings(p: Preset): (r: (int, int))
    ensures r.0 >= 1 && r.1 >= 60
  {
    match p
    case Login => (10, 900)
    case Register => (5, 900)
    case Chat => (20, 60)
    case Pincode => (30, 60)
    case Review => (5, 3600)
  }

  function Key(p: Preset, id: string): (k: string)
    ensures StartsWith(k, Prefix(p))
  {
    Prefix(p) + id
  }

  /** Two presets never share a key, whatever the ids: their prefixes differ at a position
      inside both. */
  lemma {:induction false} PresetKeysDisjoint(p: Preset, q: Preset, a: string, b: string)
    requires p != q
    ensures Key(p, a) != Key(q, b)
  {
    var x := Key(p, a);
    var y := Key(q, b);
    assert x[..|Prefix(p)|] == Prefix(p) && y[..|Prefix(q)|] == Prefix(q);
    if (p == Register && q == Review) || (p == Review && q == Register) {
      assert x[2] != y[2];
    } else {
      assert x[0] != y[0];
    }
  }

  /** getClientIp: the first comma-separated element of x-forwarded-for, trimmed; else
      x-real-ip; else cf-connecting-ip; else "unknown". Empty strings fall through. */
  function ClientIp(forwardedFor: Option<string>, realIp: Option<string>, connectingIp: Option<string>): (ip: string)
    ensures ip != ""
    ensures forwardedFor.Some? && Trim(BeforeFirst(forwardedFor.value, ',')) != "" ==>
      ip == Trim(BeforeFirst(forwardedFor.value, ','))
    ensures (forwardedFor.None? || Trim(BeforeFirst(forwardedFor.value, ',')) == "") ==>
      ip == (if realIp.Some? && realIp.value != "" then realIp.value
             else if connectingIp.Some? && connectingIp.value != "" then connectingIp.value
             else "unknown")
  {
    var first := if forwardedFor.Some? then Trim(BeforeFirst(forwardedFor.value, ',')) else "";
    if first != "" then first
    else if realIp.Some? && realIp.value != "" then realIp.value
    else if connectingIp.Some? && connectingIp.value != "" then connectingIp.value
    else "unknown"
  }

  // ---------------------------------------------------------------------------------------------
  // The limiter object

  class Limiter {
    var store: map<string, Entry>

    constructor ()
      ensures store == map[]
    {
      store := map[];
    }

    method RateLimit(id: string, limit: int, windowSeconds: int, now: int) returns (r: LimitResult)
      modifies this
      ensures (store, r) == Hit(old(store), id, limit, windowSeconds, now)
    {
      var windowMs := windowSeconds * 1000;
      if id !in store || now > store[id].resetAt {
        store := store[id := Entry(1, now + windowMs)];
        return LimitResult(true, limit - 1, now + windowMs);
      }
      var existing := store[id];
      if existing.count >= limit {
        assert store[id := existing] == store;
        return LimitResult(false, 0, existing.resetAt);
      }
      store := store[id := existing.(count := existing.count + 1)];
      return LimitResult(true, limit - store[id].count, existing.resetAt);
    }

    method Limit(p: Preset, id: string, now: int) returns (r: LimitResult)
      modifies this
      ensures (store, r) == Hit(old(store), Key(p, id), Settings(p).0, Settings(p).1, now)
    {
      r := RateLimit(Key(p, id), Settings(p).0, Settings(p).1, now);
    }

    /** The interval callback: delete every entry whose window has ended. */
    method Prune(now: int)
      modifies this
      ensures store == Pruned(old(store), now)
    {
      var keys := store.Keys;
      ghost var before := store;
      while keys != {}
        invariant keys <= before.Keys
        invariant store.Keys <= before.Keys
        invariant forall k :: k in store ==> store[k] == before[k]
        invariant forall k :: k in before && k !in keys ==> (k in store <==> !(now > before[k].resetAt))
        invariant forall k :: k in keys ==> k in store
        decreases keys
      {
        var k :| k in keys;
        if now > store[k].resetAt {
          store := map j | j in store && j != k :: store[j];
        }
        keys := keys - {k};
      }
    }
  }
}
