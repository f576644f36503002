/** Idempotency: order keys by time bucket, and claims on them that expire. */
module Idempotency {
  import opened Common

  /** What the order id digests: symbol, strategy, side and the start of the time bucket. */
  datatype Key = Key(symbol: string, strategy: string, side: string, bucketStart: nat)

  /** `now` in seconds of UTC, hours starting at multiples of 3600; `minutes` is the configured bucket length. */
  function BucketStart(now: nat, minutes: nat): nat
    requires 0 < minutes
  {
    var hour, minute := now - now % 3600, now % 3600 / 60;
    hour + minute / minutes * minutes * 60
  }

  function MakeKey(symbol: string, strategy: string, side: string, now: nat, minutes: nat): Key
    requires 0 < minutes
  {
    Key(Upper(symbol), strategy, side, BucketStart(now, minutes))
  }

  function TtlSeconds(minutes: nat): nat {
    if minutes * 60 * 2 < 60 then 60 else minutes * 60 * 2
  }

  /** A moment lies in its bucket, which is no longer than the configured length. */
  lemma InBucket(now: nat, minutes: nat)
    requires 0 < minutes
    ensures BucketStart(now, minutes) <= now < BucketStart(now, minutes) + minutes * 60
  {
    var minute := now % 3600 / 60;
    Floored(minute, minutes);
    assert minute / minutes * minutes * 60 <= minute * 60;
    assert minute * 60 < minute / minutes * minutes * 60 + minutes * 60;
    assert (minute + 1) * 60 <= minute / minutes * minutes * 60 + minutes * 60;
  }

  lemma Floored(m: nat, n: nat)
    requires 0 < n
    ensures m / n * n <= m < m / n * n + n
  {
  }

  // ---- the claim store ----

  type Claims = map<Key, nat>

  predicate Held(claims: Claims, key: Key, now: nat) { key in claims && now < claims[key] }

  function Claimed(claims: Claims, key: Key, now: nat, ttl: nat): Claims { claims[key := now + ttl] }

  class ClaimStore {
    var claims: Claims
    const ttl: nat

    constructor (minutes: nat)
      ensures claims == map[] && ttl == TtlSeconds(minutes)
    {
      claims, ttl := map[], TtlSeconds(minutes);
    }

    method Claim(key: Key, now: nat) returns (acquired: bool)
      modifies this`claims
      ensures acquired <==> !old(Held(claims, key, now))
      ensures claims == if acquired then Claimed(old(claims), key, now, ttl) else old(claims)
    {
      if key in claims && now < claims[key] { return false; }
      claims := claims[key := now + ttl];
      return true;
    }

    method Release(key: Key)
      modifies this`claims
      ensures claims == old(claims) - {key}
    {
      claims := claims - {key};
    }

    /** Startup recovery marks an open order as claimed, whoever held it before. */
    method Seed(key: Key, now: nat)
      modifies this`claims
      ensures claims == Claimed(old(claims), key, now, ttl)
    {
      claims := claims[key := now + ttl];
    }
  }

  // ---- runs of order calls ----

  /** One `place_order` call: what it orders, and when its key was made. */
  datatype Call = Call(symbol: string, strategy: string, side: string, made: nat) {
    function Id(minutes: nat): Key
      requires 0 < minutes
    {
      MakeKey(symbol, strategy, side, made, minutes)
    }
  }

  /** How a call ends: `Kept` other than rejected or failed; `GivenUp` rejected or failed, its claim
      released; `Lost` by an exception or cancellation that left row and claim as they were. */
  datatype Progress = InFlight | Kept | GivenUp | Lost | Refused

  /** `Claiming` is the look at the key's trade row, the claim, and the pending row, which one call makes
      under `order_lock`; `Closing` closes the key's row with its position; `Seeding` is a restart's. */
  datatype Event =
    | Claiming(id: nat, at: nat)
    | Ending(id: nat, how: Progress)
    | Closing(key: Key)
    | Seeding(key: Key, at: nat)

  /** `rows` says of every key with a trade row whether the row is open. */
  datatype World = World(claims: Claims, rows: map<Key, bool>, calls: map<nat, Progress>)

  predicate OpenRow(w: World, key: Key) { key in w.rows && w.rows[key] }

  /** A call goes out when the key's row is not open and its claim is free. */
  predicate GoesOut(w: World, key: Key, at: nat) { !OpenRow(w, key) && !Held(w.claims, key, at) }

  function Happen(w: World, ev: Event, info: map<nat, Call>, minutes: nat): World
    requires 0 < minutes
  {
    match ev
    case Claiming(id, at) =>
      if id !in info || id in w.calls then w
      else
        var key := info[id].Id(minutes);
        if !GoesOut(w, key, at) then w.(calls := w.calls[id := Refused])
        else World(Claimed(w.claims, key, at, TtlSeconds(minutes)),
                   if key in w.rows then w.rows else w.rows[key := true], w.calls[id := InFlight])
    case Ending(id, how) =>
      if id !in info || id !in w.calls || w.calls[id] != InFlight then w
      else
        var key := info[id].Id(minutes);
        if how.Kept? then World(w.claims, w.rows[key := true], w.calls[id := Kept])
        else if how.GivenUp? then World(w.claims - {key}, w.rows[key := false], w.calls[id := GivenUp])
        else if how.Lost? then w.(calls := w.calls[id := Lost])
        else w
    case Closing(key) => if key in w.rows then w.(rows := w.rows[key := false]) else w
    case Seeding(key, at) => w.(claims := Claimed(w.claims, key, at, TtlSeconds(minutes)))
  }

  function History(events: seq<Event>, info: map<nat, Call>, minutes: nat): World
    requires 0 < minutes
  {
    if events == [] then World(map[], map[], map[])
    else Happen(History(events[..|events| - 1], info, minutes), events[|events| - 1], info, minutes)
  }

  /** A call that went out and was not rejected. */
  predicate Live(w: World, id: nat) {
    id in w.calls && (w.calls[id].InFlight? || w.calls[id].Kept? || w.calls[id].Lost?)
  }

  // ---- prompt claims ----

  /** Each call claims less than one bucket after making its key, and a restart seeds no key of the future. */
  ghost predicate Prompt(events: seq<Event>, info: map<nat, Call>, minutes: nat)
    requires 0 < minutes
  {
    forall i :: 0 <= i < |events| ==> PromptEvent(events[i], info, minutes)
  }

  ghost predicate PromptEvent(ev: Event, info: map<nat, Call>, minutes: nat) {
    && (ev.Claiming? && ev.id in info ==> info[ev.id].made <= ev.at < info[ev.id].made + minutes * 60)
    && (ev.Seeding? ==> ev.key.bucketStart <= ev.at)
  }

  /** At most one live call a key, and its claim outlasts every claim the bucket can still see. */
  ghost predicate Exclusive(w: World, info: map<nat, Call>, minutes: nat)
    requires 0 < minutes
  {
    && (forall id :: id in w.calls ==> id in info)
    && (forall a, b :: Live(w, a) && Live(w, b) && info[a].Id(minutes) == info[b].Id(minutes) ==> a == b)
    && (forall a :: Live(w, a) ==>
          info[a].Id(minutes) in w.claims
          && info[a].Id(minutes).bucketStart + 2 * minutes * 60 <= w.claims[info[a].Id(minutes)])
  }

  /** Whatever happens to the rows. */
  lemma {:induction false} HistoryExclusive(events: seq<Event>, info: map<nat, Call>, minutes: nat)
    requires 0 < minutes && Prompt(events, info, minutes)
    ensures Exclusive(History(events, info, minutes), info, minutes)
  {
    hide PromptEvent, BucketStart;
    if events != [] {
      var n := |events| - 1;
      HistoryExclusive(events[..n], info, minutes);
      EventKeepsExclusive(History(events[..n], info, minutes), events[n], info, minutes);
    }
  }

  lemma EventKeepsExclusive(w: World, ev: Event, info: map<nat, Call>, minutes: nat)
    requires 0 < minutes && Exclusive(w, info, minutes) && PromptEvent(ev, info, minutes)
    ensures Exclusive(Happen(w, ev, info, minutes), info, minutes)
  {
    hide MakeKey;
    match ev {
      case Claiming(_, _) => ClaimKeepsExclusive(w, ev, info, minutes);
      case Ending(_, _) => EndKeepsExclusive(w, ev, info, minutes);
      case Closing(_) => SameLives(w, Happen(w, ev, info, minutes), info, minutes);
      case Seeding(_, _) => SameLives(w, Happen(w, ev, info, minutes), info, minutes);
    }
  }

  lemma SameLives(w: World, w': World, info: map<nat, Call>, minutes: nat)
    requires 0 < minutes && Exclusive(w, info, minutes) && w'.calls == w.calls
    requires forall key :: key in w.claims && key in w'.claims ==>
      w.claims[key] <= w'.claims[key] || key.bucketStart + 2 * minutes * 60 <= w'.claims[key]
    requires w.claims.Keys <= w'.claims.Keys
    ensures Exclusive(w', info, minutes)
  {
    hide MakeKey;
    assert forall a :: Live(w', a) == Live(w, a);
  }

  lemma ClaimKeepsExclusive(w: World, ev: Event, info: map<nat, Call>, minutes: nat)
    requires 0 < minutes && Exclusive(w, info, minutes) && PromptEvent(ev, info, minutes) && ev.Claiming?
    ensures Exclusive(Happen(w, ev, info, minutes), info, minutes)
  {
    hide BucketStart;
    if ev.id in info && ev.id !in w.calls {
      InBucket(info[ev.id].made, minutes);
      var key := info[ev.id].Id(minutes);
      hide MakeKey;
      forall a | Live(w, a) && info[a].Id(minutes) == key
        ensures Held(w.claims, key, ev.at)
      {
      }
    }
  }

  lemma EndKeepsExclusive(w: World, ev: Event, info: map<nat, Call>, minutes: nat)
    requires 0 < minutes && Exclusive(w, info, minutes) && ev.Ending?
    ensures Exclusive(Happen(w, ev, info, minutes), info, minutes)
  {
    hide MakeKey;
    var next := Happen(w, ev, info, minutes);
    forall a | Live(next, a)
      ensures Live(w, a)
    {
    }
    if ev.id in w.calls && w.calls[ev.id] == InFlight { assert Live(w, ev.id); }
  }

  /** At most one order per bucket: of all calls for one upper-cased symbol, strategy, side and time bucket,
      at most one goes out and is not rejected, whatever the order and timing of endings and closings. */
  lemma AtMostOncePerBucket(events: seq<Event>, info: map<nat, Call>, minutes: nat, a: nat, b: nat)
    requires 0 < minutes && Prompt(events, info, minutes)
    requires a in info && b in info
    requires Upper(info[a].symbol) == Upper(info[b].symbol) && info[a].strategy == info[b].strategy
      && info[a].side == info[b].side
    requires BucketStart(info[a].made, minutes) == BucketStart(info[b].made, minutes)
    ensures var w := History(events, info, minutes); Live(w, a) && Live(w, b) ==> a == b
  {
    HistoryExclusive(events, info, minutes);
    hide History, Prompt, BucketStart;
    assert info[a].Id(minutes) == info[b].Id(minutes);
  }

  // ---- late claims ----

  /** Some event closed the key's row or rejected one of its calls. */
  ghost predicate Reopened(events: seq<Event>, info: map<nat, Call>, minutes: nat, key: Key)
    requires 0 < minutes
  {
    exists i :: 0 <= i < |events| && Reopens(events[i], info, minutes, key)
  }

  predicate Reopens(ev: Event, info: map<nat, Call>, minutes: nat, key: Key)
    requires 0 < minutes
  {
    (ev.Closing? && ev.key == key) || (ev.Ending? && ev.how.GivenUp? && ev.id in info && info[ev.id].Id(minutes) == key)
  }

  /** Until then a live call keeps the key's row open, and is the key's only one, however late the claims. */
  ghost predicate Guarded(w: World, info: map<nat, Call>, minutes: nat, key: Key)
    requires 0 < minutes
  {
    && (forall id :: id in w.calls ==> id in info)
    && (key !in w.rows || w.rows[key])
    && (forall a :: Live(w, a) && info[a].Id(minutes) == key ==> OpenRow(w, key))
    && (forall a, b :: Live(w, a) && Live(w, b) && info[a].Id(minutes) == key && info[b].Id(minutes) == key ==> a == b)
  }

  lemma {:induction false} RowGuards(events: seq<Event>, info: map<nat, Call>, minutes: nat, key: Key)
    requires 0 < minutes && !Reopened(events, info, minutes, key)
    ensures Guarded(History(events, info, minutes), info, minutes, key)
  {
    hide BucketStart;
    if events != [] {
      var n := |events| - 1;
      forall i | 0 <= i < n
        ensures !Reopens(events[..n][i], info, minutes, key)
      {
        assert !Reopens(events[i], info, minutes, key);
      }
      RowGuards(events[..n], info, minutes, key);
      assert !Reopens(events[n], info, minutes, key);
      EventKeepsGuarded(History(events[..n], info, minutes), events[n], info, minutes, key);
    }
  }

  lemma EventKeepsGuarded(w: World, ev: Event, info: map<nat, Call>, minutes: nat, key: Key)
    requires 0 < minutes && Guarded(w, info, minutes, key) && !Reopens(ev, info, minutes, key)
    ensures Guarded(Happen(w, ev, info, minutes), info, minutes, key)
  {
    hide MakeKey;
    var next := Happen(w, ev, info, minutes);
    if ev.Ending? && ev.id in w.calls && w.calls[ev.id] == InFlight {
      assert Live(w, ev.id);
      forall a | Live(next, a)
        ensures Live(w, a)
      {
      }
    } else if ev.Claiming? {
      forall a | a != ev.id
        ensures Live(next, a) == Live(w, a)
      {
      }
    } else {
      assert forall a :: Live(next, a) == Live(w, a);
    }
  }

  /** When a second order goes out for a key: a call with a live rival goes out exactly when the rival's row
      is no longer open and its claim has run out or was released; and the row is only ever let go by a
      closing or a rejection. */
  lemma SecondOrderExactly(events: seq<Event>, info: map<nat, Call>, minutes: nat, a: nat, b: nat, at: nat)
    requires 0 < minutes && a in info && b in info && info[a].Id(minutes) == info[b].Id(minutes)
    requires Live(History(events, info, minutes), a) && b !in History(events, info, minutes).calls
    ensures var w, key := History(events, info, minutes), info[b].Id(minutes);
            && (Live(History(events + [Claiming(b, at)], info, minutes), b)
              <==> !OpenRow(w, key) && !Held(w.claims, key, at))
            && (!OpenRow(w, key) ==> Reopened(events, info, minutes, key))
  {
    hide BucketStart;
    var key := info[b].Id(minutes);
    assert (events + [Claiming(b, at)])[..|events|] == events;
    if !Reopened(events, info, minutes, key) { RowGuards(events, info, minutes, key); }
  }

  /** Promptness or an open row is needed: an order is filled, its position is closed, and a call that made
      its key with the first one claims it when the first claim has run out. Two orders go out for one key. */
  lemma LateClaimDuplicates(call: Call)
    requires call.made == 0
    ensures var info := map[0 := call, 1 := call];
            var events := [Claiming(0, 0), Ending(0, Kept), Closing(call.Id(5)), Claiming(1, 600), Ending(1, Kept)];
            var w := History(events, info, 5);
            0 in w.calls && 1 in w.calls && w.calls[0] == Kept && w.calls[1] == Kept
    ensures var info := map[0 := call, 1 := call];
            var w := History([Claiming(0, 0), Ending(0, Kept), Claiming(1, 600)], info, 5);
            1 in w.calls && w.calls[1] == Refused
  {
    hide MakeKey;
    var info, key := map[0 := call, 1 := call], call.Id(5);
    var w0 := World(map[], map[], map[]);
    var w1 := World(map[key := 600], map[key := true], map[0 := InFlight]);
    var w2 := World(map[key := 600], map[key := true], map[0 := Kept]);
    var w3 := World(map[key := 600], map[key := false], map[0 := Kept]);
    var w4 := World(map[key := 1200], map[key := false], map[0 := Kept, 1 := InFlight]);
    Next([], w0, Claiming(0, 0), info, w1);
    Next([Claiming(0, 0)], w1, Ending(0, Kept), info, w2);
    assert [Claiming(0, 0)] + [Ending(0, Kept)] == [Claiming(0, 0), Ending(0, Kept)];
    var two := [Claiming(0, 0), Ending(0, Kept)];
    Next(two, w2, Claiming(1, 600), info, w2.(calls := w2.calls[1 := Refused]));
    assert two + [Claiming(1, 600)] == [Claiming(0, 0), Ending(0, Kept), Claiming(1, 600)];
    Next(two, w2, Closing(key), info, w3);
    var three := [Claiming(0, 0), Ending(0, Kept), Closing(key)];
    assert two + [Closing(key)] == three;
    Next(three, w3, Claiming(1, 600), info, w4);
    var four := three + [Claiming(1, 600)];
    Next(four, w4, Ending(1, Kept), info, World(w4.claims, w4.rows[key := true], w4.calls[1 := Kept]));
    assert four + [Ending(1, Kept)]
      == [Claiming(0, 0), Ending(0, Kept), Closing(key), Claiming(1, 600), Ending(1, Kept)];
  }

  lemma Next(events: seq<Event>, w: World, ev: Event, info: map<nat, Call>, w': World)
    requires History(events, info, 5) == w && Happen(w, ev, info, 5) == w'
    ensures History(events + [ev], info, 5) == w'
  {
    assert (events + [ev])[..|events|] == events;
  }
}
