/** The append-only compliance ledger: hash-chained records, verification with a result cache,
    and repair by truncation. */
module EventStore {
  import opened Common

  /** The canonical JSON form of an event body, and the hex digest. */
  datatype Hashing<!B> = Hashing(canonical: B -> string, sha: string -> string)

  /** A stored record; either hash field may be missing from the JSON object. */
  datatype Record<B> = Record(prev: Option<string>, hash: Option<string>, body: B)

  const GENESIS: string := "0000000000000000000000000000000000000000000000000000000000000000"
  const CACHE_TTL_SEC: real := 120.0

  datatype VerifyResult =
    | EmptyLedger
    | Valid(events: nat, head: string)
    | BrokenPrev(index: nat, expectedPrev: string, storedPrev: string)
    | BrokenHash(index: nat, expected: string, stored: Option<string>)
  {
    predicate IsValid() { EmptyLedger? || Valid? }
  }

  // ---- the chain as a value ----

  function Input<B>(h: Hashing<B>, prev: string, body: B): string { prev + h.canonical(body) }

  function Link<B>(h: Hashing<B>, prev: string, body: B): string { h.sha(Input(h, prev, body)) }

  function StoredPrev<B>(r: Record<B>): string { if r.prev.Some? then r.prev.value else GENESIS }

  predicate Fits<B>(h: Hashing<B>, prev: string, r: Record<B>) {
    StoredPrev(r) == prev && r.hash == Some(Link(h, prev, r.body))
  }

  /** How many leading records continue the chain from `prev`. */
  function ValidPrefix<B>(h: Hashing<B>, rs: seq<Record<B>>, prev: string): (n: nat)
    ensures n <= |rs|
  {
    if rs == [] || !Fits(h, prev, rs[0]) then 0
    else 1 + ValidPrefix(h, rs[1..], rs[0].hash.value)
  }

  predicate Chained<B>(h: Hashing<B>, rs: seq<Record<B>>, prev: string) {
    ValidPrefix(h, rs, prev) == |rs|
  }

  predicate Verifies<B>(h: Hashing<B>, rs: seq<Record<B>>) { Chained(h, rs, GENESIS) }

  /** The hash the next record must carry as its predecessor. */
  function HeadFrom<B>(h: Hashing<B>, rs: seq<Record<B>>, prev: string): string {
    if rs == [] then prev else HeadFrom(h, rs[1..], Link(h, prev, rs[0].body))
  }

  function VerifyFrom<B>(h: Hashing<B>, rs: seq<Record<B>>, i: nat, prev: string): VerifyResult {
    if rs == [] then Valid(i, prev)
    else if StoredPrev(rs[0]) != prev then BrokenPrev(i, prev, StoredPrev(rs[0]))
    else if rs[0].hash != Some(Link(h, prev, rs[0].body)) then BrokenHash(i, Link(h, prev, rs[0].body), rs[0].hash)
    else VerifyFrom(h, rs[1..], i + 1, rs[0].hash.value)
  }

  function Verify<B>(h: Hashing<B>, rs: seq<Record<B>>): VerifyResult {
    if rs == [] then EmptyLedger else VerifyFrom(h, rs, 0, GENESIS)
  }

  /** The head file wins when it holds anything; else the last record's hash; else genesis. */
  function LastHash<B>(rs: seq<Record<B>>, headFile: Option<string>): string {
    if headFile.Some? && headFile.value != "" then headFile.value
    else if rs != [] && rs[|rs| - 1].hash.Some? then rs[|rs| - 1].hash.value
    else GENESIS
  }

  function NextRecord<B>(h: Hashing<B>, rs: seq<Record<B>>, headFile: Option<string>, body: B): Record<B> {
    var prev := LastHash(rs, headFile);
    Record(Some(prev), Some(Link(h, prev, body)), body)
  }

  // ---- the store ----

  class Store<B> {
    const h: Hashing<B>
    var records: seq<Record<B>>
    var headFile: Option<string>
    var cache: Option<(real, VerifyResult)>

    constructor (h: Hashing<B>)
      ensures this.h == h && records == [] && headFile == None && cache == None
      ensures CacheTruthful()
    {
      this.h := h;
      records, headFile, cache := [], None, None;
    }

    /** A cached result is what a fresh verification would say. */
    ghost predicate CacheTruthful()
      reads this
    {
      cache.Some? ==> cache.value.1 == Verify(h, records)
    }

    predicate CacheFresh(now: real)
      reads this
    {
      cache.Some? && now - cache.value.0 < CACHE_TTL_SEC
    }

    method Append(body: B) returns (r: Record<B>)
      modifies this
      ensures r == NextRecord(h, old(records), old(headFile), body)
      ensures records == old(records) + [r] && headFile == r.hash
      ensures cache == None && CacheTruthful()
    {
      var prev := LastHash(records, headFile);
      var digest := Link(h, prev, body);
      r := Record(Some(prev), Some(digest), body);
      records := records + [r];
      headFile := Some(digest);
      cache := None;
    }

    method VerifyChain(now: real) returns (result: VerifyResult)
      modifies this`cache
      ensures result == if old(CacheFresh(now)) then old(cache).value.1 else Verify(h, records)
      ensures old(CacheTruthful()) ==> result == Verify(h, records) && CacheTruthful()
    {
      if cache.Some? && now - cache.value.0 < CACHE_TTL_SEC {
        return cache.value.1;
      }
      if records == [] {
        result := EmptyLedger;
        cache := Some((now, result));
        return;
      }
      var prev := GENESIS;
      var i := 0;
      while i < |records|
        invariant 0 <= i <= |records|
        invariant Verify(h, records) == VerifyFrom(h, records[i..], i, prev)
      {
        var record := records[i];
        assert records[i..][1..] == records[i + 1..];
        var storedPrev := StoredPrev(record);
        if storedPrev != prev {
          result := BrokenPrev(i, prev, storedPrev);
          cache := Some((now, result));
          return;
        }
        var expected := Link(h, prev, record.body);
        if record.hash != Some(expected) {
          result := BrokenHash(i, expected, record.hash);
          cache := Some((now, result));
          return;
        }
        prev := record.hash.value;
        i := i + 1;
      }
      result := Valid(|records|, prev);
      cache := Some((now, result));
    }

    /** Returns the number of records kept; an empty ledger is left entirely alone. */
    method RepairChain() returns (kept: nat, dropped: nat)
      modifies this
      ensures kept == ValidPrefix(h, old(records), GENESIS) && kept + dropped == |old(records)|
      ensures records == old(records)[..kept]
      ensures old(records) == [] ==> headFile == old(headFile) && cache == old(cache)
      ensures old(records) != [] ==> cache == None && CacheTruthful()
                                     && headFile == Some(HeadFrom(h, records, GENESIS))
      ensures old(CacheTruthful()) ==> CacheTruthful()
    {
      hide ValidPrefix, HeadFrom, Verify;
      if records == [] {
        NothingValid(h, records, 0, GENESIS);
        return 0, 0;
      }
      var prev := GENESIS;
      var i := 0;
      HeadOfNone(h, records, GENESIS);
      while i < |records|
        invariant 0 <= i <= |records| && records == old(records)
        invariant ValidPrefix(h, records, GENESIS) == i + ValidPrefix(h, records[i..], prev)
        invariant HeadFrom(h, records[..i], GENESIS) == prev
      {
        var record := records[i];
        PrefixStep(h, records, i, prev);
        if StoredPrev(record) != prev { break; }
        if record.hash != Some(Link(h, prev, record.body)) { break; }
        HeadFromAppend(h, records[..i], record, GENESIS);
        assert records[..i + 1] == records[..i] + [record];
        prev := record.hash.value;
        i := i + 1;
      }
      NothingValid(h, records, i, prev);
      kept, dropped := i, |records| - i;
      records := records[..i];
      headFile := Some(prev);
      cache := None;
    }

    /** Somebody else rewrites the files: the cache is not told. */
    method ExternalEdit(edited: seq<Record<B>>, head: Option<string>)
      modifies this`records, this`headFile
      ensures records == edited && headFile == head && cache == old(cache)
    {
      records, headFile := edited, head;
    }

    /** A verification after such an edit, the cached result having been right: it is right exactly when the
        cached result is no longer in force, or the edited records verify to the same result. */
    method VerifyEdited(edited: seq<Record<B>>, head: Option<string>, now: real) returns (result: VerifyResult)
      requires CacheTruthful()
      modifies this
      ensures records == edited && headFile == head
      ensures result == Verify(h, edited) <==> !old(CacheFresh(now)) || Verify(h, old(records)) == Verify(h, edited)
      ensures result == if old(CacheFresh(now)) then Verify(h, old(records)) else Verify(h, edited)
    {
      hide Verify;
      ExternalEdit(edited, head);
      result := VerifyChain(now);
    }
  }

  lemma PrefixStep<B>(h: Hashing<B>, rs: seq<Record<B>>, i: nat, prev: string)
    requires i < |rs|
    ensures ValidPrefix(h, rs[i..], prev) ==
            if Fits(h, prev, rs[i]) then 1 + ValidPrefix(h, rs[i + 1..], rs[i].hash.value) else 0
  {
    assert rs[i..][1..] == rs[i + 1..];
  }

  lemma NothingValid<B>(h: Hashing<B>, rs: seq<Record<B>>, i: nat, prev: string)
    requires i <= |rs|
    ensures i == |rs| || !Fits(h, prev, rs[i]) ==> ValidPrefix(h, rs[i..], prev) == 0
    ensures rs[0..] == rs
  {
  }

  lemma HeadOfNone<B>(h: Hashing<B>, rs: seq<Record<B>>, prev: string)
    ensures HeadFrom(h, rs[..0], prev) == prev && rs[0..] == rs
  {
  }

  lemma {:induction false} HeadFromAppend<B>(h: Hashing<B>, rs: seq<Record<B>>, r: Record<B>, prev: string)
    ensures HeadFrom(h, rs + [r], prev) == Link(h, HeadFrom(h, rs, prev), r.body)
  {
    if rs == [] {
      assert ([] + [r])[1..] == [];
    } else {
      assert (rs + [r])[1..] == rs[1..] + [r];
      HeadFromAppend(h, rs[1..], r, Link(h, prev, rs[0].body));
    }
  }
}
