/** What the hash chain guarantees: verification means a valid chain, appends keep it, repair keeps
    the longest valid prefix, and equal heads mean equal histories unless the hash collides. */
module EventStoreLaws {
  import opened Common
  import opened EventStore

  // ---- verification ----

  lemma {:induction false} VerifyFromFindsBreak<B>(h: Hashing<B>, rs: seq<Record<B>>, i: nat, prev: string)
    ensures var result, n := VerifyFrom(h, rs, i, prev), ValidPrefix(h, rs, prev);
            && (result.IsValid() <==> n == |rs|)
            && (result.IsValid() ==> result == Valid(i + |rs|, HeadFrom(h, rs, prev)))
            && (result.BrokenPrev? || result.BrokenHash? ==> result.index == i + n)
  {
    if rs != [] && Fits(h, prev, rs[0]) {
      VerifyFromFindsBreak(h, rs[1..], i + 1, rs[0].hash.value);
    }
  }

  /** A verification says valid exactly when every record continues the chain from genesis; when it
      does not, it names the first record that fails. */
  lemma VerifyIsExact<B>(h: Hashing<B>, rs: seq<Record<B>>)
    ensures Verify(h, rs).IsValid() <==> Verifies(h, rs)
    ensures rs != [] && Verifies(h, rs) ==> Verify(h, rs) == Valid(|rs|, HeadFrom(h, rs, GENESIS))
    ensures !Verifies(h, rs) ==> !Verify(h, rs).IsValid() && Verify(h, rs).index == ValidPrefix(h, rs, GENESIS)
  {
    VerifyFromFindsBreak(h, rs, 0, GENESIS);
  }

  lemma {:induction false} DroppedHashBreaks<B>(h: Hashing<B>, rs: seq<Record<B>>, i: nat, k: nat, prev: string)
    requires Chained(h, rs, prev) && k < |rs|
    ensures rs[k].hash.Some?
    ensures VerifyFrom(h, rs[k := rs[k].(hash := None)], i, prev) == BrokenHash(i + k, rs[k].hash.value, None)
  {
    if k != 0 {
      assert rs[k := rs[k].(hash := None)][1..] == rs[1..][k - 1 := rs[k].(hash := None)];
      DroppedHashBreaks(h, rs[1..], i + 1, k - 1, rs[0].hash.value);
    }
  }

  /** An edit that a result still in force hides: whichever record of a valid ledger loses its hash, a fresh
      verification names that record, and the cached one says that all is well. */
  lemma EditUnseen<B>(h: Hashing<B>, rs: seq<Record<B>>, k: nat)
    requires Verifies(h, rs) && k < |rs|
    ensures Verify(h, rs) == Valid(|rs|, HeadFrom(h, rs, GENESIS))
    ensures rs[k].hash.Some? && Verify(h, rs[k := rs[k].(hash := None)]) == BrokenHash(k, rs[k].hash.value, None)
  {
    VerifyIsExact(h, rs);
    DroppedHashBreaks(h, rs, 0, k, GENESIS);
  }

  /** The valid prefix is the longest one: the first `k` records verify exactly when `k` is within it. */
  lemma {:induction false} LongestPrefix<B>(h: Hashing<B>, rs: seq<Record<B>>, prev: string, k: nat)
    requires k <= |rs|
    ensures Chained(h, rs[..k], prev) <==> k <= ValidPrefix(h, rs, prev)
  {
    if k != 0 && Fits(h, prev, rs[0]) {
      assert rs[..k][1..] == rs[1..][..k - 1];
      LongestPrefix(h, rs[1..], rs[0].hash.value, k - 1);
    }
  }

  // ---- appends ----

  /** The ledger verifies and the next append continues it. */
  ghost predicate Consistent<B>(h: Hashing<B>, rs: seq<Record<B>>, headFile: Option<string>) {
    Verifies(h, rs) && LastHash(rs, headFile) == HeadFrom(h, rs, GENESIS)
  }

  lemma {:induction false} ChainedAppend<B>(h: Hashing<B>, rs: seq<Record<B>>, r: Record<B>, prev: string)
    requires Chained(h, rs, prev)
    ensures Chained(h, rs + [r], prev) <==> Fits(h, HeadFrom(h, rs, prev), r)
  {
    if rs == [] {
      assert rs + [r] == [r] && [r][1..] == [];
    } else {
      assert (rs + [r])[1..] == rs[1..] + [r];
      ChainedAppend(h, rs[1..], r, rs[0].hash.value);
    }
  }

  /** The record an append writes makes a verifying ledger verify again exactly when the head that
      the append read is the ledger's own. */
  lemma AppendVerifies<B>(h: Hashing<B>, rs: seq<Record<B>>, headFile: Option<string>, body: B)
    requires Verifies(h, rs)
    ensures Verifies(h, rs + [NextRecord(h, rs, headFile, body)])
      <==> LastHash(rs, headFile) == HeadFrom(h, rs, GENESIS)
  {
    ChainedAppend(h, rs, NextRecord(h, rs, headFile, body), GENESIS);
  }

  /** Digests are never empty. */
  ghost predicate NonEmptyDigests<B>(h: Hashing<B>) { forall x :: h.sha(x) != "" }

  lemma AppendKeepsConsistent<B>(h: Hashing<B>, rs: seq<Record<B>>, headFile: Option<string>, body: B)
    requires NonEmptyDigests(h) && Consistent(h, rs, headFile)
    ensures var r := NextRecord(h, rs, headFile, body);
            Consistent(h, rs + [r], r.hash)
  {
    var r := NextRecord(h, rs, headFile, body);
    AppendVerifies(h, rs, headFile, body);
    HeadFromAppend(h, rs, r, GENESIS);
  }

  function AppendAll<B>(h: Hashing<B>, rs: seq<Record<B>>, headFile: Option<string>, bodies: seq<B>): seq<Record<B>>
    decreases |bodies|
  {
    if bodies == [] then rs
    else
      var r := NextRecord(h, rs, headFile, bodies[0]);
      AppendAll(h, rs + [r], r.hash, bodies[1..])
  }

  function Bodies<B>(rs: seq<Record<B>>): seq<B> {
    seq(|rs|, i requires 0 <= i < |rs| => rs[i].body)
  }

  /** Any number of completed appends to a consistent ledger verifies and keeps every body in order. */
  lemma {:induction false} AppendsVerify<B>(h: Hashing<B>, rs: seq<Record<B>>, headFile: Option<string>, bodies: seq<B>)
    requires NonEmptyDigests(h) && Consistent(h, rs, headFile)
    ensures Verifies(h, AppendAll(h, rs, headFile, bodies))
    ensures Bodies(AppendAll(h, rs, headFile, bodies)) == Bodies(rs) + bodies
    decreases |bodies|
  {
    if bodies != [] {
      var r := NextRecord(h, rs, headFile, bodies[0]);
      AppendKeepsConsistent(h, rs, headFile, bodies[0]);
      AppendsVerify(h, rs + [r], r.hash, bodies[1..]);
      assert Bodies(rs + [r]) + bodies[1..] == Bodies(rs) + bodies;
    }
  }

  // ---- repair ----

  function Repaired<B>(h: Hashing<B>, rs: seq<Record<B>>): seq<Record<B>> { rs[..ValidPrefix(h, rs, GENESIS)] }

  /** The head file after a repair: untouched when the ledger is empty. */
  function RepairedHead<B>(h: Hashing<B>, rs: seq<Record<B>>, headFile: Option<string>): Option<string> {
    if rs == [] then headFile else Some(HeadFrom(h, Repaired(h, rs), GENESIS))
  }

  /** Repair keeps a verifying prefix, no longer one verifies, and repairing again changes nothing. */
  lemma RepairIsLongestAndIdempotent<B>(h: Hashing<B>, rs: seq<Record<B>>, headFile: Option<string>)
    ensures Verifies(h, Repaired(h, rs))
    ensures forall k :: |Repaired(h, rs)| < k <= |rs| ==> !Verifies(h, rs[..k])
    ensures Repaired(h, Repaired(h, rs)) == Repaired(h, rs)
    ensures RepairedHead(h, Repaired(h, rs), RepairedHead(h, rs, headFile)) == RepairedHead(h, rs, headFile)
    ensures !Verifies(h, rs) ==> !Verify(h, rs).IsValid() && |Repaired(h, rs)| == Verify(h, rs).index
    ensures Verifies(h, rs) ==> Repaired(h, rs) == rs
  {
    VerifyIsExact(h, rs);
    forall k: nat | k <= |rs|
      ensures Chained(h, rs[..k], GENESIS) <==> k <= ValidPrefix(h, rs, GENESIS)
    {
      LongestPrefix(h, rs, GENESIS, k);
    }
    assert Repaired(h, rs)[..|Repaired(h, rs)|] == Repaired(h, rs);
    if rs != [] && Repaired(h, rs) == [] {
      assert RepairedHead(h, rs, headFile) == Some(GENESIS);
    }
  }

  lemma {:induction false} HeadNonEmpty<B>(h: Hashing<B>, rs: seq<Record<B>>, prev: string)
    requires NonEmptyDigests(h) && prev != ""
    ensures HeadFrom(h, rs, prev) != ""
  {
    if rs != [] { HeadNonEmpty(h, rs[1..], Link(h, prev, rs[0].body)); }
  }

  /** After a repair the next append verifies, with one exception: an empty ledger, whose head file
      the repair does not reset, so that there the append verifies only if the head reads genesis. */
  lemma AppendAfterRepair<B>(h: Hashing<B>, rs: seq<Record<B>>, headFile: Option<string>, body: B)
    requires NonEmptyDigests(h)
    ensures var fixed, head := Repaired(h, rs), RepairedHead(h, rs, headFile);
            Verifies(h, fixed + [NextRecord(h, fixed, head, body)]) <==> (rs != [] || LastHash(rs, headFile) == GENESIS)
  {
    RepairIsLongestAndIdempotent(h, rs, headFile);
    AppendVerifies(h, Repaired(h, rs), RepairedHead(h, rs, headFile), body);
    HeadNonEmpty(h, Repaired(h, rs), GENESIS);
  }

  /** A stale head beside an empty ledger: repair reports success and the next append is broken. */
  lemma StaleHeadSurvivesRepair<B>(h: Hashing<B>, stale: string, body: B)
    requires NonEmptyDigests(h) && stale != "" && stale != GENESIS
    ensures var fixed, head := Repaired<B>(h, []), RepairedHead<B>(h, [], Some(stale));
            Verify(h, fixed + [NextRecord(h, fixed, head, body)]) == BrokenPrev(0, GENESIS, stale)
  {
    AppendAfterRepair(h, [], Some(stale), body);
    assert Repaired<B>(h, []) == [];
    var r := NextRecord<B>(h, [], Some(stale), body);
    assert [] + [r] == [r];
  }

  // ---- tamper evidence ----

  /** The strings a ledger's verification hashes. */
  function Inputs<B>(h: Hashing<B>, rs: seq<Record<B>>, prev: string): set<string> {
    if rs == [] then {}
    else {Input(h, prev, rs[0].body)} + Inputs(h, rs[1..], Link(h, prev, rs[0].body))
  }

  /** Two different hashed strings with one digest, or a hashed string whose digest is genesis. */
  ghost predicate HashBroken<B>(h: Hashing<B>, inputs: set<string>) {
    || (exists x, y :: x in inputs && y in inputs && x != y && h.sha(x) == h.sha(y))
    || (exists x :: x in inputs && h.sha(x) == GENESIS)
  }

  ghost predicate Canonical<B(!new)>(h: Hashing<B>) {
    && (forall a, b :: h.canonical(a) == h.canonical(b) ==> a == b)
    && (forall x :: |h.sha(x)| == 64)
  }

  lemma {:induction false} HeadLength<B(!new)>(h: Hashing<B>, rs: seq<Record<B>>, prev: string)
    requires Canonical(h) && |prev| == 64
    ensures |HeadFrom(h, rs, prev)| == 64
  {
    if rs != [] { HeadLength(h, rs[1..], Link(h, prev, rs[0].body)); }
  }

  lemma {:induction false} LastInput<B>(h: Hashing<B>, rs: seq<Record<B>>, prev: string)
    requires rs != []
    ensures var n := |rs| - 1;
            && Inputs(h, rs, prev) == Inputs(h, rs[..n], prev) + {Input(h, HeadFrom(h, rs[..n], prev), rs[n].body)}
            && HeadFrom(h, rs, prev) == Link(h, HeadFrom(h, rs[..n], prev), rs[n].body)
  {
    var n := |rs| - 1;
    if n == 0 {
      assert rs[1..] == [] && rs[..0] == [];
    } else {
      assert rs[1..][..n - 1] == rs[..n][1..];
      LastInput(h, rs[1..], Link(h, prev, rs[0].body));
    }
  }

  lemma SplitInput(p: string, a: string, q: string, b: string)
    requires |p| == |q| && p + a == q + b
    ensures p == q && a == b
  {
    assert p == (p + a)[..|p|] && q == (q + b)[..|q|];
    assert a == (p + a)[|p|..] && b == (q + b)[|q|..];
  }

  /** Nothing hashes to genesis, so a ledger whose head is genesis is empty. */
  lemma GenesisHead<B>(h: Hashing<B>, rs: seq<Record<B>>, inputs: set<string>)
    requires HeadFrom(h, rs, GENESIS) == GENESIS
    requires Inputs(h, rs, GENESIS) <= inputs && !HashBroken(h, inputs)
    ensures rs == []
  {
    if rs != [] {
      LastInput(h, rs, GENESIS);
    }
  }

  /** Equal heads of two non-empty chains from `g`: equal last bodies and equal heads before them. */
  lemma PeelLast<B(!new)>(h: Hashing<B>, a: seq<Record<B>>, b: seq<Record<B>>, inputs: set<string>, g: string)
    requires Canonical(h) && a != [] && b != [] && |g| == 64
    requires HeadFrom(h, a, g) == HeadFrom(h, b, g)
    requires Inputs(h, a, g) <= inputs && Inputs(h, b, g) <= inputs && !HashBroken(h, inputs)
    ensures var m, n := |a| - 1, |b| - 1;
            && a[m].body == b[n].body
            && HeadFrom(h, a[..m], g) == HeadFrom(h, b[..n], g)
            && Inputs(h, a[..m], g) <= inputs && Inputs(h, b[..n], g) <= inputs
  {
    hide HeadFrom, Inputs, HashBroken, Canonical;
    var m, n := |a| - 1, |b| - 1;
    LastInput(h, a, g);
    LastInput(h, b, g);
    var p, q := HeadFrom(h, a[..m], g), HeadFrom(h, b[..n], g);
    NoCollision(h, inputs, Input(h, p, a[m].body), Input(h, q, b[n].body));
    HeadLength(h, a[..m], g);
    HeadLength(h, b[..n], g);
    SplitInput(p, h.canonical(a[m].body), q, h.canonical(b[n].body));
    SameCanonical(h, a[m].body, b[n].body);
  }

  lemma NoCollision<B>(h: Hashing<B>, inputs: set<string>, x: string, y: string)
    requires !HashBroken(h, inputs) && x in inputs && y in inputs && h.sha(x) == h.sha(y)
    ensures x == y
  {
  }

  lemma SameCanonical<B(!new)>(h: Hashing<B>, a: B, b: B)
    requires Canonical(h) && h.canonical(a) == h.canonical(b)
    ensures a == b
  {
  }

  lemma {:induction false} SameHead<B(!new)>(h: Hashing<B>, a: seq<Record<B>>, b: seq<Record<B>>, inputs: set<string>)
    requires Canonical(h)
    requires HeadFrom(h, a, GENESIS) == HeadFrom(h, b, GENESIS)
    requires Inputs(h, a, GENESIS) <= inputs && Inputs(h, b, GENESIS) <= inputs && !HashBroken(h, inputs)
    ensures Bodies(a) == Bodies(b)
    decreases |a|
  {
    hide Canonical, HashBroken, Inputs;
    if a == [] {
      GenesisHead(h, b, inputs);
    } else if b == [] {
      GenesisHead(h, a, inputs);
    } else {
      var m, n := |a| - 1, |b| - 1;
      PeelLast(h, a, b, inputs, GENESIS);
      SameHead(h, a[..m], b[..n], inputs);
      assert Bodies(a) == Bodies(a[..m]) + [a[m].body];
      assert Bodies(b) == Bodies(b[..n]) + [b[n].body];
    }
  }

  /** Tamper evidence: two ledgers that both verify and report the same head hold the same event
      bodies in the same order and number, unless their own hashed strings exhibit a collision or a
      genesis digest. */
  lemma TamperEvidence<B(!new)>(h: Hashing<B>, a: seq<Record<B>>, b: seq<Record<B>>)
    requires Canonical(h)
    requires Verify(h, a).Valid? && Verify(h, b).Valid? && Verify(h, a).head == Verify(h, b).head
    ensures Bodies(a) == Bodies(b) || HashBroken(h, Inputs(h, a, GENESIS) + Inputs(h, b, GENESIS))
  {
    VerifyIsExact(h, a);
    VerifyIsExact(h, b);
    var inputs := Inputs(h, a, GENESIS) + Inputs(h, b, GENESIS);
    if !HashBroken(h, inputs) { SameHead(h, a, b, inputs); }
  }
}
