/**
 * Composite entity identifiers. Every id is built from strings by template
 * literals: `chainId + "-" + lower(address)` for factories, tokens and pools,
 * `chainId` alone for bundles, `poolId + "#" + tickIdx` for ticks and
 * `poolId + "-" + bucketIndex` for rollups. Integers are printed in decimal,
 * with a leading '-' when negative.
 */
module Ids {

  const DayLength: int := 86400
  const HourLength: int := 3600

  predicate IsDigit(c: char)
  {
    '0' <= c <= '9'
  }

  function DigitChar(d: int): (c: char)
    requires 0 <= d < 10
    ensures IsDigit(c) && c as int - '0' as int == d
  {
    ('0' as int + d) as char
  }

  /** Decimal rendering of a natural number, without leading zeros. */
  function NatToString(n: nat): (s: string)
    ensures |s| >= 1
    ensures forall i :: 0 <= i < |s| ==> IsDigit(s[i])
    ensures n >= 10 <==> |s| >= 2
    decreases n
  {
    if n < 10 then [DigitChar(n)] else NatToString(n / 10) + [DigitChar(n % 10)]
  }

  function IntToString(i: int): (s: string)
    ensures |s| >= 1
    ensures i < 0 <==> s[0] == '-'
    ensures forall k :: (if i < 0 then 1 else 0) <= k < |s| ==> IsDigit(s[k])
  {
    if i < 0 then "-" + NatToString(-i) else NatToString(i)
  }

  lemma {:induction false} NatToStringInjective(m: nat, n: nat)
    requires NatToString(m) == NatToString(n)
    ensures m == n
    decreases m
  {
    var sm, sn := NatToString(m), NatToString(n);
    if m >= 10 && n >= 10 {
      assert sm[..|sm| - 1] == NatToString(m / 10);
      assert sn[..|sn| - 1] == NatToString(n / 10);
      NatToStringInjective(m / 10, n / 10);
      assert DigitChar(m % 10) == sm[|sm| - 1] == DigitChar(n % 10);
    } else if m < 10 && n < 10 {
      assert DigitChar(m) == sm[0] == DigitChar(n);
    }
  }

  /** Printing an integer loses nothing: distinct integers have distinct renderings. */
  lemma {:induction false} IntToStringInjective(i: int, j: int)
    ensures IntToString(i) == IntToString(j) <==> i == j
  {
    if IntToString(i) == IntToString(j) {
      if i < 0 {
        assert IntToString(i)[1..] == NatToString(-i);
        assert IntToString(j)[1..] == NatToString(-j);
        NatToStringInjective(-i, -j);
      } else {
        NatToStringInjective(i, j);
      }
    }
  }

  /** ASCII lower-casing, the only case mapping hexadecimal addresses need. */
  function LowerChar(c: char): (r: char)
    ensures !('A' <= r <= 'Z')
    ensures 'A' <= c <= 'Z' ==> r as int == c as int + 32
    ensures !('A' <= c <= 'Z') ==> r == c
  {
    if 'A' <= c <= 'Z' then (c as int + 32) as char else c
  }

  function ToLower(s: string): (r: string)
    ensures |r| == |s|
    ensures forall i :: 0 <= i < |s| ==> r[i] == LowerChar(s[i])
  {
    seq(|s|, i requires 0 <= i < |s| => LowerChar(s[i]))
  }

  /** The bundle id and the prefix of every chain-scoped id. */
  function ChainKey(chainId: int): string
  {
    IntToString(chainId)
  }

  /** Id of a factory, token or pool: `${chainId}-${address.toLowerCase()}`. */
  function EntityId(chainId: int, address: string): string
  {
    ChainKey(chainId) + "-" + ToLower(address)
  }

  /** Id of a tick record: `${poolId}#${tickIdx}`. */
  function TickId(poolId: string, tickIdx: int): string
  {
    poolId + "#" + IntToString(tickIdx)
  }

  /** Id of a day or hour rollup: `${poolId}-${bucketIndex}`. */
  function BucketId(poolId: string, index: int): string
  {
    poolId + "-" + IntToString(index)
  }

  lemma SameTailIfSamePrefix(p: string, x: string, y: string)
    requires p + x == p + y
    ensures x == y
  {
    assert x == (p + x)[|p|..];
    assert y == (p + y)[|p|..];
  }

  /** Two tick ids of the same pool coincide exactly when the tick indices do. */
  lemma TickIdInjective(poolId: string, i: int, j: int)
    ensures TickId(poolId, i) == TickId(poolId, j) <==> i == j
  {
    if TickId(poolId, i) == TickId(poolId, j) {
      SameTailIfSamePrefix(poolId + "#", IntToString(i), IntToString(j));
      IntToStringInjective(i, j);
    }
  }

  /** Two bucket ids of the same pool coincide exactly when the bucket indices do. */
  lemma BucketIdInjective(poolId: string, i: int, j: int)
    ensures BucketId(poolId, i) == BucketId(poolId, j) <==> i == j
  {
    if BucketId(poolId, i) == BucketId(poolId, j) {
      SameTailIfSamePrefix(poolId + "-", IntToString(i), IntToString(j));
      IntToStringInjective(i, j);
    }
  }

  lemma DashEndsChainPrefix(c: nat, a: string)
    ensures |EntityId(c, a)| > |NatToString(c)|
    ensures EntityId(c, a)[|NatToString(c)|] == '-'
    ensures forall k :: 0 <= k < |NatToString(c)| ==> EntityId(c, a)[k] != '-'
  {
  }

  /**
   * Chain-scoped ids are unique by construction: for non-negative chain ids,
   * two ids agree exactly when the chains agree and the addresses agree up to
   * case.
   */
  lemma EntityIdInjective(c1: nat, a1: string, c2: nat, a2: string)
    ensures EntityId(c1, a1) == EntityId(c2, a2) <==> c1 == c2 && ToLower(a1) == ToLower(a2)
  {
    var s1, s2 := NatToString(c1), NatToString(c2);
    var x, y := EntityId(c1, a1), EntityId(c2, a2);
    if x == y {
      // the first '-' of an id ends the chain prefix, which holds digits only
      DashEndsChainPrefix(c1, a1);
      DashEndsChainPrefix(c2, a2);
      if |s1| != |s2| {
        assert false;
      }
      assert s1 == x[..|s1|] && s2 == y[..|s2|];
      NatToStringInjective(c1, c2);
      SameTailIfSamePrefix(s1 + "-", ToLower(a1), ToLower(a2));
    }
  }

  /** Ids do not depend on the case in which the address is written. */
  lemma EntityIdIgnoresCase(chainId: int, address: string)
    ensures EntityId(chainId, ToLower(address)) == EntityId(chainId, address)
  {
  }
}
